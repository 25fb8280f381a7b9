/** The product document: four required fields, a category that defaults to
    'General', and a creation time. Building a document from request values
    goes through the schema's casts, which can refuse a value. */
module ProductSchema {
  import opened Common

  /** A JSON value as it arrives in a request body. Objects and arrays are
      one case: no field here accepts them. */
  datatype Json = JNull | JBool(b: bool) | JNum(n: real) | JStr(s: string) | JComposite

  /** JavaScript truthiness of a body field; an absent field is `None`. */
  predicate JsTruthy(v: Option<Json>) {
    match v
    case None => false
    case Some(JNull) => false
    case Some(JBool(b)) => b
    case Some(JNum(n)) => n != 0.0
    case Some(JStr(s)) => s != ""
    case Some(JComposite) => true
  }

  /** The two conversions the casts delegate to the runtime: reading a number
      out of a string (`None` when the result is not a number) and writing a
      number as a string. */
  datatype Conversions = Conversions(parseNumber: string -> Option<real>, showNumber: real -> string)

  /** The cast of a required Number field: a number stays as it is, a boolean
      becomes 1 or 0, a non-empty string is parsed; null, the empty string
      (which casts to null), a string that is not a number, and objects are
      refused. */
  function CastRequiredNumber(conv: Conversions, v: Json): (r: Option<real>)
    ensures v.JNum? ==> r == Some(v.n)
    ensures v.JBool? ==> r == Some(if v.b then 1.0 else 0.0)
    ensures v.JStr? && v.s != "" ==> r == conv.parseNumber(v.s)
    ensures v.JNull? || v.JComposite? || v == JStr("") ==> r.None?
  {
    match v
    case JNull => None
    case JBool(b) => Some(if b then 1.0 else 0.0)
    case JNum(n) => Some(n)
    case JStr(s) => if s == "" then None else conv.parseNumber(s)
    case JComposite => None
  }

  /** The cast of a String field: strings stay, numbers and booleans are
      written out, objects are refused. Null is kept as null (`Some(None)`). */
  function CastString(conv: Conversions, v: Json): (r: Option<Option<string>>)
    ensures v.JStr? ==> r == Some(Some(v.s))
    ensures v.JNum? ==> r == Some(Some(conv.showNumber(v.n)))
    ensures v.JBool? ==> r == Some(Some(if v.b then "true" else "false"))
    ensures v.JNull? ==> r == Some(None)
    ensures v.JComposite? ==> r.None?
  {
    match v
    case JNull => Some(None)
    case JBool(b) => Some(Some(if b then "true" else "false"))
    case JNum(n) => Some(Some(conv.showNumber(n)))
    case JStr(s) => Some(Some(s))
    case JComposite => None
  }

  /** A required String field: the cast must succeed and give a non-empty string. */
  function CastRequiredString(conv: Conversions, v: Json): (r: Option<string>)
    ensures r.Some? <==> CastString(conv, v).Some? && CastString(conv, v).value.Some? && CastString(conv, v).value.value != ""
    ensures r.Some? ==> r.value == CastString(conv, v).value.value
  {
    match CastString(conv, v)
    case Some(Some(s)) => if s == "" then None else Some(s)
    case _ => None
  }

  const DefaultCategory: string := "General"

  datatype Product = Product(
    name: string,
    price: real,
    weight: string,
    image: string,
    category: Option<string>,
    createdAt: nat)

  /** The five fields the create handler reads from the request body and
      hands, unchanged, to `new Product({...})`. */
  datatype ProductFields = ProductFields(
    name: Option<Json>,
    price: Option<Json>,
    weight: Option<Json>,
    image: Option<Json>,
    category: Option<Json>)

  /** The stored category: absent takes the default, null stays null, anything
      else goes through the String cast. `None` is a cast failure. */
  function CategoryOf(conv: Conversions, v: Option<Json>): (r: Option<Option<string>>)
    ensures v.None? ==> r == Some(Some(DefaultCategory))
    ensures v == Some(JNull) ==> r == Some(None)
    ensures v.Some? ==> r == CastString(conv, v.value)
  {
    if v.None? then Some(Some(DefaultCategory)) else CastString(conv, v.value)
  }

  /** Builds and validates a document, as `save` would: every required field
      must be present and cast; the category is optional. */
  function Validate(conv: Conversions, f: ProductFields, now: nat): (r: Option<Product>)
    ensures r.Some? <==>
      && f.name.Some? && CastRequiredString(conv, f.name.value).Some?
      && f.price.Some? && CastRequiredNumber(conv, f.price.value).Some?
      && f.weight.Some? && CastRequiredString(conv, f.weight.value).Some?
      && f.image.Some? && CastRequiredString(conv, f.image.value).Some?
      && CategoryOf(conv, f.category).Some?
    ensures r.Some? ==>
      && r.value.name == CastRequiredString(conv, f.name.value).value
      && r.value.price == CastRequiredNumber(conv, f.price.value).value
      && r.value.weight == CastRequiredString(conv, f.weight.value).value
      && r.value.image == CastRequiredString(conv, f.image.value).value
      && r.value.category == CategoryOf(conv, f.category).value
      && r.value.createdAt == now
  {
    if f.name.None? || f.price.None? || f.weight.None? || f.image.None? then None
    else
      var name := CastRequiredString(conv, f.name.value);
      var price := CastRequiredNumber(conv, f.price.value);
      var weight := CastRequiredString(conv, f.weight.value);
      var image := CastRequiredString(conv, f.image.value);
      var category := CategoryOf(conv, f.category);
      if name.None? || price.None? || weight.None? || image.None? || category.None? then None
      else Some(Product(name.value, price.value, weight.value, image.value, category.value, now))
  }

  /** A product given in the natural types is stored as given, and without a
      category it lands in 'General'. */
  lemma WellTypedFieldsStored(conv: Conversions, name: string, price: real, weight: string, image: string, now: nat)
    requires name != "" && weight != "" && image != ""
    ensures Validate(conv, ProductFields(Some(JStr(name)), Some(JNum(price)), Some(JStr(weight)), Some(JStr(image)), None), now)
      == Some(Product(name, price, weight, image, Some(DefaultCategory), now))
  {
  }
}
