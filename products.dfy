/** The product routes: create with a presence check ahead of validation, and
    the listing, newest first. The collection is a sequence in insertion
    order. */
module ProductRoutes {
  import opened Common
  import opened ProductSchema

  const MissingFieldsMessage: string := "All fields (name, price, weight, image) are required"

  /** 201 with the saved product, 400 from the presence check, or 400 because
      `save` refused the document. */
  datatype Reply = Created(product: Product) | MissingFields | ValidationFailed

  function HttpStatus(r: Reply): (code: int)
    ensures r.Created? <==> code == 201
    ensures !r.Created? <==> code == 400
  {
    if r.Created? then 201 else 400
  }

  /** `name && price && weight && image`: a price of 0, an empty string, null
      or false counts as missing. */
  function HasRequiredFields(body: ProductFields): (ok: bool)
    ensures ok ==> body.name.Some? && body.price.Some? && body.weight.Some? && body.image.Some?
    ensures body.price == Some(JNum(0.0)) || body.name == Some(JStr("")) ==> !ok
  {
    JsTruthy(body.name) && JsTruthy(body.price) && JsTruthy(body.weight) && JsTruthy(body.image)
  }

  /** The whole POST handler apart from storing: the presence check comes
      first, so a request it refuses never reaches the schema. */
  function CreateReply(conv: Conversions, body: ProductFields, now: nat): (r: Reply)
    ensures r == MissingFields <==> !HasRequiredFields(body)
    ensures r.Created? <==>
      (HasRequiredFields(body) && Validate(conv, body, now).Some?)
    ensures r.Created? ==>
      r.product == Validate(conv, body, now).value
  {
    if !HasRequiredFields(body) then MissingFields
    else
      match Validate(conv, body, now)
      case None => ValidationFailed
      case Some(p) => Created(p)
  }

  /** A refused presence check does not depend on the casts at all: no
      document is built. */
  lemma MissingFieldsBeforeCasts(conv1: Conversions, conv2: Conversions, body: ProductFields, now: nat)
    requires CreateReply(conv1, body, now) == MissingFields
    ensures CreateReply(conv2, body, now) == MissingFields
  {
  }

  /** A price of 0 is refused by the presence check, although the schema
      would accept it. */
  lemma ZeroPriceRefused(conv: Conversions, body: ProductFields, now: nat)
    requires body.price == Some(JNum(0.0))
    ensures CreateReply(conv, body, now) == MissingFields
    ensures CastRequiredNumber(conv, JNum(0.0)) == Some(0.0)
  {
  }

  /** The category is optional: absent gives 'General', a string is stored as
      given, even the empty one, and null is stored as null. */
  lemma CategoryPassedThrough(conv: Conversions, body: ProductFields, now: nat)
    requires CreateReply(conv, body, now).Created?
    ensures body.category.None? ==> CreateReply(conv, body, now).product.category == Some(DefaultCategory)
    ensures body.category == Some(JNull) ==> CreateReply(conv, body, now).product.category == None
    ensures forall c :: body.category == Some(JStr(c)) ==> CreateReply(conv, body, now).product.category == Some(c)
  {
  }

  /** The product collection. */
  class ProductCatalog {
    var products: seq<Product>

    constructor ()
      ensures products == []
    {
      products := [];
    }

    /** POST /: a created product is added to the collection; a refused
        request leaves it as it was. */
    method Create(conv: Conversions, body: ProductFields, now: nat) returns (reply: Reply)
      modifies this
      ensures reply == CreateReply(conv, body, now)
      ensures reply.Created? ==> products == old(products) + [reply.product]
      ensures !reply.Created? ==> products == old(products)
    {
      reply := CreateReply(conv, body, now);
      if reply.Created? {
        products := products + [reply.product];
      }
    }

    /** GET /: every stored product, each exactly as often as stored, newest
        `createdAt` first. */
    method List() returns (listed: seq<Product>)
      ensures multiset(listed) == multiset(products)
      ensures NewestFirst(listed, (p: Product) => p.createdAt)
    {
      listed := SortNewestFirst(products, (p: Product) => p.createdAt);
    }
  }

  /** Two products created in turn are listed newest first. */
  method Scenario(conv: Conversions)
  {
    var catalog := new ProductCatalog();
    var first := catalog.Create(conv, ProductFields(Some(JStr("Milk")), Some(JNum(30.0)), Some(JStr("1L")), Some(JStr("milk.png")), None), 1);
    assert first.Created? && first.product.category == Some(DefaultCategory);
    var refused := catalog.Create(conv, ProductFields(Some(JStr("Free")), Some(JNum(0.0)), Some(JStr("1L")), Some(JStr("x.png")), None), 2);
    assert refused == MissingFields && |catalog.products| == 1;
    var second := catalog.Create(conv, ProductFields(Some(JStr("Bread")), Some(JNum(40.0)), Some(JStr("400g")), Some(JStr("bread.png")), Some(JStr("Bakery"))), 3);
    var listed := catalog.List();
    assert |listed| == 2 by {
      assert |multiset(listed)| == |multiset(catalog.products)|;
    }
    assert listed[0].createdAt >= listed[1].createdAt;
  }
}
