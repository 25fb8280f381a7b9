/** Small helpers shared by the server and client models: optional values,
    JavaScript's `indexOf`, the "replace the entry with the same id" update the
    pages apply to their lists, the newest-first ordering used by the product
    listing and the tracking timeline, and decimal rendering of timestamps. */
module Common {

  /** An absent JSON field, `undefined` or `null`, is `None`. */
  datatype Option<T> = None | Some(value: T) {
    function GetOr(default: T): T {
      match this
      case Some(v) => v
      case None => default
    }
  }

  datatype Result<T, E> = Ok(value: T) | Err(error: E)

  /** JavaScript truthiness of an optional string: absent and "" are falsy. */
  function Truthy(s: Option<string>): (t: bool)
    ensures s.None? ==> !t
    ensures s.Some? ==> (t <==> |s.value| > 0)
  {
    s.Some? && s.value != ""
  }

  /** `s || fallback` for a field holding a string or nothing. */
  function OrElse(s: Option<string>, fallback: string): (r: string)
    ensures Truthy(s) ==> r == s.value
    ensures !Truthy(s) ==> r == fallback
    ensures fallback != "" ==> r != ""
  {
    if Truthy(s) then s.value else fallback
  }

  /** `xs.indexOf(x)`: the first position that holds `x`, or -1. */
  function IndexOf<T(==)>(xs: seq<T>, x: T): (i: int)
    ensures -1 <= i < |xs|
    ensures i == -1 <==> x !in xs
    ensures 0 <= i ==> xs[i] == x && x !in xs[..i]
  {
    if |xs| == 0 then -1
    else if xs[0] == x then 0
    else
      var j := IndexOf(xs[1..], x);
      assert xs[1..][..(if j < 0 then 0 else j)] == xs[1..(if j < 0 then 1 else j + 1)];
      if j == -1 then -1 else j + 1
  }

  predicate Distinct<T(==)>(xs: seq<T>) {
    forall a, b :: 0 <= a < b < |xs| ==> xs[a] != xs[b]
  }

  /** In a list without repeats, `indexOf` finds each element at its own
      position. */
  lemma IndexOfDistinct<T>(xs: seq<T>, i: int)
    requires 0 <= i < |xs| && Distinct(xs)
    ensures IndexOf(xs, xs[i]) == i
  {
  }

  /** `xs.map(o => key(o) === key(x) ? x : o)`: every entry whose key equals the
      key of `x` is replaced by `x`, every other entry stays where it was. */
  function ReplaceByKey<T, K(==)>(xs: seq<T>, key: T -> K, x: T): (r: seq<T>)
    ensures |r| == |xs|
    ensures forall i :: 0 <= i < |xs| && key(xs[i]) == key(x) ==> r[i] == x
    ensures forall i :: 0 <= i < |xs| && key(xs[i]) != key(x) ==> r[i] == xs[i]
  {
    if |xs| == 0 then []
    else [if key(xs[0]) == key(x) then x else xs[0]] + ReplaceByKey(xs[1..], key, x)
  }

  function Keys<T, K>(xs: seq<T>, key: T -> K): (ks: seq<K>)
    ensures |ks| == |xs|
    ensures forall i :: 0 <= i < |xs| ==> ks[i] == key(xs[i])
  {
    if |xs| == 0 then [] else [key(xs[0])] + Keys(xs[1..], key)
  }

  /** Replacing by key never changes the list of keys, so a list whose ids are
      distinct keeps them distinct. */
  lemma ReplaceKeepsKeys<T, K>(xs: seq<T>, key: T -> K, x: T)
    ensures Keys(ReplaceByKey(xs, key, x), key) == Keys(xs, key)
  {
    var r := ReplaceByKey(xs, key, x);
    assert forall i :: 0 <= i < |xs| ==> Keys(r, key)[i] == Keys(xs, key)[i];
  }

  /** Receiving the same update twice has the effect of receiving it once. */
  lemma ReplaceIdempotent<T, K>(xs: seq<T>, key: T -> K, x: T)
    ensures ReplaceByKey(ReplaceByKey(xs, key, x), key, x) == ReplaceByKey(xs, key, x)
  {
    var once := ReplaceByKey(xs, key, x);
    var twice := ReplaceByKey(once, key, x);
    assert forall i :: 0 <= i < |xs| ==> twice[i] == once[i];
  }

  /** An update for an id that is not in the list leaves the list as it was. */
  lemma ReplaceAbsentKey<T, K>(xs: seq<T>, key: T -> K, x: T)
    requires key(x) !in Keys(xs, key)
    ensures ReplaceByKey(xs, key, x) == xs
  {
    var r := ReplaceByKey(xs, key, x);
    forall i | 0 <= i < |xs| ensures r[i] == xs[i] {
      assert Keys(xs, key)[i] == key(xs[i]);
    }
  }

  /** `xs.filter(keep)`: each element that passes the test is kept as many
      times as it occurs, and nothing else is. */
  function Filter<T(!new)>(xs: seq<T>, keep: T -> bool): (r: seq<T>)
    ensures |r| <= |xs|
    ensures forall i :: 0 <= i < |r| ==> keep(r[i])
    ensures forall i :: 0 <= i < |xs| && keep(xs[i]) ==> xs[i] in r
    ensures forall x {:trigger multiset(r)[x]} :: multiset(r)[x] == if keep(x) then multiset(xs)[x] else 0
  {
    if |xs| == 0 then []
    else
      assert xs == [xs[0]] + xs[1..];
      if keep(xs[0]) then [xs[0]] + Filter(xs[1..], keep)
      else Filter(xs[1..], keep)
  }

  /** The filter keeps the order of the list: filtering a concatenation is
      concatenating the filtered parts, and a single element is kept exactly
      when it passes. Together these determine the result position by
      position. */
  lemma {:induction false} FilterAppend<T(!new)>(xs: seq<T>, ys: seq<T>, keep: T -> bool)
    ensures Filter(xs + ys, keep) == Filter(xs, keep) + Filter(ys, keep)
  {
    if |xs| > 0 {
      assert (xs + ys)[1..] == xs[1..] + ys;
      FilterAppend(xs[1..], ys, keep);
    } else {
      assert xs + ys == ys;
    }
  }

  lemma FilterSingle<T(!new)>(x: T, keep: T -> bool)
    ensures Filter([x], keep) == if keep(x) then [x] else []
  {
    assert [x][1..] == [];
  }

  // ---------------------------------------------------------------------------
  // Newest first: `[...xs].sort((a, b) => key(b) - key(a))`, a stable sort.

  predicate NewestFirst<T>(xs: seq<T>, key: T -> int) {
    forall i, j :: 0 <= i < j < |xs| ==> key(xs[i]) >= key(xs[j])
  }

  /** Puts `x` after every element of the sorted `xs` that is strictly newer. */
  function InsertByKey<T>(x: T, xs: seq<T>, key: T -> int): (r: seq<T>)
    requires NewestFirst(xs, key)
    ensures NewestFirst(r, key)
    ensures multiset(r) == multiset(xs) + multiset{x}
    ensures |r| == |xs| + 1
  {
    if |xs| == 0 || key(xs[0]) <= key(x) then [x] + xs
    else
      var rest := InsertByKey(x, xs[1..], key);
      assert multiset(xs) == multiset{xs[0]} + multiset(xs[1..]) by {
        assert xs == [xs[0]] + xs[1..];
      }
      assert forall y :: y in rest ==> y in multiset(rest);
      assert forall y :: y in rest ==> key(xs[0]) >= key(y) by {
        forall y | y in rest ensures key(xs[0]) >= key(y) {
          assert y in multiset(xs[1..]) + multiset{x};
          if y != x {
            assert y in multiset(xs[1..]);
            assert y in xs[1..];
          }
        }
      }
      [xs[0]] + rest
  }

  /** The sorted copy: newest first, and a permutation of its input. */
  function SortNewestFirst<T>(xs: seq<T>, key: T -> int): (r: seq<T>)
    ensures NewestFirst(r, key)
    ensures multiset(r) == multiset(xs)
    ensures |r| == |xs|
  {
    if |xs| == 0 then []
    else
      assert xs == [xs[0]] + xs[1..];
      InsertByKey(xs[0], SortNewestFirst(xs[1..], key), key)
  }

  /** One step past a strictly newer head: the head cannot share the key of
      `x`, so it lands on the same side of `x` in both filters. */
  lemma PassNewerHead<T(!new)>(x: T, head: T, rest: seq<T>, tail: seq<T>, key: T -> int, k: int, keep: T -> bool)
    requires key(head) > key(x)
    requires forall y {:trigger keep(y)} :: keep(y) <==> key(y) == k
    requires Filter(rest, keep) == (if key(x) == k then [x] else []) + Filter(tail, keep)
    ensures Filter([head] + rest, keep) == (if key(x) == k then [x] else []) + Filter([head] + tail, keep)
  {
    assert ([head] + rest)[1..] == rest;
    assert ([head] + tail)[1..] == tail;
    if key(x) == k {
      assert !keep(head);
    }
  }

  /** Inserting puts `x` ahead of every element with its key: `keep` picks out
      the elements whose key is `k`. */
  lemma {:induction false} InsertKeepsTies<T(!new)>(x: T, xs: seq<T>, key: T -> int, k: int, keep: T -> bool)
    requires NewestFirst(xs, key)
    requires forall y {:trigger keep(y)} :: keep(y) <==> key(y) == k
    ensures Filter(InsertByKey(x, xs, key), keep) == (if key(x) == k then [x] else []) + Filter(xs, keep)
    decreases |xs|
  {
    if |xs| == 0 || key(xs[0]) <= key(x) {
      assert InsertByKey(x, xs, key) == [x] + xs;
      assert ([x] + xs)[1..] == xs;
    } else {
      InsertKeepsTies(x, xs[1..], key, k, keep);
      PassNewerHead(x, xs[0], InsertByKey(x, xs[1..], key), xs[1..], key, k, keep);
      assert InsertByKey(x, xs, key) == [xs[0]] + InsertByKey(x, xs[1..], key);
      assert xs == [xs[0]] + xs[1..];
    }
  }

  /** The sort is stable: for any key `k`, the elements with key `k` keep the
      order they had in the input. */
  lemma {:induction false} SortIsStable<T(!new)>(xs: seq<T>, key: T -> int, k: int, keep: T -> bool)
    requires forall y {:trigger keep(y)} :: keep(y) <==> key(y) == k
    ensures Filter(SortNewestFirst(xs, key), keep) == Filter(xs, keep)
    decreases |xs|
  {
    if |xs| > 0 {
      SortIsStable(xs[1..], key, k, keep);
      InsertKeepsTies(xs[0], SortNewestFirst(xs[1..], key), key, k, keep);
    }
  }

  // ---------------------------------------------------------------------------
  // Decimal rendering of a timestamp, as `${Date.now()}` writes it.

  function DigitChar(d: nat): (c: char)
    requires d < 10
  {
    "0123456789"[d]
  }

  function DigitValue(c: char): nat {
    if '0' <= c <= '9' then (c as int - '0' as int) as nat else 0
  }

  predicate AllDigits(s: string) {
    forall i :: 0 <= i < |s| ==> '0' <= s[i] <= '9'
  }

  function Decimal(n: nat): (s: string)
    ensures |s| >= 1 && AllDigits(s)
  {
    if n < 10 then [DigitChar(n)] else Decimal(n / 10) + [DigitChar(n % 10)]
  }

  function DecimalValue(s: string): nat {
    if |s| == 0 then 0 else DecimalValue(s[..|s| - 1]) * 10 + DigitValue(s[|s| - 1])
  }

  /** Rendering loses nothing: the digits read back as the same number, so two
      different timestamps give two different strings. */
  lemma {:induction false} DecimalRoundTrip(n: nat)
    ensures DecimalValue(Decimal(n)) == n
  {
    if n >= 10 {
      DecimalRoundTrip(n / 10);
      var s := Decimal(n);
      assert s[..|s| - 1] == Decimal(n / 10);
    }
  }

  lemma DecimalInjective(m: nat, n: nat)
    requires Decimal(m) == Decimal(n)
    ensures m == n
  {
    DecimalRoundTrip(m);
    DecimalRoundTrip(n);
  }

  /** `ORD-${Date.now()}`: the order id both checkout and the admin form make
      up from the time. */
  function TimestampId(now: nat): (id: string)
    ensures |id| > 4 && id[..4] == "ORD-" && AllDigits(id[4..])
  {
    "ORD-" + Decimal(now)
  }

  /** Two different times give two different ids. */
  lemma TimestampIdInjective(m: nat, n: nat)
    requires TimestampId(m) == TimestampId(n)
    ensures m == n
  {
    assert TimestampId(m)[4..] == Decimal(m);
    assert TimestampId(n)[4..] == Decimal(n);
    DecimalInjective(m, n);
  }
}
