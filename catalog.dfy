/** The product store as the request flow sees it: the product records, the filter
    document `searchProducts` hands to `Product.find`, and what `find(...).limit(10)`
    returns for it (server.js lines 32-52 and 94). */
module Catalog {
  import opened Outcomes
  import opened Json

  /** A product record (server.js lines 33-44): the name that identifies it, and the fields
      a filter can look at. */
  datatype Product = Product(
    nome: string,
    categoria: string,
    colore: seq<string>,
    materiale: seq<string>,
    prezzo: real)

  /** The operand of the `prezzo` key: `{$gte, $lte}`, `{$gte}` or `{$lte}`. The bounds are
      the parameter values exactly as the model extracted them. */
  datatype Bound = Range(lo: Value, hi: Value) | AtLeast(lo: Value) | AtMost(hi: Value)

  /** The filter document. `None` is a key that was never assigned. `categoria` holds the
      `$regex` operand (always with option `i`); `colore` and `materiale` hold the `$in` list. */
  datatype Query = Query(
    categoria: Option<Value>,
    colore: Option<seq<Value>>,
    materiale: Option<seq<Value>>,
    prezzo: Option<Bound>)

  /** The empty filter `{}`. */
  const Unconstrained := Query(None, None, None, None)

  /** The `.limit(10)` of server.js line 94. */
  const Limit := 10

  /** ASCII lower-casing, the folding the `i` option applies to letters. */
  function Lower(c: char): char {
    if 'A' <= c <= 'Z' then (c as int - 'A' as int + 'a' as int) as char else c
  }

  /** Two strings that are equal up to case. */
  predicate FoldEq(a: string, b: string) {
    |a| == |b| && forall j :: 0 <= j < |a| ==> Lower(a[j]) == Lower(b[j])
  }

  predicate StartsFolded(text: string, pattern: string) {
    |pattern| <= |text| && FoldEq(text[..|pattern|], pattern)
  }

  /** An unanchored, case-insensitive search for `pattern` read as literal text. */
  predicate ContainsFolded(text: string, pattern: string)
    decreases |text|
  {
    StartsFolded(text, pattern) || (|text| > 0 && ContainsFolded(text[1..], pattern))
  }

  /** `pattern` occurs, up to case, in `text` starting at position `i`. */
  predicate FoldedAt(text: string, pattern: string, i: nat) {
    i + |pattern| <= |text| && FoldEq(text[i..i + |pattern|], pattern)
  }

  /** The search succeeds exactly when some window of `text` equals `pattern` up to case. */
  lemma {:induction false} ContainsFoldedIff(text: string, pattern: string)
    ensures ContainsFolded(text, pattern) <==> exists i: nat :: FoldedAt(text, pattern, i)
    decreases |text|
  {
    var n := |pattern|;
    if ContainsFolded(text, pattern) {
      if StartsFolded(text, pattern) {
        assert text[0..0 + n] == text[..n];
        assert FoldedAt(text, pattern, 0);
      } else {
        ContainsFoldedIff(text[1..], pattern);
        var i: nat :| FoldedAt(text[1..], pattern, i);
        assert text[1..][i..i + n] == text[i + 1..i + 1 + n];
        assert FoldedAt(text, pattern, i + 1);
      }
    }
    if exists i: nat :: FoldedAt(text, pattern, i) {
      var i: nat :| FoldedAt(text, pattern, i);
      if i == 0 {
        assert text[..n] == text[0..0 + n];
        assert StartsFolded(text, pattern);
      } else {
        assert text[1..][i - 1..i - 1 + n] == text[i..i + n];
        assert FoldedAt(text[1..], pattern, i - 1);
        ContainsFoldedIff(text[1..], pattern);
      }
    }
  }

  /** `{$regex: pattern, $options: 'i'}` on the product's category: with a string pattern,
      some window of the category equals the pattern up to case. */
  predicate CategoriaMatches(categoria: string, pattern: Option<Value>)
    ensures pattern.None? ==> CategoriaMatches(categoria, pattern)
    ensures pattern.Some? && pattern.value.JStr? ==>
      (CategoriaMatches(categoria, pattern) <==> exists i: nat :: FoldedAt(categoria, pattern.value.s, i))
  {
    pattern.Some? ==>
      pattern.value.JStr? &&
      (ContainsFoldedIff(categoria, pattern.value.s); ContainsFolded(categoria, pattern.value.s))
  }

  /** `{$in: list}` on an array field: some element of the field is in the list. An empty
      list admits nothing; a one-string list admits exactly the fields holding that string. */
  predicate InMatches(values: seq<string>, list: Option<seq<Value>>)
    ensures list == Some([]) ==> !InMatches(values, list)
    ensures list.Some? && |list.value| == 1 && list.value[0].JStr? ==>
      (InMatches(values, list) <==> list.value[0].s in values)
  {
    list.Some? ==> exists i :: 0 <= i < |values| && JStr(values[i]) in list.value
  }

  predicate AtLeastNum(prezzo: real, lo: Value) {
    lo.JNum? && lo.n <= prezzo
  }

  predicate AtMostNum(prezzo: real, hi: Value) {
    hi.JNum? && prezzo <= hi.n
  }

  /** `{$gte: lo, $lte: hi}` and its one-sided forms on the price. A closed range admits
      exactly the prices both of its one-sided bounds admit. */
  predicate PrezzoMatches(prezzo: real, bound: Option<Bound>)
    ensures bound.Some? && bound.value.Range? ==>
      (PrezzoMatches(prezzo, bound) <==>
         PrezzoMatches(prezzo, Some(AtLeast(bound.value.lo))) && PrezzoMatches(prezzo, Some(AtMost(bound.value.hi))))
    decreases if bound.Some? && bound.value.Range? then 1 else 0
  {
    match bound
    case None => true
    case Some(Range(lo, hi)) => AtLeastNum(prezzo, lo) && AtMostNum(prezzo, hi)
    case Some(AtLeast(lo)) => AtLeastNum(prezzo, lo)
    case Some(AtMost(hi)) => AtMostNum(prezzo, hi)
  }

  /** A product satisfies a filter iff it satisfies every key the filter has. The empty
      filter admits every product; an empty `$in` list under either key admits none. */
  predicate Matches(p: Product, q: Query)
    ensures q == Unconstrained ==> Matches(p, q)
    ensures q.colore == Some([]) || q.materiale == Some([]) ==> !Matches(p, q)
  {
    && CategoriaMatches(p.categoria, q.categoria)
    && InMatches(p.colore, q.colore)
    && InMatches(p.materiale, q.materiale)
    && PrezzoMatches(p.prezzo, q.prezzo)
  }

  predicate IsNum(v: Value) { v.JNum? }

  predicate BoundWellTyped(b: Bound) {
    match b
    case Range(lo, hi) => IsNum(lo) && IsNum(hi)
    case AtLeast(lo) => IsNum(lo)
    case AtMost(hi) => IsNum(hi)
  }

  predicate AllStrings(list: seq<Value>) {
    forall i :: 0 <= i < |list| ==> list[i].JStr?
  }

  /** The operands the store accepts: a string pattern, string lists and numeric bounds.
      Anything else is refused when the filter is cast against the schema. */
  predicate WellTyped(q: Query) {
    && (q.categoria.Some? ==> q.categoria.value.JStr?)
    && (q.colore.Some? ==> AllStrings(q.colore.value))
    && (q.materiale.Some? ==> AllStrings(q.materiale.value))
    && (q.prezzo.Some? ==> BoundWellTyped(q.prezzo.value))
  }

  /** The catalog restricted to the products that satisfy `q`, in catalog order. */
  function MatchingIn(catalog: seq<Product>, q: Query): (r: seq<Product>)
    ensures |r| <= |catalog|
    ensures forall i :: 0 <= i < |r| ==> r[i] in catalog && Matches(r[i], q)
    ensures forall p :: p in catalog && Matches(p, q) ==> p in r
  {
    if catalog == [] then []
    else
      var rest := MatchingIn(catalog[1..], q);
      assert forall p :: p in catalog[1..] ==> p in catalog;
      if Matches(catalog[0], q) then [catalog[0]] + rest else rest
  }

  /** Filtering a concatenation filters each part and keeps them in order. */
  lemma {:induction false} MatchingInAppend(a: seq<Product>, b: seq<Product>, q: Query)
    ensures MatchingIn(a + b, q) == MatchingIn(a, q) + MatchingIn(b, q)
  {
    if a == [] {
      assert a + b == b;
    } else {
      assert (a + b)[1..] == a[1..] + b;
      MatchingInAppend(a[1..], b, q);
    }
  }

  /** A filter that no product satisfies selects nothing from any catalog. */
  lemma {:induction false} NothingMatches(catalog: seq<Product>, q: Query)
    requires forall p :: !Matches(p, q)
    ensures MatchingIn(catalog, q) == []
  {
    if catalog != [] {
      NothingMatches(catalog[1..], q);
    }
  }

  /** `Product.find(query).limit(10)`: the filter is refused when it is cast against the
      schema, which happens before the store is contacted; then the store is unreachable, or
      the first ten matching products in catalog order come back. */
  function Find(q: Query, store: Outcome<seq<Product>>): (r: Result<seq<Product>>)
    ensures r.Success? <==> store.Ok? && WellTyped(q)
    ensures !WellTyped(q) ==> r == Failure(CastError)
    ensures WellTyped(q) && store.Failed? ==> r == Failure(StorageUnavailable)
    ensures r.Success? ==> |r.value| <= Limit && r.value <= MatchingIn(store.value, q)
    ensures r.Success? ==> |r.value| == if |MatchingIn(store.value, q)| < Limit then |MatchingIn(store.value, q)| else Limit
  {
    if !WellTyped(q) then Failure(CastError)
    else if store.Failed? then Failure(StorageUnavailable)
    else
      var all := MatchingIn(store.value, q);
      Success(if |all| <= Limit then all else all[..Limit])
  }

  /** Every product `Find` returns is in the catalog and satisfies every key of the filter. */
  lemma FindSound(q: Query, store: Outcome<seq<Product>>)
    requires Find(q, store).Success?
    ensures forall i :: 0 <= i < |Find(q, store).value| ==>
      Find(q, store).value[i] in store.value && Matches(Find(q, store).value[i], q)
  {
    var r := Find(q, store).value;
    var all := MatchingIn(store.value, q);
    forall i | 0 <= i < |r| ensures r[i] in store.value && Matches(r[i], q) {
      assert r[i] == all[i];
    }
  }

  /** When at most ten products match, `Find` returns every one of them. */
  lemma FindComplete(q: Query, store: Outcome<seq<Product>>, p: Product)
    requires Find(q, store).Success?
    requires |MatchingIn(store.value, q)| <= Limit
    requires p in store.value && Matches(p, q)
    ensures p in Find(q, store).value
  {
  }
}
