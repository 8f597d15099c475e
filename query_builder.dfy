/** `searchProducts` (server.js lines 83-95): the parameters the language model extracted
    become a filter document, built one key at a time, and the store is asked for it. */
module QueryBuilder {
  import opened Outcomes
  import opened Json
  import opened Catalog

  /** `Array.isArray(v) ? v : [v]`: the `$in` operand for a colour or material parameter. */
  function AsList(v: Value): (r: seq<Value>)
    ensures v.JArr? ==> r == v.elems
    ensures !v.JArr? ==> r == [v]
  {
    if v.JArr? then v.elems else [v]
  }

  /** The `prezzo` key for a truthy price parameter, by the branch order of lines 89-92:
      both bounds truthy, then `min` alone, then `max` alone, then a bare number. Every
      lower bound is the truthy `min`; an upper bound is the truthy `max`, or else the price
      itself; no key is installed only when neither bound is truthy and the price is not a
      number. */
  function PriceBound(prezzo: Value): (r: Option<Bound>)
    requires !prezzo.JNull?
    ensures r.Some? && !r.value.AtMost? ==>
      Present(Field(prezzo, "min")) && r.value.lo == Field(prezzo, "min").value
    ensures r.Some? && !r.value.AtLeast? ==>
      r.value.hi == if Present(Field(prezzo, "max")) then Field(prezzo, "max").value else prezzo
    ensures r.None? <==> !Present(Field(prezzo, "min")) && !Present(Field(prezzo, "max")) && !prezzo.JNum?
  {
    var min := Field(prezzo, "min");
    var max := Field(prezzo, "max");
    if Present(min) && Present(max) then Some(Range(min.value, max.value))
    else if Present(min) then Some(AtLeast(min.value))
    else if Present(max) then Some(AtMost(max.value))
    else if prezzo.JNum? then Some(AtMost(prezzo))
    else None
  }

  /** The filter document `searchProducts` builds. Reading `params.categoria` throws when
      the parsed parameters are `null`; any other value can be read. */
  function BuildQuery(params: Value): (r: Result<Query>)
    ensures r.Failure? <==> params.JNull?
    ensures r.Failure? ==> r.error == TypeError
    ensures r.Success? ==> (r.value.categoria.Some? <==> Present(Field(params, "categoria")))
    ensures r.Success? ==> (r.value.colore.Some? <==> Present(Field(params, "colore")))
    ensures r.Success? ==> (r.value.materiale.Some? <==> Present(Field(params, "materiale")))
    ensures r.Success? && r.value.prezzo.Some? ==> Present(Field(params, "prezzo"))
  {
    if params.JNull? then Failure(TypeError)
    else
      var categoria := Field(params, "categoria");
      var colore := Field(params, "colore");
      var materiale := Field(params, "materiale");
      var prezzo := Field(params, "prezzo");
      Success(Query(
        if Present(categoria) then Some(categoria.value) else None,
        if Present(colore) then Some(AsList(colore.value)) else None,
        if Present(materiale) then Some(AsList(materiale.value)) else None,
        if Present(prezzo) then PriceBound(prezzo.value) else None))
  }

  /** What `searchProducts(params)` resolves to: the filter is built, then the store runs it. */
  function Search(params: Value, store: Outcome<seq<Product>>): Result<seq<Product>> {
    var q :- BuildQuery(params);
    Find(q, store)
  }

  /** `searchProducts` as written: an empty `query` object whose keys are assigned in
      place by a chain of conditionals, then handed to the store. `filter` is the document
      the store receives, `None` when the first property read throws. */
  method SearchProducts(params: Value, store: Outcome<seq<Product>>)
    returns (filter: Option<Query>, found: Result<seq<Product>>)
    ensures params.JNull? <==> filter.None?
    ensures filter.Some? ==> BuildQuery(params) == Success(filter.value)
    ensures found == Search(params, store)
  {
    if params.JNull? {
      return None, Failure(TypeError);
    }
    var query := Unconstrained;
    var categoria := Field(params, "categoria");
    if Present(categoria) {
      query := query.(categoria := Some(categoria.value));
    }
    var colore := Field(params, "colore");
    if Present(colore) {
      query := query.(colore := Some(if colore.value.JArr? then colore.value.elems else [colore.value]));
    }
    var materiale := Field(params, "materiale");
    if Present(materiale) {
      query := query.(materiale := Some(if materiale.value.JArr? then materiale.value.elems else [materiale.value]));
    }
    var prezzo := Field(params, "prezzo");
    if Present(prezzo) {
      var min, max := Field(prezzo.value, "min"), Field(prezzo.value, "max");
      if Present(min) && Present(max) {
        query := query.(prezzo := Some(Range(min.value, max.value)));
      } else if Present(min) {
        query := query.(prezzo := Some(AtLeast(min.value)));
      } else if Present(max) {
        query := query.(prezzo := Some(AtMost(max.value)));
      } else if prezzo.value.JNum? {
        query := query.(prezzo := Some(AtMost(prezzo.value)));
      }
    }
    filter := Some(query);
    found := Find(query, store);
  }

  // ---- Properties of the filter ----

  /** Parameters with no truthy key (an empty object, or a parsed string, number, boolean
      or array) give the empty filter, which every product satisfies. */
  lemma NoKeysNoConstraints(params: Value)
    requires !params.JNull?
    requires !Present(Field(params, "categoria")) && !Present(Field(params, "colore"))
    requires !Present(Field(params, "materiale")) && !Present(Field(params, "prezzo"))
    ensures BuildQuery(params) == Success(Unconstrained)
    ensures forall p :: Matches(p, BuildQuery(params).value)
  {
  }

  /** A truthy scalar colour or material gives the same filter as the one-element array
      holding it. */
  lemma ScalarAsSingleton(fields: map<string, Value>, key: string, v: Value)
    requires key == "colore" || key == "materiale"
    requires Truthy(v) && !v.JArr?
    ensures BuildQuery(JObj(fields[key := v])) == BuildQuery(JObj(fields[key := JArr([v])]))
  {
  }

  /** An array colour or material is the `$in` list as it is, even when empty; an empty
      list then rules out every product. */
  lemma EmptyArrayMatchesNothing(params: Value, key: string)
    requires key == "colore" || key == "materiale"
    requires !params.JNull? && Field(params, key) == Defined(JArr([]))
    ensures key == "colore" ==> BuildQuery(params).value.colore == Some([])
    ensures key == "materiale" ==> BuildQuery(params).value.materiale == Some([])
    ensures forall p :: !Matches(p, BuildQuery(params).value)
    ensures forall store :: Search(params, store).Success? ==> Search(params, store).value == []
  {
    var q := BuildQuery(params).value;
    forall store | Search(params, store).Success?
      ensures Search(params, store).value == []
    {
      NothingMatches(store.value, q);
    }
  }

  /** An array colour or material, empty or not, becomes the `$in` list element for
      element, without wrapping. */
  lemma ArrayUsedAsIs(params: Value, key: string, xs: seq<Value>)
    requires key == "colore" || key == "materiale"
    requires !params.JNull? && Field(params, key) == Defined(JArr(xs))
    ensures BuildQuery(params).Success?
    ensures key == "colore" ==> BuildQuery(params).value.colore == Some(xs)
    ensures key == "materiale" ==> BuildQuery(params).value.materiale == Some(xs)
  {
  }

  /** A truthy string colour or material admits exactly the products whose colour or
      material list holds that string. */
  lemma ScalarIsMembership(params: Value, key: string, c: string, p: Product)
    requires key == "colore" || key == "materiale"
    requires !params.JNull? && Field(params, key) == Defined(JStr(c)) && c != ""
    ensures key == "colore" ==> (InMatches(p.colore, BuildQuery(params).value.colore) <==> c in p.colore)
    ensures key == "materiale" ==> (InMatches(p.materiale, BuildQuery(params).value.materiale) <==> c in p.materiale)
  {
  }

  /** A truthy string category constrains the category to contain it as literal text,
      case-insensitively, and nothing else about that field. */
  lemma CategoriaIsFoldedSubstring(params: Value, pattern: string, p: Product)
    requires !params.JNull? && Field(params, "categoria") == Defined(JStr(pattern))
    requires pattern != ""
    ensures CategoriaMatches(p.categoria, BuildQuery(params).value.categoria) <==>
      exists i: nat :: FoldedAt(p.categoria, pattern, i)
  {
    ContainsFoldedIff(p.categoria, pattern);
  }

  /** Both `min` and `max` truthy: the closed range between them. */
  lemma PriceBothBounds(params: Value, fields: map<string, Value>)
    requires !params.JNull? && Field(params, "prezzo") == Defined(JObj(fields))
    requires "min" in fields && Truthy(fields["min"])
    requires "max" in fields && Truthy(fields["max"])
    ensures BuildQuery(params).value.prezzo == Some(Range(fields["min"], fields["max"]))
  {
  }

  /** Only `min` truthy (a falsy `max`, such as 0, counts as absent): a lower bound only. */
  lemma PriceLowerOnly(params: Value, fields: map<string, Value>)
    requires !params.JNull? && Field(params, "prezzo") == Defined(JObj(fields))
    requires "min" in fields && Truthy(fields["min"])
    requires "max" !in fields || !Truthy(fields["max"])
    ensures BuildQuery(params).value.prezzo == Some(AtLeast(fields["min"]))
  {
  }

  /** Only `max` truthy (a `min` of 0 counts as absent): an upper bound only. */
  lemma PriceUpperOnly(params: Value, fields: map<string, Value>)
    requires !params.JNull? && Field(params, "prezzo") == Defined(JObj(fields))
    requires "max" in fields && Truthy(fields["max"])
    requires "min" !in fields || !Truthy(fields["min"])
    ensures BuildQuery(params).value.prezzo == Some(AtMost(fields["max"]))
  {
  }

  /** A non-zero number is an upper bound equal to it. */
  lemma PriceNumberIsUpperBound(params: Value, n: real)
    requires !params.JNull? && Field(params, "prezzo") == Defined(JNum(n)) && n != 0.0
    ensures BuildQuery(params).value.prezzo == Some(AtMost(JNum(n)))
  {
  }

  /** No price key for an absent or falsy price (0 included), for a price that is neither
      a number nor a value carrying a truthy `min` or `max` (a string, `{}`, an array,
      `true`), and for an object whose bounds are both falsy. */
  lemma PriceIgnored(params: Value)
    requires !params.JNull?
    requires var pr := Field(params, "prezzo");
      || !Present(pr)
      || (!pr.value.JNum? && !pr.value.JObj?)
      || (pr.value.JObj? && !Present(Field(pr.value, "min")) && !Present(Field(pr.value, "max")))
    ensures BuildQuery(params).value.prezzo == None
  {
  }

  /** What a successful search returns: at most ten products, each in the catalog and
      satisfying every key of the filter built from `params`, forming a prefix, in
      catalog order, of the catalog filtered by that filter. */
  lemma SearchResult(params: Value, store: Outcome<seq<Product>>)
    requires Search(params, store).Success?
    ensures var q := BuildQuery(params).value; var r := Search(params, store).value;
      && |r| <= Limit
      && r <= MatchingIn(store.value, q)
      && forall i :: 0 <= i < |r| ==> r[i] in store.value && Matches(r[i], q)
  {
    FindSound(BuildQuery(params).value, store);
  }

  /** A search fails exactly when the parameters are `null`, the store is unreachable,
      or the built filter has an operand of the wrong type. */
  lemma SearchFailure(params: Value, store: Outcome<seq<Product>>)
    ensures Search(params, store).Failure? <==>
      params.JNull? || store.Failed? || !WellTyped(BuildQuery(params).value)
  {
  }
}
