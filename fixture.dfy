/** The sample catalog of populate-db.js (lines 36-143) and the lamp search over it. */
module Fixture {
  import opened Outcomes
  import opened Json
  import opened Catalog
  import opened QueryBuilder
  import opened Synthesis
  import opened Endpoint

  const Solair := Product("Lampada Solair", "lampada", ["giallo", "oro"], ["metallo", "vetro"], 159.00)
  const Citrus := Product("Pendente Citrus", "lampada", ["giallo", "arancione"], ["metallo", "tessuto"], 245.00)
  const Helios := Product("Lampada Helios", "lampada", ["giallo", "ottone"], ["ottone", "metallo"], 189.50)
  const Minimal := Product("Tavolo Minimal", "tavolo", ["bianco", "naturale"], ["legno", "mdf"], 695.00)
  const Nordic := Product("Sedia Nordic", "sedia", ["nero", "naturale"], ["legno", "tessuto"], 149.00)

  const Seed := [Solair, Citrus, Helios, Minimal, Nordic]

  /** `{categoria: "lampada", colore: "giallo", prezzo: {max: 200}}`, the parameters the
      model extracts from "lampada giallo sotto 200 euro". */
  const YellowLampUnder200 := JObj(map[
    "categoria" := JStr("lampada"),
    "colore" := JStr("giallo"),
    "prezzo" := JObj(map["max" := JNum(200.0)])])

  const YellowLampFilter := Query(Some(JStr("lampada")), Some([JStr("giallo")]), None, Some(AtMost(JNum(200.0))))

  lemma YellowLampFilterBuilt()
    ensures BuildQuery(YellowLampUnder200) == Success(YellowLampFilter)
  {
  }

  lemma {:induction false} LampadaMatches(p: Product)
    requires p.categoria == "lampada"
    ensures CategoriaMatches(p.categoria, YellowLampFilter.categoria)
  {
    assert StartsFolded(p.categoria, "lampada") by {
      assert p.categoria[..7] == "lampada";
    }
  }

  /** Which sample products the lamp filter admits. */
  lemma {:induction false} YellowLampVerdicts()
    ensures Matches(Solair, YellowLampFilter) && Matches(Helios, YellowLampFilter)
    ensures !Matches(Citrus, YellowLampFilter)
    ensures !Matches(Minimal, YellowLampFilter) && !Matches(Nordic, YellowLampFilter)
  {
    var q := YellowLampFilter;
    LampadaMatches(Solair);
    LampadaMatches(Helios);
    assert JStr(Solair.colore[0]) in q.colore.value;
    assert JStr(Helios.colore[0]) in q.colore.value;
    assert !ContainsFolded("tavolo", "lampada");
    assert !ContainsFolded("sedia", "lampada");
  }

  /** One step of the catalog filter. */
  lemma MatchingInCons(p: Product, rest: seq<Product>, q: Query)
    ensures MatchingIn([p] + rest, q) == (if Matches(p, q) then [p] else []) + MatchingIn(rest, q)
  {
    assert ([p] + rest)[1..] == rest;
  }

  /** Filtering two products, the first admitted and the second not. */
  lemma {:induction false} KeepFirstOfTwo(a: Product, b: Product, q: Query)
    requires Matches(a, q) && !Matches(b, q)
    ensures MatchingIn([a, b], q) == [a]
  {
    MatchingInCons(b, [], q);
    assert [b] + [] == [b];
    MatchingInCons(a, [b], q);
    assert [a] + [b] == [a, b];
  }

  /** A product the filter rejects does not change what the filter selects. */
  lemma DropRejected(p: Product, rest: seq<Product>, q: Query)
    requires !Matches(p, q)
    ensures MatchingIn([p] + rest, q) == MatchingIn(rest, q)
  {
    MatchingInCons(p, rest, q);
  }

  /** A product the filter admits is selected ahead of the rest. */
  lemma KeepAdmitted(p: Product, rest: seq<Product>, q: Query)
    requires Matches(p, q)
    ensures MatchingIn([p] + rest, q) == [p] + MatchingIn(rest, q)
  {
    MatchingInCons(p, rest, q);
  }

  /** Filtering five products of which the first and the third are admitted. */
  lemma {:induction false} KeepFirstAndThird(a: Product, b: Product, c: Product, d: Product, e: Product, q: Query)
    requires Matches(a, q) && !Matches(b, q) && Matches(c, q) && !Matches(d, q) && !Matches(e, q)
    ensures MatchingIn([a, b, c, d, e], q) == [a, c]
  {
    var t3 := [d] + [e];
    var t2 := [c] + t3;
    var t1 := [b] + t2;
    assert [a, b, c, d, e] == [a] + t1;
    DropRejected(e, [], q);
    assert [e] + [] == [e];
    DropRejected(d, [e], q);
    KeepAdmitted(c, t3, q);
    DropRejected(b, t2, q);
    KeepAdmitted(a, t1, q);
  }

  lemma {:induction false} SeedMatching()
    ensures MatchingIn(Seed, YellowLampFilter) == [Solair, Helios]
  {
    YellowLampVerdicts();
    KeepFirstAndThird(Solair, Citrus, Helios, Minimal, Nordic, YellowLampFilter);
  }

  /** Over the sample catalog the lamp search returns Lampada Solair and Lampada Helios, in
      catalog order; Pendente Citrus costs too much, the table and the chair are not lamps. */
  lemma {:induction false} SeedLampSearch()
    ensures Search(YellowLampUnder200, Ok(Seed)) == Success([Solair, Helios])
  {
    YellowLampFilterBuilt();
    SeedMatching();
  }

  /** The same search over a catalog of Lampada Solair and Tavolo Minimal finds only the lamp. */
  lemma {:induction false} LampOrTableSearch()
    ensures Search(YellowLampUnder200, Ok([Solair, Minimal])) == Success([Solair])
  {
    YellowLampFilterBuilt();
    YellowLampVerdicts();
    KeepFirstOfTwo(Solair, Minimal, YellowLampFilter);
    assert WellTyped(YellowLampFilter);
  }

  /** The same question against a catalog holding only Lampada Solair and Tavolo Minimal:
      the reply carries exactly Lampada Solair and the prompt reports one product. */
  method EndToEnd() {
    var llm: Llm := (system, user) =>
      if system == ExtractionInstruction then Ok(Some("{\"categoria\":\"lampada\"}"))
      else Ok(Some("Ecco una lampada gialla."));
    var parse: Parser := text => Ok(YellowLampUnder200);
    var store := Ok([Solair, Minimal]);
    var question := "lampada giallo sotto 200 euro";
    assert AssistantRole != ExtractionInstruction by { assert |AssistantRole| != |ExtractionInstruction|; }
    assert ExtractSearchParams(question, llm, parse) == Ok(YellowLampUnder200);
    LampOrTableSearch();
    assert GenerateAIResponse(question, [Solair], llm) == Ok(Some("Ecco una lampada gialla."));
    YellowLampFilterBuilt();
    var reply, calls := HandleQuery(Defined(JStr(question)), llm, parse, store);
    assert reply == HttpReply(200, Answer(Some("Ecco una lampada gialla."), [Solair]));
    assert |calls| == 3 && calls[2] == SynthesisRequest(Prompt(question, 1));

    var empty, none := HandleQuery(Defined(JStr("")), llm, parse, store);
    assert empty == HttpReply(400, ErrorBody(MissingQuery)) && none == [];
  }
}
