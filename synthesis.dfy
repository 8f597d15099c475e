/** The prompt `generateAIResponse` sends to the language model (server.js lines 97-102):
    the user's question and a sentence with the number of products found. */
module Synthesis {

  predicate IsDigit(c: char) { '0' <= c <= '9' }

  function DigitChar(d: nat): (c: char)
    requires d < 10
    ensures IsDigit(c) && c as int - '0' as int == d
  {
    ('0' as int + d) as char
  }

  /** How a template literal writes a non-negative integer such as `products.length`. */
  function Decimal(n: nat): (s: string)
    ensures |s| > 0
    ensures forall i :: 0 <= i < |s| ==> IsDigit(s[i])
    ensures n > 0 ==> s[0] != '0'
    decreases n
  {
    if n < 10 then [DigitChar(n)] else Decimal(n / 10) + [DigitChar(n % 10)]
  }

  /** The value of a string of decimal digits. */
  function DigitsValue(s: string): nat
    requires forall i :: 0 <= i < |s| ==> IsDigit(s[i])
  {
    if s == [] then 0
    else
      assert IsDigit(s[|s| - 1]);
      DigitsValue(s[..|s| - 1]) * 10 + (s[|s| - 1] as int - '0' as int)
  }

  /** Reading back the digits of `n` gives back `n`. */
  lemma {:induction false} DecimalRoundTrip(n: nat)
    ensures DigitsValue(Decimal(n)) == n
    decreases n
  {
    var s := Decimal(n);
    if n >= 10 {
      DecimalRoundTrip(n / 10);
      assert s[..|s| - 1] == Decimal(n / 10);
    }
  }

  /** Different counts are written differently. */
  lemma DecimalInjective(m: nat, n: nat)
    requires Decimal(m) == Decimal(n)
    ensures m == n
  {
    DecimalRoundTrip(m);
    DecimalRoundTrip(n);
  }

  /** `s` occurs in `text` starting at `i`. */
  predicate OccursAt(text: string, s: string, i: nat) {
    i + |s| <= |text| && text[i..i + |s|] == s
  }

  ghost predicate Contains(text: string, s: string) {
    exists i: nat :: OccursAt(text, s, i)
  }

  const Found := "Trovati "
  const FoundTail := " prodotti."
  const NoneFound := "Nessun prodotto trovato."

  /** The middle line of the template, server.js line 100: a zero length is falsy. */
  function StatusLine(count: nat): string {
    if count > 0 then Found + Decimal(count) + FoundTail else NoneFound
  }

  const Lead := "\n    L'utente ha chiesto: "

  /** The question between double quotes, as line 99 interpolates it. */
  function Quoted(userQuery: string): string {
    "\"" + userQuery + "\""
  }

  const QuoteEnd := ".\n    "

  function PromptHead(userQuery: string): string {
    Lead + Quoted(userQuery) + QuoteEnd
  }

  const PromptTail := "\n    Rispondi brevemente e professionalmente.\n  "

  /** The template literal of server.js lines 98-102, character for character. */
  function Prompt(userQuery: string, count: nat): string {
    PromptHead(userQuery) + StatusLine(count) + PromptTail
  }

  /** The middle part of a three-part concatenation starts right after the first part. */
  lemma OccursInMiddle(a: string, b: string, c: string)
    ensures OccursAt(a + b + c, b, |a|)
  {
    assert (a + b + c)[|a|..|a| + |b|] == b;
  }

  lemma Regroup(a: string, b: string, c: string, d: string, e: string)
    ensures a + b + c + d + e == a + b + (c + d + e)
  {
  }

  lemma StatusLineAt(userQuery: string, count: nat)
    ensures OccursAt(Prompt(userQuery, count), StatusLine(count), |PromptHead(userQuery)|)
  {
    OccursInMiddle(PromptHead(userQuery), StatusLine(count), PromptTail);
  }

  /** With products, the prompt says "Trovati N prodotti." for their number N; without,
      it says "Nessun prodotto trovato.". */
  lemma PromptReportsCount(userQuery: string, count: nat)
    ensures count > 0 ==> Contains(Prompt(userQuery, count), Found + Decimal(count) + FoundTail)
    ensures count == 0 ==> Contains(Prompt(userQuery, count), NoneFound)
  {
    StatusLineAt(userQuery, count);
  }

  /** The prompt quotes the user's question verbatim. */
  lemma PromptQuotesQuery(userQuery: string, count: nat)
    ensures Contains(Prompt(userQuery, count), Quoted(userQuery))
  {
    var quoted, status := Quoted(userQuery), StatusLine(count);
    Regroup(Lead, quoted, QuoteEnd, status, PromptTail);
    OccursInMiddle(Lead, quoted, QuoteEnd + status + PromptTail);
  }

  /** The prompt for a question tells the model how many products were found: two counts
      never give the same prompt. */
  lemma {:induction false} PromptDeterminesCount(userQuery: string, m: nat, n: nat)
    requires Prompt(userQuery, m) == Prompt(userQuery, n)
    ensures m == n
  {
    var h := PromptHead(userQuery);
    var a, b := StatusLine(m), StatusLine(n);
    assert |a| == |b|;
    assert a == (h + a + PromptTail)[|h|..|h| + |a|];
    assert b == (h + b + PromptTail)[|h|..|h| + |b|];
    assert a == b;
    assert a[0] == b[0];
    if m > 0 && n > 0 {
      var k := |Found|;
      assert Decimal(m) == a[k..|a| - |FoundTail|];
      assert Decimal(n) == b[k..|b| - |FoundTail|];
      DecimalInjective(m, n);
    }
  }
}
