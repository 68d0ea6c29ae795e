/**
 How the info window shows a CTCSS tone: the rendered JSON element with its
 quote characters removed, and "None" for an absent or `false` tone.
 */
module Ctcss {

  import opened Wrappers

  /** Kotlin's `replace("\"", "")`: every double quote removed. */
  function StripQuotes(s: string): (r: string)
    ensures '"' !in r
    ensures |r| <= |s|
    ensures forall c :: c != '"' ==> (c in r <==> c in s)
  {
    if s == [] then []
    else
      assert s == [s[0]] + s[1..];
      (if s[0] == '"' then [] else [s[0]]) + StripQuotes(s[1..])
  }

  /** Kotlin's `toString()` on a nullable element: null renders as "null";
      an element is given by the text it renders to. */
  function Render(element: Option<string>): string {
    match element
    case None => "null"
    case Some(text) => text
  }

  /** The text shown for a tone. */
  function FormatCtcss(element: Option<string>): (r: string)
    ensures '"' !in r
    ensures element.None? ==> r == "None"
    ensures r == "None" || r == StripQuotes(Render(element))
    ensures r == "None" <==> StripQuotes(Render(element)) in {"false", "null", "None"}
  {
    StripQuotesKeepsQuoteFree("null");
    var raw := StripQuotes(Render(element));
    if raw == "false" || raw == "null" then "None" else raw
  }

  /** Text without quotes is left as it is. */
  lemma {:induction false} StripQuotesKeepsQuoteFree(s: string)
    requires '"' !in s
    ensures StripQuotes(s) == s
  {
    if s != [] {
      StripQuotesKeepsQuoteFree(s[1..]);
    }
  }

  /** Removing quotes is idempotent. */
  lemma StripQuotesIdempotent(s: string)
    ensures StripQuotes(StripQuotes(s)) == StripQuotes(s)
  {
    StripQuotesKeepsQuoteFree(StripQuotes(s));
  }

  /** Quotes are removed piece by piece: the result for a concatenation is
      the concatenation of the results. */
  lemma {:induction false} StripQuotesAppend(a: string, b: string)
    ensures StripQuotes(a + b) == StripQuotes(a) + StripQuotes(b)
  {
    if a == [] {
      assert a + b == b;
    } else {
      assert (a + b)[1..] == a[1..] + b;
      StripQuotesAppend(a[1..], b);
    }
  }

  /** A quoted tone shows without its quotes; `false`, an absent tone and a
      JSON null show as "None". */
  lemma FormatCtcssExamples()
    ensures FormatCtcss(Some("\"88.5\"")) == "88.5"
    ensures FormatCtcss(Some("false")) == "None"
    ensures FormatCtcss(Some("null")) == "None"
    ensures FormatCtcss(None) == "None"
  {
    assert StripQuotes("\"88.5\"") == "88.5" by {
      StripQuotesAppend("\"", "88.5\"");
      StripQuotesAppend("88.5", "\"");
      StripQuotesKeepsQuoteFree("88.5");
    }
    StripQuotesKeepsQuoteFree("false");
    StripQuotesKeepsQuoteFree("null");
  }
}
