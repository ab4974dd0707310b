/** Shaping the language model's reply into analysis results
    (`analyzeFeedbackWithAI`, server/services/openai.ts). The prompt, the
    external call and JSON parsing are outside the model: the reply arrives
    as already-parsed raw themes, or as the error the call raised. */
module ThemeShaping {
  import opened Wrappers
  import opened Text
  import opened Schema
  import opened Sequences

  /** One theme as the reply states it; `quotes` may be absent. */
  datatype RawTheme = RawTheme(
    name: string,
    summary: string,
    percentage: real,
    quotes: Option<seq<string>>,
    suggestedAction: string)

  /** The external call: the parsed reply, whose `themes` may be absent,
      or the error raised by the call or by JSON parsing (`None` when the
      thrown value is not an `Error`). */
  datatype ModelReply =
    | Reply(themes: Option<seq<RawTheme>>)
    | CallFailed(message: Option<string>)

  const ErrorPrefix := "Failed to analyze feedback: "
  /** `substring(0, 20)` in the fallback test. */
  const FallbackPrefixLength := 20

  /** The themes of a reply, `[]` when the reply has none (`result.themes || []`). */
  function ReplyThemes(reply: ModelReply): seq<RawTheme>
    requires reply.Reply?
  {
    if reply.themes.Some? then reply.themes.value else []
  }

  /** The `map` step: fields copied, missing quotes become `[]`, not edited. */
  function Normalize(raw: RawTheme): (t: Theme)
    ensures t.name == raw.name && t.summary == raw.summary
    ensures t.percentage == raw.percentage && t.suggestedAction == raw.suggestedAction
    ensures raw.quotes.None? ==> t.quotes == []
    ensures raw.quotes.Some? ==> t.quotes == raw.quotes.value
    ensures !t.isEdited
  {
    Theme(raw.name, raw.summary, raw.percentage,
          if raw.quotes.Some? then raw.quotes.value else [],
          raw.suggestedAction, false)
  }

  /** A quote and an entry match when, lower-cased, either contains the other. */
  predicate EntryMatchesQuote(entry: string, quote: string) {
    var e := Lower(entry);
    var q := Lower(quote);
    Contains(e, q) || Contains(q, e)
  }

  /** Some feedback entry matches the quote. */
  ghost predicate QuoteSupported(quote: string, entries: seq<string>) {
    exists k :: 0 <= k < |entries| && EntryMatchesQuote(entries[k], quote)
  }

  /** `feedbackEntries.some(...)` for one quote. */
  function SomeEntryMatches(quote: string, entries: seq<string>): (b: bool)
    ensures b <==> QuoteSupported(quote, entries)
    decreases |entries|
  {
    if |entries| == 0 then false
    else if EntryMatchesQuote(entries[0], quote) then true
    else
      var b := SomeEntryMatches(quote, entries[1..]);
      assert QuoteSupported(quote, entries) ==> QuoteSupported(quote, entries[1..]) by {
        if QuoteSupported(quote, entries) {
          var k :| 0 <= k < |entries| && EntryMatchesQuote(entries[k], quote);
          assert k > 0 && entries[1..][k - 1] == entries[k];
        }
      }
      assert QuoteSupported(quote, entries[1..]) ==> QuoteSupported(quote, entries) by {
        if QuoteSupported(quote, entries[1..]) {
          var k :| 0 <= k < |entries[1..]| && EntryMatchesQuote(entries[1..][k], quote);
          assert entries[k + 1] == entries[1..][k];
        }
      }
      b
  }

  /** The quote filter: the supported quotes, in their original order; no
      supported quote is lost. */
  function FilterQuotes(quotes: seq<string>, entries: seq<string>): (r: seq<string>)
    ensures IsSubsequence(r, quotes)
    ensures forall k :: 0 <= k < |r| ==> QuoteSupported(r[k], entries)
    ensures forall q :: q in quotes && QuoteSupported(q, entries) ==> q in r
    decreases |quotes|
  {
    if |quotes| == 0 then []
    else
      var rest := FilterQuotes(quotes[1..], entries);
      assert quotes == [quotes[0]] + quotes[1..];
      SubsequenceSkip(rest, quotes[0], quotes[1..]);
      if SomeEntryMatches(quotes[0], entries) then
        SubsequenceKeep(rest, quotes[0], quotes[1..]);
        [quotes[0]] + rest
      else rest
  }
  /** No copy of a supported quote is lost, and no copy of an unsupported
      one is kept. */
  lemma {:induction false} FilterQuotesCounts(quotes: seq<string>, entries: seq<string>, q: string)
    ensures multiset(FilterQuotes(quotes, entries))[q] == if QuoteSupported(q, entries) then multiset(quotes)[q] else 0
    decreases |quotes|
  {
    if |quotes| > 0 {
      assert quotes == [quotes[0]] + quotes[1..];
      assert multiset(quotes) == multiset([quotes[0]]) + multiset(quotes[1..]);
      FilterQuotesCounts(quotes[1..], entries, q);
    }
  }


  /** The fallback test of one entry against a theme's name and summary. */
  predicate IsRepresentative(entry: string, name: string, summary: string) {
    Contains(Lower(entry), Lower(name)) ||
    Contains(Lower(summary), Take(Lower(entry), FallbackPrefixLength))
  }

  /** `feedbackEntries.find(...)`: the position of the first representative entry at or after `from`. */
  function FindRepresentativeFrom(entries: seq<string>, name: string, summary: string, from: nat): (r: Option<nat>)
    requires from <= |entries|
    ensures r.Some? ==> from <= r.value < |entries| && IsRepresentative(entries[r.value], name, summary)
    ensures r.Some? ==> forall j :: from <= j < r.value ==> !IsRepresentative(entries[j], name, summary)
    ensures r.None? ==> forall j :: from <= j < |entries| ==> !IsRepresentative(entries[j], name, summary)
    decreases |entries| - from
  {
    if from == |entries| then None
    else if IsRepresentative(entries[from], name, summary) then Some(from)
    else FindRepresentativeFrom(entries, name, summary, from + 1)
  }

  /** What the loop body does to one theme: filter its quotes and, when none
      survive, put in the first representative entry. JavaScript's
      `if (relatedEntry)` treats a found empty string as not found. */
  function ValidateQuotes(theme: Theme, entries: seq<string>): (v: Theme)
    // only the quotes change
    ensures v == theme.(quotes := v.quotes)
    // the surviving quotes are kept as they are
    ensures FilterQuotes(theme.quotes, entries) != [] ==> v.quotes == FilterQuotes(theme.quotes, entries)
    // otherwise exactly the first representative entry, if it is not empty
    ensures FilterQuotes(theme.quotes, entries) == [] ==>
      var found := FindRepresentativeFrom(entries, theme.name, theme.summary, 0);
      v.quotes == if found.Some? && entries[found.value] != "" then [entries[found.value]] else []
    // every resulting quote matches some entry
    ensures forall k :: 0 <= k < |v.quotes| ==> QuoteSupported(v.quotes[k], entries)
  {
    var kept := FilterQuotes(theme.quotes, entries);
    if kept != [] then theme.(quotes := kept)
    else
      var found := FindRepresentativeFrom(entries, theme.name, theme.summary, 0);
      if found.Some? && entries[found.value] != "" then
        var e := entries[found.value];
        assert EntryMatchesQuote(e, e) by {
          assert IsPrefix(Lower(e), Lower(e));
        }
        theme.(quotes := [e])
      else theme.(quotes := [])
  }

  /** The themes `analyzeFeedbackWithAI` returns for a reply's raw themes:
      each normalised, then its quotes validated; every quote left matches
      some entry. */
  function ShapeThemes(raws: seq<RawTheme>, entries: seq<string>): (ts: seq<Theme>)
    ensures |ts| == |raws|
    ensures forall i :: 0 <= i < |raws| ==> ts[i] == ValidateQuotes(Normalize(raws[i]), entries)
    ensures forall i, k :: 0 <= i < |ts| && 0 <= k < |ts[i].quotes| ==> QuoteSupported(ts[i].quotes[k], entries)
  {
    var ts := seq(|raws|, i requires 0 <= i < |raws| => ValidateQuotes(Normalize(raws[i]), entries));
    assert forall i :: 0 <= i < |ts| ==> ts[i] == ValidateQuotes(Normalize(raws[i]), entries);
    ts
  }

  /** `analyzeFeedbackWithAI` from the reply on: normalise the themes, then
      validate each theme's quotes in place, then count. */
  method AnalyzeFeedbackWithAI(entries: seq<string>, reply: ModelReply) returns (r: Result<AnalysisResults>)
    ensures reply.CallFailed? ==>
      r == Failure(ErrorPrefix + if reply.message.Some? then reply.message.value else "Unknown error")
    ensures reply.Reply? ==> r.Success?
    ensures reply.Reply? ==>
      && r.value.themes == ShapeThemes(ReplyThemes(reply), entries)
      && r.value.themesFound == |r.value.themes| == |ReplyThemes(reply)|
      && r.value.totalFeedback == |entries|
  {
    if reply.CallFailed? {
      r := Failure(ErrorPrefix + if reply.message.Some? then reply.message.value else "Unknown error");
      return;
    }
    var raws := ReplyThemes(reply);
    ghost var shaped := ShapeThemes(raws, entries);
    var themes := new Theme[|raws|](i requires 0 <= i < |raws| => Normalize(raws[i]));
    var i := 0;
    while i < themes.Length
      invariant 0 <= i <= themes.Length
      invariant themes[..i] == shaped[..i]
      invariant forall k :: i <= k < themes.Length ==> themes[k] == Normalize(raws[k])
    {
      var v := ValidateTheme(themes[i], entries);
      themes[i] := v;
      assert themes[..i + 1] == themes[..i] + [v];
      i := i + 1;
    }
    assert themes[..] == themes[..themes.Length];
    r := Success(AnalysisResults(themes[..], |entries|, themes.Length));
  }

  /** One pass of the `forEach` body: the quotes are filtered, then, when
      none is left, replaced by the first representative entry if it is not
      empty. */
  method ValidateTheme(theme: Theme, entries: seq<string>) returns (v: Theme)
    ensures v == ValidateQuotes(theme, entries)
  {
    v := theme.(quotes := FilterQuotes(theme.quotes, entries));
    if |v.quotes| == 0 {
      var related := FindRepresentativeFrom(entries, v.name, v.summary, 0);
      if related.Some? && entries[related.value] != "" {
        v := v.(quotes := [entries[related.value]]);
      }
    }
  }
}
