/** The paste box (client/src/components/manual-input.tsx): the text is split
    into lines, each line trimmed, blank lines dropped, and the entries are
    reported to the page on every change. */
module ManualInput {
  import opened Text

  /** A reported entry: non-empty and equal to its own trim. */
  predicate IsEntry(e: string) {
    e != "" && Trim(e) == e
  }

  /** `lines.map(trim).filter(line => line.length > 0)`. */
  function CleanLines(lines: seq<string>): (r: seq<string>)
    ensures |r| <= |lines|
    ensures forall k :: 0 <= k < |r| ==> IsEntry(r[k])
  {
    if |lines| == 0 then []
    else
      var rest := CleanLines(lines[1..]);
      var t := Trim(lines[0]);
      if t != "" then
        TrimIdempotent(lines[0]);
        PrependEntry(t, rest);
        [t] + rest
      else rest
  }

  /** An entry in front of entries gives entries. */
  lemma PrependEntry(t: string, rest: seq<string>)
    requires IsEntry(t)
    requires forall k :: 0 <= k < |rest| ==> IsEntry(rest[k])
    ensures forall k :: 0 <= k < |[t] + rest| ==> IsEntry(([t] + rest)[k])
  {
  }

  /** The entries `handleInputChange` reports for the text `value`. */
  function FeedbackEntries(value: string): (r: seq<string>)
    ensures forall k :: 0 <= k < |r| ==> r[k] != "" && Trim(r[k]) == r[k] && '\n' !in r[k]
    ensures |r| <= CountLineFeeds(value) + 1
  {
    var lines := SplitLines(value);
    CleanLinesKeepFeedFree(lines);
    CleanLines(lines)
  }

  /** Trimming and dropping lines never introduces a line feed. */
  lemma {:induction false} CleanLinesKeepFeedFree(lines: seq<string>)
    requires forall k :: 0 <= k < |lines| ==> '\n' !in lines[k]
    ensures forall k :: 0 <= k < |CleanLines(lines)| ==> '\n' !in CleanLines(lines)[k]
    decreases |lines|
  {
    if |lines| > 0 {
      CleanLinesKeepFeedFree(lines[1..]);
      TrimAddsNothing(lines[0], '\n');
    }
  }

  /** Cleaning keeps line order: two runs of lines clean to the concatenation
      of their cleaned runs. */
  lemma {:induction false} CleanLinesAppend(a: seq<string>, b: seq<string>)
    ensures CleanLines(a + b) == CleanLines(a) + CleanLines(b)
    decreases |a|
  {
    if |a| > 0 {
      assert (a + b)[1..] == a[1..] + b;
      CleanLinesAppend(a[1..], b);
    } else {
      assert a + b == b;
    }
  }

  /** One line contributes its trimmed self when that is not empty. */
  lemma CleanLinesSingle(line: string)
    ensures CleanLines([line]) == if Trim(line) != "" then [Trim(line)] else []
  {
    assert [line][1..] == [];
  }

  /** Lines that are already clean pass through unchanged. */
  lemma {:induction false} CleanLinesOfClean(xs: seq<string>)
    requires forall k :: 0 <= k < |xs| ==> xs[k] != "" && Trim(xs[k]) == xs[k]
    ensures CleanLines(xs) == xs
    decreases |xs|
  {
    if |xs| > 0 {
      var rest := xs[1..];
      assert xs == [xs[0]] + rest;
      CleanLinesOfClean(rest);
      assert CleanLines(xs) == [xs[0]] + rest;
    }
  }

  lemma {:induction false} SplitBlankLines(s: string)
    requires AllWhitespace(s)
    ensures forall k :: 0 <= k < |SplitLines(s)| ==> AllWhitespace(SplitLines(s)[k])
    decreases |s|
  {
    if |s| > 0 {
      SplitBlankLines(s[1..]);
      var rest := SplitLines(s[1..]);
      if s[0] != '\n' {
        var first := [s[0]] + rest[0];
        assert AllWhitespace(rest[0]);
        assert forall i :: 1 <= i < |first| ==> first[i] == rest[0][i - 1];
        assert AllWhitespace(first);
      }
    }
  }

  lemma {:induction false} CleanBlankLines(lines: seq<string>)
    requires forall k :: 0 <= k < |lines| ==> AllWhitespace(lines[k])
    ensures CleanLines(lines) == []
    decreases |lines|
  {
    if |lines| > 0 {
      TrimEmptyIffBlank(lines[0]);
      CleanBlankLines(lines[1..]);
    }
  }

  /** Empty or whitespace-only text reports no entries. */
  lemma BlankInputHasNoEntries(value: string)
    requires AllWhitespace(value)
    ensures FeedbackEntries(value) == []
  {
    SplitBlankLines(value);
    CleanBlankLines(SplitLines(value));
  }

  /** Pasting the reported entries back, one per line, reports the same entries. */
  lemma EntriesRoundTrip(value: string)
    ensures FeedbackEntries(Join(FeedbackEntries(value), "\n")) == FeedbackEntries(value)
  {
    var xs := FeedbackEntries(value);
    if |xs| == 0 {
      assert SplitLines("") == [""];
      assert Trim("") == "";
    } else {
      SplitJoinLines(xs);
      CleanLinesOfClean(xs);
    }
  }

  /** The text area's state: the text and what was last reported to the page. */
  class ManualInputBox {
    var manualFeedback: string

    constructor ()
      ensures manualFeedback == ""
    {
      manualFeedback := "";
    }

    /** `handleInputChange`: store the text, report its entries. */
    method HandleInputChange(value: string) returns (entries: seq<string>)
      modifies this
      ensures manualFeedback == value
      ensures entries == FeedbackEntries(value)
    {
      manualFeedback := value;
      entries := CleanLines(SplitLines(value));
    }

    /** `clearInput`: empty the text, report no entries. */
    method ClearInput() returns (entries: seq<string>)
      modifies this
      ensures manualFeedback == "" && entries == []
      ensures entries == FeedbackEntries(manualFeedback)
    {
      manualFeedback := "";
      entries := [];
      BlankInputHasNoEntries("");
    }
  }
}
