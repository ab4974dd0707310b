/** The analysis history page (client/src/pages/analysis-history.tsx): the
    fetched analyses narrowed by a search text and a status filter, and the
    message shown when nothing is left. */
module AnalysisHistory {
  import opened Text
  import opened Schema
  import opened Sequences

  /** The search: the lower-cased title contains the lower-cased query, or
      the description is present and its lower-cased form does. */
  predicate MatchesSearch(a: FeedbackAnalysis, query: string) {
    || Contains(Lower(a.title), Lower(query))
    || (a.description.Some? && Contains(Lower(a.description.value), Lower(query)))
  }

  /** The status test of each `filterBy` value; any other value, "all"
      included, tests nothing. */
  predicate MatchesStatus(a: FeedbackAnalysis, filterBy: string) {
    if filterBy == "completed" then a.analysisResults.Some?
    else if filterBy == "pending" then a.analysisResults.None?
    else if filterBy == "shared" then a.isShared
    else true
  }

  /** `filteredAnalyses`: the analyses that match the search and the status
      filter, in the order fetched. */
  function FilteredAnalyses(analyses: seq<FeedbackAnalysis>, query: string, filterBy: string): (r: seq<FeedbackAnalysis>)
    ensures IsSubsequence(r, analyses)
    ensures forall k :: 0 <= k < |r| ==> MatchesSearch(r[k], query)
    ensures filterBy == "completed" ==> forall k :: 0 <= k < |r| ==> r[k].analysisResults.Some?
    ensures filterBy == "pending" ==> forall k :: 0 <= k < |r| ==> r[k].analysisResults.None?
    ensures filterBy == "shared" ==> forall k :: 0 <= k < |r| ==> r[k].isShared
    ensures forall a ::
      (&& a in analyses
       && MatchesSearch(a, query)
       && (filterBy == "completed" ==> a.analysisResults.Some?)
       && (filterBy == "pending" ==> a.analysisResults.None?)
       && (filterBy == "shared" ==> a.isShared))
      ==> a in r
  {
    var r := Filter(analyses, (a: FeedbackAnalysis) => MatchesSearch(a, query) && MatchesStatus(a, filterBy));
    assert forall k :: 0 <= k < |r| ==> MatchesStatus(r[k], filterBy);
    r
  }

  /** A filter value other than the three status names keeps exactly the
      search matches, as "all" does. */
  lemma OtherFilterIsAll(analyses: seq<FeedbackAnalysis>, query: string, filterBy: string)
    requires filterBy != "completed" && filterBy != "pending" && filterBy != "shared"
    ensures FilteredAnalyses(analyses, query, filterBy) == FilteredAnalyses(analyses, query, "all")
  {
    FilterCongruent(analyses,
      (a: FeedbackAnalysis) => MatchesSearch(a, query) && MatchesStatus(a, filterBy),
      (a: FeedbackAnalysis) => MatchesSearch(a, query) && MatchesStatus(a, "all"));
  }

  /** The empty query matches every analysis, so with "all" nothing is hidden. */
  lemma EmptySearchShowsAll(analyses: seq<FeedbackAnalysis>)
    ensures FilteredAnalyses(analyses, "", "all") == analyses
  {
    forall k | 0 <= k < |analyses|
      ensures MatchesSearch(analyses[k], "") && MatchesStatus(analyses[k], "all")
    {
      assert IsPrefix(Lower(""), Lower(analyses[k].title));
    }
    FilterKeepsAll(analyses, (a: FeedbackAnalysis) => MatchesSearch(a, "") && MatchesStatus(a, "all"));
  }

  /** For one query, the "completed" and "pending" views share no analysis,
      and together they hold exactly the analyses of the "all" view, each once. */
  lemma CompletedPendingPartition(analyses: seq<FeedbackAnalysis>, query: string)
    ensures forall a :: a in FilteredAnalyses(analyses, query, "completed") ==> a !in FilteredAnalyses(analyses, query, "pending")
    ensures forall a :: a in FilteredAnalyses(analyses, query, "all") <==>
      a in FilteredAnalyses(analyses, query, "completed") || a in FilteredAnalyses(analyses, query, "pending")
    ensures |FilteredAnalyses(analyses, query, "completed")| + |FilteredAnalyses(analyses, query, "pending")|
      == |FilteredAnalyses(analyses, query, "all")|
  {
    var all := FilteredAnalyses(analyses, query, "all");
    var completed := FilteredAnalyses(analyses, query, "completed");
    var pending := FilteredAnalyses(analyses, query, "pending");
    SubsequenceMembers(completed, analyses);
    SubsequenceMembers(pending, analyses);
    SubsequenceMembers(all, analyses);
    forall a | a in completed
      ensures a !in pending
    {
      var i :| 0 <= i < |completed| && completed[i] == a;
      assert a.analysisResults.Some?;
    }
    forall a | a in all
      ensures a in completed || a in pending
    {
      var i :| 0 <= i < |all| && all[i] == a;
      assert MatchesSearch(a, query);
    }
    forall a | a in completed || a in pending
      ensures a in all
    {
      if a in completed {
        var i :| 0 <= i < |completed| && completed[i] == a;
        assert MatchesSearch(a, query);
      } else {
        var i :| 0 <= i < |pending| && pending[i] == a;
        assert MatchesSearch(a, query);
      }
    }
    FilterSplitLength(analyses,
      (a: FeedbackAnalysis) => MatchesSearch(a, query) && MatchesStatus(a, "all"),
      (a: FeedbackAnalysis) => MatchesSearch(a, query) && MatchesStatus(a, "completed"),
      (a: FeedbackAnalysis) => MatchesSearch(a, query) && MatchesStatus(a, "pending"));
  }

  /** The empty-state card: its heading, its hint, and whether it offers the
      "Create Analysis" button. */
  datatype EmptyState = EmptyState(title: string, hint: string, offersCreate: bool)

  /** The card shown when the filtered list is empty: a search text or a
      status filter other than "all" means the list was narrowed. */
  function EmptyStateFor(query: string, filterBy: string): (r: EmptyState)
    ensures r.title == "No analyses yet" <==> query == "" && filterBy == "all"
    ensures r.title == "No matching analyses found" <==> query != "" || filterBy != "all"
    ensures r.offersCreate <==> r.title == "No analyses yet"
    ensures r.hint == (if r.offersCreate then "Start by creating your first feedback analysis" else "Try adjusting your search or filters")
  {
    if query != "" || filterBy != "all" then
      EmptyState("No matching analyses found", "Try adjusting your search or filters", false)
    else
      EmptyState("No analyses yet", "Start by creating your first feedback analysis", true)
  }

  /** "No analyses yet" is never shown while the user has analyses: when the
      filtered list is empty under that card, the fetched list is empty too. */
  lemma NoAnalysesYetIsTruthful(analyses: seq<FeedbackAnalysis>, query: string, filterBy: string)
    requires FilteredAnalyses(analyses, query, filterBy) == []
    requires EmptyStateFor(query, filterBy).title == "No analyses yet"
    ensures analyses == []
  {
    EmptySearchShowsAll(analyses);
  }
}
