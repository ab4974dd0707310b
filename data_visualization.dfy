/** The theme charts (client/src/components/data-visualization.tsx): one chart
    entry per theme with a shortened label and a cycling colour, the pie
    label threshold, and the summary figures under the charts. Percentages
    are exact reals here. */
module DataVisualization {
  import opened Schema

  /** The six chart colours, used in turn. */
  const Colors: seq<string> := ["#3B82F6", "#EF4444", "#F59E0B", "#10B981", "#8B5CF6", "#F97316"]

  /** Labels longer than this are cut. */
  const NameLimit := 20

  /** The smallest percentage whose pie slice carries a label. */
  const LabelThreshold: real := 8.0

  /** `Math.round`: the nearest integer, halves rounded up. */
  function Round(x: real): (r: int)
    ensures r as real - 0.5 <= x < r as real + 0.5
  {
    (x + 0.5).Floor
  }

  /** The axis label of a theme name: a long name is cut to its first
      twenty characters followed by "...". */
  function ChartName(name: string): (r: string)
    ensures |r| <= NameLimit + 3
    ensures |name| <= NameLimit ==> r == name
    ensures |name| > NameLimit ==> |r| == NameLimit + 3 && r[..NameLimit] == name[..NameLimit] && r[NameLimit..] == "..."
  {
    if |name| > NameLimit then name[..NameLimit] + "..." else name
  }

  /** One chart entry: the shortened label, the full name for the tooltip,
      the percentage, the rounded count of responses and the colour. */
  datatype ChartEntry = ChartEntry(name: string, fullName: string, percentage: real, count: int, color: string)

  /** The entry of the theme at position `index`. */
  function Entry(theme: Theme, index: nat, totalFeedback: nat): ChartEntry {
    ChartEntry(
      ChartName(theme.name),
      theme.name,
      theme.percentage,
      Round(theme.percentage / 100.0 * totalFeedback as real),
      Colors[index % |Colors|])
  }

  /** `chartData`: one entry per theme, in order. */
  function ChartData(themes: seq<Theme>, totalFeedback: nat): (r: seq<ChartEntry>)
    ensures |r| == |themes|
    ensures forall i :: 0 <= i < |r| ==>
      && r[i].fullName == themes[i].name
      && r[i].percentage == themes[i].percentage
      && r[i].name == ChartName(themes[i].name)
      && r[i].color == Colors[i % |Colors|]
      && r[i].count as real - 0.5 <= themes[i].percentage / 100.0 * totalFeedback as real < r[i].count as real + 0.5
  {
    seq(|themes|, i requires 0 <= i < |themes| => Entry(themes[i], i, totalFeedback))
  }

  /** The colours repeat every six entries. */
  lemma ColorsRepeat(themes: seq<Theme>, totalFeedback: nat, i: nat)
    requires i + |Colors| < |themes|
    ensures ChartData(themes, totalFeedback)[i].color == ChartData(themes, totalFeedback)[i + |Colors|].color
  {
    assert (i + |Colors|) % |Colors| == i % |Colors|;
  }

  /** The six colours are distinct. */
  lemma ColorsDistinct(a: nat, b: nat)
    requires a < b < |Colors|
    ensures Colors[a] != Colors[b]
  {
    assert Colors[0][1..3] == "3B" && Colors[1][1..3] == "EF" && Colors[2][1..3] == "F5";
    assert Colors[3][1..3] == "10" && Colors[4][1..3] == "8B" && Colors[5][1..3] == "F9";
  }

  /** Positions less than six apart fall in different residues modulo six. */
  lemma ResiduesDiffer(i: nat, j: nat)
    requires i < j && j - i < 6
    ensures i % 6 != j % 6
  {
    var q, a := i / 6, i % 6;
    var d := j - i;
    if a + d < 6 {
      assert j == 6 * q + (a + d);
    } else {
      assert j == 6 * (q + 1) + (a + d - 6);
    }
  }

  /** Within any six consecutive entries no colour is used twice. */
  lemma NearbyColorsDiffer(themes: seq<Theme>, totalFeedback: nat, i: nat, j: nat)
    requires i < j < |themes| && j - i < |Colors|
    ensures ChartData(themes, totalFeedback)[i].color != ChartData(themes, totalFeedback)[j].color
  {
    ResiduesDiffer(i, j);
    if i % 6 < j % 6 {
      ColorsDistinct(i % 6, j % 6);
    } else {
      ColorsDistinct(j % 6, i % 6);
    }
  }

  /** `renderCustomLabel` draws a label unless the slice is under the threshold. */
  predicate ShowsPieLabel(percentage: real) {
    !(percentage < LabelThreshold)
  }

  /** The sum of the percentages, as the coverage `reduce` adds them. */
  function SumPercentages(themes: seq<Theme>): real {
    if |themes| == 0 then 0.0 else SumPercentages(themes[..|themes| - 1]) + themes[|themes| - 1].percentage
  }

  /** The number of slices that carry a label. */
  function LabelledSlices(themes: seq<Theme>): (n: nat)
    ensures n <= |themes|
  {
    if |themes| == 0 then 0
    else LabelledSlices(themes[..|themes| - 1]) + (if ShowsPieLabel(themes[|themes| - 1].percentage) then 1 else 0)
  }

  /** With no negative percentage, each labelled slice stands for at least
      the threshold, so the labels are at most the sum over the threshold. */
  lemma {:induction false} LabelsBoundedBySum(themes: seq<Theme>)
    requires forall k :: 0 <= k < |themes| ==> themes[k].percentage >= 0.0
    ensures LabelledSlices(themes) as real * LabelThreshold <= SumPercentages(themes)
    decreases |themes|
  {
    if |themes| > 0 {
      var init := themes[..|themes| - 1];
      assert forall k :: 0 <= k < |init| ==> init[k] == themes[k];
      LabelsBoundedBySum(init);
    }
  }

  /** Percentages that add up to at most 100 leave room for at most twelve
      pie labels. */
  lemma AtMostTwelveLabels(themes: seq<Theme>)
    requires forall k :: 0 <= k < |themes| ==> themes[k].percentage >= 0.0
    requires SumPercentages(themes) <= 100.0
    ensures LabelledSlices(themes) <= 12
  {
    LabelsBoundedBySum(themes);
  }

  /** The three summary figures: themes, responses and coverage. */
  datatype SummaryStats = SummaryStats(themes: nat, responses: nat, coverage: int)

  /** The summary under the charts: the coverage is the rounded sum of the
      percentages, and 0 when there is no theme. */
  function Summary(themes: seq<Theme>, totalFeedback: nat): (r: SummaryStats)
    ensures r.themes == |themes| && r.responses == totalFeedback
    ensures |themes| == 0 ==> r.coverage == 0
    ensures |themes| > 0 ==>
      r.coverage as real - 0.5 <= SumPercentages(themes) < r.coverage as real + 0.5
  {
    SummaryStats(|themes|, totalFeedback, if |themes| > 0 then Round(SumPercentages(themes)) else 0)
  }
}
