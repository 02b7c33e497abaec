/** The 24-hour traffic chart of the web panel: one point per hour label of the last 24
    hours, each carrying the flow reported for that label (vue-frontend/src/utils/flowChart.ts).
    The clock is a parameter: the current local hour. */
module FlowChart {
  import opened Wrappers
  import opened Strs
  import opened Format

  /** One statistics row as the panel receives it; `flow` may be missing. */
  datatype StatItem = StatItem(time: string, flow: Option<int>)

  /** One chart point. */
  datatype ChartPoint = ChartPoint(time: string, value: int, formattedFlow: FlowText)

  /** `h.toString().padStart(2, '0') + ':00'`. */
  function HourLabel(h: nat): string {
    Pad2(h) + ":00"
  }

  /** The local hour `i` hours before the current hour (`getHours()` of now − i h). */
  function HourAgo(nowHour: nat, i: int): nat {
    (nowHour - i) % 24
  }

  /** `item.flow || 0`: a missing flow counts as 0. */
  function OrZero(flow: Option<int>): int {
    match flow
    case None => 0
    case Some(v) => v
  }

  /** What the `Map` filled by the `forEach` holds for a label: the flow of the last item
      with that label, or nothing. */
  function LatestFlow(items: seq<StatItem>, tag: string): Option<int> {
    if |items| == 0 then None
    else if items[|items| - 1].time == tag then Some(OrZero(items[|items| - 1].flow))
    else LatestFlow(items[..|items| - 1], tag)
  }

  /** `processFlowChartData(statisticsFlows)` at the current hour `nowHour`. */
  method ProcessFlowChartData(flows: seq<StatItem>, nowHour: nat) returns (points: seq<ChartPoint>)
    requires nowHour < 24
    ensures |points| == 24
    ensures forall k :: 0 <= k < 24 ==> points[k].time == HourLabel(HourAgo(nowHour, 23 - k))
    ensures forall k :: 0 <= k < 24 ==> points[k].value == LatestFlow(flows, points[k].time).GetOr(0)
    ensures forall k :: 0 <= k < 24 ==> points[k].formattedFlow == FormatFlow(points[k].value, "bytes")
  {
    var hours: seq<string> := [];
    var i := 23;
    while i >= 0
      invariant -1 <= i <= 23
      invariant |hours| == 23 - i
      invariant forall k :: 0 <= k < |hours| ==> hours[k] == HourLabel(HourAgo(nowHour, 23 - k))
    {
      hours := hours + [HourLabel(HourAgo(nowHour, i))];
      i := i - 1;
    }

    var flowMap: map<string, int> := map[];
    var j := 0;
    while j < |flows|
      invariant 0 <= j <= |flows|
      invariant forall l :: LatestFlow(flows[..j], l) == (if l in flowMap then Some(flowMap[l]) else None)
    {
      assert flows[..j + 1][..j] == flows[..j];
      flowMap := flowMap[flows[j].time := OrZero(flows[j].flow)];
      j := j + 1;
    }
    assert flows[..|flows|] == flows;

    points := seq(24, k requires 0 <= k < 24 =>
      var flowVal := if hours[k] in flowMap then flowMap[hours[k]] else 0;
      ChartPoint(hours[k], flowVal, FormatFlow(flowVal, "bytes")));
  }

  /** The reference reading of a chart value: no item carries the label exactly when the
      lookup is empty, and otherwise the value is the (zero-defaulted) flow of an item with
      that label after which no item carries it again. */
  lemma {:induction false} LatestFlowIsLastMatch(items: seq<StatItem>, tag: string)
    ensures LatestFlow(items, tag).None? <==> forall j :: 0 <= j < |items| ==> items[j].time != tag
    ensures LatestFlow(items, tag).Some? ==>
      exists j :: 0 <= j < |items| && items[j].time == tag &&
        LatestFlow(items, tag).value == OrZero(items[j].flow) &&
        forall j' :: j < j' < |items| ==> items[j'].time != tag
    decreases |items|
  {
    if |items| > 0 {
      var init := items[..|items| - 1];
      LatestFlowIsLastMatch(init, tag);
      if items[|items| - 1].time != tag {
        assert forall j :: 0 <= j < |init| ==> init[j] == items[j];
      }
    }
  }

  /** A later item with the same label overrides every earlier one, and leaves the other
      labels alone. */
  lemma LaterItemWins(items: seq<StatItem>, x: StatItem, tag: string)
    ensures LatestFlow(items + [x], x.time) == Some(OrZero(x.flow))
    ensures tag != x.time ==> LatestFlow(items + [x], tag) == LatestFlow(items, tag)
  {
    assert (items + [x])[..|items|] == items;
  }

  /** A missing flow and a zero flow both chart as 0, as does a label with no item. */
  lemma MissingChartsAsZero(items: seq<StatItem>, tag: string)
    requires forall j :: 0 <= j < |items| && items[j].time == tag ==> OrZero(items[j].flow) == 0
    ensures LatestFlow(items, tag).GetOr(0) == 0
  {
    LatestFlowIsLastMatch(items, tag);
  }

  /** The labels run through consecutive hours and end at the current hour. */
  lemma LabelsConsecutive(nowHour: nat, k: nat)
    requires nowHour < 24 && k < 23
    ensures HourAgo(nowHour, 0) == nowHour
    ensures HourAgo(nowHour, 23 - (k + 1)) == (HourAgo(nowHour, 23 - k) + 1) % 24
    ensures HourAgo(nowHour, 23 - k) < 24
  {
  }

  /** Distinct hours of the day give distinct labels, so the 24 points carry 24 different
      labels. */
  lemma {:induction false} HourLabelInjective(a: nat, b: nat)
    requires a < 24 && b < 24 && HourLabel(a) == HourLabel(b)
    ensures a == b
  {
    assert Pad2(a) == HourLabel(a)[..2];
    assert Pad2(b) == HourLabel(b)[..2];
    Pad2Value(a);
    Pad2Value(b);
  }

  lemma LabelsDistinct(nowHour: nat, k1: nat, k2: nat)
    requires nowHour < 24 && k1 < k2 < 24
    ensures HourLabel(HourAgo(nowHour, 23 - k1)) != HourLabel(HourAgo(nowHour, 23 - k2))
  {
    if HourLabel(HourAgo(nowHour, 23 - k1)) == HourLabel(HourAgo(nowHour, 23 - k2)) {
      HourLabelInjective(HourAgo(nowHour, 23 - k1), HourAgo(nowHour, 23 - k2));
    }
  }
}
