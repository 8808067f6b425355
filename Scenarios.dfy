/**
 Worked inputs for the three queries, with the results every run gives.
 Only the columns the queries read are fixed; every other field is free.
 */
module Scenarios {
  import opened Wrappers
  import opened Ranking
  import opened Windows
  import opened App

  lemma AirportCounts(s: seq<string>)
    requires s == ["A", "A", "B", "C", "A", "B"]
    ensures Count(s, "A") == 3 && Count(s, "B") == 2 && Count(s, "C") == 1
    ensures forall k :: k in s ==> k == "A" || k == "B" || k == "C"
  {
    assert Count(["A", "A", "B", "C", "A", "B"], "A") == 3;
    assert Count(["A", "A", "B", "C", "A", "B"], "B") == 2;
    assert Count(["A", "A", "B", "C", "A", "B"], "C") == 1;
  }

  /** The only result for source airports A, A, B, C, A, B and a limit of 2. */
  lemma BatchScenarioResult(s: seq<string>, out: seq<Row<string>>)
    requires s == ["A", "A", "B", "C", "A", "B"]
    requires IsTopN(s, 2, out)
    ensures out == [Row("A", 3), Row("B", 2)]
  {
    var expected := [Row("A", 3), Row("B", 2)];
    AirportCounts(s);
    assert KeysOf(expected) == ["A", "B"];
    assert IsTopN(s, 2, expected);
    forall k | k in s
      ensures Count(s, k) == 3 ==> k == "A"
      ensures Count(s, k) == 2 ==> k == "B"
    {
    }
    TopNUniqueWithoutTies(s, 2, out, expected);
  }

  /** Source airports A, A, B, C, A, B with a limit of 2 give (A, 3), (B, 2). */
  lemma BatchScenario(routes: seq<Route>)
    requires SourceAirports(routes) == ["A", "A", "B", "C", "A", "B"]
    ensures BatchTopN(routes, 2) == Ok([Row("A", 3), Row("B", 2)])
  {
    BatchScenarioResult(SourceAirports(routes), BatchTopN(routes, 2).value);
  }

  lemma WindowedCounts(s: seq<WindowKey>, first: WindowKey, second: WindowKey)
    requires first != second && s == [first, first, second]
    ensures Count(s, first) == 2 && Count(s, second) == 1
    ensures forall k :: k in s ==> k == first || k == second
  {
    assert s[1..][1..] == [second] && s[1..][1..][1..] == [];
    assert Count(s[1..][1..][1..], first) == 0 && Count(s[1..][1..][1..], second) == 0;
    assert Count(s[1..][1..], first) == 0 && Count(s[1..][1..], second) == 1;
    assert Count(s[1..], first) == 1 && Count(s[1..], second) == 1;
  }

  /** The only result for keys (w0, A), (w0, A), (w15, B) and a limit of 10. */
  lemma WindowedScenarioResult(s: seq<WindowKey>, out: seq<Row<WindowKey>>)
    requires s == [WindowKey(Window(0, 15), "A"), WindowKey(Window(0, 15), "A"), WindowKey(Window(15, 30), "B")]
    requires IsTopN(s, 10, out)
    ensures out == [Row(WindowKey(Window(0, 15), "A"), 2), Row(WindowKey(Window(15, 30), "B"), 1)]
  {
    var first := WindowKey(Window(0, 15), "A");
    var second := WindowKey(Window(15, 30), "B");
    WindowedCounts(s, first, second);
    var expected := [Row(first, 2), Row(second, 1)];
    assert KeysOf(expected) == [first, second];
    IsTopNWhenAllKeysFit(s, 10, expected);
    forall k | k in s
      ensures Count(s, k) == 2 ==> k == first
      ensures Count(s, k) == 1 ==> k == second
    {
    }
    TopNUniqueWithoutTies(s, 10, out, expected);
  }

  /**
   Events A at 1 s, A at 3 s and B at 16 s in one micro-batch, with a limit
   of 10, give ([0, 15), A, 2) and ([15, 30), B, 1).
   */
  lemma WindowedScenario(a1: TimedRoute, a2: TimedRoute, b: TimedRoute)
    requires a1.datetime == 1 && a1.route.sourceAirport == "A"
    requires a2.datetime == 3 && a2.route.sourceAirport == "A"
    requires b.datetime == 16 && b.route.sourceAirport == "B"
    ensures WindowedTopN([[a1, a2, b]], 10).Ok?
    ensures |WindowedTopN([[a1, a2, b]], 10).value| == 1
    ensures WindowedTopN([[a1, a2, b]], 10).value[0]
         == [Row(WindowKey(Window(0, 15), "A"), 2), Row(WindowKey(Window(15, 30), "B"), 1)]
  {
    var batches := [[a1, a2, b]];
    assert batches[..1] == batches && batches[..0] == [];
    assert Accumulated(batches[..1]) == [a1, a2, b];
    assert WindowOf(1) == Window(0, 15) && WindowOf(3) == Window(0, 15) && WindowOf(16) == Window(15, 30);
    var s := WindowKeys([a1, a2, b]);
    assert s == [WindowKey(Window(0, 15), "A"), WindowKey(Window(0, 15), "A"), WindowKey(Window(15, 30), "B")];
    WindowedScenarioResult(s, WindowedTopN(batches, 10).value[0]);
  }

  /**
   In the windowed query the limit counts rows over all windows: with two
   windows holding one airport each and a limit of 1, one row is produced,
   not one per window.
   */
  lemma WindowedLimitSpansWindows(a: TimedRoute, b: TimedRoute)
    requires a.datetime == 1 && b.datetime == 16
    ensures WindowOf(a.datetime) != WindowOf(b.datetime)
    ensures WindowedTopN([[a, b]], 1).Ok?
    ensures |WindowedTopN([[a, b]], 1).value[0]| == 1
  {
    var batches := [[a, b]];
    assert batches[..1] == batches && batches[..0] == [];
    assert Accumulated(batches) == batches[0];
    assert WindowOf(1) == Window(0, 15) && WindowOf(16) == Window(15, 30);
    var keys := WindowKeys(batches[0]);
    assert keys[0] != keys[1];
    assert KeySet(keys) == {keys[0], keys[1]};
    WindowedLimitIsOverall(batches, 1, 0);
  }

  /** The only result when every row has source airport A. */
  lemma OnlyAirportA(s: seq<string>, n: nat, out: seq<Row<string>>)
    requires s == ["A"] || s == ["A", "A"]
    requires n >= 1 && IsTopN(s, n, out)
    ensures out == [Row("A", |s|)]
  {
    assert Count(["A"], "A") == 1 && Count(["A", "A"], "A") == 2;
    var expected := [Row("A", |s|)];
    assert KeysOf(expected) == ["A"];
    IsTopNWhenAllKeysFit(s, n, expected);
    TopNUniqueWithoutTies(s, n, out, expected);
  }

  /** Two micro-batches of one A route each: the second complete-mode output shows (A, 2), not (A, 1). */
  lemma CompleteScenario(x: Route, y: Route, topN: int)
    requires x.sourceAirport == "A" && y.sourceAirport == "A" && topN >= 1
    ensures CompleteTopN([[x], [y]], topN).Ok?
    ensures |CompleteTopN([[x], [y]], topN).value| == 2
    ensures CompleteTopN([[x], [y]], topN).value[0] == [Row("A", 1)]
    ensures CompleteTopN([[x], [y]], topN).value[1] == [Row("A", 2)]
  {
    var batches := [[x], [y]];
    AccumulatedStep(batches, 0);
    AccumulatedStep(batches, 1);
    assert batches[..0] == [];
    assert SourceAirports(Accumulated(batches[..1])) == SourceAirports([x]) == ["A"];
    assert SourceAirports(Accumulated(batches[..2])) == SourceAirports([x, y]) == ["A", "A"];
    var r := CompleteTopN(batches, topN);
    OnlyAirportA(SourceAirports(Accumulated(batches[..1])), topN, r.value[0]);
    OnlyAirportA(SourceAirports(Accumulated(batches[..2])), topN, r.value[1]);
  }
}
