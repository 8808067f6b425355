/**
 The OpenFlights application object: the route schema it owns and rewrites
 in place for streaming, and the meaning of its three top-N queries over the
 source airports of route rows — the batch query, the unbounded stream in
 complete output mode, and the stream grouped by 15-second tumbling window.
 */
module App {
  import opened Wrappers
  import opened Schema
  import opened Ranking
  import opened Windows

  /** One route row: the eight fields both schemas share (the ninth is read but never used). */
  datatype Route = Route(
    airline: string,
    airlineId: int,
    sourceAirport: string,
    sourceAirportId: int,
    destinationAirport: string,
    destinationAirportId: int,
    codeshare: string,
    stops: int)

  /** A route row read with the streaming schema: its `datetime` field, in whole seconds. */
  datatype TimedRoute = TimedRoute(route: Route, datetime: int)

  /** The grouping key of the windowed query: (window, `Source_airport`). */
  datatype WindowKey = WindowKey(window: Window, sourceAirport: string)

  datatype QueryError =
    | NegativeLimit(topN: int)            // `limit` refuses a negative row count
    | UnresolvedColumn(name: string)      // a grouping column the schema does not have

  /** The grouping column of the batch and the unbounded streaming queries. */
  function SourceAirports(routes: seq<Route>): (keys: seq<string>)
    ensures |keys| == |routes|
    ensures forall i :: 0 <= i < |routes| ==> keys[i] == routes[i].sourceAirport
  {
    seq(|routes|, i requires 0 <= i < |routes| => routes[i].sourceAirport)
  }

  /** The grouping columns of the windowed query: each event's window and its source airport. */
  function WindowKeys(events: seq<TimedRoute>): (keys: seq<WindowKey>)
    ensures |keys| == |events|
    ensures forall i :: 0 <= i < |events| ==>
      keys[i] == WindowKey(WindowOf(events[i].datetime), events[i].route.sourceAirport)
  {
    seq(|events|, i requires 0 <= i < |events| =>
      WindowKey(WindowOf(events[i].datetime), events[i].route.sourceAirport))
  }

  /** Every row the stream has delivered in the given micro-batches, in arrival order. */
  function Accumulated<T>(batches: seq<seq<T>>): seq<T>
  {
    if batches == [] then [] else Accumulated(batches[..|batches| - 1]) + batches[|batches| - 1]
  }

  /**
   The columns of `groupBy(cols).count()`: the grouping columns, then
   `count`, provided every grouping column is, spelled exactly, a field name
   of the schema (name matching is case-sensitive).
   */
  function CountColumns(fields: seq<StructField>, groupBy: seq<string>): (r: Result<seq<string>, QueryError>)
    ensures r.Ok? <==> forall i :: 0 <= i < |groupBy| ==> HasField(fields, groupBy[i])
    ensures r.Ok? ==> |r.value| == |groupBy| + 1 && r.value[..|groupBy|] == groupBy && r.value[|groupBy|] == "count"
    ensures r.Err? ==> r.error.UnresolvedColumn? && !HasField(fields, r.error.name)
  {
    if groupBy == [] then Ok(["count"])
    else if !HasField(fields, groupBy[0]) then Err(UnresolvedColumn(groupBy[0]))
    else match CountColumns(fields, groupBy[1..])
      case Ok(rest) => Ok([groupBy[0]] + rest)
      case Err(e) => Err(e)
  }

  /** The batch query and the complete-mode stream both produce the columns (`Source_airport`, `count`). */
  lemma SourceCountColumns(fields: seq<StructField>)
    requires IsRoutesSchema(fields)
    ensures CountColumns(fields, ["Source_airport"]) == Ok(["Source_airport", "count"])
  {
    DatetimeOnlyAfterRewrite(fields);
    var groupBy := ["Source_airport"];
    var r := CountColumns(fields, groupBy);
    assert r.Ok? && |r.value| == 2;
    assert r.value[0] == r.value[..1][0] == "Source_airport";
    assert r.value == ["Source_airport", "count"];
  }

  // ---------------------------------------------------------------------------
  // The three queries

  /** `create_top_n_source`: the top `topN` source airports of the whole route data set. */
  function BatchTopN(routes: seq<Route>, topN: int): (r: Result<seq<Row<string>>, QueryError>)
    ensures r.Err? <==> topN < 0
    ensures r.Err? ==> r.error == NegativeLimit(topN)
    ensures r.Ok? ==> IsTopN(SourceAirports(routes), topN, r.value)
  {
    if topN < 0 then Err(NegativeLimit(topN))
    else
      TopNIsTopN(SourceAirports(routes), topN);
      Ok(TopN(SourceAirports(routes), topN))
  }

  /**
   `stream_top_n_source` in complete output mode: after micro-batch `i` the
   console shows the top `topN` source airports of every route delivered
   in micro-batches `0..i`.
   */
  function CompleteTopN(batches: seq<seq<Route>>, topN: int): (r: Result<seq<seq<Row<string>>>, QueryError>)
    ensures r.Err? <==> topN < 0
    ensures r.Err? ==> r.error == NegativeLimit(topN)
    ensures r.Ok? ==> |r.value| == |batches|
    ensures r.Ok? ==> forall i :: 0 <= i < |batches| ==>
      IsTopN(SourceAirports(Accumulated(batches[..i + 1])), topN, r.value[i])
  {
    if topN < 0 then Err(NegativeLimit(topN))
    else
      var outputs := seq(|batches|, i requires 0 <= i < |batches| =>
        TopN(SourceAirports(Accumulated(batches[..i + 1])), topN));
      assert forall i :: 0 <= i < |batches| ==>
        IsTopN(SourceAirports(Accumulated(batches[..i + 1])), topN, outputs[i]) by {
        forall i | 0 <= i < |batches| {
          TopNIsTopN(SourceAirports(Accumulated(batches[..i + 1])), topN);
        }
      }
      Ok(outputs)
  }

  /**
   `top_n_stream_window` in complete output mode: after micro-batch `i` the
   sink receives the top `topN` (window, source airport) pairs of every
   event delivered in micro-batches `0..i`; the limit applies to all pairs
   together, not to each window.
   */
  function WindowedTopN(batches: seq<seq<TimedRoute>>, topN: int): (r: Result<seq<seq<Row<WindowKey>>>, QueryError>)
    ensures r.Err? <==> topN < 0
    ensures r.Err? ==> r.error == NegativeLimit(topN)
    ensures r.Ok? ==> |r.value| == |batches|
    ensures r.Ok? ==> forall i :: 0 <= i < |batches| ==>
      IsTopN(WindowKeys(Accumulated(batches[..i + 1])), topN, r.value[i])
  {
    if topN < 0 then Err(NegativeLimit(topN))
    else
      var outputs := seq(|batches|, i requires 0 <= i < |batches| =>
        TopN(WindowKeys(Accumulated(batches[..i + 1])), topN));
      assert forall i :: 0 <= i < |batches| ==>
        IsTopN(WindowKeys(Accumulated(batches[..i + 1])), topN, outputs[i]) by {
        forall i | 0 <= i < |batches| {
          TopNIsTopN(WindowKeys(Accumulated(batches[..i + 1])), topN);
        }
      }
      Ok(outputs)
  }

  // ---------------------------------------------------------------------------
  // Complete output mode: recomputation over everything seen so far

  lemma AccumulatedStep<T>(batches: seq<seq<T>>, i: nat)
    requires i < |batches|
    ensures Accumulated(batches[..i + 1]) == Accumulated(batches[..i]) + batches[i]
  {
    assert batches[..i + 1][..i] == batches[..i];
  }

  lemma SourceAirportsConcat(a: seq<Route>, b: seq<Route>)
    ensures SourceAirports(a + b) == SourceAirports(a) + SourceAirports(b)
  {
  }

  /** A micro-batch adds its own routes to every source airport's running count. */
  lemma CompleteCountStep(batches: seq<seq<Route>>, i: nat, airport: string)
    requires i < |batches|
    ensures Count(SourceAirports(Accumulated(batches[..i + 1])), airport)
         == Count(SourceAirports(Accumulated(batches[..i])), airport) + Count(SourceAirports(batches[i]), airport)
  {
    AccumulatedStep(batches, i);
    SourceAirportsConcat(Accumulated(batches[..i]), batches[i]);
    CountConcat(SourceAirports(Accumulated(batches[..i])), SourceAirports(batches[i]), airport);
  }

  /** Running counts never decrease from one micro-batch to a later one. */
  lemma {:induction false} CompleteCountMonotone(batches: seq<seq<Route>>, i: nat, j: nat, airport: string)
    requires i <= j < |batches|
    ensures Count(SourceAirports(Accumulated(batches[..i + 1])), airport)
         <= Count(SourceAirports(Accumulated(batches[..j + 1])), airport)
  {
    if i < j {
      CompleteCountMonotone(batches, i, j - 1, airport);
      CompleteCountStep(batches, j, airport);
    }
  }

  /**
   A source airport shown in the complete-mode outputs after micro-batches
   `i <= j` never shows a smaller count after the later one.
   */
  lemma CompleteRowsGrow(batches: seq<seq<Route>>, topN: nat, i: nat, j: nat,
                         earlier: seq<Row<string>>, later: seq<Row<string>>, p: nat, q: nat)
    requires i <= j < |batches|
    requires IsTopN(SourceAirports(Accumulated(batches[..i + 1])), topN, earlier)
    requires IsTopN(SourceAirports(Accumulated(batches[..j + 1])), topN, later)
    requires p < |earlier| && q < |later| && earlier[p].key == later[q].key
    ensures earlier[p].count <= later[q].count
  {
    CompleteCountMonotone(batches, i, j, earlier[p].key);
  }

  /**
   Each output of the complete-mode stream agrees, up to the order of ties,
   with any result the batch query can give over all routes received so far.
   */
  lemma CompleteIsBatchOfAccumulated(batches: seq<seq<Route>>, topN: nat, i: nat, batch: seq<Row<string>>)
    requires i < |batches|
    requires IsTopN(SourceAirports(Accumulated(batches[..i + 1])), topN, batch)
    ensures CompleteTopN(batches, topN).Ok?
    ensures var shown := CompleteTopN(batches, topN).value[i];
            |shown| == |batch| && forall p :: 0 <= p < |shown| ==> shown[p].count == batch[p].count
  {
    var s := SourceAirports(Accumulated(batches[..i + 1]));
    TopNUniqueUpToTies(s, topN, CompleteTopN(batches, topN).value[i], batch);
  }

  // ---------------------------------------------------------------------------
  // The windowed query

  /** Reference count: the events in window `w` whose source airport is `airport`. */
  function EventsIn(events: seq<TimedRoute>, w: Window, airport: string): nat
  {
    if events == [] then 0
    else
      var here := if Contains(w, events[0].datetime) && events[0].route.sourceAirport == airport then 1 else 0;
      here + EventsIn(events[1..], w, airport)
  }

  /** The windowed count of (w, airport) is the number of that airport's events inside `w`. */
  lemma {:induction false} WindowCountIsEventsIn(events: seq<TimedRoute>, w: Window, airport: string)
    requires IsTumbling(w)
    ensures Count(WindowKeys(events), WindowKey(w, airport)) == EventsIn(events, w, airport)
  {
    if events != [] {
      assert WindowKeys(events)[1..] == WindowKeys(events[1..]);
      WindowOfUnique(w, events[0].datetime);
      WindowCountIsEventsIn(events[1..], w, airport);
    }
  }

  /**
   Every row of a windowed output names a tumbling window and counts exactly
   the events of that airport inside that window, and at least one of them.
   */
  lemma WindowedRowsCountEvents(events: seq<TimedRoute>, topN: nat, out: seq<Row<WindowKey>>, p: nat)
    requires IsTopN(WindowKeys(events), topN, out) && p < |out|
    ensures IsTumbling(out[p].key.window)
    ensures out[p].count == EventsIn(events, out[p].key.window, out[p].key.sourceAirport)
    ensures out[p].count > 0
  {
    var row := out[p];
    var keys := WindowKeys(events);
    assert row.key in keys;
    var e :| 0 <= e < |keys| && keys[e] == row.key;
    assert row.key.window == WindowOf(events[e].datetime);
    WindowCountIsEventsIn(events, row.key.window, row.key.sourceAirport);
    CountPositive(keys, row.key);
  }

  /**
   The limit bounds the windowed output as a whole: it holds `topN` rows
   whenever at least `topN` distinct (window, airport) pairs exist, however
   many windows they span, and otherwise one row per pair.
   */
  lemma WindowedLimitIsOverall(batches: seq<seq<TimedRoute>>, topN: int, i: nat)
    requires WindowedTopN(batches, topN).Ok? && i < |batches|
    ensures var pairs := |KeySet(WindowKeys(Accumulated(batches[..i + 1])))|;
            |WindowedTopN(batches, topN).value[i]| == if topN < pairs then topN else pairs
  {
    TopNLength(WindowKeys(Accumulated(batches[..i + 1])), topN, WindowedTopN(batches, topN).value[i]);
  }

  // ---------------------------------------------------------------------------
  // The application object and its schema

  class OpenFlights {
    /** The fields of `routes_schema`, in order. */
    var routesSchema: seq<StructField>

    ghost predicate Valid()
      reads this
    {
      IsRoutesSchema(routesSchema)
    }

    constructor ()
      ensures Valid() && routesSchema == HistoricalFields()
    {
      routesSchema := HistoricalFields();
    }

    /**
     Replaces the last field by the timestamp field `datetime`, in place:
     the field count stays nine, fields 0..7 are untouched, and the result is
     the same whether the schema was rewritten before or not.
     */
    method ManipulateStreamingSchema()
      requires Valid()
      modifies this
      ensures Valid()
      ensures routesSchema == StreamingVariant(old(routesSchema))
      ensures |routesSchema| == |old(routesSchema)| && routesSchema[..8] == old(routesSchema)[..8]
      ensures routesSchema[8] == DATETIME_FIELD
      ensures routesSchema == StreamingVariant(HistoricalFields())
    {
      StreamingVariantOfRoutesSchema(routesSchema);
      routesSchema := routesSchema[..|routesSchema| - 1];   // drop the last field
      routesSchema := routesSchema + [DATETIME_FIELD];      // append `datetime`
    }

    /** The batch query, read with the schema as it currently is. */
    method CreateTopNSource(routes: seq<Route>, topN: int) returns (r: Result<seq<Row<string>>, QueryError>)
      requires Valid()
      ensures r == BatchTopN(routes, topN)
      ensures r.Ok? ==> IsTopN(SourceAirports(routes), topN, r.value)
    {
      DatetimeOnlyAfterRewrite(routesSchema);
      assert HasField(routesSchema, "Source_airport");
      r := BatchTopN(routes, topN);
    }

    /** Rewrites the schema, then runs the unbounded complete-mode stream. */
    method StreamTopNSource(batches: seq<seq<Route>>, topN: int) returns (r: Result<seq<seq<Row<string>>>, QueryError>)
      requires Valid()
      modifies this
      ensures Valid() && routesSchema == StreamingVariant(HistoricalFields())
      ensures r == CompleteTopN(batches, topN)
    {
      ManipulateStreamingSchema();
      r := CompleteTopN(batches, topN);
    }

    /** Rewrites the schema, which makes `datetime` resolvable, then runs the windowed stream. */
    method TopNStreamWindow(batches: seq<seq<TimedRoute>>, topN: int) returns (r: Result<seq<seq<Row<WindowKey>>>, QueryError>)
      requires Valid()
      modifies this
      ensures Valid() && routesSchema == StreamingVariant(HistoricalFields())
      ensures HasField(routesSchema, "datetime") && HasField(routesSchema, "Source_airport")
      ensures r == WindowedTopN(batches, topN)
    {
      ManipulateStreamingSchema();
      DatetimeOnlyAfterRewrite(routesSchema);
      r := WindowedTopN(batches, topN);
    }
  }
}
