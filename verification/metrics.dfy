/** Metric column resolution and the analytics query payload
    (`PiwikAnalytics.get_metrics`). */
module Metrics {

  /** One entry of the query's `columns` list: `{"column_id": ...}`. */
  datatype ColumnConfig = ColumnConfig(columnId: string)

  /** The fixed table from caller-facing names to platform column ids. */
  const MetricMapping: map<string, string> := map[
    "visits" := "sessions",
    "pageviews" := "page_views",
    "bounce_rate" := "bounce_rate",
    "avg_time_on_site" := "session_total_time",
    "unique_visitors" := "visitors",
    "conversion_rate" := "goal_conversion_rate",
    "revenue" := "revenue",
    "cart_abandonment" := "abandoned_cart_rate",
    "exit_rate" := "exit_rate",
    "entry_rate" := "entry_rate"
  ]

  /** Resolution of a single requested name: its column, or nothing when the
      name is not a key of the table (the unknown name is only logged). */
  function ResolveOne(name: string): seq<ColumnConfig> {
    if name in MetricMapping then [ColumnConfig(MetricMapping[name])] else []
  }

  /** Filter-map of the requested names through `MetricMapping`, in order. */
  function ResolveColumns(columns: seq<string>): (r: seq<ColumnConfig>)
    ensures |r| <= |columns|
    ensures forall k :: 0 <= k < |r| ==> r[k].columnId in MetricMapping.Values
  {
    if |columns| == 0 then []
    else ResolveOne(columns[0]) + ResolveColumns(columns[1..])
  }

  /** Resolution distributes over concatenation of requests. Together with
      `ResolveOne` this pins the result down completely: it is the known names
      mapped through the table, each in its original position. */
  lemma {:induction false} ResolveConcat(a: seq<string>, b: seq<string>)
    ensures ResolveColumns(a + b) == ResolveColumns(a) + ResolveColumns(b)
    decreases |a|
  {
    if |a| == 0 {
      assert a + b == b;
    } else {
      assert (a + b)[1..] == a[1..] + b;
      ResolveConcat(a[1..], b);
    }
  }

  /** A column id appears in the resolution exactly when some requested name
      is a key of the table that maps to it. */
  lemma {:induction false} ResolveMembership(columns: seq<string>, id: string)
    ensures ColumnConfig(id) in ResolveColumns(columns) <==>
      exists i :: 0 <= i < |columns| && columns[i] in MetricMapping && MetricMapping[columns[i]] == id
    decreases |columns|
  {
    if |columns| > 0 {
      ResolveMembership(columns[1..], id);
      if ColumnConfig(id) in ResolveColumns(columns[1..]) {
        var i :| 0 <= i < |columns[1..]| && columns[1..][i] in MetricMapping && MetricMapping[columns[1..][i]] == id;
        assert columns[i + 1] == columns[1..][i];
      }
      if exists i :: 0 <= i < |columns| && columns[i] in MetricMapping && MetricMapping[columns[i]] == id {
        var i :| 0 <= i < |columns| && columns[i] in MetricMapping && MetricMapping[columns[i]] == id;
        if i > 0 {
          assert columns[1..][i - 1] == columns[i];
        }
      }
    }
  }

  /** Nothing is dropped exactly when every requested name is known. */
  lemma {:induction false} ResolveKeepsAllIffKnown(columns: seq<string>)
    ensures |ResolveColumns(columns)| == |columns| <==>
      forall i :: 0 <= i < |columns| ==> columns[i] in MetricMapping
    decreases |columns|
  {
    if |columns| > 0 {
      ResolveKeepsAllIffKnown(columns[1..]);
      assert forall i :: 1 <= i < |columns| ==> columns[i] == columns[1..][i - 1];
    }
  }

  /** A request made only of unknown names resolves to no columns, without error. */
  lemma {:induction false} ResolveUnknownOnly(columns: seq<string>)
    requires forall i :: 0 <= i < |columns| ==> columns[i] !in MetricMapping
    ensures ResolveColumns(columns) == []
    decreases |columns|
  {
    if |columns| > 0 {
      ResolveUnknownOnly(columns[1..]);
    }
  }

  /** `visits` resolves to `sessions`; a bogus name next to it is dropped. */
  lemma ResolveVisitsAndBogus()
    ensures ResolveColumns(["visits", "bogus_column"]) == [ColumnConfig("sessions")]
  {
    assert "bogus_column" !in MetricMapping;
    assert ["visits", "bogus_column"][1..] == ["bogus_column"];
  }

  /** `avg_order_value` is documented as a derived ratio but has no table
      entry, so it never resolves, wherever it is requested. */
  lemma AvgOrderValueNeverResolves(before: seq<string>, after: seq<string>)
    ensures ResolveColumns(before + ["avg_order_value"] + after) == ResolveColumns(before + after)
  {
    assert "avg_order_value" !in MetricMapping;
    ResolveConcat(before + ["avg_order_value"], after);
    ResolveConcat(before, ["avg_order_value"]);
    ResolveConcat(before, after);
    assert ["avg_order_value"][1..] == [];
  }

  /** The loop of the source: append the column of each known name, skip
      (and log) the rest. */
  method ResolveColumnsLoop(columns: seq<string>) returns (configs: seq<ColumnConfig>)
    ensures configs == ResolveColumns(columns)
  {
    configs := [];
    var i := 0;
    while i < |columns|
      invariant 0 <= i <= |columns|
      invariant configs == ResolveColumns(columns[..i])
    {
      var column := columns[i];
      ResolveConcat(columns[..i], [column]);
      assert columns[..i + 1] == columns[..i] + [column];
      assert [column][1..] == [];
      if column in MetricMapping {
        configs := configs + [ColumnConfig(MetricMapping[column])];
      }
      i := i + 1;
    }
    assert columns[..i] == columns;
  }

  /** The body POSTed to the analytics query endpoint. `sampling` is the
      `options.sampling` entry. */
  datatype MetricsQuery = MetricsQuery(
    websiteId: string,
    dateFrom: string,
    dateTo: string,
    columns: seq<ColumnConfig>,
    format: string,
    columnFormat: string,
    offset: int,
    limit: int,
    sampling: real)

  /** The query payload with its fixed defaults; identifiers and dates pass
      through unchanged and the columns are the resolved ones. */
  function BuildQuery(websiteId: string, dateFrom: string, dateTo: string, columns: seq<string>): (q: MetricsQuery)
    ensures q.websiteId == websiteId && q.dateFrom == dateFrom && q.dateTo == dateTo
    ensures q.format == "json" && q.columnFormat == "id"
    ensures q.offset == 0 && q.limit == 100 && q.sampling == 1.0
    ensures q.columns == ResolveColumns(columns)
  {
    MetricsQuery(websiteId, dateFrom, dateTo, ResolveColumns(columns), "json", "id", 0, 100, 1.0)
  }
}
