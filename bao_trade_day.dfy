/** The Baostock China trade-day recorder (`BaoChinaStockTradeDayRecorder`): it asks Baostock
    for the calendar from the last stored trade day on, keeps the trading days, and stamps them
    with the fixed anchor entity and the provider. */
module BaoTradeDay {
  import opened Frames
  import opened Entities
  import opened TradeDays

  /** The one entity the recorder runs for. */
  const AnchorId: string := "stock_sz_000001"

  /** The start date used when no trade day is stored yet. */
  const Epoch: string := "1990-12-19"

  /** `init_entities`: the single anchor. */
  function InitEntities(): seq<Entity>
  {
    [Anchor(AnchorId)]
  }

  /** The recorder runs for its anchor and for nothing else that `eval` could be handed. */
  lemma InitEntitiesRun()
    ensures |InitEntities()| == 1 && InitEntities()[0] == Anchor(AnchorId)
    ensures forall e :: e in InitEntities() ==> !SkipUnlessAnchor(e)
    ensures forall s: Stock :: SkipUnlessAnchor(Listed(s))
    ensures forall d: StockDetail :: SkipUnlessAnchor(Detail(d))
  {
  }

  /** A row of Baostock's calendar that `is_trading_day == '1'` keeps. */
  predicate IsTradingRow(r: Row)
  {
    Get(r, "is_trading_day") == Str("1")
  }

  /** `df[df['is_trading_day'] == '1']['calendar_date'].values`. */
  function TradingDates(rows: seq<Row>): (dates: seq<Value>)
    ensures |dates| <= |rows|
  {
    if rows == [] then [] else Kept(rows[0]) + TradingDates(rows[1..])
  }

  /** What the filter keeps of one calendar row. */
  function Kept(r: Row): seq<Value>
  {
    if IsTradingRow(r) then [Get(r, "calendar_date")] else []
  }

  /** The filter distributes over concatenation: it keeps the order of the calendar. */
  lemma {:induction false} TradingDatesAppend(a: seq<Row>, b: seq<Row>)
    ensures TradingDates(a + b) == TradingDates(a) + TradingDates(b)
  {
    if a == [] {
      assert a + b == b;
    } else {
      var ab := a + b;
      assert ab[0] == a[0] && ab[1..] == a[1..] + b;
      TradingDatesAppend(a[1..], b);
      calc {
        TradingDates(ab);
        Kept(a[0]) + TradingDates(a[1..] + b);
        Kept(a[0]) + (TradingDates(a[1..]) + TradingDates(b));
        (Kept(a[0]) + TradingDates(a[1..])) + TradingDates(b);
      }
    }
  }

  /** A date is kept exactly when some trading row of the calendar carries it. */
  lemma {:induction false} TradingDatesMember(rows: seq<Row>, v: Value)
    ensures v in TradingDates(rows) <==> exists i :: 0 <= i < |rows| && IsTradingRow(rows[i]) && Get(rows[i], "calendar_date") == v
  {
    if rows != [] {
      TradingDatesMember(rows[1..], v);
      if v in TradingDates(rows[1..]) {
        var i :| 0 <= i < |rows[1..]| && IsTradingRow(rows[1..][i]) && Get(rows[1..][i], "calendar_date") == v;
        assert rows[i + 1] == rows[1..][i];
      }
      if exists i :: 0 <= i < |rows| && IsTradingRow(rows[i]) && Get(rows[i], "calendar_date") == v {
        var i :| 0 <= i < |rows| && IsTradingRow(rows[i]) && Get(rows[i], "calendar_date") == v;
        if i > 0 {
          assert rows[1..][i - 1] == rows[i];
        }
      }
    }
  }

  /** The number of trading rows in the calendar. */
  function TradingCount(rows: seq<Row>): nat
  {
    if rows == [] then 0 else (if IsTradingRow(rows[0]) then 1 else 0) + TradingCount(rows[1..])
  }

  /** One output row per trading row, never more than the calendar has. */
  lemma {:induction false} TradingDatesCount(rows: seq<Row>)
    ensures |TradingDates(rows)| == TradingCount(rows) <= |rows|
  {
    if rows != [] {
      TradingDatesCount(rows[1..]);
    }
  }

  /** `pd.DataFrame(dates, columns=['timestamp'])`. */
  function DateFrame(dates: seq<Value>): seq<Row>
  {
    seq(|dates|, i requires 0 <= i < |dates| => map["timestamp" := dates[i]])
  }

  /** The frame `format` returns. */
  function FormatRows(rows: seq<Row>): seq<Row>
  {
    AssignWithFrame(AssignFrame(AssignFrame(ApplyFrame(DateFrame(TradingDates(rows)), "timestamp", ToDatetime),
      "entity_id", Str(AnchorId)), "provider", Str(BaoStock)), "id", DayId)
  }

  /** `format(entity, df)`: a new frame of the trading dates, parsed and stamped step by step. */
  method Format(rows: seq<Row>) returns (df: DataFrame)
    ensures df.rows == FormatRows(rows)
  {
    df := new DataFrame(DateFrame(TradingDates(rows)));
    df.Apply("timestamp", ToDatetime);
    df.Assign("entity_id", Str(AnchorId));
    df.Assign("provider", Str(BaoStock));
    df.AssignWith("id", DayId);
  }

  /** The calendar row `format` makes of one trading date. */
  function DayRow(date: Value): Row
  {
    var t := ToDatetime(date);
    map["timestamp" := t, "entity_id" := Str(AnchorId), "provider" := Str(BaoStock), "id" := Strftime(t, false)]
  }

  lemma FormatRowwise(rows: seq<Row>)
    ensures |FormatRows(rows)| == |TradingDates(rows)|
    ensures forall i :: 0 <= i < |TradingDates(rows)| ==> FormatRows(rows)[i] == DayRow(TradingDates(rows)[i])
  {
    var dates := TradingDates(rows);
    var d0 := DateFrame(dates);
    var d1 := ApplyFrame(d0, "timestamp", ToDatetime);
    var d2 := AssignFrame(d1, "entity_id", Str(AnchorId));
    var d3 := AssignFrame(d2, "provider", Str(BaoStock));
    forall i | 0 <= i < |dates| ensures FormatRows(rows)[i] == DayRow(dates[i]) {
      var t := ToDatetime(dates[i]);
      assert d0[i] == map["timestamp" := dates[i]];
      assert Get(d0[i], "timestamp") == dates[i];
      assert d1[i] == map["timestamp" := t];
      assert d3[i] == map["timestamp" := t, "entity_id" := Str(AnchorId), "provider" := Str(BaoStock)];
      assert DayId(d3[i]) == Strftime(t, false);
      assert FormatRows(rows)[i] == d3[i]["id" := DayId(d3[i])];
    }
  }

  /** `format` makes one row per trading day, in calendar order, carrying that day as its timestamp,
      the anchor entity, the Baostock provider, and the day string as its id. */
  lemma FormatTradingDays(rows: seq<Row>)
    ensures var out := FormatRows(rows);
            var dates := TradingDates(rows);
            && |out| == TradingCount(rows)
            && forall i :: 0 <= i < |out| ==>
                 && out[i].Keys == {"timestamp", "entity_id", "provider", "id"}
                 && out[i]["timestamp"] == ToDatetime(dates[i])
                 && out[i]["entity_id"] == Str(AnchorId)
                 && out[i]["provider"] == Str(BaoStock)
                 && out[i]["id"] == DayId(out[i])
                 && (dates[i].Str? ==> out[i]["id"] == dates[i])
  {
    FormatRowwise(rows);
    TradingDatesCount(rows);
  }

  /** `record`: start from the latest stored trade day (or the epoch), fetch the calendar from
      there (`tradeDates` gives `None` where the query raised), and hand back the formatted
      frame, or report that there is nothing to do. */
  method Record(stored: seq<Stamp>, tradeDates: string -> Option<seq<Row>>)
    returns (done: bool, batch: DataFrame?)
    ensures var fetched := tradeDates(StartDate(stored, Epoch));
            && (done <==> !PdValid(fetched))
            && (done ==> batch == null)
            && (!done ==> batch != null && batch.rows == FormatRows(fetched.value))
  {
    var start := StartDate(stored, Epoch);
    var fetched := tradeDates(start);
    if PdValid(fetched) {
      batch := Format(fetched.value);
      return false, batch;
    }
    return true, null;
  }
}
