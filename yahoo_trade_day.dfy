/** The US trade-day recorder (`UsStockTradeDayRecorder`): it reads the NYSE sessions from the
    last stored trade day up to today and stamps them with the exchange and the provider. */
module YahooTradeDay {
  import opened Frames
  import opened Entities
  import opened TradeDays

  /** `UsExchange.NYSE.value`. */
  const Nyse: string := "nyse"

  /** The start date used when no trade day is stored yet. */
  const Epoch: string := "2003-10-11"

  /** `init_entities`: the NYSE exchange only. */
  function InitEntities(): seq<Entity>
  {
    [Anchor(Nyse)]
  }

  lemma InitEntitiesRun()
    ensures |InitEntities()| == 1 && InitEntities()[0] == Anchor(Nyse)
    ensures forall e :: e in InitEntities() ==> !SkipUnlessAnchor(e)
    ensures forall s: Stock :: SkipUnlessAnchor(Listed(s))
    ensures forall d: StockDetail :: SkipUnlessAnchor(Detail(d))
  {
  }

  /** `pd.to_datetime(df[c])` as a column expression. */
  function ParsedColumn(c: string): Row -> Value
  {
    r => ToDatetime(Get(r, c))
  }

  /** The timestamp column after the first step of `format`: taken from the original time field
      when the frame has no `timestamp` column, otherwise parsed in place. */
  function ParseTimestamps(rows: seq<Row>, timeField: string): seq<Row>
  {
    if !HasColumn(rows, "timestamp") then AssignWithFrame(rows, "timestamp", ParsedColumn(timeField))
    else ApplyFrame(rows, "timestamp", ToDatetime)
  }

  /** The frame `format` leaves behind. */
  function FormatRows(rows: seq<Row>, timeField: string): seq<Row>
  {
    AssignWithFrame(AssignFrame(AssignFrame(ParseTimestamps(rows, timeField),
      "entity_id", Str(Nyse)), "provider", Str(Yahoo)), "id", DayId)
  }

  /** `format(entity, df)`, changing `df` in place; `timeField` is the recorder's original time field. */
  method Format(df: DataFrame, timeField: string)
    modifies df
    ensures df.rows == FormatRows(old(df.rows), timeField)
  {
    if !HasColumn(df.rows, "timestamp") {
      df.AssignWith("timestamp", ParsedColumn(timeField));
    } else {
      df.Apply("timestamp", ToDatetime);
    }
    df.Assign("entity_id", Str(Nyse));
    df.Assign("provider", Str(Yahoo));
    df.AssignWith("id", DayId);
  }

  /** The timestamp `format` gives row `i`. */
  function TimestampOf(rows: seq<Row>, timeField: string, i: int): Value
    requires 0 <= i < |rows|
  {
    if HasColumn(rows, "timestamp") then ToDatetime(Get(rows[i], "timestamp")) else ToDatetime(Get(rows[i], timeField))
  }

  /** `format` keeps every row in place and only sets the four columns it assigns. */
  lemma FormatRowwise(rows: seq<Row>, timeField: string)
    ensures |FormatRows(rows, timeField)| == |rows|
    ensures forall i :: 0 <= i < |rows| ==>
              var ts := TimestampOf(rows, timeField, i);
              FormatRows(rows, timeField)[i]
              == rows[i]["timestamp" := ts]["entity_id" := Str(Nyse)]["provider" := Str(Yahoo)]["id" := Strftime(ts, false)]
  {
    var p := ParseTimestamps(rows, timeField);
    var q := AssignFrame(AssignFrame(p, "entity_id", Str(Nyse)), "provider", Str(Yahoo));
    forall i | 0 <= i < |rows|
      ensures FormatRows(rows, timeField)[i]
              == rows[i]["timestamp" := TimestampOf(rows, timeField, i)]["entity_id" := Str(Nyse)]
                 ["provider" := Str(Yahoo)]["id" := Strftime(TimestampOf(rows, timeField, i), false)]
    {
      var ts := TimestampOf(rows, timeField, i);
      assert p[i] == rows[i]["timestamp" := ts];
      assert q[i] == rows[i]["timestamp" := ts]["entity_id" := Str(Nyse)]["provider" := Str(Yahoo)];
      assert DayId(q[i]) == Strftime(ts, false);
    }
  }

  /** Row count and order are unchanged, columns other than the four assigned ones keep their
      cells, every row is stamped with NYSE and Yahoo, and its id is its timestamp as a day. */
  lemma FormatStamps(rows: seq<Row>, timeField: string)
    ensures var out := FormatRows(rows, timeField);
            && |out| == |rows|
            && forall i :: 0 <= i < |rows| ==>
                 && (forall k :: k !in {"timestamp", "entity_id", "provider", "id"} ==> Get(out[i], k) == Get(rows[i], k))
                 && Get(out[i], "timestamp") == TimestampOf(rows, timeField, i)
                 && Get(out[i], "entity_id") == Str(Nyse)
                 && Get(out[i], "provider") == Str(Yahoo)
                 && Get(out[i], "id") == DayId(out[i])
  {
    FormatRowwise(rows, timeField);
  }

  /** Without a `timestamp` column the timestamps come from the original time field. */
  lemma FormatUsesOriginalTimeField(rows: seq<Row>, timeField: string, i: int)
    requires 0 <= i < |rows| && forall j :: 0 <= j < |rows| ==> "timestamp" !in rows[j]
    ensures Get(FormatRows(rows, timeField)[i], "timestamp") == ToDatetime(Get(rows[i], timeField))
  {
    FormatRowwise(rows, timeField);
  }

  /** `pd.DataFrame(dates, columns=['timestamp'])` over the calendar sessions. */
  function SessionFrame(dates: seq<Stamp>): seq<Row>
  {
    seq(|dates|, i requires 0 <= i < |dates| => map["timestamp" := Time(dates[i])])
  }

  /** The batch `record` hands on has one row per session, in order, with that session's day as id. */
  lemma RecordedSessions(dates: seq<Stamp>, timeField: string)
    ensures var out := FormatRows(SessionFrame(dates), timeField);
            && |out| == |dates|
            && forall i :: 0 <= i < |dates| ==>
                 Get(out[i], "timestamp") == Time(dates[i]) && Get(out[i], "id") == Str(dates[i].day)
  {
    var rows := SessionFrame(dates);
    FormatRowwise(rows, timeField);
    if |dates| > 0 {
      assert "timestamp" in rows[0];
    }
  }

  /** `record`: the NYSE sessions from the latest stored trade day (or the epoch) up to `today`;
      none means there is nothing to do, otherwise the formatted frame is handed on. */
  method Record(stored: seq<Stamp>, sessions: (string, string) -> seq<Stamp>, today: string, timeField: string)
    returns (done: bool, batch: DataFrame?)
    ensures var dates := sessions(StartDate(stored, Epoch), today);
            && (done <==> |dates| == 0)
            && (done ==> batch == null)
            && (!done ==> batch != null && batch.rows == FormatRows(SessionFrame(dates), timeField))
  {
    var start := StartDate(stored, Epoch);
    var dates := sessions(start, today);
    if |dates| > 0 {
      var df := new DataFrame(SessionFrame(dates));
      Format(df, timeField);
      return false, df;
    }
    return true, null;
  }
}
