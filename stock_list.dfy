/** The US stock list recorder (`ExchangeUsStockListRecorder`): `format` turns the exchange's
    screener rows into `Stock` rows with deterministic ids, de-duplicated by id keeping the last;
    `process_loop` reports progress whether or not the fetch and the write succeeded. */
module ExchangeStockList {
  import opened Strings
  import opened Frames
  import opened Entities

  const ListRenames: Renames := map["symbol" := "code", "ipoyear" := "list_date", "marketCap" := "market_cap"]

  /** `EntityType.Stock.value`. */
  const StockType: string := "stock"

  /** The listing date given to a row that has none. */
  const DefaultListDate: Value := Time(Stamp("1980-01-01", Midnight))

  /** `to_pd_timestamp` on the screener's IPO year: nothing or an empty string is NaT, a bare
      year is January 1st of it, any other string is read as a day. */
  function ToPdTimestamp(v: Value): Value
  {
    match v
    case Str(s) => if s == "" then Null else if |s| == 4 then Time(Stamp(s + "-01-01", Midnight)) else Time(Stamp(s, Midnight))
    case Time(_) => v
    case _ => Null
  }

  /** `.str.strip()` on one cell; a cell that is not a string becomes NaN. */
  function StripCell(v: Value): Value
  {
    if v.Str? then Str(Trim(v.s)) else Null
  }

  /** `generate_domain_id`: `entity_type + '_' + exchange + '_' + code`. */
  function StockId(r: Row): (id: Value)
    ensures id.Str? <==> Get(r, "entity_type").Str? && Get(r, "exchange").Str? && Get(r, "code").Str?
    ensures id.Str? ==> id.s == Get(r, "entity_type").s + "_" + Get(r, "exchange").s + "_" + Get(r, "code").s
  {
    Concat(Concat(Concat(Concat(Get(r, "entity_type"), Str("_")), Get(r, "exchange")), Str("_")), Get(r, "code"))
  }

  function ListDateOf(r: Row): Value
  {
    Get(r, "list_date")
  }

  function IdOf(r: Row): Value
  {
    Get(r, "id")
  }

  /** Every step of `format` before the de-duplication. */
  function Normalise(content: seq<Row>, exchange: string): seq<Row>
  {
    var dated := FillNaFrame(ApplyFrame(RenameFrame(content, ListRenames), "list_date", ToPdTimestamp),
                             "list_date", DefaultListDate);
    var tagged :=
      AssignFrame(AssignFrame(AssignFrame(AssignWithFrame(dated, "timestamp", ListDateOf),
        "entity_type", Str(StockType)), "exchange", Str(exchange)), "is_active", Flag(true));
    AssignWithFrame(AssignWithFrame(ApplyFrame(tagged, "code", StripCell), "id", StockId), "entity_id", IdOf)
  }

  /** The frame `format` returns. */
  function FormatRows(content: seq<Row>, exchange: string): seq<Row>
  {
    DropDuplicatesKeepLast(Normalise(content, exchange), "id")
  }

  /** `format(content, exchange)`: builds the frame from the screener rows and normalises it in place. */
  method Format(content: seq<Row>, exchange: string) returns (df: DataFrame)
    ensures df.rows == FormatRows(content, exchange)
  {
    df := new DataFrame(content);
    df.Rename(ListRenames);
    df.Apply("list_date", ToPdTimestamp);
    df.FillNa("list_date", DefaultListDate);
    df.AssignWith("timestamp", ListDateOf);
    df.Assign("entity_type", Str(StockType));
    df.Assign("exchange", Str(exchange));
    df.Assign("is_active", Flag(true));
    df.Apply("code", StripCell);
    df.AssignWith("id", StockId);
    df.AssignWith("entity_id", IdOf);
    df.DropDuplicates("id");
  }

  /** The renamed screener row, with its listing date parsed and defaulted. */
  function DatedRow(r: Row): Row
  {
    DateCells(RenameRow(r, ListRenames))
  }

  /** The listing date of a renamed row, parsed and defaulted. */
  function DateCells(t: Row): Row
  {
    FillNaRow(t["list_date" := ToPdTimestamp(Get(t, "list_date"))], "list_date", DefaultListDate)
  }

  /** The rest of `format` before the de-duplication, on one row. */
  function TagRow(exchange: string, d: Row): Row
  {
    IdRow(StampListRow(exchange, d))
  }

  /** The constant columns and the timestamp. */
  function StampListRow(exchange: string, d: Row): Row
  {
    d["timestamp" := ListDateOf(d)]["entity_type" := Str(StockType)]["exchange" := Str(exchange)]
     ["is_active" := Flag(true)]
  }

  /** The stripped code, then the id and the entity id built from it. */
  function IdRow(t: Row): Row
  {
    KeyRow(t["code" := StripCell(Get(t, "code"))])
  }

  /** The id built from the row's own cells, copied to `entity_id`. */
  function KeyRow(c: Row): Row
  {
    var k := c["id" := StockId(c)];
    k["entity_id" := IdOf(k)]
  }

  lemma NormaliseRowwise(content: seq<Row>, exchange: string)
    ensures |Normalise(content, exchange)| == |content|
    ensures forall i :: 0 <= i < |content| ==> Normalise(content, exchange)[i] == TagRow(exchange, DatedRow(content[i]))
  {
  }

  /** What a row of the stock list looks like after `format`. */
  predicate IsListedRow(r: Row, exchange: string)
  {
    && Get(r, "entity_type") == Str(StockType)
    && Get(r, "exchange") == Str(exchange)
    && Get(r, "is_active") == Flag(true)
    && Get(r, "list_date").Time?
    && Get(r, "timestamp") == Get(r, "list_date")
    && Get(r, "entity_id") == Get(r, "id")
    && (Get(r, "code").Str? ==>
          && Get(r, "id") == Str(StockType + "_" + exchange + "_" + Get(r, "code").s)
          && Trim(Get(r, "code").s) == Get(r, "code").s)
  }

  lemma TagRowListed(exchange: string, d: Row)
    requires Get(d, "list_date").Time?
    ensures IsListedRow(TagRow(exchange, d), exchange)
  {
    var t := StampListRow(exchange, d);
    StampListRowCells(exchange, d);
    IdRowKeeps(t);
    if Get(t, "code").Str? {
      IdRowId(t);
    }
    if Get(t, "code").Str? {
      TrimIdempotent(Get(t, "code").s);
    }
  }

  /** The code the screener gave a row (as `symbol`), the listing year (as `ipoyear`). */
  function RawCode(r: Row): Value
  {
    if "symbol" in r then r["symbol"] else Get(r, "code")
  }

  function RawYear(r: Row): Value
  {
    if "ipoyear" in r then r["ipoyear"] else Get(r, "list_date")
  }

  lemma RenamedCode(r: Row)
    ensures Get(RenameRow(r, ListRenames), "code") == RawCode(r)
  {
    if "symbol" in r {
      RenameMoves(r, ListRenames, "symbol");
    } else {
      RenameKeeps(r, ListRenames, "code");
    }
  }

  lemma RenamedYear(r: Row)
    ensures Get(RenameRow(r, ListRenames), "list_date") == RawYear(r)
  {
    if "ipoyear" in r {
      RenameMoves(r, ListRenames, "ipoyear");
    } else {
      RenameKeeps(r, ListRenames, "list_date");
    }
  }

  lemma DateCellsOf(t: Row)
    ensures Get(DateCells(t), "list_date").Time?
    ensures Get(t, "list_date") == Null || Get(t, "list_date") == Str("") ==> Get(DateCells(t), "list_date") == DefaultListDate
    ensures Get(DateCells(t), "code") == Get(t, "code")
  {
  }

  lemma DatedRowCells(r: Row)
    ensures Get(DatedRow(r), "list_date").Time?
    ensures RawYear(r) == Null || RawYear(r) == Str("") ==> Get(DatedRow(r), "list_date") == DefaultListDate
    ensures Get(DatedRow(r), "code") == RawCode(r)
  {
    RenamedCode(r);
    RenamedYear(r);
    DateCellsOf(RenameRow(r, ListRenames));
  }

  lemma StampListRowCells(exchange: string, d: Row)
    ensures var t := StampListRow(exchange, d);
            && Get(t, "list_date") == Get(d, "list_date")
            && Get(t, "timestamp") == Get(d, "list_date")
            && Get(t, "code") == Get(d, "code")
            && Get(t, "entity_type") == Str(StockType)
            && Get(t, "exchange") == Str(exchange)
            && Get(t, "is_active") == Flag(true)
  {
  }

  lemma KeyRowKeeps(c: Row, col: string)
    requires col != "id" && col != "entity_id"
    ensures Get(KeyRow(c), col) == Get(c, col)
  {
  }

  lemma KeyRowId(c: Row)
    ensures Get(KeyRow(c), "entity_id") == Get(KeyRow(c), "id") == StockId(c)
  {
  }

  /** Within one exchange and entity type, different codes give different ids. */
  lemma StockIdInjective(a: Row, b: Row)
    requires Get(a, "entity_type") == Get(b, "entity_type") && Get(a, "exchange") == Get(b, "exchange")
    requires StockId(a).Str? && StockId(a) == StockId(b)
    ensures Get(a, "code") == Get(b, "code")
  {
    var p := Get(a, "entity_type").s + "_" + Get(a, "exchange").s + "_";
    assert StockId(a).s == p + Get(a, "code").s;
    assert StockId(b).s == p + Get(b, "code").s;
    PrefixCancel(p, Get(a, "code").s, Get(b, "code").s);
  }

  lemma IdRowKeeps(t: Row)
    ensures var out := IdRow(t);
            && Get(out, "list_date") == Get(t, "list_date")
            && Get(out, "timestamp") == Get(t, "timestamp")
            && Get(out, "entity_type") == Get(t, "entity_type")
            && Get(out, "exchange") == Get(t, "exchange")
            && Get(out, "is_active") == Get(t, "is_active")
            && Get(out, "code") == StripCell(Get(t, "code"))
            && Get(out, "entity_id") == Get(out, "id")
  {
    var c := t["code" := StripCell(Get(t, "code"))];
    KeyRowId(c);
    KeyRowKeeps(c, "list_date");
    KeyRowKeeps(c, "timestamp");
    KeyRowKeeps(c, "entity_type");
    KeyRowKeeps(c, "exchange");
    KeyRowKeeps(c, "is_active");
    KeyRowKeeps(c, "code");
  }

  lemma IdRowId(t: Row)
    requires Get(t, "code").Str? && Get(t, "entity_type").Str? && Get(t, "exchange").Str?
    ensures Get(IdRow(t), "id") == Str(Get(t, "entity_type").s + "_" + Get(t, "exchange").s + "_" + Trim(Get(t, "code").s))
  {
    var c := t["code" := StripCell(Get(t, "code"))];
    KeyRowId(c);
    assert Get(c, "entity_type") == Get(t, "entity_type") && Get(c, "exchange") == Get(t, "exchange");
  }

  lemma TagRowCells(exchange: string, d: Row)
    ensures Get(TagRow(exchange, d), "list_date") == Get(d, "list_date")
    ensures Get(d, "code").Str? ==>
              Get(TagRow(exchange, d), "id") == Str(StockType + "_" + exchange + "_" + Trim(Get(d, "code").s))
  {
    StampListRowCells(exchange, d);
    IdRowKeeps(StampListRow(exchange, d));
    if Get(d, "code").Str? {
      IdRowId(StampListRow(exchange, d));
    }
  }

  /** One screener row before de-duplication: a missing or empty IPO year gives 1980-01-01, and
      the id is built from the stripped code. */
  lemma NormaliseRow(exchange: string, r: Row)
    ensures IsListedRow(TagRow(exchange, DatedRow(r)), exchange)
    ensures RawYear(r) == Null || RawYear(r) == Str("") ==>
              Get(TagRow(exchange, DatedRow(r)), "list_date") == DefaultListDate
    ensures RawCode(r).Str? ==>
              Get(TagRow(exchange, DatedRow(r)), "id") == Str(StockType + "_" + exchange + "_" + Trim(RawCode(r).s))
  {
    var d := DatedRow(r);
    DatedRowCells(r);
    TagRowListed(exchange, d);
    TagRowCells(exchange, d);
  }

  /** Every row `format` returns is a stock of this exchange, active, with a listing date that is
      also its timestamp, and with `id == entity_id == 'stock_' + exchange + '_' + stripped code`. */
  lemma FormatRowsListed(content: seq<Row>, exchange: string)
    ensures forall r :: r in FormatRows(content, exchange) ==> IsListedRow(r, exchange)
  {
    var n := Normalise(content, exchange);
    NormaliseRowwise(content, exchange);
    DropDuplicatesSubset(n, "id");
    forall r | r in FormatRows(content, exchange) ensures IsListedRow(r, exchange) {
      var i :| 0 <= i < |n| && n[i] == r;
      NormaliseRow(exchange, content[i]);
    }
  }

  /** A screener row with no IPO year is listed on 1980-01-01, unless a later row with the same id
      replaces it. */
  lemma FormatDefaultsListDate(content: seq<Row>, exchange: string, i: int)
    requires 0 <= i < |content| && (RawYear(content[i]) == Null || RawYear(content[i]) == Str(""))
    ensures Get(Normalise(content, exchange)[i], "list_date") == DefaultListDate
  {
    NormaliseRowwise(content, exchange);
    NormaliseRow(exchange, content[i]);
  }

  /** The columns `format` renames, renames onto, or assigns. Every other screener column (`name`,
      `sector`, `industry`, `country`, `lastsale`, ...) passes through. */
  const ListColumns: set<string> :=
    {"symbol", "ipoyear", "marketCap", "code", "list_date", "market_cap",
     "timestamp", "entity_type", "exchange", "is_active", "id", "entity_id"}

  /** The market capitalisation the screener gave a row (as `marketCap`). */
  function RawCap(r: Row): Value
  {
    if "marketCap" in r then r["marketCap"] else Get(r, "market_cap")
  }

  lemma ListTargetOf(s: string)
    requires s in ListRenames
    ensures ListRenames[s] in {"code", "list_date", "market_cap"}
  {
  }

  lemma RenamedCap(r: Row)
    ensures Get(RenameRow(r, ListRenames), "market_cap") == RawCap(r)
  {
    if "marketCap" in r {
      RenameMoves(r, ListRenames, "marketCap");
    } else {
      RenameKeeps(r, ListRenames, "market_cap");
    }
  }

  lemma RenamedOther(r: Row, k: string)
    requires k !in ListColumns
    ensures Get(RenameRow(r, ListRenames), k) == Get(r, k)
  {
    forall s | s in r && s in ListRenames ensures ListRenames[s] != k {
      ListTargetOf(s);
    }
    RenameKeeps(r, ListRenames, k);
  }

  /** Parsing and defaulting the listing date touches no other column. */
  lemma DateCellsKeep(t: Row, k: string)
    requires k != "list_date"
    ensures Get(DateCells(t), k) == Get(t, k)
  {
  }

  lemma StampListRowKeeps(exchange: string, d: Row, k: string)
    requires k != "timestamp" && k != "entity_type" && k != "exchange" && k != "is_active"
    ensures Get(StampListRow(exchange, d), k) == Get(d, k)
  {
  }

  lemma IdRowKeepsOther(t: Row, k: string)
    requires k != "code" && k != "id" && k != "entity_id"
    ensures Get(IdRow(t), k) == Get(t, k)
  {
    KeyRowKeeps(t["code" := StripCell(Get(t, "code"))], k);
  }

  /** A column that `format` neither renames nor assigns reaches the row unchanged, and so does
      the renamed market capitalisation. */
  lemma NormaliseRowKeeps(exchange: string, r: Row, k: string)
    requires k !in ListColumns || k == "market_cap"
    ensures Get(TagRow(exchange, DatedRow(r)), k) == (if k == "market_cap" then RawCap(r) else Get(r, k))
  {
    var t := RenameRow(r, ListRenames);
    if k == "market_cap" {
      RenamedCap(r);
    } else {
      RenamedOther(r, k);
    }
    DateCellsKeep(t, k);
    StampListRowKeeps(exchange, DatedRow(r), k);
    IdRowKeepsOther(StampListRow(exchange, DatedRow(r)), k);
  }

  /** `to_pd_timestamp` and the 1980-01-01 default on one screener row's IPO year. */
  lemma DatedRowYear(r: Row)
    ensures var y := ToPdTimestamp(RawYear(r));
            Get(DatedRow(r), "list_date") == (if y == Null then DefaultListDate else y)
  {
    RenamedYear(r);
  }

  /** Before de-duplication, every screener column that `format` neither renames nor assigns (`name`,
      `sector`, `industry`, `country`, ...) keeps its cell. */
  lemma FormatKeepsScreenerColumns(content: seq<Row>, exchange: string, k: string)
    requires k !in ListColumns
    ensures var n := Normalise(content, exchange);
            |n| == |content| && forall i :: 0 <= i < |content| ==> Get(n[i], k) == Get(content[i], k)
  {
    NormaliseRowwise(content, exchange);
    var n := Normalise(content, exchange);
    forall i | 0 <= i < |content| ensures Get(n[i], k) == Get(content[i], k) {
      NormaliseRowKeeps(exchange, content[i], k);
    }
  }

  /** Before de-duplication, the screener's `marketCap` appears as `market_cap`. */
  lemma FormatMarketCap(content: seq<Row>, exchange: string)
    ensures var n := Normalise(content, exchange);
            |n| == |content| && forall i :: 0 <= i < |content| ==> Get(n[i], "market_cap") == RawCap(content[i])
  {
    NormaliseRowwise(content, exchange);
    var n := Normalise(content, exchange);
    forall i | 0 <= i < |content| ensures Get(n[i], "market_cap") == RawCap(content[i]) {
      NormaliseRowKeeps(exchange, content[i], "market_cap");
    }
  }

  /** A four-digit IPO year lists the stock on January 1st of that year; any other non-empty
      string is read as a day, and a missing or empty year gives 1980-01-01. */
  lemma FormatListDate(content: seq<Row>, exchange: string, i: int)
    requires 0 <= i < |content|
    ensures var d := Get(Normalise(content, exchange)[i], "list_date");
            var y := RawYear(content[i]);
            && (y == Null || y == Str("") ==> d == DefaultListDate)
            && (y.Str? && |y.s| == 4 ==> d == Time(Stamp(y.s + "-01-01", Midnight)))
            && (y.Str? && y.s != "" && |y.s| != 4 ==> d == Time(Stamp(y.s, Midnight)))
            && (y.Time? ==> d == y)
  {
    NormaliseRowwise(content, exchange);
    DatedRowYear(content[i]);
    TagRowCells(exchange, DatedRow(content[i]));
  }

  /** After `format` the ids are pairwise distinct, and the row kept for each id is the last
      screener row that had it. */
  lemma FormatIdsUniqueKeepLast(content: seq<Row>, exchange: string)
    ensures KeepsLastByKey(Normalise(content, exchange), FormatRows(content, exchange), "id")
  {
    DropDuplicatesKeepsLastByKey(Normalise(content, exchange), "id");
  }

  // ---------------------------------------------------------------- process_loop

  /** The screener's answer: the request or the JSON lookup raised, or `data.rows` was read. */
  datatype Response = Raised | Answered(rows: Option<seq<Row>>)

  /** The progress dictionary handed to `process_loop`. */
  class ProgressUpdate {
    var fields: map<string, Value>

    constructor (fields: map<string, Value>)
      ensures this.fields == fields
    {
      this.fields := fields;
    }
  }

  /** The progress topic, observed through the messages published on it. */
  class ProgressTopic {
    var messages: seq<map<string, Value>>

    constructor ()
      ensures messages == []
    {
      messages := [];
    }

    method Publish(m: map<string, Value>)
      modifies this
      ensures messages == old(messages) + [m]
    {
      messages := messages + [m];
    }
  }

  /** `process_loop` for one exchange: when the screener returned rows, format them and persist
      them (the write raising when `persistFails`); whatever happened, set `update` to 1 in the
      progress dictionary and publish it. `handed` is the frame given to `persist`, `stored`
      whether that write went through. */
  method ProcessLoop(exchange: string, pbar: ProgressUpdate, topic: ProgressTopic, response: Response, persistFails: bool)
    returns (handed: Option<seq<Row>>, stored: bool)
    modifies pbar, topic
    ensures pbar.fields == old(pbar.fields)["update" := Num(1.0)]
    ensures topic.messages == old(topic.messages) + [pbar.fields]
    ensures handed == (if response.Answered? && response.rows.Some? && |response.rows.value| > 0
                       then Some(FormatRows(response.rows.value, exchange)) else None)
    ensures stored <==> handed.Some? && !persistFails
  {
    handed, stored := None, false;
    if response.Answered? && response.rows.Some? && |response.rows.value| > 0 {
      var df := Format(response.rows.value, exchange);
      handed := Some(df.rows);
      stored := !persistFails;
    }
    pbar.fields := pbar.fields["update" := Num(1.0)];
    topic.Publish(pbar.fields);
  }
}
