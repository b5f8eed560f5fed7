/** The BaoStock China stock bar recorder (`BaoChinaStockKdataRecorder`): the fetch window's
    lower bound, the `record` done-flag protocol, the in-place row normalisation of `format`,
    the bar ids, and the commit guard of `on_finish_entity`. */
module BaoKdata {
  import opened Strings
  import opened Frames
  import opened Entities

  /** `IntervalLevel`, ordered by bar length. */
  datatype Level = Tick | Min1 | Min5 | Min15 | Min30 | Hour1 | Hour4 | Day1 | Week1 | Month1

  function Rank(l: Level): nat
  {
    match l
    case Tick => 0 case Min1 => 1 case Min5 => 2 case Min15 => 3 case Min30 => 4
    case Hour1 => 5 case Hour4 => 6 case Day1 => 7 case Week1 => 8 case Month1 => 9
  }

  /** `IntervalLevel.value`, stamped into the `level` column. */
  function LevelValue(l: Level): string
  {
    match l
    case Tick => "tick" case Min1 => "1m" case Min5 => "5m" case Min15 => "15m" case Min30 => "30m"
    case Hour1 => "1h" case Hour4 => "4h" case Day1 => "1d" case Week1 => "1wk" case Month1 => "1mon"
  }

  /** `level >= IntervalLevel.LEVEL_1DAY`. */
  predicate AtLeastDay(l: Level)
  {
    Rank(l) >= Rank(Day1)
  }

  /** The recorder's `level` and the BaoStock frequency code derived from it
      ("d", "w", "m", or a minute code for intraday bars). */
  datatype Config = Config(level: Level, baoLevel: string)

  /** BaoStock's frequency codes for daily, weekly and monthly bars. */
  predicate IsBarLevel(baoLevel: string)
  {
    baoLevel == "d" || baoLevel == "w" || baoLevel == "m"
  }

  /** The earliest day BaoStock serves: for day/week/month bars, and for intraday bars. */
  const BarFloor: string := "1990-12-19"
  const IntradayFloor: string := "1999-07-26"

  function Floor(baoLevel: string): string
  {
    if IsBarLevel(baoLevel) then BarFloor else IntradayFloor
  }

  /** The start day handed to the fetch: `max(start, floor)` on the day strings. It is never
      earlier than the level's floor nor than the requested start, and it is one of the two. */
  function FetchStart(baoLevel: string, start: string): (s: string)
    ensures IsBarLevel(baoLevel) ==> !LexLess(s, BarFloor)
    ensures !IsBarLevel(baoLevel) ==> !LexLess(s, IntradayFloor)
    ensures !LexLess(s, start)
    ensures s == start || s == Floor(baoLevel)
    ensures !LexLess(start, Floor(baoLevel)) ==> s == start
  {
    MaxStr(start, Floor(baoLevel))
  }

  // ---------------------------------------------------------------- format

  const DailyRenames: Renames := map[
    "turn" := "turnover", "date" := "timestamp", "preclose" := "pre_close", "pctChg" := "change_pct",
    "peTTM" := "pe_ttm", "psTTM" := "ps_ttm", "pcfNcfTTM" := "pcf_ncf_ttm", "pbMRQ" := "pb_mrq",
    "isST" := "is_st"]

  const WeekMonthRenames: Renames := map["turn" := "turnover", "date" := "timestamp", "pctChg" := "change_pct"]

  const IntradayRenames: Renames := map["time" := "timestamp"]

  /** `adjustflag` codes and their `AdjustType` names. */
  const AdjustNames: map<Value, Value> := map[Str("1") := Str("hfq"), Str("2") := Str("qfq"), Str("3") := Str("normal")]

  /** `lambda x: 1 if x == '1' else 0`. */
  function StFlag(v: Value): Value
  {
    if v == Str("1") then Num(1.0) else Num(0.0)
  }

  /** `pd.to_datetime(.., format='%Y%m%d%H%M%S%f')` on BaoStock's compact intraday time. */
  function ParseCompact(v: Value): Value
  {
    match v
    case Str(s) =>
      if |s| < 14 then Null
      else Time(Stamp(s[..4] + "-" + s[4..6] + "-" + s[6..8],
                      s[8..10] + ":" + s[10..12] + ":" + s[12..14] + (if |s| > 14 then "." + s[14..] else "")))
    case Time(_) => v
    case _ => Null
  }

  /** `generate_domain_id` on one row: `entity_id + '_' + timestamp`, the timestamp rendered as a
      day for daily and longer bars and in ISO-8601 form for intraday bars. */
  function BarId(r: Row, iso: bool): (id: Value)
    ensures id.Str? <==> Get(r, "entity_id").Str? && Get(r, "timestamp").Time?
    ensures id.Str? ==> id.s == Get(r, "entity_id").s + "_" + Strftime(Get(r, "timestamp"), iso).s
  {
    Concat(Concat(Get(r, "entity_id"), Str("_")), Strftime(Get(r, "timestamp"), iso))
  }

  function IdColumn(iso: bool): Row -> Value
  {
    r => BarId(r, iso)
  }

  /** The level-specific first part of `format`: renaming, parsing the time column, and the
      ST flag for daily bars. */
  function ParseFrame(cfg: Config, rows: seq<Row>): seq<Row>
  {
    if cfg.baoLevel == "d" then
      ApplyFrame(ApplyFrame(RenameFrame(rows, DailyRenames), "timestamp", ToDatetime), "is_st", StFlag)
    else if cfg.baoLevel == "w" || cfg.baoLevel == "m" then
      ApplyFrame(RenameFrame(rows, WeekMonthRenames), "timestamp", ToDatetime)
    else
      ApplyFrame(RenameFrame(rows, IntradayRenames), "timestamp", ParseCompact)
  }

  /** The frame `format` leaves behind. */
  function FormatRows(cfg: Config, entity: Stock, rows: seq<Row>): seq<Row>
  {
    FinishFrame(cfg, StampFrame(cfg, entity, BlanksToZeroFrame(ParseFrame(cfg, rows))))
  }

  /** The columns copied from the entity and the recorder. */
  function StampFrame(cfg: Config, entity: Stock, rows: seq<Row>): seq<Row>
  {
    AssignFrame(AssignFrame(AssignFrame(AssignFrame(AssignFrame(rows,
      "entity_id", Str(entity.id)), "provider", Str(BaoStock)), "name", Str(entity.name)),
      "code", Str(entity.code)), "level", Str(LevelValue(cfg.level)))
  }

  /** The `adjustflag` names, then the ids. */
  function FinishFrame(cfg: Config, rows: seq<Row>): seq<Row>
  {
    AssignWithFrame(ReplaceFrame(rows, "adjustflag", AdjustNames), "id", IdColumn(!AtLeastDay(cfg.level)))
  }

  /** `format(entity, df)`: normalises the fetched bars in place, step by step. */
  method Format(cfg: Config, entity: Stock, df: DataFrame)
    modifies df
    ensures df.rows == FormatRows(cfg, entity, old(df.rows))
  {
    if cfg.baoLevel == "d" {
      df.Rename(DailyRenames);
      df.Apply("timestamp", ToDatetime);
      df.Apply("is_st", StFlag);
    } else if cfg.baoLevel == "w" || cfg.baoLevel == "m" {
      df.Rename(WeekMonthRenames);
      df.Apply("timestamp", ToDatetime);
    } else {
      df.Rename(IntradayRenames);
      df.Apply("timestamp", ParseCompact);
    }
    df.ReplaceBlanks();
    df.Assign("entity_id", Str(entity.id));
    df.Assign("provider", Str(BaoStock));
    df.Assign("name", Str(entity.name));
    df.Assign("code", Str(entity.code));
    df.Assign("level", Str(LevelValue(cfg.level)));
    df.Replace("adjustflag", AdjustNames);
    df.AssignWith("id", IdColumn(!AtLeastDay(cfg.level)));
  }

  /** The level-specific first part of `format` on one row. */
  function ParseRow(cfg: Config, r: Row): Row
  {
    if cfg.baoLevel == "d" then
      var t := RenameRow(r, DailyRenames);
      var u := t["timestamp" := ToDatetime(Get(t, "timestamp"))];
      u["is_st" := StFlag(Get(u, "is_st"))]
    else if cfg.baoLevel == "w" || cfg.baoLevel == "m" then
      var t := RenameRow(r, WeekMonthRenames);
      t["timestamp" := ToDatetime(Get(t, "timestamp"))]
    else
      var t := RenameRow(r, IntradayRenames);
      t["timestamp" := ParseCompact(Get(t, "timestamp"))]
  }

  /** The columns copied from the entity and the recorder onto every row. */
  function StampRow(cfg: Config, entity: Stock, r: Row): Row
  {
    r["entity_id" := Str(entity.id)]["provider" := Str(BaoStock)]["name" := Str(entity.name)]
     ["code" := Str(entity.code)]["level" := Str(LevelValue(cfg.level))]
  }

  /** The last part of `format` on one row: the `adjustflag` names, then the id. */
  function FinishRow(cfg: Config, r: Row): Row
  {
    var a := ReplaceRow(r, "adjustflag", AdjustNames);
    a["id" := BarId(a, !AtLeastDay(cfg.level))]
  }

  /** `format` on one row. */
  function FormatRow(cfg: Config, entity: Stock, r: Row): Row
  {
    FinishRow(cfg, StampRow(cfg, entity, BlanksToZeroRow(ParseRow(cfg, r))))
  }

  /** `format` works row by row: one output row per fetched bar, in the same order. */
  lemma FormatRowwise(cfg: Config, entity: Stock, rows: seq<Row>)
    ensures |FormatRows(cfg, entity, rows)| == |rows|
    ensures forall i :: 0 <= i < |rows| ==> FormatRows(cfg, entity, rows)[i] == FormatRow(cfg, entity, rows[i])
  {
    var p := ParseFrame(cfg, rows);
    ParseFrameRowwise(cfg, rows);
    var b := BlanksToZeroFrame(p);
    var t := StampFrame(cfg, entity, b);
    StampFrameRowwise(cfg, entity, b);
    FinishFrameRowwise(cfg, t);
  }

  lemma ParseFrameRowwise(cfg: Config, rows: seq<Row>)
    ensures |ParseFrame(cfg, rows)| == |rows|
    ensures forall i :: 0 <= i < |rows| ==> ParseFrame(cfg, rows)[i] == ParseRow(cfg, rows[i])
  {
    if cfg.baoLevel == "d" {
      RenameFrameRowwise(rows, DailyRenames);
    } else if cfg.baoLevel == "w" || cfg.baoLevel == "m" {
      RenameFrameRowwise(rows, WeekMonthRenames);
    } else {
      RenameFrameRowwise(rows, IntradayRenames);
    }
  }

  lemma RenameFrameRowwise(rows: seq<Row>, m: Renames)
    ensures |RenameFrame(rows, m)| == |rows|
    ensures forall i :: 0 <= i < |rows| ==> RenameFrame(rows, m)[i] == RenameRow(rows[i], m)
  {
  }

  lemma StampFrameRowwise(cfg: Config, entity: Stock, rows: seq<Row>)
    ensures |StampFrame(cfg, entity, rows)| == |rows|
    ensures forall i :: 0 <= i < |rows| ==> StampFrame(cfg, entity, rows)[i] == StampRow(cfg, entity, rows[i])
  {
  }

  lemma FinishFrameRowwise(cfg: Config, rows: seq<Row>)
    ensures |FinishFrame(cfg, rows)| == |rows|
    ensures forall i :: 0 <= i < |rows| ==> FinishFrame(cfg, rows)[i] == FinishRow(cfg, rows[i])
  {
  }

  /** The stage after parsing leaves `adjustflag` where it was. */
  lemma ParseRowKeepsAdjustFlag(cfg: Config, r: Row)
    ensures Get(ParseRow(cfg, r), "adjustflag") == Get(r, "adjustflag")
  {
    if cfg.baoLevel == "d" {
      RenameKeeps(r, DailyRenames, "adjustflag");
    } else if cfg.baoLevel == "w" || cfg.baoLevel == "m" {
      RenameKeeps(r, WeekMonthRenames, "adjustflag");
    } else {
      RenameKeeps(r, IntradayRenames, "adjustflag");
    }
  }

  /** What the stamping and finishing stages put in each column they touch. */
  lemma FinishStampCells(cfg: Config, entity: Stock, r: Row)
    ensures var out := FinishRow(cfg, StampRow(cfg, entity, r));
            && Get(out, "entity_id") == Str(entity.id)
            && Get(out, "provider") == Str(BaoStock)
            && Get(out, "name") == Str(entity.name)
            && Get(out, "code") == Str(entity.code)
            && Get(out, "level") == Str(LevelValue(cfg.level))
            && Get(out, "timestamp") == Get(r, "timestamp")
            && Get(out, "is_st") == Get(r, "is_st")
            && Get(out, "adjustflag") == (var v := Get(r, "adjustflag"); if v in AdjustNames then AdjustNames[v] else v)
            && Get(out, "id") == Concat(Str(entity.id + "_"), Strftime(Get(r, "timestamp"), !AtLeastDay(cfg.level)))
  {
  }

  /** Every bar carries the entity's id, name and code, the provider and the level. */
  lemma FormatStampsEntity(cfg: Config, entity: Stock, rows: seq<Row>)
    ensures var out := FormatRows(cfg, entity, rows);
            |out| == |rows| &&
            forall i :: 0 <= i < |out| ==>
              && Get(out[i], "entity_id") == Str(entity.id)
              && Get(out[i], "provider") == Str(BaoStock)
              && Get(out[i], "name") == Str(entity.name)
              && Get(out[i], "code") == Str(entity.code)
              && Get(out[i], "level") == Str(LevelValue(cfg.level))
  {
    FormatRowwise(cfg, entity, rows);
    forall i | 0 <= i < |rows| {
      FinishStampCells(cfg, entity, BlanksToZeroRow(ParseRow(cfg, rows[i])));
    }
  }

  /** The three `adjustflag` renamings and the blank replacement before them, on one cell. */
  predicate AdjustFlagOutcome(raw: Value, got: Value)
  {
    && (raw == Str("1") ==> got == Str("hfq"))
    && (raw == Str("2") ==> got == Str("qfq"))
    && (raw == Str("3") ==> got == Str("normal"))
    && (IsBlankCell(raw) ==> got == Num(0.0))
    && (raw != Str("1") && raw != Str("2") && raw != Str("3") && !IsBlankCell(raw) ==> got == raw)
  }

  lemma AdjustCell(raw: Value)
    ensures AdjustFlagOutcome(raw, var v := BlankToZero(raw); if v in AdjustNames then AdjustNames[v] else v)
  {
    assert !IsBlank("1") && !IsBlank("2") && !IsBlank("3") by {
      assert !IsSpace("1"[0]) && !IsSpace("2"[0]) && !IsSpace("3"[0]);
    }
  }

  lemma FormatRowAdjustFlag(cfg: Config, entity: Stock, r: Row)
    ensures AdjustFlagOutcome(Get(r, "adjustflag"), Get(FormatRow(cfg, entity, r), "adjustflag"))
  {
    var p := ParseRow(cfg, r);
    ParseRowKeepsAdjustFlag(cfg, r);
    BlanksToZeroGet(p, "adjustflag");
    FinishStampCells(cfg, entity, BlanksToZeroRow(p));
    AdjustCell(Get(r, "adjustflag"));
  }

  /** The `adjustflag` codes '1', '2', '3' become 'hfq', 'qfq', 'normal'; a blank code has already
      become 0.0; any other value, a missing one included, is left as it was. */
  lemma FormatAdjustFlag(cfg: Config, entity: Stock, rows: seq<Row>)
    ensures var out := FormatRows(cfg, entity, rows);
            |out| == |rows| &&
            forall i :: 0 <= i < |rows| ==> AdjustFlagOutcome(Get(rows[i], "adjustflag"), Get(out[i], "adjustflag"))
  {
    FormatRowwise(cfg, entity, rows);
    forall i | 0 <= i < |rows| {
      FormatRowAdjustFlag(cfg, entity, rows[i]);
    }
  }

  /** For daily bars the ST flag is 1 exactly when BaoStock's `isST` is '1', and 0 otherwise. */
  lemma FormatStFlag(entity: Stock, level: Level, rows: seq<Row>, i: int)
    requires 0 <= i < |rows| && "isST" in rows[i]
    ensures var got := Get(FormatRows(Config(level, "d"), entity, rows)[i], "is_st");
            (got == Num(1.0) <==> rows[i]["isST"] == Str("1")) && (got == Num(1.0) || got == Num(0.0))
  {
    var cfg := Config(level, "d");
    FormatRowwise(cfg, entity, rows);
    var p := ParseRow(cfg, rows[i]);
    ParseRowStFlag(level, rows[i]);
    BlanksToZeroGet(p, "is_st");
    FinishStampCells(cfg, entity, BlanksToZeroRow(p));
  }

  lemma ParseRowStFlag(level: Level, r: Row)
    requires "isST" in r
    ensures Get(ParseRow(Config(level, "d"), r), "is_st") == StFlag(r["isST"])
  {
    RenameMoves(r, DailyRenames, "isST");
  }

  /** The level's `rename(columns=...)` table. */
  function LevelRenames(baoLevel: string): Renames
  {
    if baoLevel == "d" then DailyRenames
    else if baoLevel == "w" || baoLevel == "m" then WeekMonthRenames
    else IntradayRenames
  }

  /** The columns `format` assigns after the blank replacement. */
  const Assigned: set<string> := {"entity_id", "provider", "name", "code", "level", "adjustflag", "id"}

  /** A BaoStock column (`open`, `close`, `volume`, ...) that `format` neither renames, nor renames
      another column onto, nor assigns: only the blank replacement touches it. */
  predicate PassesThrough(baoLevel: string, k: string)
  {
    k !in LevelRenames(baoLevel) && k !in LevelRenames(baoLevel).Values && k !in Assigned
  }

  /** A renamed BaoStock column other than the time and the ST flag, which are parsed after renaming. */
  predicate RenamedData(baoLevel: string, src: string)
  {
    src in LevelRenames(baoLevel) && LevelRenames(baoLevel)[src] != "timestamp" && LevelRenames(baoLevel)[src] != "is_st"
  }

  /** Parsing changes only the time and the ST flag after renaming. */
  lemma ParseRowOther(cfg: Config, r: Row, k: string)
    requires k != "timestamp" && (cfg.baoLevel == "d" ==> k != "is_st")
    ensures Get(ParseRow(cfg, r), k) == Get(RenameRow(r, LevelRenames(cfg.baoLevel)), k)
  {
    if cfg.baoLevel == "d" {
      ParseDailyOther(cfg, r, k);
    } else if cfg.baoLevel == "w" || cfg.baoLevel == "m" {
      ParseWeekMonthOther(cfg, r, k);
    } else {
      ParseIntradayOther(cfg, r, k);
    }
  }

  lemma ParseDailyOther(cfg: Config, r: Row, k: string)
    requires cfg.baoLevel == "d" && k != "timestamp" && k != "is_st"
    ensures Get(ParseRow(cfg, r), k) == Get(RenameRow(r, DailyRenames), k)
  {
    var t := RenameRow(r, DailyRenames);
    var u := t["timestamp" := ToDatetime(Get(t, "timestamp"))];
    UpdateOther(u, "is_st", StFlag(Get(u, "is_st")), k);
    UpdateOther(t, "timestamp", ToDatetime(Get(t, "timestamp")), k);
  }

  lemma ParseWeekMonthOther(cfg: Config, r: Row, k: string)
    requires (cfg.baoLevel == "w" || cfg.baoLevel == "m") && k != "timestamp"
    ensures Get(ParseRow(cfg, r), k) == Get(RenameRow(r, WeekMonthRenames), k)
  {
    var t := RenameRow(r, WeekMonthRenames);
    UpdateOther(t, "timestamp", ToDatetime(Get(t, "timestamp")), k);
  }

  lemma ParseIntradayOther(cfg: Config, r: Row, k: string)
    requires cfg.baoLevel != "d" && cfg.baoLevel != "w" && cfg.baoLevel != "m" && k != "timestamp"
    ensures Get(ParseRow(cfg, r), k) == Get(RenameRow(r, IntradayRenames), k)
  {
    var t := RenameRow(r, IntradayRenames);
    UpdateOther(t, "timestamp", ParseCompact(Get(t, "timestamp")), k);
  }

  lemma UpdateOther(t: Row, c: string, v: Value, k: string)
    requires k != c
    ensures Get(t[c := v], k) == Get(t, k)
  {
  }

  lemma ParseRowKeeps(cfg: Config, r: Row, k: string)
    requires PassesThrough(cfg.baoLevel, k)
    ensures Get(ParseRow(cfg, r), k) == Get(r, k)
  {
    var m := LevelRenames(cfg.baoLevel);
    if cfg.baoLevel == "d" {
      assert m["date"] in m.Values && m["isST"] in m.Values;
    } else if cfg.baoLevel == "w" || cfg.baoLevel == "m" {
      assert m["date"] in m.Values;
    } else {
      assert m["time"] in m.Values;
    }
    ParseRowOther(cfg, r, k);
    forall s | s in r && s in m ensures m[s] != k {
      assert m[s] in m.Values;
    }
    RenameKeeps(r, m, k);
  }

  /** No renaming table renames onto one of its own source columns or onto an assigned column. */
  lemma RenameTargetsFree(baoLevel: string, src: string)
    requires src in LevelRenames(baoLevel)
    ensures LevelRenames(baoLevel)[src] !in LevelRenames(baoLevel) && LevelRenames(baoLevel)[src] !in Assigned
  {
    if baoLevel == "d" {
      DailyTargetsFree(src);
    } else if baoLevel == "w" || baoLevel == "m" {
      WeekMonthTargetsFree(src);
    } else {
      assert IntradayRenames.Keys == {"time"};
    }
  }

  lemma DailyTargetsFree(src: string)
    requires src in DailyRenames
    ensures DailyRenames[src] !in DailyRenames && DailyRenames[src] !in Assigned
  {
    DailyTargetOf(src);
    DailyKeys();
    DailyTargetsApart();
    DailyTargetsUnassigned();
  }

  const DailyTargets: set<string> :=
    {"turnover", "timestamp", "pre_close", "change_pct", "pe_ttm", "ps_ttm", "pcf_ncf_ttm", "pb_mrq", "is_st"}
  const DailySources: set<string> :=
    {"turn", "date", "preclose", "pctChg", "peTTM", "psTTM", "pcfNcfTTM", "pbMRQ", "isST"}

  lemma DailyKeys()
    ensures DailyRenames.Keys == DailySources
  {
  }

  lemma DailyTargetsApart()
    ensures DailyTargets !! DailySources
  {
  }

  lemma DailyTargetsUnassigned()
    ensures DailyTargets !! Assigned
  {
  }

  lemma WeekMonthTargetsFree(src: string)
    requires src in WeekMonthRenames
    ensures WeekMonthRenames[src] !in WeekMonthRenames && WeekMonthRenames[src] !in Assigned
  {
    assert WeekMonthRenames[src] in {"turnover", "timestamp", "change_pct"};
    assert WeekMonthRenames.Keys == {"turn", "date", "pctChg"};
  }

  lemma ParseRowRenamed(cfg: Config, r: Row, src: string)
    requires RenamedData(cfg.baoLevel, src)
    ensures var dst := LevelRenames(cfg.baoLevel)[src];
            Get(ParseRow(cfg, r), dst) == (if src in r then r[src] else Get(r, dst))
  {
    var m := LevelRenames(cfg.baoLevel);
    ParseRowOther(cfg, r, m[src]);
    RenameTargetsFree(cfg.baoLevel, src);
    RenameTarget(r, m, src);
  }

  /** The daily price and volume columns pass through. */
  lemma DailyPassThrough()
    ensures PassesThrough("d", "open") && PassesThrough("d", "close") && PassesThrough("d", "volume")
  {
    DailyPasses("open");
    DailyPasses("close");
    DailyPasses("volume");
  }

  lemma DailyPasses(k: string)
    requires k !in DailySources && k !in DailyTargets && k !in Assigned
    ensures PassesThrough("d", k)
  {
    DailyKeys();
    DailyValues();
  }

  /** The daily turnover, change and previous close are renamed data columns. */
  lemma DailyRenamedData()
    ensures RenamedData("d", "turn") && RenamedData("d", "pctChg") && RenamedData("d", "preclose")
  {
  }

  lemma DailyValues()
    ensures DailyRenames.Values <= DailyTargets
  {
    forall v | v in DailyRenames.Values ensures v in DailyTargets {
      var s :| s in DailyRenames && DailyRenames[s] == v;
      DailyTargetOf(s);
    }
  }

  lemma DailyTargetOf(s: string)
    requires s in DailyRenames
    ensures DailyRenames[s] in DailyTargets
  {
  }

  /** `format` on one row leaves a pass-through column as the blank replacement made it. */
  lemma FormatRowKeeps(cfg: Config, entity: Stock, r: Row, k: string)
    requires PassesThrough(cfg.baoLevel, k)
    ensures Get(FormatRow(cfg, entity, r), k) == BlankToZero(Get(r, k))
  {
    var p := ParseRow(cfg, r);
    ParseRowKeeps(cfg, r, k);
    BlanksToZeroGet(p, k);
    FinishStampOther(cfg, entity, BlanksToZeroRow(p), k);
  }

  /** `format` on one row puts a renamed data column's cell, blank replaced, under its new name. */
  lemma FormatRowRenamed(cfg: Config, entity: Stock, r: Row, src: string)
    requires RenamedData(cfg.baoLevel, src)
    ensures var dst := LevelRenames(cfg.baoLevel)[src];
            Get(FormatRow(cfg, entity, r), dst) == BlankToZero(if src in r then r[src] else Get(r, dst))
  {
    var dst := LevelRenames(cfg.baoLevel)[src];
    var p := ParseRow(cfg, r);
    ParseRowRenamed(cfg, r, src);
    RenameTargetsFree(cfg.baoLevel, src);
    BlanksToZeroGet(p, dst);
    FinishStampOther(cfg, entity, BlanksToZeroRow(p), dst);
  }

  /** Every BaoStock column that `format` neither renames nor assigns (`open`, `high`, `low`,
      `close`, `volume`, `amount`, ...) keeps its cell in every bar, a blank one becoming 0.0. */
  lemma FormatKeepsData(cfg: Config, entity: Stock, rows: seq<Row>, k: string)
    requires PassesThrough(cfg.baoLevel, k)
    ensures var out := FormatRows(cfg, entity, rows);
            |out| == |rows| &&
            forall i :: 0 <= i < |rows| ==>
              Get(out[i], k) == (if IsBlankCell(Get(rows[i], k)) then Num(0.0) else Get(rows[i], k))
  {
    FormatRowwise(cfg, entity, rows);
    forall i | 0 <= i < |rows| {
      FormatRowKeeps(cfg, entity, rows[i], k);
    }
  }

  /** Every renamed data column (`turn` to `turnover`, `pctChg` to `change_pct`, `preclose` to
      `pre_close`, ...) carries BaoStock's cell under its new name, a blank one becoming 0.0; a
      bar without the source column keeps whatever it had under the new name. */
  lemma FormatRenamedData(cfg: Config, entity: Stock, rows: seq<Row>, src: string)
    requires RenamedData(cfg.baoLevel, src)
    ensures var out := FormatRows(cfg, entity, rows);
            var dst := LevelRenames(cfg.baoLevel)[src];
            |out| == |rows| &&
            forall i :: 0 <= i < |rows| ==>
              var v := if src in rows[i] then rows[i][src] else Get(rows[i], dst);
              Get(out[i], dst) == (if IsBlankCell(v) then Num(0.0) else v)
  {
    FormatRowwise(cfg, entity, rows);
    forall i | 0 <= i < |rows| {
      FormatRowRenamed(cfg, entity, rows[i], src);
    }
  }

  /** No literal the recorder stamps is blank. */
  lemma StampedLiteralsNotBlank(cfg: Config)
    ensures !IsBlank(BaoStock) && !IsBlank(LevelValue(cfg.level))
    ensures !IsBlank("hfq") && !IsBlank("qfq") && !IsBlank("normal")
  {
    assert !IsSpace(BaoStock[0]) && !IsSpace(LevelValue(cfg.level)[0]);
    assert !IsSpace("hfq"[0]) && !IsSpace("qfq"[0]) && !IsSpace("normal"[0]);
  }

  lemma FinishStampNoBlanks(cfg: Config, entity: Stock, c: Row, k: string)
    requires forall j :: j in c ==> !IsBlankCell(c[j])
    requires k in FinishRow(cfg, StampRow(cfg, entity, c)) && k != "entity_id" && k != "name" && k != "code"
    ensures !IsBlankCell(FinishRow(cfg, StampRow(cfg, entity, c))[k])
  {
    var out := FinishRow(cfg, StampRow(cfg, entity, c));
    assert Get(out, k) == out[k];
    if k == "id" {
      FinishStampIdNotBlank(cfg, entity, c);
    } else if k == "adjustflag" {
      FinishStampCells(cfg, entity, c);
      StampedLiteralsNotBlank(cfg);
      if Get(c, k) !in AdjustNames {
        assert k in c;
      }
    } else if k == "provider" || k == "level" {
      FinishStampCells(cfg, entity, c);
      StampedLiteralsNotBlank(cfg);
    } else {
      FinishStampOther(cfg, entity, c, k);
    }
  }

  /** A bar id starts with the entity id and an underscore, so it is never blank. */
  lemma FinishStampIdNotBlank(cfg: Config, entity: Stock, c: Row)
    ensures !IsBlankCell(Get(FinishRow(cfg, StampRow(cfg, entity, c)), "id"))
  {
    FinishStampCells(cfg, entity, c);
    var v := Get(FinishRow(cfg, StampRow(cfg, entity, c)), "id");
    if v.Str? {
      assert v.s[|entity.id|] == '_';
    }
  }

  /** Columns the stamping and finishing stages do not assign keep their cells. */
  lemma FinishStampOther(cfg: Config, entity: Stock, c: Row, k: string)
    requires k != "entity_id" && k != "provider" && k != "name" && k != "code" && k != "level"
    requires k != "adjustflag" && k != "id"
    ensures Get(FinishRow(cfg, StampRow(cfg, entity, c)), k) == Get(c, k)
  {
  }

  lemma FormatRowNoBlanks(cfg: Config, entity: Stock, r: Row, k: string)
    requires k in FormatRow(cfg, entity, r) && k != "entity_id" && k != "name" && k != "code"
    ensures !IsBlankCell(FormatRow(cfg, entity, r)[k])
  {
    BlanksToZeroClean(ParseRow(cfg, r));
    FinishStampNoBlanks(cfg, entity, BlanksToZeroRow(ParseRow(cfg, r)), k);
  }

  /** After `format` no cell that BaoStock delivered is an empty or whitespace-only string:
      only the columns copied from the entity can still hold one. */
  lemma FormatNoBlanks(cfg: Config, entity: Stock, rows: seq<Row>)
    ensures var out := FormatRows(cfg, entity, rows);
            forall i, k :: 0 <= i < |out| && k in out[i] && k != "entity_id" && k != "name" && k != "code"
              ==> !IsBlankCell(out[i][k])
  {
    FormatRowwise(cfg, entity, rows);
    var out := FormatRows(cfg, entity, rows);
    forall i, k | 0 <= i < |out| && k in out[i] && k != "entity_id" && k != "name" && k != "code"
      ensures !IsBlankCell(out[i][k])
    {
      FormatRowNoBlanks(cfg, entity, rows[i], k);
    }
  }

  /** A bar with a parsed time gets the id `entity_id + '_' + time`, rendered as a day at daily
      level and above and in ISO-8601 form below. */
  lemma FormatId(cfg: Config, entity: Stock, rows: seq<Row>, i: int)
    requires 0 <= i < |rows|
    ensures var out := FormatRows(cfg, entity, rows)[i];
            var ts := Get(out, "timestamp");
            ts.Time? ==> Get(out, "id") == Str(entity.id + "_" + Strftime(ts, !AtLeastDay(cfg.level)).s)
  {
    FormatRowwise(cfg, entity, rows);
    FinishStampCells(cfg, entity, BlanksToZeroRow(ParseRow(cfg, rows[i])));
  }

  /** For day, week and month bars the parsed timestamp is BaoStock's `date`. */
  lemma ParseRowDate(cfg: Config, r: Row)
    requires IsBarLevel(cfg.baoLevel) && "date" in r
    ensures Get(ParseRow(cfg, r), "timestamp") == ToDatetime(r["date"])
  {
    if cfg.baoLevel == "d" {
      RenameMoves(r, DailyRenames, "date");
    } else {
      RenameMoves(r, WeekMonthRenames, "date");
    }
  }

  lemma FormatRowIdOfDate(cfg: Config, entity: Stock, r: Row)
    requires IsBarLevel(cfg.baoLevel) && AtLeastDay(cfg.level)
    requires "date" in r && r["date"].Str?
    ensures Get(FormatRow(cfg, entity, r), "id") == Str(entity.id + "_" + r["date"].s)
  {
    var p := ParseRow(cfg, r);
    ParseRowDate(cfg, r);
    BlanksToZeroGet(p, "timestamp");
    FinishStampCells(cfg, entity, BlanksToZeroRow(p));
  }

  /** For day, week and month bars at a daily-or-longer level, a bar whose `date` is the day string
      `d` gets the id `entity.id + '_' + d`. */
  lemma FormatIdOfDate(cfg: Config, entity: Stock, rows: seq<Row>, i: int)
    requires 0 <= i < |rows|
    requires IsBarLevel(cfg.baoLevel) && AtLeastDay(cfg.level)
    requires "date" in rows[i] && rows[i]["date"].Str?
    ensures Get(FormatRows(cfg, entity, rows)[i], "id") == Str(entity.id + "_" + rows[i]["date"].s)
  {
    FormatRowwise(cfg, entity, rows);
    FormatRowIdOfDate(cfg, entity, rows[i]);
  }

  /** Ids built as `prefix + rendered time` differ whenever the rendered times do. */
  lemma PrefixedIdsDiffer(out: seq<Row>, prefix: string, iso: bool)
    requires forall i :: 0 <= i < |out| && Get(out[i], "timestamp").Time? ==>
               Get(out[i], "id") == Str(prefix + Strftime(Get(out[i], "timestamp"), iso).s)
    ensures forall i, j :: 0 <= i < j < |out| && Get(out[i], "timestamp").Time? && Get(out[j], "timestamp").Time?
              && Strftime(Get(out[i], "timestamp"), iso) != Strftime(Get(out[j], "timestamp"), iso)
              ==> Get(out[i], "id") != Get(out[j], "id")
  {
    forall i, j | 0 <= i < j < |out| && Get(out[i], "timestamp").Time? && Get(out[j], "timestamp").Time?
      && Strftime(Get(out[i], "timestamp"), iso) != Strftime(Get(out[j], "timestamp"), iso)
      ensures Get(out[i], "id") != Get(out[j], "id")
    {
      if Get(out[i], "id") == Get(out[j], "id") {
        PrefixCancel(prefix, Strftime(Get(out[i], "timestamp"), iso).s, Strftime(Get(out[j], "timestamp"), iso).s);
      }
    }
  }

  /** Ids are unique within one entity's batch whenever the rendered bar times are. */
  lemma FormatIdsUnique(cfg: Config, entity: Stock, rows: seq<Row>)
    ensures var out := FormatRows(cfg, entity, rows);
            var iso := !AtLeastDay(cfg.level);
            forall i, j :: 0 <= i < j < |out| && Get(out[i], "timestamp").Time? && Get(out[j], "timestamp").Time?
              && Strftime(Get(out[i], "timestamp"), iso) != Strftime(Get(out[j], "timestamp"), iso)
              ==> Get(out[i], "id") != Get(out[j], "id")
  {
    var out := FormatRows(cfg, entity, rows);
    FormatRowwise(cfg, entity, rows);
    forall i | 0 <= i < |out| && Get(out[i], "timestamp").Time?
      ensures Get(out[i], "id") == Str(entity.id + "_" + Strftime(Get(out[i], "timestamp"), !AtLeastDay(cfg.level)).s)
    {
      FormatId(cfg, entity, rows, i);
    }
    PrefixedIdsDiffer(out, entity.id + "_", !AtLeastDay(cfg.level));
  }

  // ---------------------------------------------------------------- record

  /** `record`: clamp the start, fetch the bars from it, and either stop (`done`, nothing
      fetched) or hand back the formatted frame. `bars` stands for BaoStock's history query for
      this entity, given the start day and the optional end day; None is a failed query. */
  method Record(cfg: Config, entity: Stock, start: Stamp, end: Option<Stamp>,
                bars: (string, Option<string>) -> Option<seq<Row>>)
    returns (done: bool, batch: DataFrame?)
    ensures var fetched := bars(FetchStart(cfg.baoLevel, start.day), if end.None? then None else Some(end.value.day));
            && (done <==> !PdValid(fetched))
            && (done ==> batch == null)
            && (!done ==> batch != null && batch.rows == FormatRows(cfg, entity, fetched.value))
  {
    var from := FetchStart(cfg.baoLevel, start.day);
    var fetched := bars(from, if end.None? then None else Some(end.value.day));
    if PdValid(fetched) {
      var df := new DataFrame(fetched.value);
      Format(cfg, entity, df);
      return false, df;
    }
    return true, null;
  }

  /** `on_finish_entity`: commit (rolling back if the commit raises) and close the session only
      for outcome 2 on an inactive stock; otherwise the session is left alone. */
  method OnFinishEntity(entity: Stock, session: Session, result: int, commitFails: bool)
    modifies session
    ensures session.log == old(session.log) +
              (if result == 2 && !entity.isActive then CommitProtocol(commitFails) else [])
  {
    if result == 2 && !entity.isActive {
      session.CommitOrRollback(commitFails);
    }
  }
}
