/** What the two trade-day recorders share: the watermark read back from the stored calendar
    (`query_data(order=timestamp.desc(), limit=1)`), the start date derived from it, and the
    day-string primary key of a calendar row. */
module TradeDays {
  import opened Strings
  import opened Frames

  /** The stored trade day that `order by timestamp desc limit 1` returns: none for an empty
      table, otherwise one whose day no other stored day comes after. */
  function Latest(stored: seq<Stamp>): (r: Option<Stamp>)
    ensures r.Some? <==> |stored| > 0
    ensures r.Some? ==> r.value in stored && forall i :: 0 <= i < |stored| ==> !LexLess(r.value.day, stored[i].day)
  {
    if |stored| == 0 then None
    else
      match Latest(stored[1..])
      case None => LexLessIrreflexive(stored[0].day); Some(stored[0])
      case Some(m) =>
        if LexLess(stored[0].day, m.day) then
          LexLessAsymmetric(stored[0].day, m.day);
          assert forall i :: 1 <= i < |stored| ==> stored[i] == stored[1..][i - 1];
          Some(m)
        else
          LexLessIrreflexive(stored[0].day);
          assert forall i :: 1 <= i < |stored| ==> stored[i] == stored[1..][i - 1];
          assert forall i :: 1 <= i < |stored| ==> !LexLess(stored[0].day, stored[i].day) by {
            forall i | 1 <= i < |stored| ensures !LexLess(stored[0].day, stored[i].day) {
              NotLessTransitive(stored[0].day, m.day, stored[i].day);
            }
          }
          Some(stored[0])
  }

  /** `to_time_str(trade_day[0].timestamp)` when the table holds a trade day, else `epoch`. */
  function StartDate(stored: seq<Stamp>, epoch: string): (s: string)
    ensures |stored| == 0 ==> s == epoch
    ensures |stored| > 0 ==> exists i :: 0 <= i < |stored| && stored[i].day == s
    ensures forall i :: 0 <= i < |stored| ==> !LexLess(s, stored[i].day)
  {
    match Latest(stored)
    case None => epoch
    case Some(t) => t.day
  }

  /** `generate_domain_id`: the row's timestamp formatted as a day string. */
  function DayId(r: Row): (id: Value)
    ensures id.Str? <==> Get(r, "timestamp").Time?
    ensures id.Str? ==> id.s == Get(r, "timestamp").t.day
  {
    Strftime(Get(r, "timestamp"), false)
  }

  /** A calendar row's id is the day it was parsed from. */
  lemma DayIdOfDate(r: Row, s: string)
    requires Get(r, "timestamp") == ToDatetime(Str(s))
    ensures DayId(r) == Str(s)
  {
  }
}
