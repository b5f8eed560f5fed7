/** The Yahoo US stock detail recorder (`YahooUsStockDetailRecorder`): for each `StockDetail`
    still lacking data it reads the ticker's info, retrying up to three times, merges it into the
    entity in place, and commits the session. */
module YahooMeta {
  import opened Frames
  import opened Entities

  /** How many times `yh_get_info` calls `Ticker(code).info` at most. */
  const Retry: nat := 3

  /** The outcome of one `Ticker(code).info` call: it raised with a message, or returned the info dictionary. */
  datatype Attempt = Raised(msg: string) | Fetched(info: map<string, Value>)

  /** The line `yh_get_info` logs after the last failure. */
  function ErrorMessage(code: string, msg: string): string
  {
    "yh_get_info, code: " + code + ", error: " + msg
  }

  /** The info of the first attempt, from attempt `k` on, that did not raise. */
  function FirstInfo(code: string, ticker: (string, nat) -> Attempt, k: nat): (info: Option<map<string, Value>>)
    decreases Retry - k
    ensures info.Some? ==> exists j :: k <= j < Retry && ticker(code, j) == Fetched(info.value)
  {
    if k >= Retry then None
    else match ticker(code, k)
      case Fetched(info) => Some(info)
      case Raised(_) => FirstInfo(code, ticker, k + 1)
  }

  /** `yh_get_info(code)`: `ticker(code, k)` is what the `k`-th call of `Ticker(code).info` does.
      `attempts` is how many calls were made, `logged` what was logged. */
  method GetInfo(code: string, ticker: (string, nat) -> Attempt)
    returns (info: Option<map<string, Value>>, logged: Option<string>, attempts: nat)
    ensures info == FirstInfo(code, ticker, 0)
    ensures 1 <= attempts <= Retry
    ensures forall j :: 0 <= j < attempts - 1 ==> ticker(code, j).Raised?
    ensures info.Some? ==> ticker(code, attempts - 1) == Fetched(info.value) && logged == None
    ensures info.None? ==> attempts == Retry && ticker(code, Retry - 1).Raised?
                           && logged == Some(ErrorMessage(code, ticker(code, Retry - 1).msg))
  {
    var k: nat := 0;
    var errorMsg: Option<string> := None;
    while k < Retry
      invariant k <= Retry
      invariant forall j :: 0 <= j < k ==> ticker(code, j).Raised?
      invariant FirstInfo(code, ticker, 0) == FirstInfo(code, ticker, k)
      invariant k > 0 ==> errorMsg == Some(ErrorMessage(code, ticker(code, k - 1).msg))
    {
      match ticker(code, k)
      case Fetched(i) =>
        return Some(i), None, k + 1;
      case Raised(msg) =>
        errorMsg := Some(ErrorMessage(code, msg));
        k := k + 1;
    }
    return None, errorMsg, Retry;
  }

  /** The info is missing exactly when all three attempts raise. */
  lemma {:induction false} FirstInfoNone(code: string, ticker: (string, nat) -> Attempt, k: nat)
    requires k <= Retry
    decreases Retry - k
    ensures FirstInfo(code, ticker, k).None? <==> forall j :: k <= j < Retry ==> ticker(code, j).Raised?
  {
    if k < Retry {
      FirstInfoNone(code, ticker, k + 1);
    }
  }

  /** Python truthiness of a cell: `None`/NaN, `''`, `0` and `False` are false. */
  predicate Falsy(v: Value)
  {
    match v
    case Null => true
    case Str(s) => s == ""
    case Num(x) => x == 0.0
    case Flag(b) => !b
    case Time(_) => false
  }

  /** `info.get(k, default)`. */
  function InfoGet(info: map<string, Value>, k: string, default: Value): Value
  {
    if k in info then info[k] else default
  }

  /** `not entity.market_cap or entity.market_cap == 0`. */
  predicate MarketCapMissing(v: Value)
  {
    Falsy(v) || v == Num(0.0)
  }

  /** The entity after `record` merged a non-empty `info` into it. */
  function Enrich(d: DetailFields, info: map<string, Value>): (e: DetailFields)
    ensures e.code == d.code && e.name == d.name && e.country == d.country
    ensures !Falsy(d.sector) ==> e.sector == d.sector
    ensures !Falsy(d.industry) ==> e.industry == d.industry
    ensures !MarketCapMissing(d.marketCap) ==> e.marketCap == d.marketCap
  {
    d.(sector := if Falsy(d.sector) then InfoGet(info, "sector", Null) else d.sector,
       industry := if Falsy(d.industry) then InfoGet(info, "industry", Null) else d.industry,
       marketCap := if MarketCapMissing(d.marketCap) then InfoGet(info, "market_cap", Num(0.0)) else d.marketCap,
       profile := InfoGet(info, "longBusinessSummary", Null),
       state := InfoGet(info, "state", Null),
       city := InfoGet(info, "city", Null),
       zipCode := InfoGet(info, "zip", Null),
       lastSale := InfoGet(info, "previousClose", Null))
  }

  /** Sector, industry and market cap are taken from the info only where the entity had nothing;
      a value it already had is kept. Code, name and country never change. */
  lemma EnrichFillsOnlyEmpty(d: DetailFields, info: map<string, Value>)
    ensures var e := Enrich(d, info);
            && (e.sector == if Falsy(d.sector) then InfoGet(info, "sector", Null) else d.sector)
            && (e.industry == if Falsy(d.industry) then InfoGet(info, "industry", Null) else d.industry)
            && (e.marketCap == if MarketCapMissing(d.marketCap) then InfoGet(info, "market_cap", Num(0.0)) else d.marketCap)
            && e.code == d.code && e.name == d.name && e.country == d.country
  {
  }

  /** Profile, state, city, zip code and last sale come from the info whatever the entity held. */
  lemma EnrichOverwrites(d1: DetailFields, d2: DetailFields, info: map<string, Value>)
    ensures var e1 := Enrich(d1, info);
            var e2 := Enrich(d2, info);
            && e1.profile == e2.profile == InfoGet(info, "longBusinessSummary", Null)
            && e1.state == e2.state == InfoGet(info, "state", Null)
            && e1.city == e2.city == InfoGet(info, "city", Null)
            && e1.zipCode == e2.zipCode == InfoGet(info, "zip", Null)
            && e1.lastSale == e2.lastSale == InfoGet(info, "previousClose", Null)
  {
  }

  /** Merging the same info twice changes nothing more. */
  lemma EnrichIdempotent(d: DetailFields, info: map<string, Value>)
    ensures Enrich(Enrich(d, info), info) == Enrich(d, info)
  {
  }

  /** The selection of `init_entities`: market cap 0, no sector, no country. */
  predicate Pending(d: DetailFields)
    ensures Pending(d) ==> Falsy(d.sector) && MarketCapMissing(d.marketCap)
  {
    d.marketCap == Num(0.0) && d.sector == Null && d.country == Null
  }

  /** An entity is selected again after enrichment only if the info gave it no usable sector. */
  lemma EnrichSettles(d: DetailFields, info: map<string, Value>)
    requires Pending(d)
    ensures Pending(Enrich(d, info)) <==> InfoGet(info, "sector", Null) == Null && InfoGet(info, "market_cap", Num(0.0)) == Num(0.0)
  {
  }

  /** `eval` lets exactly the `StockDetail` entities through. */
  lemma EvalDetailOnly(d: StockDetail, s: Stock, key: string)
    ensures !SkipUnlessDetail(Detail(d)) && SkipUnlessDetail(Listed(s)) && SkipUnlessDetail(Anchor(key))
  {
  }

  /** `record(entity)`: fetch the info; when there is none (or it is empty) report that there is
      nothing to do and leave the entity alone, otherwise merge the info into the entity's fields
      in place. The second element of the result is always `None` and is not modelled. */
  method Record(entity: StockDetail, ticker: (string, nat) -> Attempt) returns (done: bool)
    modifies entity
    ensures var info := FirstInfo(old(entity.code), ticker, 0);
            && (done <==> info.None? || |info.value| == 0)
            && (done ==> entity.Fields() == old(entity.Fields()))
            && (!done ==> entity.Fields() == Enrich(old(entity.Fields()), info.value))
  {
    var info, _, _ := GetInfo(entity.code, ticker);
    if info.None? || |info.value| == 0 {
      return true;
    }
    Merge(entity, info.value);
    return false;
  }

  /** The merge part of `record`: each field of the entity set in place from `m`, the first three
      only where the entity has no value. */
  method Merge(entity: StockDetail, m: map<string, Value>)
    modifies entity
    ensures entity.Fields() == Enrich(old(entity.Fields()), m)
  {
    if Falsy(entity.sector) {
      entity.sector := InfoGet(m, "sector", Null);
    }
    if Falsy(entity.industry) {
      entity.industry := InfoGet(m, "industry", Null);
    }
    if MarketCapMissing(entity.marketCap) {
      entity.marketCap := InfoGet(m, "market_cap", Num(0.0));
    }
    entity.profile := InfoGet(m, "longBusinessSummary", Null);
    entity.state := InfoGet(m, "state", Null);
    entity.city := InfoGet(m, "city", Null);
    entity.zipCode := InfoGet(m, "zip", Null);
    entity.lastSale := InfoGet(m, "previousClose", Null);
  }

  /** `persist`: commit the session (rolling back when the commit raises), close it, and report
      success with one saved entity either way. */
  method Persist(session: Session, commitFails: bool) returns (ok: bool, saved: int)
    modifies session
    ensures ok && saved == 1
    ensures session.log == old(session.log) + CommitProtocol(commitFails)
  {
    session.CommitOrRollback(commitFails);
    return true, 1;
  }
}
