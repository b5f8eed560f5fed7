/** The entities the recorders are driven over, the provider names they stamp on their rows,
    and the database session whose commit protocol two of them share. */
module Entities {
  import opened Frames

  /** `Provider.BaoStock.value`, `Provider.Yahoo.value`. */
  const BaoStock: string := "baostock"
  const Yahoo: string := "yahoo"

  /** A listed stock as the kdata recorder reads it from the entity table. */
  datatype Stock = Stock(id: string, name: string, code: string, isActive: bool)

  /** A snapshot of the `StockDetail` columns that the Yahoo detail recorder reads or writes. */
  datatype DetailFields = DetailFields(
    code: string, name: Value, country: Value,
    sector: Value, industry: Value, marketCap: Value,
    profile: Value, state: Value, city: Value, zipCode: Value, lastSale: Value)

  /** A `StockDetail` row loaded into the session: the detail recorder enriches it in place. */
  class StockDetail {
    var code: string
    var name: Value
    var country: Value
    var sector: Value
    var industry: Value
    var marketCap: Value
    var profile: Value
    var state: Value
    var city: Value
    var zipCode: Value
    var lastSale: Value

    constructor (f: DetailFields)
      ensures Fields() == f
    {
      code, name, country := f.code, f.name, f.country;
      sector, industry, marketCap := f.sector, f.industry, f.marketCap;
      profile, state, city, zipCode, lastSale := f.profile, f.state, f.city, f.zipCode, f.lastSale;
    }

    function Fields(): DetailFields
      reads this
    {
      DetailFields(code, name, country, sector, industry, marketCap, profile, state, city, zipCode, lastSale)
    }
  }

  /** What `init_entities` hands to `eval`: a plain string anchor (an exchange, a calendar
      key), a `Stock` row, or a `StockDetail` row. */
  datatype Entity = Anchor(key: string) | Listed(stock: Stock) | Detail(detail: StockDetail)

  /** `eval` of the two trade-day recorders: skip whatever is not a plain string. */
  predicate SkipUnlessAnchor(e: Entity)
    ensures SkipUnlessAnchor(e) <==> e.Listed? || e.Detail?
  {
    !e.Anchor?
  }

  /** `eval` of the detail recorder: skip whatever is not a `StockDetail`. */
  predicate SkipUnlessDetail(e: Entity)
    ensures SkipUnlessDetail(e) <==> e.Anchor? || e.Listed?
  {
    !e.Detail?
  }

  datatype SessionOp = Commit | Rollback | Close

  /** A database session, observed through the operations issued on it. */
  class Session {
    var log: seq<SessionOp>

    constructor ()
      ensures log == []
    {
      log := [];
    }

    /** `try: commit() except: rollback() finally: close()`, the commit raising when `commitFails`. */
    method CommitOrRollback(commitFails: bool)
      modifies this
      ensures log == old(log) + CommitProtocol(commitFails)
    {
      log := log + [Commit];
      if commitFails {
        log := log + [Rollback];
      }
      log := log + [Close];
    }
  }

  /** The operations of one commit attempt: a commit, a rollback exactly when it failed, then the close. */
  function CommitProtocol(commitFails: bool): (ops: seq<SessionOp>)
    ensures |ops| >= 2 && ops[0] == Commit && ops[|ops| - 1] == Close
    ensures Rollback in ops <==> commitFails
  {
    if commitFails then [Commit, Rollback, Close] else [Commit, Close]
  }
}
