# findy provider adapters in Dafny

This project models five of findy's provider adapters. Each is a recorder that fetches market
data from one source, normalises it into findy's tables and hands it on to be stored:

- **Baostock China stock bars** (`BaoChinaStockKdataRecorder`). `record` clamps the fetch
  window. `format` normalises the bars in place and builds an `entity_id_time` id for each.
  `on_finish_entity` commits the session when the outcome is 2 and the stock is inactive.
- **US stock list from the exchange screener** (`ExchangeUsStockListRecorder`). `format` renames
  the screener columns, defaults the listing date, strips the code, builds a
  `stock_exchange_code` id and de-duplicates by id, keeping the last row. `process_loop` always
  publishes the progress update.
- **Baostock China trade days** (`BaoChinaStockTradeDayRecorder`). The start date is the last
  stored trade day or an epoch. `format` keeps the trading days and stamps the anchor entity,
  the provider and a day id.
- **Yahoo US stock details** (`YahooUsStockDetailRecorder`). `yh_get_info` makes up to three
  attempts. `record` merges the info into the `StockDetail` in place: some fields are filled
  only when empty, others are always overwritten. `persist` commits and reports one saved row.
- **US trade days** (`UsStockTradeDayRecorder`). The NYSE sessions from the last stored trade day
  on are stamped with the exchange, the provider and a day id.

How the model is built:

- A row is a `map<string, Value>` from column names to cells. A frame is a `seq` of rows.
- `Value` stands for pandas/Python cells: `Null` is None/NaN/NaT; there are strings, numbers,
  booleans and parsed timestamps.
- The pandas frame that `format` changes in place is the class `Frames.DataFrame`. It has one
  method per pandas operation, each specified by a function on the rows. Each `Format` method
  calls them in the source's order and is proved equal to a `FormatRows` function. The
  properties are lemmas about those functions.
- `StockDetail`, which the detail recorder mutates field by field, is a class.
- The database session is a class that records the commit, rollback and close issued on it.
- Everything fetched from outside enters as a parameter: bars, trade dates, calendar sessions,
  ticker info, the stored watermark and today's date.

Modules:

- `Strings`: Python string order, `max`, `str.strip`, the `\s` class.
- `Frames`: cells, rows, frame operations, `drop_duplicates(keep='last')`.
- `Entities`: providers, entities, the session.
- `TradeDays`: the shared watermark, start date and day id.
- One module per recorder: `BaoKdata`, `ExchangeStockList`, `BaoTradeDay`, `YahooMeta`,
  `YahooTradeDay`.

Where the code and the intended design part ways, the model follows the code:

- Both trade-day recorders test `isinstance(df['timestamp'].dtypes, datetime)`. A pandas dtype
  is never a `datetime` instance, so the timestamps are always parsed again, and the model
  always parses them.
- The detail recorder reads the market cap from the info key `market_cap` (default 0). The
  model uses that key as written.
- In `format`, blank cells become 0.0 before `adjustflag` is mapped. So a blank `adjustflag`
  ends up as 0.0.
- The spider's `if df is not None` always holds after `pd.DataFrame(content)`, so the model
  has no such branch.

## Model

| member | source | states |
|---|---|---|
| `BaoKdata.FetchStart` | findy/database/plugins/baostock/quotes/bao_china_stock_kdata_recorder.py:90-94 | The fetch start is never earlier than 1990-12-19 for d/w/m levels, nor than 1999-07-26 for the others. It is never earlier than the requested start. It is either the start or the floor, and it is the start whenever that is not below the floor. |
| `BaoKdata.Record` | findy/database/plugins/baostock/quotes/bao_china_stock_kdata_recorder.py:86-107 | Bars are fetched from the clamped start. The result is `(True, None)` exactly when the fetched frame is not valid (None or empty); otherwise it is `(False, format(entity, df))`. |
| `BaoKdata.Format` | findy/database/plugins/baostock/quotes/bao_china_stock_kdata_recorder.py:109-137 | The in-place steps of `format`, level branch by level branch, leave the frame equal to `FormatRows` of the fetched bars. |
| `BaoKdata.FormatRowwise` | findy/database/plugins/baostock/quotes/bao_china_stock_kdata_recorder.py:109-137 | `format` keeps the number and order of the bars and transforms each row independently. |
| `BaoKdata.FormatStampsEntity` | findy/database/plugins/baostock/quotes/bao_china_stock_kdata_recorder.py:129-133 | Every bar carries the entity's id, name and code, the provider `baostock` and the recorder's level. |
| `BaoKdata.FormatAdjustFlag` | findy/database/plugins/baostock/quotes/bao_china_stock_kdata_recorder.py:134 | An `adjustflag` of '1', '2' or '3' becomes 'hfq', 'qfq' or 'normal'. A blank one has become 0.0. Any other value, or a missing one, is unchanged. |
| `BaoKdata.FormatStFlag` | findy/database/plugins/baostock/quotes/bao_china_stock_kdata_recorder.py:114 | For daily bars `is_st` is 1 exactly when BaoStock's `isST` is '1', and 0 otherwise. |
| `BaoKdata.FormatNoBlanks` | findy/database/plugins/baostock/quotes/bao_china_stock_kdata_recorder.py:124-127 | After `format` no cell that came from BaoStock or from the recorder is empty or whitespace-only. Only the columns copied from the entity are exempt. |
| `BaoKdata.FormatId` | findy/database/plugins/baostock/quotes/bao_china_stock_kdata_recorder.py:67-69 | A bar with a parsed time has the id `entity_id + '_' + time`. The time is rendered as a day at daily level and above, and in ISO-8601 form below. |
| `BaoKdata.FormatIdOfDate` | findy/database/plugins/baostock/quotes/bao_china_stock_kdata_recorder.py:110-118 | A d/w/m bar at a daily-or-longer level whose `date` is the day string `d` gets the id `entity.id + '_' + d`. |
| `BaoKdata.FormatKeepsData` | findy/database/plugins/baostock/quotes/bao_china_stock_kdata_recorder.py:109-126 | A column that `format` neither renames nor assigns (`open`, `close`, `volume`, ...) keeps BaoStock's cell in every bar. A blank cell becomes 0.0. |
| `BaoKdata.FormatRenamedData` | findy/database/plugins/baostock/quotes/bao_china_stock_kdata_recorder.py:110-126 | A renamed data column (`turn`, `pctChg`, `preclose`, ...) carries BaoStock's cell under its new name in every bar, with a blank cell becoming 0.0. A bar without the source column keeps what it had under the new name. |
| `BaoKdata.DailyPassThrough` | findy/database/plugins/baostock/quotes/bao_china_stock_kdata_recorder.py:111-112 | At daily level `open`, `close` and `volume` are neither renamed, renamed onto, nor assigned. |
| `BaoKdata.DailyRenamedData` | findy/database/plugins/baostock/quotes/bao_china_stock_kdata_recorder.py:111-112 | At daily level `turn`, `pctChg` and `preclose` are renamed onto columns that are neither parsed nor assigned afterwards. |
| `BaoKdata.BarId` | findy/database/plugins/baostock/quotes/bao_china_stock_kdata_recorder.py:67-69 | An id is a string exactly when the entity id is a string and the time is parsed. It is then the entity id, an underscore and the rendered time. |
| `BaoKdata.FormatIdsUnique` | findy/database/plugins/baostock/quotes/bao_china_stock_kdata_recorder.py:136 | Within one entity's batch, bars whose rendered times differ get different ids. |
| `BaoKdata.OnFinishEntity` | findy/database/plugins/baostock/quotes/bao_china_stock_kdata_recorder.py:139-148 | The session sees commit, a rollback if the commit failed, then close, only when the result is 2 and the stock is inactive. Otherwise it is untouched. |
| `Entities.CommitProtocol` | findy/database/plugins/baostock/quotes/bao_china_stock_kdata_recorder.py:142-148 | One commit attempt starts with a commit and ends with a close. It contains a rollback exactly when the commit failed. |
| `Entities.Session.CommitOrRollback` | findy/database/plugins/yahoo/meta/us_stock_meta_recorder.py:80-86 | The session's log grows by exactly the commit protocol for that outcome. |
| `Strings.MaxStr` | findy/database/plugins/baostock/quotes/bao_china_stock_kdata_recorder.py:92 | Python's `max` on two strings returns one of them. Neither argument is greater than the result, and ties go to the first. |
| `Strings.BlankIffStripsToEmpty` | findy/database/plugins/baostock/quotes/bao_china_stock_kdata_recorder.py:126 | A cell matches `^\s*$` exactly when stripping its whitespace leaves the empty string. |
| `Frames.BlanksToZeroClean` | findy/database/plugins/baostock/quotes/bao_china_stock_kdata_recorder.py:126 | After the blank-to-0.0 replacement no cell of the row is blank. |
| `Frames.RenameMoves` | findy/database/plugins/baostock/quotes/bao_china_stock_kdata_recorder.py:111-112 | `rename(columns=m)` moves a present column's cell to its new name. |
| `Frames.DataFrame.constructor` | findy/database/plugins/exchange/us_stock_list_spider.py:73 | A new frame holds exactly the given rows. |
| `Frames.DataFrame.Rename` | findy/database/plugins/baostock/quotes/bao_china_stock_kdata_recorder.py:111-112 | In-place `rename`: the rows become their renamed versions. |
| `Frames.DataFrame.Apply` | findy/database/plugins/baostock/quotes/bao_china_stock_kdata_recorder.py:113-114 | `df[c] = df[c].apply(f)`: column `c` of every row becomes `f` of its old cell. |
| `Frames.DataFrame.ReplaceBlanks` | findy/database/plugins/baostock/quotes/bao_china_stock_kdata_recorder.py:126 | In-place regex replacement of blank cells by 0.0. |
| `Frames.DataFrame.Assign` | findy/database/plugins/baostock/quotes/bao_china_stock_kdata_recorder.py:129-133 | `df[c] = v`: every row gets `v` in column `c`. |
| `Frames.DataFrame.AssignWith` | findy/database/plugins/baostock/quotes/bao_china_stock_kdata_recorder.py:136 | `df[c] = expression`: every row gets the expression over its own cells. |
| `Frames.DataFrame.Replace` | findy/database/plugins/baostock/quotes/bao_china_stock_kdata_recorder.py:134 | In-place `replace({c: table})`: only cells of `c` found in the table change. |
| `Frames.DataFrame.FillNa` | findy/database/plugins/exchange/us_stock_list_spider.py:80 | In-place `fillna({c: v})`: only NaN cells of `c` change. |
| `Frames.DataFrame.DropDuplicates` | findy/database/plugins/exchange/us_stock_list_spider.py:89 | In-place `drop_duplicates(subset=c, keep='last')`. |
| `Frames.DropDuplicatesKeepLast` | findy/database/plugins/exchange/us_stock_list_spider.py:89 | De-duplication never adds rows. Its partners below state what it keeps. |
| `Frames.DropDuplicatesKeys` | findy/database/plugins/exchange/us_stock_list_spider.py:89 | De-duplication loses no key: the kept rows carry exactly the input's set of ids. |
| `Frames.DropDuplicatesUnique` | findy/database/plugins/exchange/us_stock_list_spider.py:89 | After de-duplication the ids are pairwise distinct. |
| `Frames.DropDuplicatesKeepsLast` | findy/database/plugins/exchange/us_stock_list_spider.py:89 | Every last occurrence of an id is kept, and every kept row is the last occurrence of its id. |
| `Strings.TrimIsStrip` | findy/database/plugins/exchange/us_stock_list_spider.py:86 | `str.strip()` returns a slice of the input that neither starts nor ends with whitespace. Everything it cuts off is whitespace. |
| `Strings.TrimIdempotent` | findy/database/plugins/exchange/us_stock_list_spider.py:86 | Stripping an already stripped code changes nothing. |
| `ExchangeStockList.Format` | findy/database/plugins/exchange/us_stock_list_spider.py:72-91 | The in-place steps of `format` leave the frame equal to `FormatRows` of the screener rows. |
| `ExchangeStockList.NormaliseRowwise` | findy/database/plugins/exchange/us_stock_list_spider.py:76-88 | Before de-duplication, `format` keeps the number and order of the screener rows and transforms each row independently. |
| `ExchangeStockList.NormaliseRow` | findy/database/plugins/exchange/us_stock_list_spider.py:76-88 | For one row: a missing or empty IPO year gives 1980-01-01. The id is `'stock_' + exchange + '_' + strip(symbol)`. The row is a listed stock. |
| `ExchangeStockList.FormatRowsListed` | findy/database/plugins/exchange/us_stock_list_spider.py:82-88 | Every row returned is a `stock` of the given exchange and is active. Its list date is set and equals its timestamp. Its code is stripped, and `entity_id == id == 'stock_' + exchange + '_' + code`. |
| `ExchangeStockList.StockId` | findy/database/plugins/exchange/us_stock_list_spider.py:42-43 | An id is a string exactly when the entity type, the exchange and the code are strings. It is then those three joined by underscores. |
| `ExchangeStockList.StockIdInjective` | findy/database/plugins/exchange/us_stock_list_spider.py:42-43 | Within one entity type and exchange, equal ids mean equal codes. |
| `ExchangeStockList.FormatKeepsScreenerColumns` | findy/database/plugins/exchange/us_stock_list_spider.py:73-88 | Before de-duplication, every screener column that `format` neither renames nor assigns (`name`, `sector`, `industry`, `country`, ...) keeps its cell in every row. |
| `ExchangeStockList.FormatMarketCap` | findy/database/plugins/exchange/us_stock_list_spider.py:76 | Before de-duplication, every row carries the screener's `marketCap` as `market_cap`. |
| `ExchangeStockList.FormatListDate` | findy/database/plugins/exchange/us_stock_list_spider.py:79-80 | A four-digit IPO year gives January 1st of that year. Any other non-empty string is read as a day, a parsed time is kept, and a missing or empty year gives 1980-01-01. |
| `ExchangeStockList.FormatDefaultsListDate` | findy/database/plugins/exchange/us_stock_list_spider.py:79-80 | A screener row without an IPO year is listed on 1980-01-01. |
| `Frames.DropDuplicatesKeepsLastByKey` | findy/database/plugins/exchange/us_stock_list_spider.py:89 | The de-duplicated frame has pairwise distinct keys, keeps every last occurrence of a key, and holds only such last occurrences. |
| `ExchangeStockList.FormatIdsUniqueKeepLast` | findy/database/plugins/exchange/us_stock_list_spider.py:89 | After `format` the ids are pairwise distinct. The row kept for each id is the last screener row with that id, and every kept row is such a last row. |
| `ExchangeStockList.ProgressTopic.Publish` | findy/database/plugins/exchange/us_stock_list_spider.py:68 | Publishing appends exactly the message to the topic. |
| `ExchangeStockList.ProcessLoop` | findy/database/plugins/exchange/us_stock_list_spider.py:48-70 | `persist` is handed `format(rows)` exactly when the screener answered with a non-empty row list. The write succeeds exactly then, unless it raises. Whatever happened, `update` becomes 1 and the updated dictionary is published once. |
| `TradeDays.Latest` | findy/database/plugins/baostock/meta/bao_china_stock_trade_day_recorder.py:51-56 | `order by timestamp desc limit 1` returns nothing for an empty table. Otherwise it returns a stored trade day that no other stored day comes after. |
| `TradeDays.StartDate` | findy/database/plugins/baostock/meta/bao_china_stock_trade_day_recorder.py:58 | The start is the epoch when nothing is stored. Otherwise it is a stored day, and no stored day is later. |
| `TradeDays.DayId` | findy/database/plugins/baostock/meta/bao_china_stock_trade_day_recorder.py:31-32 | A day id is a string exactly when the timestamp is parsed, and it is then the timestamp's day. The US recorder's `generate_domain_id` is the same. |
| `TradeDays.DayIdOfDate` | findy/database/plugins/baostock/meta/bao_china_stock_trade_day_recorder.py:31-32 | The day id of a row parsed from a date string is that string. |
| `Frames.DayRoundTrip` | findy/database/plugins/baostock/meta/bao_china_stock_trade_day_recorder.py:72 | Parsing a day string and formatting it as a day gives it back. |
| `BaoTradeDay.InitEntitiesRun` | findy/database/plugins/baostock/meta/bao_china_stock_trade_day_recorder.py:28-36 | `init_entities` yields only the anchor 'stock_sz_000001'. `eval` does not skip it and skips any non-string entity. |
| `BaoTradeDay.TradingDates` | findy/database/plugins/baostock/meta/bao_china_stock_trade_day_recorder.py:68 | The filter keeps at most as many dates as the calendar has rows. |
| `BaoTradeDay.TradingDatesAppend` | findy/database/plugins/baostock/meta/bao_china_stock_trade_day_recorder.py:68 | The trading-day filter distributes over concatenation, so it keeps calendar order. |
| `BaoTradeDay.TradingDatesMember` | findy/database/plugins/baostock/meta/bao_china_stock_trade_day_recorder.py:68 | A date is kept exactly when some row with `is_trading_day == '1'` carries it. |
| `BaoTradeDay.TradingDatesCount` | findy/database/plugins/baostock/meta/bao_china_stock_trade_day_recorder.py:68-69 | There is one kept date per trading row, and never more than the calendar has. |
| `BaoTradeDay.Format` | findy/database/plugins/baostock/meta/bao_china_stock_trade_day_recorder.py:67-77 | The new frame and the in-place column assignments give `FormatRows` of the calendar rows. |
| `BaoTradeDay.FormatRowwise` | findy/database/plugins/baostock/meta/bao_china_stock_trade_day_recorder.py:67-77 | Each output row is the row built from the matching kept trading date. |
| `BaoTradeDay.FormatTradingDays` | findy/database/plugins/baostock/meta/bao_china_stock_trade_day_recorder.py:67-77 | There is one row per trading day, in order. Each row has exactly the columns timestamp, entity_id, provider and id. It holds that day, 'stock_sz_000001' and `baostock`, and its id is the day string. |
| `BaoTradeDay.Record` | findy/database/plugins/baostock/meta/bao_china_stock_trade_day_recorder.py:49-65 | The calendar is fetched from the start date. The result is `(True, None)` exactly when the fetch is not valid; otherwise it is `(False, format(df))`. |
| `YahooTradeDay.InitEntitiesRun` | findy/database/plugins/yahoo/meta/us_stock_trade_day_recorder.py:22-30 | `init_entities` yields only NYSE. `eval` does not skip it and skips any non-string entity. |
| `YahooTradeDay.Format` | findy/database/plugins/yahoo/meta/us_stock_trade_day_recorder.py:54-64 | The in-place steps of `format` leave the frame equal to `FormatRows` of its old rows. |
| `YahooTradeDay.FormatRowwise` | findy/database/plugins/yahoo/meta/us_stock_trade_day_recorder.py:54-64 | Each row keeps its place and gains exactly the parsed timestamp, entity_id, provider and day id. |
| `YahooTradeDay.FormatStamps` | findy/database/plugins/yahoo/meta/us_stock_trade_day_recorder.py:60-63 | Row count and order are unchanged, and other columns keep their cells. Every row gets entity_id `nyse` and provider `yahoo`, and its id is its timestamp as a day string. |
| `YahooTradeDay.FormatUsesOriginalTimeField` | findy/database/plugins/yahoo/meta/us_stock_trade_day_recorder.py:55-56 | Without a `timestamp` column, the timestamps are parsed from the original time field. |
| `YahooTradeDay.RecordedSessions` | findy/database/plugins/yahoo/meta/us_stock_trade_day_recorder.py:48-50 | The batch has one row per session, in order, with that session as timestamp and its day as id. |
| `YahooTradeDay.Record` | findy/database/plugins/yahoo/meta/us_stock_trade_day_recorder.py:32-52 | Sessions are read from the start date to today. The result is `(True, None)` exactly when there are none; otherwise it is `(False, format(df))`. |
| `YahooMeta.FirstInfo` | findy/database/plugins/yahoo/meta/us_stock_meta_recorder.py:36-46 | Any info returned is what one of the remaining attempts fetched. |
| `YahooMeta.GetInfo` | findy/database/plugins/yahoo/meta/us_stock_meta_recorder.py:33-46 | At most three attempts are made, stopping at the first one that does not raise, and that attempt's info is returned. If all three raise, the result is None and the last error message (with the code) is logged. |
| `YahooMeta.FirstInfoNone` | findy/database/plugins/yahoo/meta/us_stock_meta_recorder.py:37-46 | The info is None exactly when every remaining attempt raises. |
| `Entities.SkipUnlessDetail` | findy/database/plugins/yahoo/meta/us_stock_meta_recorder.py:49-50 | `eval` skips a plain-string entity and a `Stock`, and nothing else. |
| `Entities.SkipUnlessAnchor` | findy/database/plugins/baostock/meta/bao_china_stock_trade_day_recorder.py:35-36 | The trade-day recorders' `eval` skips a `Stock` and a `StockDetail`, and nothing else. |
| `YahooMeta.EvalDetailOnly` | findy/database/plugins/yahoo/meta/us_stock_meta_recorder.py:48-50 | `eval` skips exactly the entities that are not `StockDetail`s. |
| `YahooMeta.Record` | findy/database/plugins/yahoo/meta/us_stock_meta_recorder.py:52-76 | A None or empty info gives done with no field changed. Otherwise the entity's fields become `Enrich(old fields, info)` and the result is not done. |
| `YahooMeta.Merge` | findy/database/plugins/yahoo/meta/us_stock_meta_recorder.py:60-74 | The entity's field assignments leave it holding exactly `Enrich(old fields, info)`, which the lemmas below characterise. |
| `YahooMeta.Enrich` | findy/database/plugins/yahoo/meta/us_stock_meta_recorder.py:60-74 | Code, name and country never change. A sector or industry that is not falsy is kept, and so is a market cap that is neither falsy nor 0. |
| `YahooMeta.Pending` | findy/database/plugins/yahoo/meta/us_stock_meta_recorder.py:19-31 | A detail selected by `init_entities` has a falsy sector and a missing market cap, so `record` fills both from the info. |
| `YahooMeta.EnrichFillsOnlyEmpty` | findy/database/plugins/yahoo/meta/us_stock_meta_recorder.py:60-67 | Sector and industry are taken from the info only when falsy. Market cap is taken only when falsy or 0, defaulting to 0. Values already present are kept, and code, name and country never change. |
| `YahooMeta.EnrichOverwrites` | findy/database/plugins/yahoo/meta/us_stock_meta_recorder.py:69-74 | Profile, state, city, zip code and last sale come from the info, with None for an absent key, whatever the entity held. |
| `YahooMeta.EnrichIdempotent` | findy/database/plugins/yahoo/meta/us_stock_meta_recorder.py:60-74 | Merging the same info a second time changes nothing. |
| `YahooMeta.EnrichSettles` | findy/database/plugins/yahoo/meta/us_stock_meta_recorder.py:26-30 | A pending detail (market cap 0, no sector, no country) is still pending after enrichment exactly when the info gives no sector and no non-zero market cap. |
| `YahooMeta.Persist` | findy/database/plugins/yahoo/meta/us_stock_meta_recorder.py:78-87 | The session sees commit, a rollback if the commit failed, then close. The result is `(True, 1)` either way. |

## Left out

- Network fetches are parameters of the model: BaoStock's `query_history_k_data_plus` and `query_trade_dates`, `Ticker(code).info`, the Nasdaq screener call and `exchange_calendars`. A query that raises is `None` for BaoStock, `Raised` for the screener and the ticker.
- `YahooTradeDay.Record`: the calendar is not looked up by the upper-cased entity name. The `sessions` parameter is the NYSE calendar's `sessions_in_range`.
- `YahooTradeDay.Record`: `today` is a parameter in place of `to_time_str(now_pd_timestamp(Region.US))`, because the clock is not part of the model.
- Storage is not modelled: `df_to_db`, `query_data` and `get_entities`. The stored trade days enter as a sequence of timestamps. The `persist` methods that only call `df_to_db` are not modelled, and neither are the kdata and stock-list `init_entities`.
- For the detail recorder's `init_entities`, only the filter is modelled, as `YahooMeta.Pending`.
- `ExchangeStockList.ProcessLoop` does not model the two `df_to_db` writes of the spider's `persist`. It records only whether the write went through.
- `ExchangeStockList.ProcessLoop` does not model `format` raising. The model's `format` is total, and a malformed answer is `Raised`.
- Kafka publishing and msgpack serialisation are modelled as the dictionary appended to a topic's message list.
- Logging is left out, as are the module-level `bs.login()`, the `time_it` decorator, the async plumbing and closing the HTTP session.
- `astype(float)` and `select_dtypes` (kdata lines 124-127) are left out, because floating point is out of scope. Numeric cells stay as the strings BaoStock sent. Only the blank-to-0.0 replacement is modelled.
- `pd.to_datetime` and `to_pd_timestamp` are simplified:
  - a day string becomes that day at midnight;
  - a four-digit IPO year becomes January 1st of it;
  - BaoStock's compact intraday time is split by position.
  Invalid dates are not detected.
- The values of findy's enumerations are not shown and are taken as:
  - providers `baostock`, `yahoo`, `exchange`;
  - `EntityType.Stock` `stock`;
  - `UsExchange.NYSE` `nyse`;
  - `IntervalLevel` values and order `tick` < `1m` < … < `1d` < `1wk` < `1mon`.
- `get_evaluated_time_field()` is taken as `timestamp`.
- The ISO-8601 id format renders a time as day + `T` + time of day.
- The BaoStock frequency code is an input of the configuration, because `to_bao_trading_level` is not shown.
- `YahooTradeDay.Format`: the original time field is a parameter, because `get_original_time_field` of the base recorder is not shown.
- Missing columns: pandas raises `KeyError` when `format` reads a column the frame lacks. The model reads such a cell as NaN.
- A frame without rows has no columns in the model.
- Renaming onto a column name that already exists gives pandas duplicate columns. In the model the renamed cell wins.
- `YahooMeta.Record`: only the `done` flag of `(done, None)` is returned, because the second element is always `None`.
- `YahooMeta.GetInfo`: `Ticker(code).info` is modelled as a function of the code and the attempt number.
- The orchestrator, its concurrency pool, pacing and progress counter are not part of this model. They live in the recorder base classes.
- The dashboard's Flask configuration and routes are not part of this model; they are UI and configuration only.
