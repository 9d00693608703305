# Portfolio tracker core, modelled in Dafny

This project models the computational core of a personal crypto-portfolio
back end (a Rust service built on axum, sqlx and rust_decimal). It covers:

- **The Snowflake identifier generator** (`snowflake.dfy`). The generator is a class with a
  `lastTimestamp` and a `sequence` field. The system clock is a `Clock` object whose
  readings are given up front. `Generate` refuses a clock that went backwards. It bumps the
  12-bit sequence within a millisecond and polls the clock for the next millisecond when the
  sequence wraps. It packs `(timestamp - EPOCH, node id, sequence)` into a 63-bit integer.
- **Position valuation** (`asset_position.dfy`, `portfolio.dfy`). These are the buy and sell
  totals and the average buy price of an asset position, and the total value of a portfolio.
  They are folds over exact decimals, which are modelled as `real`.
- **Portfolio-asset statistics** (`portfolio_asset.dfy`). These are the current holding value
  and the profit or loss built from a stored snapshot row and a market price.
- **Transactions** (`transaction.dfy`, `raw_import.dfy`):
  - the transaction-type codec;
  - the conversion of a database row into a transaction;
  - the all-or-nothing parsing of a raw imported transaction;
  - the all-or-nothing conversion of an import batch.
- **Codecs and helpers**:
  - currency names (`currency.dfy`) and user statuses (`user.dfy`);
  - the two asset-identifier builders (`asset_id.dfy`);
  - the currency filter on market data (`market_data.dfy`);
  - page counting (`pagination.dfy`);
  - the error-to-response table (`errors.dfy`);
  - the two response envelopes (`api_response.dfy`, `legacy_api_response.dfy`).

`wrappers.dfy` holds `Option`/`Result`. `text.dfy` holds ASCII lower-casing and the
decimal rendering of a number.

Position snapshots have fields for holding amount, cost, average buy and sell prices and
revenue. No code in src/ computes these snapshot fields: it only stores and reads them
back. Imported transactions are converted and inserted, and nothing matches them against
stored ones. So the model has no snapshot aggregation and no import reconciliation.

Behaviour worth knowing; the model follows the code:

- After a sequence wrap, the generator does not reset its stored counter. It returns
  sequence 0 and leaves the counter at the wrapped value. The next call in the same
  millisecond then returns 1.
- Identifiers are not always increasing. They decrease when the clock reads before the
  2025 epoch, or once `timestamp - EPOCH` passes 2^41. `Generate` promises an increase only
  inside that window.

## Model

| member | source | states |
|---|---|---|
| Snowflake.WrapI64 | src/utils/snowflake.rs:76 | `fetch_add` wraps to an `i64` that is congruent to the exact sum modulo 2^64, and leaves in-range sums unchanged |
| Snowflake.WrapKeepsSequenceBits | src/utils/snowflake.rs:76 | wrapping the counter at 64 bits never changes its low 12 bits, so `& MAX_SEQUENCE` sees the exact increment |
| Snowflake.ComposeId | src/utils/snowflake.rs:97-107 | every composed identifier lies in `[0, 2^63)`: the sign bit is never set |
| Snowflake.ComposeIdFields | src/utils/snowflake.rs:99-103 | bits 22.. hold `(ts - EPOCH) mod 2^41`, bits 12..21 hold `node_id mod 1024`, bits 0..11 hold the sequence mod 4096 |
| Snowflake.ComposeIdMonotone | src/utils/snowflake.rs:66-109 | for one node, within 2^41 ms after the epoch, a later millisecond or a higher sequence in the same millisecond gives a strictly larger identifier |
| Snowflake.PackBitsLayout | src/utils/snowflake.rs:99-103 | the literal `&`/`<<`/`\|` expression on 64-bit words clears the sign bit and reads back each masked field |
| Snowflake.Clock.Now | src/utils/snowflake.rs:112-117 | a clock reading is the next injected millisecond count, non-negative and within `i64` |
| Snowflake.SnowflakeGenerator.constructor | src/utils/snowflake.rs:32-40 | a new generator has a node id in `[0, 1023]` (the hash modulo 1024), `last_timestamp = 0` and `sequence = 0` |
| Snowflake.SnowflakeGenerator.WaitNextMillis | src/utils/snowflake.rs:119-125 | polls until the first reading strictly after `last` and returns it; every skipped reading was at or before `last` |
| Snowflake.SnowflakeGenerator.Generate | src/utils/snowflake.rs:66-109 | clock behind: `Err` and no state change. Later millisecond: counter 0, timestamp stored, sequence 0. Same millisecond: counter + 1 (wrapping), sequence `(old+1) mod 4096`. On wrap to 0: the next later reading is stored and used with sequence 0. `last_timestamp` never decreases. The result is the stored state's identifier and exceeds the previous one inside the 41-bit window |
| Currencies.AsStr | src/models/common/currency.rs:11-16 | a currency name is three lower-case letters, starting with `u` or `v` |
| Currencies.FromStr | src/models/common/currency.rs:18-24 | parsing succeeds exactly on `"usd"` and `"vnd"` |
| Currencies.FromStrAsStr | src/models/common/currency.rs:11-24 | `from_str(as_str(c)) == Some(c)` for every currency |
| Currencies.AsStrFromStr | src/models/common/currency.rs:18-24 | a parsed string is the name of its currency; a rejected string is no currency's name |
| Currencies.AsStrInjective | src/models/common/currency.rs:11-16 | distinct currencies have distinct names |
| Currencies.FromStrCaseSensitive | src/models/common/currency.rs:18-24 | `"USD"`, `"Usd"` and `"VND"` are rejected |
| Transactions.TxTypeName | src/models/entities/transaction.rs:9-16 | each type displays as a lower-case name beginning with `b`, `s` or `t` |
| Transactions.ParseTxType | src/models/entities/transaction.rs:9-16 | parsing succeeds exactly on `buy`, `sell`, `transferin`, `transferout` |
| Transactions.ParseTxTypeName | src/models/domain/transaction.rs:13-20 | parsing a displayed type gives it back |
| Transactions.TxTypeNameParse | src/models/entities/transaction.rs:9-16 | a string that parses is the display of its result, so display is injective |
| Transactions.FromRow | src/models/entities/transaction.rs:35-50 | needs parseable type and currency text, since the source unwraps both. The parsed enums print back the row's text; id, portfolio, asset, amounts, times and notes are copied |
| Transactions.ToRow | src/db/repositories/transaction.rs:21-36 | the row the repository writes (type by `to_string`, currency by `as_str`) has no external id, both text columns parse back to the transaction's type and currency, and `from_row` on it gives the transaction back without a panic |
| RawImport.ParseDecimal | src/models/domain/transaction.rs:38-43 | succeeds exactly when the decimal parser does, with its value; a parser failure becomes `DecimalError` carrying the parser's text |
| RawImport.ParseInstant | src/models/domain/transaction.rs:39 | succeeds exactly when the RFC 3339 parser does, with its value; a failure becomes `TimeParseError` carrying the parser's text |
| RawImport.ParseCurrencyText | src/models/domain/transaction.rs:41 | succeeds exactly when the lower-cased text is `usd` or `vnd`, giving the currency of that name; otherwise the enum-parse error "Matching variant not found" |
| RawImport.ParseTxTypeText | src/models/domain/transaction.rs:44 | succeeds exactly when the lower-cased text is one of the four type names, giving the type of that name; otherwise the enum-parse error "Matching variant not found" |
| RawImport.FromRawTx | src/models/domain/transaction.rs:35-46 | conversion fails exactly when some field parse fails, and the error is the first failure in the order fees, timestamp, currency, quantity, price, type. On success the external id is the decimal text of the raw id and the notes are carried over |
| RawImport.FromRawTxSpec | src/models/domain/transaction.rs:35-46 | on success the fees, time, quantity and price are the parsers' values, and the currency and type are the ones named by the lower-cased text |
| RawImport.ExternalIdsDistinct | src/models/domain/transaction.rs:37 | raw transactions with different ids get different external ids |
| RawImport.FromRawTxCaseInsensitive | src/models/domain/transaction.rs:41-44 | the result does not change when the type and currency text are lower-cased first |
| RawImport.ConvertAll | src/handlers/import/coingecko.rs:213-224 | the batch succeeds iff every record converts, and then gives one record per raw record, in order. Otherwise it gives the error of the first failing record |
| Positions.TotalBuyValue | src/models/entities/asset_position.rs:19-25 | the buy total equals the single pass that adds `price*quantity` for each buy (see also `ValueOfTypeIsFold`, `ValueOfTypePermutation`, `TransferChangesNoTotal`) |
| Positions.TotalSellValue | src/models/entities/asset_position.rs:27-33 | the sell total equals the single pass that adds `price*quantity` for each sell |
| Positions.OfType | src/models/entities/asset_position.rs:22 | the filter keeps only transactions of the asked kind, all from the input |
| Positions.ValueOfTypeIsFold | src/models/entities/asset_position.rs:19-33 | the filter/map/sum total equals a single pass that adds `price*quantity` exactly for transactions of the kind |
| Positions.ValueOfTypePermutation | src/models/entities/asset_position.rs:19-33 | buy and sell totals are invariant under any permutation of the transactions |
| Positions.TransferChangesNoTotal | src/models/entities/asset_position.rs:19-33 | inserting a transfer anywhere changes neither the buy total nor the sell total |
| Positions.ValueOfTypeNone | src/models/entities/asset_position.rs:19-33 | with no transaction of a kind, nothing is selected and the total is 0 |
| Positions.AverageBuyPrice | src/models/entities/asset_position.rs:35-50 | 0 without buys. Otherwise average × bought quantity = buy total; a zero bought quantity is excluded because the decimal division panics |
| Positions.AverageOfUniformPrice | src/models/entities/asset_position.rs:35-50 | when every buy has the same price, the average buy price is that price |
| Positions.Example | src/models/entities/asset_position.rs:19-50 | buying 10 at 100 and selling 4 at 150 gives buy total 1000, sell total 600 and average buy price 100 |
| Portfolios.TotalValue | src/models/entities/portfolio.rs:68-73 | summing the positions' net values in any iteration order of the position map gives the same total (see also `TotalValueEmpty`, `TotalValueAddPosition`) |
| Portfolios.TotalValueOrderIndependent | src/models/entities/portfolio.rs:68-73 | the total value is the same for every iteration order of the position map |
| Portfolios.TotalValueEmpty | src/models/entities/portfolio.rs:68-73 | a portfolio with no positions is worth 0 |
| Portfolios.TransfersOnlyContributeZero | src/models/entities/portfolio.rs:23-37 | a position holding only transfers has net value 0 |
| Portfolios.TotalValueAddPosition | src/models/entities/portfolio.rs:68-73 | adding a position under a new key adds its buy total minus its sell total |
| PortfolioAssetDto.StatFromDbRow | src/models/dto/portfolio_asset.rs:42-58 | the stored figures pass through, holding value = holding × price, profit/loss = holding value + revenue − cost |
| PortfolioAssetDto.ClosedPositionResult | src/models/dto/portfolio_asset.rs:45-56 | with a zero holding, the holding value is 0 and profit/loss is revenue − cost at any price |
| PortfolioAssetDto.ProfitLossPriceSensitivity | src/models/dto/portfolio_asset.rs:52-56 | a price move changes profit/loss by exactly holding × move |
| PortfolioAssetDto.ResponseFromDbRow | src/models/dto/portfolio_asset.rs:72-85 | id, symbol and name are copied from the asset row. The parsed asset type prints back the stored text (the source unwraps it). The stats come from the portfolio-asset row |
| Users.AsStr | src/models/entities/user.rs:16-23 | every status name is lower case and at least six characters long |
| Users.ToString | src/models/entities/user.rs:38-42 | `to_string() == as_str()` |
| Users.FromString | src/models/entities/user.rs:26-36 | Active/Suspended/Pending exactly when the lower-cased text is their name; Inactive for `inactive` and for every other text |
| Users.FromStringAsStr | src/models/entities/user.rs:16-36 | converting a status's name gives the status |
| Users.FromStringCaseInsensitive | src/models/entities/user.rs:28 | the conversion ignores case |
| Users.FromStringDefault | src/models/entities/user.rs:33 | text that is no status name converts to `Inactive`, never to an error |
| Pagination.TotalPagesAsWritten | src/models/dto/pagination.rs:28 | the source's `u32` expression (release-build wrap) always gives a `u32` |
| Pagination.TotalPagesAsWrittenOverflows | src/models/dto/pagination.rs:28 | with `total_items = u32::MAX` and `page_size = 2` the source computes 0 pages |
| Pagination.TotalPages | src/models/dto/pagination.rs:28 | pages × size ≥ items, (pages − 1) × size < items when there are items, 0 items → 0 pages, never more pages than items |
| Pagination.TotalPagesAgree | src/models/dto/pagination.rs:28 | when `total_items + page_size - 1` fits in `u32`, the source's expression is exactly the ceiling division |
| Pagination.New | src/models/dto/pagination.rs:27-35 | current page, total items and page size are stored unchanged; the page count covers the items with no empty trailing page |
| Pagination.DefaultPage | src/models/dto/pagination.rs:4-6 | pages are numbered from 1: the default page is at least 1 |
| Pagination.DefaultLimit | src/models/dto/pagination.rs:8-10 | the default page size is a positive `u32`, so a default request never divides by zero |
| Pagination.DefaultLimitPages | src/models/dto/pagination.rs:4-10 | the default request is page 1 with 10 items a page, so the count is ⌈items / 10⌉ |
| AssetIds.DisplayName | src/models/common/asset.rs:8-15 | type names are upper-case (`CRYPTO`, `STOCK`) |
| AssetIds.ParseAssetType | src/models/common/asset.rs:8-15 | parsing succeeds exactly on the display names and inverts display |
| AssetIds.GenerateAssetId | src/biz/asset.rs:18-20 | the id starts with the display name and `_`, the rest is lower case, and its length is the sum of the three parts |
| AssetIds.GenerateAssetIdShape | src/biz/asset.rs:19 | what follows the underscore is exactly the lower-cased external id |
| AssetIds.GenerateAssetIdLowerFirst | src/biz/asset.rs:19 | lower-casing the external id first does not change the id |
| AssetIds.GenerateAssetIdTypesDisjoint | src/biz/asset.rs:19 | crypto and stock ids never coincide |
| AssetIds.GetAssetId | src/utils/asset.rs:3-8 | the id is `crypto_` or `stock_`, chosen by the type, followed by the external id unchanged (see also `SplitGetAssetId`, `GetAssetIdInjective`) |
| AssetIds.SplitAssetId | src/utils/asset.rs:3-8 | whatever the prefix splitter returns rebuilds the id it was given |
| AssetIds.SplitGetAssetId | src/utils/asset.rs:3-8 | stripping the `crypto_`/`stock_` prefix gives back the type and the external id unchanged, case included |
| AssetIds.GetAssetIdInjective | src/utils/asset.rs:4-7 | equal ids come from the same type and the same external id |
| AssetIds.GenerateAndGetDiffer | src/biz/asset.rs:19 | the two builders never produce the same id (upper-case versus lower-case prefix) |
| MarketData.FilterByCurrency | src/utils/coingecko.rs:7-21 | the kept keys are a subset of the input's, a key is kept iff its lower-case form is a currency name, and each kept entry keeps its key spelling and value |
| MarketData.FilterIdempotent | src/utils/coingecko.rs:11-20 | filtering twice equals filtering once |
| Errors.StatusAndMessage | src/utils/error.rs:30-79 | `Unauthorized` → 401 with its own message. SQL, CoinGecko and internal errors → 500 with "Internal Server Error". HTTP → 502 with "Error communicating with external service". Serde, time, enum and decimal errors → 400. Every non-`Unauthorized` message is one of the fixed texts |
| Errors.PayloadHidden | src/utils/error.rs:30-79 | for every variant except `Unauthorized`, status and message do not depend on the wrapped error |
| Errors.FromConversions | src/utils/error.rs:89-129 | each `From` conversion lands on its variant's status and fixed message (reqwest errors → 502) |
| Errors.IntoResponse | src/utils/error.rs:82-87 | an error becomes an envelope with no data and exactly one entry carrying the table's status and message, sent as HTTP 200 |
| ApiResponses.Success | src/models/dto/api_response.rs:25-34 | no errors, `data == Some(d)`, never both data and errors |
| ApiResponses.Error | src/models/dto/api_response.rs:36-48 | exactly one `ErrorResponse{message, status_code}` and no data |
| ApiResponses.Errors | src/models/dto/api_response.rs:50-59 | the error list is kept unchanged and there is no data |
| ApiResponses.IntoResponse | src/models/dto/api_response.rs:66-68 | the HTTP status is always 200 and the body is the envelope |
| ApiResponses.ErrorSentAsOk | src/models/dto/api_response.rs:36-68 | an error envelope goes out as HTTP 200, with its status code only in the body |
| LegacyApiResponses.Success | src/models/api_response.rs:20-30 | status 200, no message, `data == Some(d)` |
| LegacyApiResponses.Error | src/models/api_response.rs:32-42 | status 500, `message == Some(m)`, no data |
| LegacyApiResponses.IntoResponse | src/models/api_response.rs:49-53 | the stored status is used when it is a valid code (100–999), otherwise 500 |
| LegacyApiResponses.ConstructorsConsistent | src/models/api_response.rs:20-53 | no constructor sets both message and data, and both constructors' codes are sent unchanged |

## Findings

| source | as written | input that shows it | evidently intended | confidence | as-written member | corrected member |
|---|---|---|---|---|---|---|
| src/models/dto/pagination.rs:28 | `(total_items + page_size - 1) / page_size` in `u32`. Rust adds first and then subtracts 1. A debug build panics on the `+` when `total_items > u32::MAX - page_size`. A release build wraps, and its result is wrong when `total_items > u32::MAX - page_size + 1` (at `total_items == u32::MAX - page_size + 1`, the wrap to 0 and back gives the right count) | `total_items = 4294967295`, `page_size = 2`: the sum wraps to 0, giving 0 pages | ⌈total_items / page_size⌉ = 2147483648 pages | not executed; arithmetic follows `u32` wrapping semantics | Pagination.TotalPagesAsWrittenOverflows | Pagination.TotalPages |

`Pagination.New` uses the corrected count. `Pagination.TotalPagesAgree` shows that the two
counts agree wherever the source's sum does not overflow.

## Left out

- Concurrency: the two `AtomicI64` fields are plain fields. The model does not capture the
  race between the load at src/utils/snowflake.rs:68 and the stores at lines 81 and 88-90.
- Node-id derivation: `generate_node_id` hashes the process id, host name and start time
  with `DefaultHasher`. The hash is a constructor parameter; only the `% 1024` is modelled.
- The wall clock: readings are injected through `Clock`. Readings are assumed non-negative
  and within `i64`, so the pre-1970 panic and the `u128 as i64` truncation are not modelled.
- Snowflake.SnowflakeGenerator.Generate: the `+ 1` after `fetch_add` is modelled with
  release-build wrapping. A debug build would panic only after 2^63 − 1 consecutive
  increments that all take the same-millisecond branch with no reset in between. Every
  4096th increment moves the generator to a later millisecond, so such a run spans at least
  2^51 milliseconds.
- Snowflake.SnowflakeGenerator.Generate: the precondition asks that the clock advance past
  the stored millisecond whenever the sequence wraps. A clock that never advances would
  make the source spin forever.
- Snowflake.ComposeId: the packing uses integer arithmetic, with `& (2^k-1)` as `mod 2^k`,
  `<< k` as `× 2^k` and `|` as `+`. `Snowflake.PackBitsLayout` checks the literal bitwise
  expression separately on 64-bit words. No lemma proves that the two forms are equal.
- Decimals: `rust_decimal::Decimal` values are exact reals. Its 96-bit mantissa overflow
  and its scale rules are not modelled.
- Positions.AverageBuyPrice: the division is exact. rust_decimal rounds a non-terminating
  quotient to 28 significant digits.
- PortfolioAssetDto.StatFromDbRow: the `to_f64().unwrap()` conversions to `f64` are left
  out. Every figure stays a decimal.
- PortfolioAssetDto.ResponseFromDbRow: the `image` field (a JSON value deserialised with
  `unwrap`) and the row's `ext`/`source` JSON and text columns are left out.
- Decimal and RFC 3339 parsing in `from_raw_tx` are the `Parsers` parameters, modelled as
  arbitrary functions from text to a value or an error text.
- RawImport.FromRawTx: `RawTransaction.notes` (src/models/domain/coingecko.rs:12) is a `String`, but the target
  field is an `Option<String>`. The model carries the notes over as `Some(notes)`.
- Currency parsing: as written, the `Currency` enum in src/models/common/currency.rs has
  no `FromStr`, `Display` or `EnumIter`. So the `.parse()` calls at
  src/models/domain/transaction.rs:41 and :76 and src/models/entities/transaction.rs:44 do
  not compile, and neither do `Currency::iter()` and `to_string()` at
  src/utils/coingecko.rs:9. The model assumes that they accept exactly the names `as_str`
  gives. It assumes that they fail with strum's `VariantNotFound` ("Matching variant not
  found"), and that the market-data filter iterates over both currencies by their `as_str`
  names.
- Transactions.ToRow: the insert at src/db/repositories/transaction.rs:21-36 writes no
  external id. The id comes from the Snowflake generator and both time stamps from the
  database, not from a `Transaction`. The model takes those three values from the
  transaction it stores.
- Lower-casing: Rust's `to_lowercase` is modelled by ASCII lower-casing. Outside ASCII,
  two characters lower-case to text containing an ASCII letter. The Kelvin sign (U+212A)
  becomes `k`, and no keyword these codecs match contains `k`. The capital I with dot
  above (U+0130) becomes `i` followed by U+0307, which stays in the text, and no keyword
  contains U+0307. Every other non-ASCII character stays non-ASCII. So the set of accepted
  texts is the same for transaction types, currencies, user statuses and market-data keys.
- AssetIds.GenerateAssetId: for a non-ASCII external id, Rust lower-cases further and
  can change the length. The model lower-cases ASCII letters only.
- Logging: the `error!` calls in `get_status_code_and_error_msg` are side effects and are
  left out.
- Response time stamps: the `SystemTime` read of the envelopes is the `now` parameter.
- Snapshot figures of a portfolio asset are not computed anywhere in this code, so there is
  no aggregation to model. They are only stored and read back.
- src/models/entities/portfolio_asset.rs is a stub whose methods return `Decimal::MIN`. The
  commented-out src/biz/portfolio.rs and src/biz/portfolio_asset.rs have no behaviour.
- The `Asset` trait getters are plain field reads and are not modelled. One detail:
  `StockAsset::asset_type` returns `Crypto` (src/models/entities/stock_asset.rs:26-28).
- `AssetPosition` appears twice in the source, identically, at
  src/models/entities/asset_position.rs:18-51 and src/models/entities/portfolio.rs:22-55.
  It is modelled once, in `Positions`.
- The domain-layer `TxType` and `Transaction::from_row`
  (src/models/domain/transaction.rs:13-20, 65-83) match the entity-layer ones. They are
  modelled once, in `Transactions`.
- HTTP handlers, routes, middleware, configuration, repositories, password hashing, JWTs,
  the CoinGecko client and the HTML exporter are I/O or calls into external crates.
