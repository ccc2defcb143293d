# Stash: the trade ledger and its reports

Stash is a desktop application for tracking share trades. This project models its core.

- **The trade ledger** (`electron/api/trades.ts`). Buying a security appends an open lot ("holding") and a buy-history entry. Selling consumes the account's lots oldest first. A sale splits the buy and sell fees in proportion to the units sold, works out profit or loss, and applies the 50% capital-gains discount to gains held for over a year. It writes one sell-history entry per lot it touches, all under one trade id.
- **The "Portfolio" report** (`electron/api/portfolio.ts`):
  - selects the securities that match a filter;
  - values every calendar day of a chart from the trade histories and the price and exchange-rate series;
  - lists history rows and trade rows, with sell entries added up per trade;
  - values the lots at the latest quotes into one holdings row per security still held, with totals and weights.
- **The "Accounts" report and account maintenance** (`electron/api/accounts.ts`). These create, rename and delete accounts; deleting an account also removes its lots and history entries. Each account's realised and unrealised results are aggregated.
- **The quote service** (`electron/quotes.ts`). It decides which symbols one quote request asks for. A fetched quote is validated and gets its exchange rates into the target currency.

## How the model is laid out

| file | models |
|---|---|
| `records.dfy` | the stored record shapes |
| `lot_matching.dfy` | the arithmetic of a sale as functions on values |
| `trades.dfy` | the ledger as mutable objects |
| `cursors.dfy` | the forward-only helper classes |
| `quotes.dfy` | the quote service |
| `portfolio_rows.dfy` | the history and trade rows |
| `holding_rows.dfy` | the holdings table |
| `portfolio.dfy` | the Portfolio report |
| `account_store.dfy` | account maintenance |
| `account_report.dfy` | the Accounts report |
| `stored_dates.dfy` | the stored date texts and the two ways they are read |
| `ordered_maps.dfy`, `seqs.dfy`, `sums.dfy`, `sorting.dfy`, `text_order.dfy` | the collections, sums and sorts these need |

Modelling choices:

- **Dates** are day ordinals and money is `real`. The stored texts themselves, and the two ways the holdings step reads them, are modelled separately in `StoredDates`.
- **JavaScript's `Map`**, whose iteration follows insertion order, is an ordered map: a key sequence plus a map.
- **The ledger is imperative, as in the source.** A lot is an object whose quantity and fees a partial sale shrinks in place. The sell loop is proved to write exactly the entries, and leave exactly the lots, that the value-level functions `FifoEntries` and `FifoRest` describe.
- **The report builders are classes.** Their fields are updated by the same steps as in the source. Each step is proved against a function of its inputs.

Where the code and its comments or documentation part ways, the model follows the code:

- **Sell GST.** It is `brokerage * gstPercent`, with no division by 100 (`trades.ts:141`), while a buy divides by 100 (`trades.ts:97`).
- **`EntryIterator.getEntryAtTime`.** It stops on the last entry dated strictly before the asked time, or the first entry when there is none (`portfolio.ts:524`). The comment says "before/equal".
- **Today's change in the Accounts report.** A lot bought today is compared with its buy price at the *previous* rate (`accounts.ts:213`).
- **A percentage over a zero denominator.** The guarded percentages are `null` in the source and `None` here.
- **Holding weights.** Each weight is a row's market value in its own currency over the combined value converted at the rates (`portfolio.ts:383`). So the weights add up to one only when every rate is 1 (`HoldingRows.RowsAddUp`). That division has no guard: over a zero combined value the source gets NaN or an infinity, and the model writes `None` for it.
- **The rates a report values lots with.** The model reads them as `exchangeRate` and `previousExchangeRate`, the names `getQuote` returns them under. The report builders ask for other names (see Findings).
- **"Held for more than one year".** This is `dayjs(...).diff(..., 'year', true) > 1`. On day ordinals it becomes "more than 365 days" (`LotMatching.HeldOverOneYear`). Around 29 February the two differ by one day.
- **Sorting accounts by name.** The source uses `localeCompare`; the model uses code-point order on names.
- **Quote-request currencies.** The currency codes sent with the quote request are the currencies of the historical series returned for the selected symbols.
- **When the quote answer arrives.** The request runs while the chart and trade rows are built (`portfolio.ts:88-127`). Its answer (or failure) is an input consumed after that loop, which the source's `await` makes equivalent.
- **The id counters** start at 1 when the assembler is created. The source creates them at `portfolio.ts:75`, before any id is drawn, so the numbering is the same.

## Model

| member | source | states |
|---|---|---|
| LotMatching.FifoConservesUnits | electron/api/trades.ts:143-150 | when the lots hold at least `remaining` units, the entries written sell exactly `remaining` units and the lots left hold that many fewer |
| LotMatching.SaleSellsTradeQuantity | electron/api/trades.ts:134-150 | a sale that passes the owned-units check writes entries selling exactly the trade quantity and removes exactly that quantity from the candidate lots |
| LotMatching.FifoEntriesFollowLots | electron/api/trades.ts:145-187 | the i-th entry is written for the i-th oldest candidate lot: its buy date and price, the sale's trade id, account, sell date and sell price |
| LotMatching.FifoTakesMinimum | electron/api/trades.ts:149-150 | each entry sells the smaller of the lot's quantity and the quantity still to sell |
| LotMatching.FifoConsumesWholeLots | electron/api/trades.ts:149-195 | every entry but the last sells its whole lot |
| LotMatching.FifoRestShape | electron/api/trades.ts:189-200 | the lots left are the untouched tail, or the last lot touched shrunk by what was sold from it followed by that tail |
| LotMatching.SplitConservesLot | electron/api/trades.ts:152-199 | for one lot, sold units plus units left equal the lot's units, and applied buy brokerage and GST plus what the lot keeps equal the lot's brokerage and GST |
| LotMatching.FifoConservesBuyFees | electron/api/trades.ts:155-199 | across a sale, the buy brokerage and GST applied to the entries plus what the remaining lots keep equal what the lots had before |
| LotMatching.FifoSellShares | electron/api/trades.ts:153-158 | every entry's sell brokerage and sell GST are its share, by units sold, of the trade's brokerage and total sell GST |
| LotMatching.SaleAppliesTradeFees | electron/api/trades.ts:141-158 | over a whole sale, the applied sell brokerage adds up to the trade's brokerage and the applied sell GST to the total sell GST |
| LotMatching.FifoEntriesObeySaleRules | electron/api/trades.ts:160-169 | every entry's revenue, profit or loss, CGT discount flag and capital gain follow the sale rules |
| LotMatching.EntryObeysSaleRules | electron/api/trades.ts:160-169 | one entry: revenue is units times sell price less the sell fees; profit is revenue less cost; the discount applies exactly to a gain held over a year and then halves it |
| LotMatching.DiscountOnlyHalvesGains | electron/api/trades.ts:165-169 | a loss is never discounted; a discounted gain stays positive and smaller than the profit; the capital gain never exceeds the profit |
| Trades.Lot.constructor | electron/api/trades.ts:100-107 | a new lot holds the given holding's values |
| Trades.Lot.SellPart | electron/api/trades.ts:196-200 | a partly sold lot loses the units sold and keeps brokerage and GST scaled by one less the sold ratio |
| Trades.NewHolding | electron/api/trades.ts:96-107 | a buy's lot copies the trade's account, date, quantity, price and brokerage, with GST equal to brokerage times the GST percentage over 100 |
| Trades.BuyRecord | electron/api/trades.ts:98-114 | a buy-history entry copies its lot and totals quantity times price plus brokerage plus GST |
| Trades.Security.constructor | electron/api/trades.ts:95-118 | a new ledger has no lots and empty histories, and satisfies the ledger invariant: no lot listed twice, no empty lot, both histories in date order, and every account holding in its lots what it bought less what it sold |
| Trades.Security.BuyTrade | electron/api/trades.ts:95-118 | a buy appends one new lot with the buy's values and adds its entry to the buy history. It leaves the sell history and the other lots alone and raises the buyer's units by the quantity, every other account's staying. The ledger invariant is kept, so the buy history stays in date order and units held still equal units bought less units sold |
| Trades.Security.SellTrade | electron/api/trades.ts:127-205 | a sale fails exactly when the account's lots bought on or before the sell date hold fewer units than the trade, and then changes nothing. Otherwise the sell history gains exactly the FIFO entries of those lots. The fully sold lots leave the holdings, the partly sold one is shrunk to the FIFO remainder in place, and other lots are untouched. The seller's units drop by the quantity and every other account's stay. The ledger invariant is kept: units held still equal units bought less units sold |
| Trades.SellLots | electron/api/trades.ts:128-201 | the filter, owned-units check and sell loop on the holdings list and sell history. Same failure condition, entries, remaining lots and per-account units as `SellTrade`, and the returned lists satisfy the ledger invariant |
| Trades.SellOldestFirst | electron/api/trades.ts:143-201 | the sell loop writes the FIFO entries of the candidate lots, removes the lots it consumes whole and leaves the rest shrunk as `FifoRest` says |
| Trades.SellWholeLots | electron/api/trades.ts:145-195 | the loop's whole-lot iterations: the entries written so far and the lots removed so far, up to the first lot that is only partly sold |
| Trades.AvailableUnits | electron/api/trades.ts:41-52 | an unknown symbol is an error; otherwise the result is the sum of the quantities of the account's lots |
| Trades.AddTrade | electron/api/trades.ts:63-86 | a zero quantity, an unknown symbol and an unparsable GST setting are refused in that order and change nothing. A buy keeps every promise of `BuyTrade` on the stored security: the appended lot, its buy entry and the buyer's units. A sale keeps every promise of `SellTrade`: the failure condition, the FIFO entries, the lots left and the units sold. The security's ledger invariant is kept, and no other security changes |
| Trades.SortedCandidates | electron/api/trades.ts:130-135 | any date-ordered arrangement of the account's lots bought on or before the sell date holds the same lots and the same units as the filtered list |
| Trades.SnapshotPermutation | electron/api/trades.ts:132 | rearranging the lots rearranges their values the same way |
| Trades.SaleConserves | electron/api/trades.ts:143-204 | when the seller's lots lose the trade's quantity and the sell history gains the sale's FIFO entries (in any order), units held still equal units bought less units sold for every account |
| Trades.FifoRestUnits | electron/api/trades.ts:143-200 | what a sale leaves of the seller's candidate lots holds the trade's quantity fewer of the seller's units and none of anyone else's |
| Trades.BoughtSorted | electron/api/trades.ts:113-117 | re-sorting the buy history with a new entry adds that entry's quantity to its account's units bought and changes no other account's |
| Cursors.LatestIndex | electron/api/portfolio.ts:522-528 | the entry a series cursor settles on: the last one dated strictly before the time, or the first one when there is none |
| Cursors.LatestIndexMonotone | electron/api/portfolio.ts:517-527 | a later time never settles on an earlier entry, so the cursor only moves forward |
| Cursors.EntryIterator.constructor | electron/api/portfolio.ts:512-514 | a new cursor is at the first entry of the series |
| Cursors.EntryIterator.GetEntryAtTime | electron/api/portfolio.ts:522-528 | returns the entry `LatestIndex` names for the time, moving the cursor forward only, and staying put when asked about the same time again |
| Cursors.FilterBeforeBoundary | electron/api/portfolio.ts:467-493 | in a date-ordered history, the entries before the time that pass the account filter are the passing entries before the first one dated on or after it |
| Cursors.TracksUnitsAt | electron/api/portfolio.ts:466-496 | once both history indexes stand at the first entry dated on or after the time, the running count equals the units bought less the units sold before that time by the filtered account |
| Cursors.UnitTracker.constructor | electron/api/portfolio.ts:455-458 | a new tracker holds no units and starts at the beginning of both histories |
| Cursors.UnitTracker.GetUnitsAtTime | electron/api/portfolio.ts:466-496 | returns the units the filtered account held just before the time: its purchases before the time less its sales before the time |
| Cursors.UnitTracker.AdvanceBuys | electron/api/portfolio.ts:467-479 | the buy loop moves past every purchase dated before the time, counting the filtered account's units |
| Cursors.UnitTracker.AdvanceSells | electron/api/portfolio.ts:481-493 | the sell loop moves past every sale dated before the time, discounting the filtered account's units |
| Cursors.IdGenerator.constructor | electron/api/portfolio.ts:415-419 | all four counters start at 1 |
| Cursors.IdGenerator.NextHoldingId | electron/api/portfolio.ts:421-423 | returns the holding counter and advances it by one, leaving the others |
| Cursors.IdGenerator.NextTradeId | electron/api/portfolio.ts:425-427 | returns the trade counter and advances it by one, leaving the others |
| Cursors.IdGenerator.NextBuyHistoryId | electron/api/portfolio.ts:429-431 | returns the buy-history counter and advances it by one, leaving the others |
| Cursors.IdGenerator.NextSellHistoryId | electron/api/portfolio.ts:433-435 | returns the sell-history counter and advances it by one, leaving the others |
| Quotes.MissingFields | electron/quotes.ts:72-75 | the fields a quote lacks are exactly the requested fields it has no value for |
| Quotes.QuoteService.constructor | electron/quotes.ts:11-13 | a new service targets AUD and holds no quotes |
| Quotes.QuoteService.SetTargetCurrency | electron/quotes.ts:19-25 | the target currency becomes the given one and the quotes stay |
| Quotes.QuoteService.RequestQuoteData | electron/quotes.ts:35-56 | asks for the security symbols plus one rate symbol per currency other than the target; a failed request leaves the quotes and reports failure, an answered one replaces them |
| Quotes.QuoteService.GetQuote | electron/quotes.ts:65-99 | the service answers from its stored quotes and target currency as `QuoteOf` does; a success carries the quote stored under the symbol |
| Quotes.QuoteOf | electron/quotes.ts:65-99 | a success carries the stored quote with all four fields present, and rates of 1 when the quote is already in the target currency |
| Quotes.GetQuoteOk | electron/quotes.ts:65-99 | `getQuote` succeeds exactly when the quote is stored with every field and, for a foreign currency, the rate quote is stored with its price and previous close |
| Quotes.GetQuoteForeignRates | electron/quotes.ts:80-96 | for a foreign currency the rates are the rate quote's price and previous close |
| Quotes.PricesOf | electron/api/portfolio.ts:299-312 | the prices a report uses exist exactly when `getQuote` succeeds. They are the quote's price and previous close, with rates of 1 in the target currency and otherwise the rate quote's price and previous close |
| Quotes.RatesReadUndefined | electron/api/portfolio.ts:303 | `rate` and `previousRate` are not among the names `getQuote` returns, so both read as undefined |
| Quotes.CombinedAsWrittenIsNaN | electron/api/portfolio.ts:293-346 | as written, once one security is priced, the combined market value is NaN whatever the prices and rates |
| Quotes.PricesReadQuoteRates | electron/quotes.ts:78-98 | the rates the model values lots with are the `exchangeRate` and `previousExchangeRate` `getQuote` returns |
| PortfolioRows.TradeRows | electron/api/portfolio.ts:204-281 | one row per key of the trade table, in the table's key order, numbered with distinct ids from the trade counter up to the table's next id |
| PortfolioRows.BuyTradesRow | electron/api/portfolio.ts:206-233 | a buy trade id has a row exactly when a kept buy entry carries it, and the row is built from the last such entry with that entry's number |
| PortfolioRows.SellTradesRow | electron/api/portfolio.ts:235-276 | the row of a trade id adds up the quantity, sell brokerage, sell GST and total of every kept sell entry of that trade, on top of the row it started with |
| PortfolioRows.SoldOnlyRow | electron/api/portfolio.ts:253-275 | a trade with sell entries and no buy entry gets a SELL row dated and priced by its first sell entry and totalling all of them |
| PortfolioRows.TradesNumbered | electron/api/portfolio.ts:224-261 | trade rows are numbered with distinct ids between the first trade id and the counter's final value |
| PortfolioRows.BuyTradesNextId | electron/api/portfolio.ts:224-226 | every kept buy entry draws one trade id |
| HoldingRows.TallySums | electron/api/portfolio.ts:314-337 | the tally of a security's lots is the sum over the filtered account's lots of the market value, cost, units and previous value |
| HoldingRows.TallyPurchases | electron/api/portfolio.ts:318-343 | the first and last purchase dates are the earliest and latest dates of the filtered lots, or none when no lot passes |
| StoredDates.FormatParseOrder | src/utils/dates.ts:12 | reading well-formed stored texts with their format orders them as their year, month, day, hour and minute do |
| StoredDates.DefaultParse | electron/api/portfolio.ts:338-343 | a stored text read without its format is a date only when its day field is at most 12 |
| StoredDates.FirstPurchaseMissesEarlier | electron/api/portfolio.ts:338-340 | as written, lots bought on 20 and then 5 January keep 20 January as the first purchase |
| StoredDates.LastPurchaseMissesLater | electron/api/portfolio.ts:341-343 | as written, lots bought on 5 January and then 3 February keep 5 January as the last purchase |
| StoredDates.FirstPurchase | electron/api/portfolio.ts:338-340 | with both sides read with the format, the first purchase is one of the dates and no date reads earlier |
| StoredDates.LastPurchase | electron/api/portfolio.ts:341-343 | with both sides read with the format, the last purchase is one of the dates and no date reads later |
| StoredDates.PurchaseSpanOnCalendar | electron/api/portfolio.ts:338-343 | for well-formed texts no purchase falls before the first or after the last on the calendar |
| HoldingRows.NoUnitsNoValue | electron/api/portfolio.ts:321-352 | with positive lot quantities the tallied units are never negative, and zero units means zero market value, previous value and cost |
| HoldingRows.TallyHoldings | electron/api/portfolio.ts:314-344 | the lot loop computes the tally of the filtered account's lots |
| HoldingRows.RowOf | electron/api/portfolio.ts:352-377 | a holdings row: buy price times units is the cost, profit plus cost is the market value, today's change plus previous value is the market value, and each percentage is the quotient, or none over zero |
| HoldingRows.ProgressRows | electron/api/portfolio.ts:293-379 | the rows are, in order, the rows of the valued securities the account still holds units of, numbered consecutively from the first holding id |
| HoldingRows.ValueHoldings | electron/api/portfolio.ts:289-379 | the securities loop produces the rows and the combined totals `ProgressOf` describes, drawing one holding id per row |
| HoldingRows.ValueSecurity | electron/api/portfolio.ts:293-378 | one pass of that loop: a security without lots or a usable quote changes nothing; otherwise its tally joins the totals at the quote's rates and, when units remain, it gets a row under the next holding id |
| HoldingRows.RowsAddUp | electron/api/portfolio.ts:347-384 | when every usable quote converts at a rate of 1, the rows' market values add up to the combined market value |
| HoldingRows.SetWeights | electron/api/portfolio.ts:381-384 | every row gets as weight its market value over the combined value, with `None` where the source's unguarded division gives NaN or an infinity |
| HoldingRows.Quotient | electron/api/portfolio.ts:353-356 | the quotient of the numerator by a non-zero denominator, none for zero |
| Portfolio.Select | electron/api/portfolio.ts:141-157 | the selected securities are exactly the stored ones matching every filter value, keyed by symbol |
| Portfolio.Days | electron/api/portfolio.ts:162-173 | one zero-valued point for every day from the start through today |
| Portfolio.WithToday | electron/api/portfolio.ts:386-397 | today's point is overwritten when the last point is today and appended otherwise, with the combined value; the earlier points stay |
| Portfolio.WithTodayAscending | electron/api/portfolio.ts:386-402 | setting today's point keeps an ascending chart ascending and touches no other day |
| Portfolio.ValueDay | electron/api/portfolio.ts:188-193 | the value one day adds: units held times the settled price times the settled rate |
| Portfolio.RateOfDay | electron/api/portfolio.ts:184-191 | the rate of a day is the rate cursor's entry, or 1 when the security needs no conversion |
| Portfolio.ValueDays | electron/api/portfolio.ts:188-194 | every chart point gains the security's value on its day |
| Portfolio.RecordBuys | electron/api/portfolio.ts:206-233 | the filtered buy entries become numbered buy-history rows and buy trade rows keyed by trade id |
| Portfolio.RecordSell | electron/api/portfolio.ts:244-275 | one sell entry becomes a numbered sell-history row and is added to its trade's row or starts a SELL row |
| Portfolio.RecordSells | electron/api/portfolio.ts:235-276 | the filtered sell entries become numbered sell-history rows and are folded into the trade rows |
| Portfolio.FinalChart | electron/api/portfolio.ts:386-402 | the sorted chart has one point per day from start to today, each valued at the securities' contributions except today's, which holds the combined market value |
| Portfolio.CurrencyCodes | electron/api/portfolio.ts:87 | the currency codes are exactly the currencies of the selected symbols' price series |
| Portfolio.PortfolioDataAssembler.constructor | electron/api/portfolio.ts:44-61 | a new assembler has an empty result and chart, a fresh quote service targeting AUD and fresh counters at 1 |
| Portfolio.PortfolioDataAssembler.InitialiseSecurities | electron/api/portfolio.ts:141-157 | the securities become the stored ones matching the filter |
| Portfolio.PortfolioDataAssembler.InitialiseDataPoints | electron/api/portfolio.ts:162-173 | the chart gains one zero point per day from start through today |
| Portfolio.PortfolioDataAssembler.ProcessDataPoints | electron/api/portfolio.ts:179-195 | every chart point gains the units the account held that day times the price and rate settled on for it |
| Portfolio.PortfolioDataAssembler.ProcessTradesAndHistory | electron/api/portfolio.ts:201-282 | the result gains exactly the security's buy rows, sell rows and trade rows, and the counters advance by what was drawn |
| Portfolio.PortfolioDataAssembler.ProcessHoldingAndDataPointsWithQuotes | electron/api/portfolio.ts:288-409 | valued at the service's stored quotes and rates, the holdings gain the weighted rows of the held, quoted securities. Today's point carries the combined value, the chart is the sorted points, and the totals and their quotients are set. The history and trade rows stay |
| Portfolio.PortfolioDataAssembler.PublishHoldings | electron/api/portfolio.ts:381-409 | the rows are weighed against the combined value, today's point is set to it, the chart is sorted, and the totals and quotients are shown; the history and trade rows stay |
| Portfolio.PortfolioDataAssembler.ProcessSecurity | electron/api/portfolio.ts:101-122 | a security with usable series adds its contribution to every chart day and records exactly its history and trade rows (`RecordSecurity`); a skipped one changes nothing; nothing but the chart and those rows changes |
| Portfolio.PortfolioDataAssembler.ProcessSecurities | electron/api/portfolio.ts:101-123 | every chart day gains the contributions of all selected securities, and the rows recorded are those `RecordedOf` gives for the charted securities, in order |
| Portfolio.RecordSecurityNumbered | electron/api/portfolio.ts:201-282 | recording one more security keeps the history rows numbered consecutively from 1, each counter one past its last row, and the trade rows' ids distinct and below the trade counter |
| Portfolio.RecordedNumbered | electron/api/portfolio.ts:101-123 | from counters at 1, the rows the securities loop records are numbered that way |
| Portfolio.PortfolioDataAssembler.Assemble | electron/api/portfolio.ts:66-136 | no selected security or a failed series request gives the empty result. Otherwise the history and trade rows are exactly those `RecordedOf` gives for the charted securities, and a failed quote request adds nothing else. With the quotes in, the service holds exactly the answered quotes. The holdings, totals and chart are then as `ProgressOf` and `ChartOfDays` give them for those quotes, in the requested currency |
| Portfolio.GetPortfolioData | electron/api/portfolio.ts:27-30 | the same three outcomes from fresh counters. The history rows are numbered 1, 2, … and the trade rows carry distinct ids, all as `RecordedOf` gives them. With the quotes in, the holdings are the weighted `ProgressOf` rows numbered from 1, and each weight is the row's value over the combined value. The totals are `ProgressOf`'s, and the chart is valued day by day |
| AccountStore.GenerateNumber | electron/api/accounts.ts:32 | a random draw in [0, 1) gives a number from 1000000 to 9999999 |
| AccountStore.GeneratedIds | electron/api/accounts.ts:32 | every generated id is seven digits long, and two ids are equal exactly when their numbers are |
| AccountStore.DecimalRoundTrip | electron/api/accounts.ts:32 | reading back the decimal text of a number gives the number |
| AccountStore.Store.constructor | electron/api/accounts.ts:39-92 | a store over the given accounts and securities |
| AccountStore.Store.CreateAccount | electron/api/accounts.ts:39-50 | the new account takes one of the drawn ids that is not yet in use, is added last under that id with the given name, and nothing else changes |
| AccountStore.Store.RenameAccount | electron/api/accounts.ts:58-70 | an unknown id is an error and changes nothing; otherwise only that account's name changes |
| AccountStore.Store.DeleteAccount | electron/api/accounts.ts:78-92 | the account is removed and every security loses exactly the lots and history entries of that account |
| AccountStore.WithoutAccountEverywhere | electron/api/accounts.ts:84-88 | the deletion loop filters every security's lots and histories and keeps the securities and their order |
| AccountStore.WithoutAccountContents | electron/api/accounts.ts:85-87 | after the filter, an entry remains exactly when it was there and belongs to another account; the rest of the security is unchanged |
| AccountStore.DeletedAccountLeavesNoEntries | electron/api/accounts.ts:78-92 | after a deletion no lot or history entry of the account remains anywhere |
| AccountStore.WithoutAbsentAccount | electron/api/accounts.ts:85-87 | deleting an account with no entries leaves a security unchanged |
| AccountReport.ZeroRows | electron/api/accounts.ts:108-118 | one zero row per account, under its id |
| AccountReport.ZeroRowsInOrder | electron/api/accounts.ts:108-118 | the rows are kept in the accounts' order |
| AccountReport.RealisedSums | electron/api/accounts.ts:160-174 | each account's realised total and profit grow by the sums over the sell entries carrying its id; entries of unknown accounts are skipped; nothing else changes |
| AccountReport.RealiseRow | electron/api/accounts.ts:163-171 | one sell entry adds its total and profit to its own account's row only |
| AccountReport.ValuedSums | electron/api/accounts.ts:200-217 | each account's market value, cost and today's change grow by the sums over its own lots at the quote's prices and rates |
| AccountReport.ValueRow | electron/api/accounts.ts:201-216 | one lot adds its market value, cost and today's change to its own account's row only, using the previous price for lots bought before today and the buy price otherwise |
| AccountReport.ValueSecurities | electron/api/accounts.ts:179-219 | valuing the securities keeps the same accounts, skipping securities without lots or without a usable quote |
| AccountReport.Perc | electron/api/accounts.ts:239-249 | the absolute value of the quotient, or none over zero |
| AccountReport.ToAccountData | electron/api/accounts.ts:226-263 | a result row copies the account's figures, its unrealised profit plus cost is its market value, and its three percentages are absolute quotients over the source's denominators |
| AccountReport.Results | electron/api/accounts.ts:225-265 | the result rows are the converted account rows, sorted by name |
| AccountReport.ResultsCover | electron/api/accounts.ts:225-265 | every account's row appears in the result |
| AccountReport.ZeroResults | electron/api/accounts.ts:225-265 | zero rows give result rows with all figures zero, no percentages and the target currency |
| AccountReport.NoDataNoSells | electron/api/accounts.ts:120-128 | securities without data carry no sell entries |
| AccountReport.RealiseEach | electron/api/accounts.ts:161-173 | the realised-profit loop computes `RealiseAll` over the sell entries |
| AccountReport.ValueEach | electron/api/accounts.ts:200-217 | the holdings loop computes `ValueAll` over the lots |
| AccountReport.AccountDataAssembler.constructor | electron/api/accounts.ts:94-98 | a new assembler has no rows and a fresh quote service targeting AUD |
| AccountReport.AccountDataAssembler.InitialiseAccountData | electron/api/accounts.ts:108-118 | the rows become one zero row per account |
| AccountReport.AccountDataAssembler.ProcessRealisedProfitOrLoss | electron/api/accounts.ts:160-174 | the rows gain the realised figures of every sell entry of every security |
| AccountReport.AccountDataAssembler.ProcessDataWithQuotes | electron/api/accounts.ts:179-219 | the rows gain the valuation of every security's lots at the service's stored quotes and the rates `getQuote` returns |
| AccountReport.AccountDataAssembler.GetResult | electron/api/accounts.ts:225-265 | the result rows of the current map in the target currency |
| AccountReport.AccountDataAssembler.Assemble | electron/api/accounts.ts:103-155 | the service targets the requested currency. No security with data or a failed series request gives the zero rows. A failed quote request gives the realised figures of every sell entry (`RealiseAll`). Otherwise those are valued at the answered quotes (`ValueSecurities`). The result is always sorted and has one row per account |
| AccountReport.GetAccountData | electron/api/accounts.ts:24-27 | one row per stored account, with its id and name, sorted by name, in the target currency. All figures are zero when no security has data. Otherwise, with the series fetched, the rows are the realised figures, valued at the answered quotes when those came in |
| AccountReport.ResultsPerAccount | electron/api/accounts.ts:225-265 | the result has exactly one row per stored account, carrying its id and name |
| Sorting.SortByKey | electron/api/trades.ts:203-204 | a sort by date gives a date-ordered permutation of the list |
| Sorting.SortedUnique | electron/api/portfolio.ts:400-402 | two ascending arrangements of the same points with distinct times are equal |
| TextOrder.SortByName | electron/api/accounts.ts:264 | a sort by name gives a name-ordered permutation of the rows |
| Seqs.FilterMembers | electron/api/accounts.ts:85-87 | an element survives a filter exactly when it was in the list and passes |
| OrderedMaps.Delete | electron/api/accounts.ts:80 | deleting a key removes it from the map and the key order, leaving the other entries |

## Left out

- Storage, logging and the network are left out. `getData` and `setData` become parameters and fields. The historical-series and quote requests become optional inputs, `None` when the request failed.
- Time is left out. `dayjs()` is an input day `today`, and the chart's first day `start` stands for five years before it.
- `crypto.randomUUID()` and `Math.random()` are inputs: a trade id, and a sequence of draws for `createAccount`.
- `CreateAccount` requires that one of the given draws produces an unused id. The source's loop would simply keep drawing.
- Floating point and `Number(...)` conversions are left out; quantities and money are exact reals.
- The ordering of concurrent `async` work is left out. Each builder runs its steps in program order.
- Security classifications are compared as names: `countries` is a list of names rather than objects with a `name` field.
- `lastPrice` in `electron/api/trades.ts:23-31` reads a quote over the network and is not part of this model.
- `QuoteService.init` in `electron/quotes.ts:15-17` reads settings from storage and is not part of this model. The assemblers call `setTargetCurrency` with the settings' currency instead.
- Trades.Security.SellTrade: dates are day ordinals. The source keeps lots bought up to the sell date and orders them to the minute (`trades.ts:131-132`). So a lot bought later on the sale's day counts here and not there, and same-day lots are ordered by their position in the list.
- Trades.SellLots: the same day-level candidate filter and order as `SellTrade`.
- HoldingRows.TallyPurchases: compares purchase dates as ordinals read with their format. The source compares a stored text read without it, as Findings shows; `StoredDates` models that reading.
- HoldingRows.RowsAddUp: the weights are proved to add up only when every rate is 1, because the source divides an unconverted value by a converted total.
- The `buyHistory` sort after a buy is stated as a permutation, not as a position. With dates equal, the source's comparator leaves the order of ties unspecified.

## Findings

| source | as written | input that shows it | evidently intended | confidence | as-written member | corrected member |
|---|---|---|---|---|---|---|
| electron/api/portfolio.ts:303 | both report builders destructure `rate` and `previousRate` from `getQuote`, which returns `exchangeRate` and `previousExchangeRate` (also `accounts.ts:190`), so both rates are undefined and every sum they enter is NaN | any security with lots and a usable quote, e.g. one in the target currency, whose rates are 1 | value each security at the rates `getQuote` returns | not executed | Quotes.CombinedAsWrittenIsNaN | Quotes.PricesOf |
| electron/api/portfolio.ts:338-340 | the first purchase compares a lot's date read with its format against the kept date as a bare string, which `dayjs` reads month first, or as an invalid date when its day is above 12 | lots bought "20/01/2025 09:00 AM" then "05/01/2025 09:00 AM" keep 20 January as the first purchase | read both dates with the stored format, giving the earliest purchase | not executed | StoredDates.FirstPurchaseMissesEarlier | HoldingRows.TallyPurchases |
| electron/api/portfolio.ts:341-343 | the last purchase compares the same way with `isAfter` | lots bought "05/01/2025 09:00 AM" then "03/02/2025 09:00 AM" keep 5 January, read as 1 May, as the last purchase | read both dates with the stored format, giving the latest purchase | not executed | StoredDates.LastPurchaseMissesLater | HoldingRows.TallyPurchases |
