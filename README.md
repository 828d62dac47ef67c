# 3stacks-bot market-data layer, modelled in Dafny

This project models the logic between the bot's market-data client and its chat
output. The model has these parts:

- **Holder normalisation** (`Holders`, `HolderValues`): a loosely typed
  `quoteSummary` JSON payload becomes typed holder records. Fallback keys are
  used only when the first key is absent, defaults are applied per field, and
  nameless entries are dropped. The four insider-trade counters are folded into
  a purchase summary.
- **Quote extraction** (`Quotes`): the first `quoteResponse.result` item becomes
  a `PriceQuote`, and client errors are wrapped as `Yahoo`.
- **The `/earnings` digest and handler** (`Earnings`): 50-event cap, time-of-day
  and importance marks, the 1900/1800-byte text fallback, and the empty,
  timeout and upstream-error answers.
- **Option slicing** (`Options`): filter, in-place sort and take for calls and
  puts around the spot price, plus expiration parsing and matching today's date.
- **The daily earnings poster** (`EarningsCalendar`): the start gate on the
  environment, the `should_post_now` gate over the stored last-post date (a
  class with that field), `post_once`, and the tick loop.
- **The second bot's text-to-float quote conversion** (`PriceConversion`).
- **Statement and frequency tags** (`Fundamentals`).

Supporting modules:

- `Wrappers`: Option/Result.
- `Text`: ASCII case mapping, substrings, decimal rendering, UTF-8 byte lengths.
- `Json`: the `serde_json::Value` subset and its accessors.
- `Seqs`: the `filter_map`/`push` loop.
- `Dates`: `NaiveDate`, and chrono's `%Y-%m-%d` rendering and parsing.
- `FinanceErrors`: the error types.

Clocks, environment variables, the market-data client, the image renderer and
the chat channel are not modelled as effects. They are inputs: a tick is an
hour and a date, a fetch is a `Result` or a `FetchOutcome`, and a renderer or
a sender is a function value.

`should_post_now` stores today's date
(src/service/automation/earnings_calendar/mod.rs:98) before `post_once` runs
(mod.rs:47-50). So a failed fetch or post is not retried that day, and
`FailedFetchNotRetried` proves exactly that.

## Model

| member | source | states |
|---|---|---|
| Holders.ModulesFor | src/service/finance/holders.rs:16-24 | one module is requested, and it is `insiderTransactions` exactly for the two insider-trade holder types |
| Holders.LocateResult | src/service/finance/holders.rs:26-32 | a client error is passed through; a payload without `quoteSummary.result[0]` gives `ParseError("missing quoteSummary.result")`, never an overview |
| Holders.OverviewOf | src/service/finance/holders.rs:34-66 | the overview's symbol is the input symbol upper-cased, only the payload field the holder type selects can be present, and purchases are summarised from the parsed transactions |
| Holders.FetchHolders | src/service/finance/holders.rs:11-69 | the field-by-field assembly on a mutable overview returns the located error, or exactly the overview of `result[0]` |
| Holders.MajorBreakdownOf | src/service/finance/holders.rs:71-76 | present exactly when `majorHoldersBreakdown` is an object, and then holds that object's members |
| Holders.OwnershipEntry | src/service/finance/holders.rs:84-117 | dropped exactly when `organization` is missing, not a string or empty; shares default to 0, the report date to the epoch, and `percentOut` is read only when `pctHeld` yields no number |
| Holders.ParseOwnershipHolders | src/service/finance/holders.rs:78-124 | the push loop returns the surviving entries in input order, or None when none survive |
| Holders.OwnershipNoneIff | src/service/finance/holders.rs:126-172 | for both institutional and fund lists, None exactly when the list is absent or not an array, or when every item lacks a name |
| Holders.OwnershipSurvivor | src/service/finance/holders.rs:88-93 | every reported holder has a non-empty name and is the conversion of some input item |
| Holders.InsiderEntry | src/service/finance/holders.rs:180-224 | dropped exactly when the insider name is empty; each field reads its first key and falls back only when that key is absent |
| Holders.ParseInsiderTransactions | src/service/finance/holders.rs:174-231 | the push loop returns the surviving transactions in order, or None when none survive |
| Holders.InsiderFallbackOnlyOnAbsence | src/service/finance/holders.rs:182-190 | a present `filerName` that is not a string gives an empty name, so the item is dropped; `insider` is never consulted |
| Holders.TransactionsNoneIff | src/service/finance/holders.rs:226-230 | None exactly when the list is absent or every item lacks an insider name |
| Holders.Summary | src/service/finance/holders.rs:256-268 | all four counters are reported, and net shares and net transactions are purchases minus sales |
| Holders.PurchasesOf | src/service/finance/holders.rs:233-237 | None exactly when the transactions are None or empty; otherwise the period is "recent" and every percentage is None |
| Holders.ParseInsiderPurchases | src/service/finance/holders.rs:239-254 | the loop over four mutable counters gives the summary of the tally |
| Holders.TallyBound | src/service/finance/holders.rs:244-254 | purchases plus sales never outnumber the transactions |
| Holders.TallyAppend | src/service/finance/holders.rs:244-254 | the tally of a concatenation is the sum of the tallies, counter by counter |
| Holders.BuyBeatsSale | src/service/finance/holders.rs:247-250 | a text naming both a buy and a sale counts as a purchase, because the first branch wins |
| Holders.ClassifyExamples | src/service/finance/holders.rs:245-254 | "buy" is a purchase, "sale" is a sale and "hold" is neither |
| Holders.PurchasesExample | src/service/finance/holders.rs:239-268 | buy 100, sale 40 and hold 10 give 100/1 purchased, 40/1 sold, net 60 shares and net 0 transactions |
| Holders.RosterEntry | src/service/finance/holders.rs:278-321 | dropped exactly when `name` is empty; position and direct shares read their first key and fall back only on absence |
| Holders.ParseInsiderRoster | src/service/finance/holders.rs:271-328 | the push loop returns the surviving members in order, or None when none survive |
| Holders.RosterNoneIff | src/service/finance/holders.rs:323-327 | None exactly when the list is absent or every item lacks a name |
| Seqs.Collect | src/service/finance/holders.rs:85-117 | the `continue`/`push` loop yields exactly the converted items in input order |
| Seqs.NonEmpty | src/service/finance/holders.rs:119-123 | an empty result is reported as None and a non-empty one unchanged |
| HolderValues.FromTimestamp | src/models/holders.rs:28 | a timestamp exists exactly inside chrono's representable range |
| HolderValues.ParseTimestamp | src/models/holders.rs:24-29 | only an in-range i64 under `raw` is read; a bare integer gives None |
| HolderValues.ValueToI64 | src/models/holders.rs:31-33 | the i64 under `raw` if there is one, else the value itself as an i64; always within i64 bounds |
| HolderValues.ValueToF64 | src/models/holders.rs:35-37 | the number under `raw` if there is one, else the value itself as a number |
| HolderValues.ObjectToMap | src/models/holders.rs:39-41 | exactly the object's keys, each mapped to its own value |
| HolderValues.BareIntegerReadsAlike | src/models/holders.rs:24-37 | a bare integer is read by `value_to_i64` and `value_to_f64`, but not by `parse_timestamp` |
| Json.GetFirst | src/service/finance/quotes.rs:16-18 | the fallback key is read only when the primary key is absent, whatever the primary value's type |
| Quotes.FirstQuote | src/service/finance/quotes.rs:8-12 | present exactly when `quoteResponse.result` is a non-empty array |
| Quotes.ReadNumber | src/service/finance/quotes.rs:22 | present exactly when the key holds a number, integer or not |
| Quotes.ExtractSimpleQuote | src/service/finance/quotes.rs:7-37 | None exactly without a first result or a string symbol; the name follows `longName`, then `shortName`, then ""; the currency follows `currency`, then `financialCurrency`; the numbers are never defaulted |
| Quotes.ExtractRoundTrip | src/service/finance/quotes.rs:7-37 | every quote sent as the first result comes back unchanged, whatever follows it |
| Quotes.ExtractCarried | src/service/finance/quotes.rs:14-35 | an item that carries each field of a quote under its primary key yields exactly that quote |
| Quotes.QuoteObjectCarries | src/service/finance/quotes.rs:14-35 | the provider item built from a quote carries every one of its fields |
| Quotes.MapError | src/service/finance/quotes.rs:39-41 | the error is wrapped unchanged in `Yahoo` |
| Earnings.TimeLabelReads | src/service/command/earnings.rs:123-128 | "AMC" comes exactly from "16:00", "amc" or a verbatim "AMC", and "BMO" likewise; "TBA" comes from a missing time or a verbatim "TBA"; any other time is shown as given |
| Earnings.ImportanceMarkReads | src/service/command/earnings.rs:131-135 | importance 5 and only 5 gets the fire mark, 4 and only 4 the star, and anything else no mark |
| Earnings.EventLines | src/service/command/earnings.rs:121-144 | one line per event, in order |
| Earnings.Listed | src/service/command/earnings.rs:113-119 | the first min(n, 50) events |
| Earnings.PushEventLines | src/service/command/earnings.rs:121-144 | the push loop builds exactly the event lines |
| Earnings.FormatOutput | src/service/command/earnings.rs:104-152 | the joined lines are header, blank line, the listed events and, past 50, the trailer |
| Earnings.DigestShape | src/service/command/earnings.rs:106-119 | the header comes first, then a blank line; there are two more lines than the listed events, plus two exactly when there are more than 50 events |
| Earnings.DigestListsEvents | src/service/command/earnings.rs:113-144 | line 2 + k is the line of event k, for every listed k |
| Earnings.DigestTrailer | src/service/command/earnings.rs:146-149 | past 50 events the last two lines are a blank line and "*...and N more*" with N = n - 50 |
| Earnings.HeaderTotal | src/service/command/earnings.rs:106-110 | the header ends with the total, which reads back as the event count |
| Earnings.DigestChartCount | src/service/command/earnings.rs:84 | when events use the default 📈 and mention it nowhere else, the digest's 📈 count is the number of listed events |
| Earnings.PlainEventLineHasOneChart | src/service/command/earnings.rs:130-143 | a default-emoji event line carries exactly one 📈 |
| Earnings.LongLineBytes | src/service/command/earnings.rs:121-144 | the line of an event with a four-letter symbol, a verbatim time "time-pre-market" and importance 5 is 42 bytes and ends with its 🔥, which starts at byte 38 |
| Earnings.DigestCutInsideFire | src/service/command/earnings.rs:83 | a digest `format_output` produces for 50 such events and a 20-byte fetch time is 2233 bytes, and byte 1800 falls inside the 🔥 of its 40th event line, so the byte slice as written panics |
| Earnings.TextFallback | src/service/command/earnings.rs:76-94 | the render error always ends the text; a digest within 1900 bytes is kept whole; a longer one keeps 1797 to 1800 bytes of its start, followed by the notice |
| Earnings.TextFallbackAgrees | src/service/command/earnings.rs:76-94 | wherever the code as written does not panic, the corrected fallback gives the same text |
| Earnings.TimeoutIsDistinct | src/service/command/earnings.rs:42-49 | the timeout text differs from every upstream-error text, and it asks to try again later |
| Earnings.Handle | src/service/command/earnings.rs:20-102 | timeout, fetch error and empty list each get their own answer without rendering; otherwise the image is tried, with the summary on success; on failure the answer is the text fallback exactly as written wherever its byte slice does not panic, and the corrected cut where it would |
| Options.FloatCmpAntisymmetric | src/service/finance/options.rs:136-138 | swapping the arguments reverses the order, and Equal means equal strikes |
| Options.CompareByKey | src/service/finance/options.rs:61 | both comparators are the plain order on a key: the strike for calls, its negation for puts |
| Options.Qualifying | src/service/finance/options.rs:56-60 | exactly the contracts on the right side of the spot, none added |
| Options.SwapDown | src/service/finance/options.rs:61 | one exchange of neighbours, every other position unchanged |
| Options.Sink | src/service/finance/options.rs:61 | the inner pass moves `a[i]` down past exactly the strictly greater keys just before it, stopping at the first one that is not greater |
| Options.InsertedTies | src/service/finance/options.rs:61 | moving a contract down past strictly greater keys only keeps every strike's contracts in their order |
| Options.Insert | src/service/finance/options.rs:61 | inserting one contract into a sorted prefix keeps it sorted, the same multiset, and every strike's contracts in their order |
| Options.SortBy | src/service/finance/options.rs:61 | the in-place sort leaves the array sorted by the side's key, a permutation of its input, and stable: contracts with equal strikes keep their input order |
| Options.TakeSorted | src/service/finance/options.rs:62 | taking a prefix of the sorted qualifying contracts meets the slice specification |
| Options.SliceSide | src/service/finance/options.rs:56-70 | the slice of one side qualifies, is sorted and has length min(n, k); it is drawn from the qualifying contracts, no omitted contract comes before a taken one, and among equal strikes the earlier contracts in input order are the ones taken |
| Options.TieTakesFirst | src/service/finance/options.rs:56-70 | of two calls with the same strike at or above spot, a one-contract slice is the first of them in input order |
| Options.SideSliceOrder | src/service/finance/options.rs:56-70 | calls are at or above spot and ascending, puts at or below spot and descending |
| Options.SliceChain | src/service/finance/options.rs:47-78 | a client error is wrapped; a missing underlying price gives `NotFound("no underlying price")`; otherwise both sides are sliced and the symbol is upper-cased |
| Options.GetOptionSlice | src/service/finance/options.rs:40-79 | the chain is requested for the `%Y-%m-%d` rendering of the date, which is also the slice's expiration |
| Options.Find | src/service/finance/options.rs:88-93 | the first position holding the target, and None exactly when it is absent |
| Options.GetOptionSliceToday | src/service/finance/options.rs:82-133 | without today's date among the expirations the answer is `NotFound` naming the date and symbol; otherwise the chain for today is sliced |
| Options.GetOptionExpirations | src/service/finance/options.rs:19-37 | unparsable strings are dropped in order, and `NotFound` is returned exactly when none parse |
| Options.ExpirationsKeepCanonicalDates | src/service/finance/options.rs:24-28 | a listed canonical rendering of a date is kept, as that date |
| Dates.ParseIsoDateRoundTrip | src/service/finance/options.rs:27 | parsing gives back every date in years 0 to 9999 that the `%Y-%m-%d` rendering produces |
| Dates.ParseIsoDateSpaced | src/service/finance/options.rs:27 | the same dates also parse with whitespace before each numeric field, which chrono skips, as in " 2024-01-05" and "2024- 1- 5" |
| EarningsCalendar.ParseU64 | src/service/automation/earnings_calendar/mod.rs:32 | a parsed value is below 2^64, and the empty text does not parse |
| EarningsCalendar.ParseU64RoundTrip | src/service/automation/earnings_calendar/mod.rs:32 | every u64 parses back from its decimal text, with or without a leading '+' |
| EarningsCalendar.ParseU64Rejects | src/service/automation/earnings_calendar/mod.rs:32 | a lone '+', a minus sign or any other non-digit is rejected |
| EarningsCalendar.StartChannel | src/service/automation/earnings_calendar/mod.rs:22-39 | the poster does not start exactly when the flag is "0" or the channel is missing or not a u64 |
| EarningsCalendar.Gate | src/service/automation/earnings_calendar/mod.rs:83-100 | it posts exactly in hour 13 on a day other than the stored one, and then stores today; otherwise the state is unchanged |
| EarningsCalendar.PostingScheduler.ShouldPostNow | src/service/automation/earnings_calendar/mod.rs:83-100 | the method reads and overwrites the stored date exactly as the gate says |
| EarningsCalendar.PostingScheduler.Serve | src/service/automation/earnings_calendar/mod.rs:43-52 | over any ticks the loop posts exactly where the gate says, ends with the gate's state, and sends a message exactly on a posting tick whose fetch found events |
| EarningsCalendar.PostsAt | src/service/automation/earnings_calendar/mod.rs:45-51 | tick k posts exactly when the gate opens on the state the earlier ticks left |
| EarningsCalendar.AtMostOncePerDay | src/service/automation/earnings_calendar/mod.rs:83-100 | over chronological ticks, no two ticks of the same date both post |
| EarningsCalendar.PostRecordsDay | src/service/automation/earnings_calendar/mod.rs:98-99 | after a posting tick the stored date is that tick's date |
| EarningsCalendar.FailedFetchNotRetried | src/service/automation/earnings_calendar/mod.rs:47-50 | the day is recorded before the post is attempted, so no later tick that day posts, whatever the fetch did |
| EarningsCalendar.PostOnce | src/service/automation/earnings_calendar/mod.rs:56-81 | a fetch error is returned with the "fetch error: " prefix; no events means nothing is sent and `Ok`; otherwise exactly the digest is sent, and a send error is prefixed |
| PriceConversion.ParseF64 | Lambda-bot/src/models/price.rs:16-18 | the empty text does not parse |
| PriceConversion.ParseF64Integer | Lambda-bot/src/models/price.rs:23 | decimal integer text, signed or not, parses to its value |
| PriceConversion.ParsedTextIsFloatText | Lambda-bot/src/models/price.rs:23-28 | text that parses contains only float characters, and never '%' |
| PriceConversion.PercentSpoilsParse | Lambda-bot/src/models/price.rs:25-29 | a '%' anywhere makes the raw parse fail, which is why the code trims it |
| PriceConversion.TrimEndPercent | Lambda-bot/src/models/price.rs:27 | the result is a prefix that does not end in '%', and everything removed was '%' |
| PriceConversion.TrimEndPercentAbsorbs | Lambda-bot/src/models/price.rs:27 | one more trailing '%' makes no difference |
| PriceConversion.ParseOptional | Lambda-bot/src/models/price.rs:16-18 | present exactly when the text is present and parses, and then it is the parsed value |
| PriceConversion.ParseOrZero | Lambda-bot/src/models/price.rs:23-24 | the parsed value, or 0.0 when the text does not parse |
| PriceConversion.PriceFrom | Lambda-bot/src/models/price.rs:21-41 | the conversion is total: symbol and name are copied, price and change parse or become 0.0, the percentage is parsed after trimming its '%', and the session prices parse or are None |
| PriceConversion.PercentReadsNumber | Lambda-bot/src/models/price.rs:25-29 | "N%" does not parse as is, but its percentage is read as N |
| PriceConversion.PercentSignsIgnored | Lambda-bot/src/models/price.rs:25-29 | appending '%' to the percentage changes nothing in the converted price |
| Fundamentals.StatementAsStr | src/models/fundamentals.rs:17-23 | `as_str` is the serde tag: "income", "balance" or "cashflow" |
| Fundamentals.StatementFromTag | src/models/fundamentals.rs:7-14 | only the three serde tags decode, each to its own variant |
| Fundamentals.FrequencyAsStr | src/models/fundamentals.rs:37-42 | `as_str` is the serde tag: "annual" or "quarterly" |
| Fundamentals.FrequencyFromTag | src/models/fundamentals.rs:29-34 | only the two serde tags decode, each to its own variant |
| Fundamentals.StatementRoundTrip | src/models/fundamentals.rs:7-23 | decoding `as_str(x)` gives back x |
| Fundamentals.FrequencyRoundTrip | src/models/fundamentals.rs:29-42 | decoding `as_str(x)` gives back x |
| Fundamentals.AsStrInjective | src/models/fundamentals.rs:17-42 | distinct variants have distinct strings |

## Left out

- Network calls, the clock, environment variables, tokio's `interval`,
  `timeout`, `spawn` and the mutex. These are inputs or a plain class field.
  `Serve` runs over a finite list of ticks instead of an infinite loop.
- The image renderer, `get_earnings_range`, `get_quote_summary`,
  `get_option_chain` and `get_option_expirations` of the client, and the
  channel's `say`. Their code is not part of this model, so each is a function
  value returning a `Result`.
- Text.ToUpper and Text.ToLower map ASCII letters only. Rust's Unicode case
  mapping, which can change a string's length, is not modelled.
- Options.FloatCmp is the order on exact reals. `f64` NaN (which `float_cmp`
  treats as Equal) and -0.0 are not modelled.
- PriceConversion.ParseF64 takes decimal text with an optional sign, point and
  exponent, plus "inf", "infinity" and "nan". It yields the exact real value,
  with no rounding, overflow to infinity or underflow to zero.
- Dates.ParseIsoDate accepts unsigned years of one to four digits only.
  chrono also accepts signed and longer years; those are not modelled. Leading
  whitespace before each numeric field is modelled.
- Earnings.Handle: where `&output[..1800]` would panic, the model answers with
  the corrected cut. The panic itself, which ends the command's task, is not
  modelled; `DigestCutInsideFire` exhibits a digest that triggers it.
- Earnings.DigestChartCount is stated for events that use the default emoji
  and whose symbol and time never contain 📈. Custom emojis make the
  "showing first" estimate count something other than the listed events.
- The rendered fetch time of the header is a parameter. `Utc::now()` and its
  `%Y-%m-%d %H:%M UTC` formatting are not modelled.
- `ChannelId::new` on a parsed id belongs to the chat library and is not part
  of this model. `StartChannel` returns the parsed id.
- Counters in `parse_insider_purchases` are unbounded integers. An i64
  overflow of the share sums is not modelled.
- The chat message length limit itself, and what the chat service does with a
  message over it, are outside the modelled code.

## Findings

| source | as written | input that shows it | evidently intended | confidence | as-written member | corrected member |
|---|---|---|---|---|---|---|
| src/service/command/earnings.rs:83 | `&output[..1800]` slices the digest at byte 1800, which panics when that byte is not a UTF-8 character boundary | a failed render of 50 events, each with a four-letter symbol, a reported time "time-pre-market" shown verbatim and importance 5, fetched at a 20-byte time: the digest is 2233 bytes and the 🔥 of the 40th event line occupies bytes 1799 to 1802 | cut at the last character boundary at or before byte 1800 | not executed | Earnings.DigestCutInsideFire | Earnings.TextFallback |
