# TradingView-to-broker options bridge: signal engine

This project models the signal engine of the tradingviewalgo bridge (`app/main.py`). A
TradingView alert arrives at `/webhook` with a signal, a ticker symbol, a spot price and
perhaps an alert id. The engine keeps at most one open option leg in a state file. It
answers "smart buy" by buying a call one strike in the money, first selling an open put.
It answers "smart sell" the same way with a put, first selling an open call. It answers
"book profit" by selling the open leg. The ids of handled alerts are kept, at most 200 of
them, so that a replayed alert is ignored.

The modules follow the parts of the handler:

- `Text`: the Python string built-ins the engine relies on, `strip`, `upper`, `lower` and
  substring `in`, restricted to ASCII.
- `Symbols`: `normalize_symbol`.
- `Strikes`: `compute_itm1_strike`, with Python's floor division written out.
- `Instruments`: the instrument table as a sequence of already-parsed rows, and three
  lookups: `get_nearest_expiry_for_underlying`, `find_option_row` and
  `quantity_for_instrument_row`. Each lookup is a specification function plus a method
  with the source's loop, proved equal to it.
- `Orders`: the broker client. Every order either succeeds or fails, and nothing else is
  known about its outcome.
- `AlertHistory`: the bounded list of processed alert ids.
- `Webhook`: the handler as a pure function.
  - `Handle` takes the persisted state, the request, the table, the strike step, today's
    date and the broker's answers.
  - It returns the response, the state afterwards and the orders placed.
  - `Handle` is `Parse` (reading the request) followed by `Process` (acting on the parsed
    alert), and the lemmas about the handler are stated over `Process` for every alert.
- `Service`: class `Bridge`, the running engine, with the state file as fields and the
  broker as an object. It has `close_leg`, `open_leg_buy` and the handler itself as
  methods. Each method is proved to do exactly what the matching `Webhook` function says,
  with the broker's answers read from the broker's own log.

Behaviour of the code a reader might not expect, which the model keeps:

- The underlying name and the option type are matched by case-insensitive substring
  containment in UNDERLYING_SYMBOL, not by exact equality. The option type also passes
  when OPTION_TYPE equals it.
- A row whose strike or expiry cell cannot be read is not rejected by `find_option_row`.
- The nearest expiry is the minimum of the qualifying expiries; there is no expiry index.
- The strike is `compute_itm1_strike`:
  - at an exact multiple of the step, one step below for a call and one step above for a
    put;
  - otherwise, the multiple just below for a call and the one just above for a put.
  Only the exact string "CE" selects the call branch.
- Every order, buy or sell, is for the fixed quantity 75. The lot-size quantity is only
  recorded in the leg.
- An alert id is recorded only when the signal was handled without an exception. A failed
  purchase or sale leaves the alert unrecorded, so it can be retried.
- When the sale of the opposite leg goes through but the purchase after it fails, the
  state file still lists the sold leg as open. Clearing it is saved only together with the
  new leg (`SoldLegStaysRecordedWhenPurchaseFails`).
- A request without a `signal` field makes `None.strip()` raise before any check. The
  model answers it with `Crashed(SignalMissing)`.
- A row without UNDERLYING_SYMBOL makes `.upper()` raise.
  - In the expiry lookup, which runs outside the handler's `try`, this escapes the handler
    (`Crashed`).
  - In `find_option_row`, which runs inside it, this is the handler's internal error
    (`InternalError`).

## Model

| member | source | states |
|---|---|---|
| Text.Strip | app/main.py:52 | the result has no white space at either end, and text without white space at its ends is returned unchanged |
| Text.Upper | app/main.py:52 | same length, no lower-case letter left, other characters untouched, letters shifted to their capitals |
| Text.Lower | app/main.py:253 | same length, no capital left, other characters untouched, capitals shifted to lower case |
| Text.Contains | app/main.py:104 | defined as Python's substring `in`: the needle occurs at some position of the text, and the empty string occurs in every text |
| Text.StripIsIdempotent | app/main.py:253 | stripping an already stripped signal changes nothing |
| Text.LowerStripOfSameCase | app/main.py:253 | two texts that differ only in letter case are equal after `strip().lower()` |
| Text.CaseMapsKeepLetters | app/main.py:253 | `upper()` and `lower()` change only the case of letters |
| Symbols.DropContractSuffix | app/main.py:53-56 | exactly one trailing "1!", "2!" or "3!" is removed when present; otherwise the text is unchanged |
| Symbols.AfterFirstColon | app/main.py:57-58 | with a colon, the result is the part after the first colon; without one, the text itself |
| Symbols.McxParent | app/main.py:59-64 | a mini contract maps to its parent, which is its name without the final M; any other name is unchanged |
| Symbols.UnderlyingName | app/main.py:53-64 | removing the suffix, the prefix and the mini distinction introduces no lower-case letter and never lengthens the name |
| Symbols.Normalize | app/main.py:49-64 | empty stays empty; any other symbol yields a name without lower-case letters, no longer than the input |
| Symbols.NormalizeKeepsPlainSymbol | app/main.py:49-64 | a plain capitalised name without prefix, suffix or mini form is returned unchanged |
| Symbols.NormalizeTradingViewTicker | app/main.py:49-64 | "EXCHANGE:NAME" plus a contract suffix normalises to NAME, mapped to its parent when it is a mini contract |
| Symbols.UnderlyingNameOfTicker | app/main.py:53-64 | the suffix and the exchange prefix of a capitalised ticker are both removed |
| Symbols.NormalizeOfPlainText | app/main.py:52 | for stripped capitalised text, the strip and upper steps change nothing |
| Symbols.NormalizeNseFuture | app/main.py:49-64 | "NSE:NIFTY1!" normalises to "NIFTY" |
| Symbols.NormalizeMcxMiniFuture | app/main.py:49-64 | "MCX:CRUDEOILM1!" normalises to "CRUDEOIL" |
| Symbols.NormalizeRemovesOneSuffix | app/main.py:53-56 | only one suffix is removed: "NIFTY1!1!" becomes "NIFTY1!" |
| Symbols.UnderlyingNameDropsOneSuffix | app/main.py:53-56 | a prefix-free name plus one suffix loses exactly that suffix |
| Symbols.NormalizeBlank | app/main.py:49-52 | a non-empty symbol of white space only passes the emptiness test, is stripped to nothing, and normalises to "" |
| Strikes.ItmStrike | app/main.py:146-154 | defined as `compute_itm1_strike` on an integer spot: at a multiple of the step, one step below for the exact intent "CE" and one step above otherwise; between multiples, the multiple below for "CE" and the one above otherwise (properties in `ItmStrikeBounds`, `ItmStrikeAroundMultiple`) |
| Strikes.FloorDiv | app/main.py:149 | Python's `//`: for a positive divisor the quotient times the divisor is at or below the dividend by less than one divisor; for a negative one it is at or above it by less than the divisor's magnitude |
| Strikes.ItmStrikeBounds | app/main.py:146-154 | for a positive step the strike is a multiple of it; a "CE" strike is strictly below the spot by at most one step; any other intent gives a strike strictly above by at most one step |
| Strikes.ItmStrikeAroundMultiple | app/main.py:146-154 | at a multiple k·step both strikes are one step away; strictly between k·step and (k+1)·step they are k·step for a call and (k+1)·step for a put |
| Strikes.FloorDivUnique | app/main.py:149 | the floor quotient is the unique k with k·step ≤ a < (k+1)·step |
| Strikes.ItmCallExample | app/tests/test_strike_calculations.py:15 | spot 22000, step 50: the ITM1 call strike is 21950 |
| Strikes.ItmPutExample | app/tests/test_strike_calculations.py:22 | spot 22000, step 50: the ITM1 put strike is 22050 |
| Strikes.ItmStrikeBetweenMultiples | app/main.py:150-154 | an example of the model's own: spot 22010, step 50 gives 22000 for a call and 22050 for a put |
| Instruments.EarliestExpiry | app/main.py:98-111 | defined as the least expiry from today on among rows whose UNDERLYING_SYMBOL contains the name, ignoring case, or None (properties in `EarliestExpiryIsLeast`) |
| Instruments.NearestExpiry | app/main.py:98-111 | defined as a failure when any row lacks UNDERLYING_SYMBOL, since every row is visited, and otherwise as `EarliestExpiry` |
| Instruments.EarliestExpiryIsLeast | app/main.py:98-111 | no expiry exactly when no row qualifies; otherwise it is from today on, it is some qualifying row's expiry, and no qualifying row expires earlier |
| Instruments.CandidateExpiriesMembers | app/main.py:101-108 | the accumulated set is exactly the expiries of the qualifying rows |
| Instruments.Least | app/main.py:111 | `min` of a non-empty set is a member and at or below every member |
| Instruments.FindNearestExpiry | app/main.py:98-111 | the loop fails on a row without UNDERLYING_SYMBOL, and otherwise yields the earliest qualifying expiry |
| Instruments.PassesFilters | app/main.py:116-129 | defined as the four filters: the underlying occurs in UNDERLYING_SYMBOL; the option type occurs in it or equals OPTION_TYPE, both ignoring case; a known strike equals the wanted one; a known expiry equals the wanted one |
| Instruments.FirstOptionRow | app/main.py:113-131 | defined as the scan in table order: a fault at the first row without UNDERLYING_SYMBOL, the first row passing the filters, or None (properties in `FirstOptionRowIsSound`, `FirstOptionRowIsFirstMatch`) |
| Instruments.FirstOptionRowIsSound | app/main.py:113-131 | a returned row is in the table and passes all four filters; None means every row has a symbol and fails a filter; a failure means some row lacks a symbol |
| Instruments.FirstOptionRowIsFirstMatch | app/main.py:113-131 | the first row that lacks a symbol or passes the filters decides the result; passing every row gives None |
| Instruments.FindOptionRow | app/main.py:113-131 | the scan with early return yields the first-match result |
| Instruments.QuantityFor | app/main.py:156-163 | defined as the first of lot_size, lotSize, LOT_SIZE, LotSize and lot that holds an integer, times the lots, or the lots when none does |
| Instruments.QuantityFromFirstIntegerKey | app/main.py:156-163 | the first lot-size column holding an integer gives that integer times the lots; with none, the lots themselves |
| Instruments.QuantityForRow | app/main.py:156-163 | the loop over the five column names yields that quantity |
| Orders.Broker.PlaceOrder | app/main.py:215-221 | the order is appended to the broker's log with its reply, which may be a success or a failure |
| AlertHistory.LastN | app/main.py:279 | `[-n:]` keeps min(length, n) elements, the last ones; as in Python, `[-0:]` keeps all of them |
| AlertHistory.RecordAlert | app/main.py:277-279 | the new id is last; the history grows by one up to 200; the kept older ids are the most recent ones, in order |
| AlertHistory.LastNAbsorbs | app/main.py:279 | trimming to the last n and then appending and trimming again equals trimming once at the end |
| AlertHistory.RecordAlertsKeepsLatest | app/main.py:277-279 | recording alerts one by one keeps exactly the latest 200 of the whole sequence, oldest first |
| AlertHistory.RecordAlertsFromEmpty | app/main.py:277-279 | from an empty history, recording any run of alerts keeps its last 200 |
| AlertHistory.HistoryAfter201Alerts | app/main.py:277-279 | after 201 alerts from an empty history, the first is evicted and the other 200 are kept in order |
| Webhook.SymbolOf | app/main.py:185-186 | defined as the request's symbol, or "NIFTY" when it is missing or empty, passed through `Normalize` |
| Webhook.AlertIdOf | app/main.py:188 | the id is the first non-empty one of `alert_id` and `id`, or None when both are missing or empty |
| Webhook.KindOf | app/main.py:253-275 | defined as the signal after `strip().lower()` compared with "smart buy", "smart sell" and "book profit"; anything else is unrecognised |
| Webhook.Parse | app/main.py:184-188 | defined as what the handler reads: the stripped signal (None when missing), its kind, the symbol, the spot and the alert id |
| Webhook.Precheck | app/main.py:184-199 | defined as the early checks in the handler's order: a missing signal crashes; an empty signal or missing spot, a seen alert id and a non-numeric spot are rejected; otherwise None |
| Webhook.OpenLeg | app/main.py:230-250 | defined as `open_leg_buy`: a zero step, an unreadable or missing row or a failed buy is an internal error with the state unchanged; otherwise one buy for 75 and the new leg saved as the open one |
| Webhook.SwitchTo | app/main.py:254-265 | defined as one "smart buy"/"smart sell" branch: an open leg of the opposite type is sold first, a failed sale stops there, then `OpenLeg` |
| Webhook.BookOpenLeg | app/main.py:266-273 | defined as the "book profit" branch: "no open leg" without one; otherwise a sale of it, clearing it when the sale succeeds |
| Webhook.Dispatch | app/main.py:252-275 | defined as the choice of branch by signal kind; an unknown signal is answered as such with nothing changed |
| Webhook.Remember | app/main.py:277-280 | defined as recording the alert id, if any, in the bounded history only after a successful branch |
| Webhook.Process | app/main.py:176-286 | defined as the handler on a parsed alert: the early checks, then the expiry lookup (a fault escapes the `try`), then `Remember` of `Dispatch` |
| Webhook.Handle | app/main.py:176-286 | defined as `Process` of `Parse` of the request |
| Webhook.MissingSymbolMeansNifty | app/main.py:185-186 | a request with no symbol, or an empty one, trades NIFTY |
| Webhook.SignalKindIgnoresCase | app/main.py:253-275 | two signals that differ only in letter case are the same kind |
| Webhook.SignalKindIgnoresBlanks | app/main.py:184 | blanks around the signal do not change its kind |
| Webhook.ProcessChangesStateOnlyOnSuccess | app/main.py:206-286 | failure leaves the persisted state unchanged; success records the id, a purchase makes the bought leg the open one, a sale clears it |
| Webhook.DispatchChangesOnlyTheLeg | app/main.py:252-275 | acting on a signal never touches the alert history |
| Webhook.RememberRecords | app/main.py:277-280 | recording the id keeps the state-change guarantee and adds the id to the history |
| Webhook.RememberKeepsResponseAndOrders | app/main.py:277-280 | recording the id changes neither the answer nor the orders, and a failure is not recorded |
| Webhook.RejectionsPlaceNoOrders | app/main.py:184-202 | a missing signal or spot, a duplicate, an invalid spot, a missing expiry, an unknown signal or a crash places no order and changes nothing |
| Webhook.DispatchRejectsOnlyUnknownSignals | app/main.py:252-275 | acting on a signal never gives an early-check answer; an unknown signal places nothing |
| Webhook.ProcessPlacesBoundedOrders | app/main.py:206-286 | at most two orders, all for 75; a sale only sells the leg that was open; a purchase that succeeds is the last order and buys the new leg's instrument |
| Webhook.DispatchPlacesBoundedOrders | app/main.py:252-265 | the same bound for acting on the signal |
| Webhook.OpenLegPlacesAtMostOneBuy | app/main.py:230-250 | `open_leg_buy` places at most one order, a buy for 75, and a purchase that goes through bought exactly the new leg's instrument |
| Webhook.DuplicateExactlyWhenSeen | app/main.py:189-195 | the answer is "duplicate" exactly when the signal and spot are present and the alert id is already in the history |
| Webhook.SeenAlertIsIgnored | app/main.py:191-195 | an alert whose id is in the history is ignored with no order and no change |
| Webhook.ReplayIsIgnored | app/main.py:191-195 | once an alert with an id succeeds, delivering it again, with any table, date or broker answers, is ignored and changes nothing |
| Webhook.HistoryStaysBounded | app/main.py:277-280 | the history never exceeds 200 ids |
| Webhook.DispatchBuysAsSignalled | app/main.py:230-250 | a bought leg is a call for "smart buy" and a put for "smart sell", at the chosen strike and the looked-up expiry; it is the instrument of the first table row that passes every filter, with that row's lot quantity |
| Webhook.OpenLegBuysTheFirstRow | app/main.py:230-250 | conversely, with a non-zero step, a row found for the chosen strike and a buy the broker accepts, `open_leg_buy` buys that row's instrument for 75 and saves the new leg as the open one |
| Webhook.AcceptedSignalBuys | app/main.py:176-286 | an accepted "smart buy"/"smart sell" whose sale (if any) and purchase the broker accepts, with a row found, answers with the purchase of the first matching row, saves it as the open leg with the id recorded, and places the sale, if any, then that one buy |
| Webhook.BoughtLegIsOneStepInTheMoney | app/main.py:200-250 | a bought leg expires on the earliest expiry from today on; with a positive step its strike is a multiple of the step, below the spot by at most one step for a call and above it by at most one step for a put |
| Webhook.SwitchSellsOnlyTheOppositeLeg | app/main.py:254-265 | "smart buy"/"smart sell" sell first exactly when the open leg is of the opposite type |
| Webhook.SwitchSellsFirstExactlyTheOppositeLeg | app/main.py:254-265 | the same for acting on the signal |
| Webhook.SoldLegStaysRecordedWhenPurchaseFails | app/main.py:254-265 | when the sale succeeds and the purchase then fails (zero step, unreadable table, no instrument, or a refused buy), the answer is an internal error, the first order is that sale, and the state file still holds the sold leg |
| Webhook.AcceptedSignalFails | app/main.py:228-286 | a refused sale, a zero step, an unreadable table, a missing instrument or a refused buy each give the matching internal error, leave the state file unchanged with the id unrecorded, and place exactly the orders sent before the failure |
| Webhook.BookProfitSellsTheOpenLeg | app/main.py:266-273 | with no open leg: "no open leg", no order, id recorded; otherwise one sale of the open leg, clearing it and recording the id when it succeeds and changing nothing when it fails |
| Webhook.UnknownSignalIsRejected | app/main.py:274-275 | an unrecognised signal is answered as such, with no order and no change |
| Service.Bridge.constructor | app/main.py:133-139 | the engine starts from the state file's contents, with a new broker client and empty order logs |
| Service.Bridge.Save | app/main.py:141-143 | afterwards the state file holds exactly the saved state |
| Service.Bridge.CloseLeg | app/main.py:210-228 | one market sell of the leg's instrument is placed for 75 |
| Service.Bridge.OpenLegBuy | app/main.py:230-250 | `open_leg_buy` answers, orders and saves exactly as `OpenLeg` says; on failure the state file is unchanged |
| Service.Bridge.Switch | app/main.py:254-265 | each "smart buy"/"smart sell" branch answers, orders and saves exactly as `SwitchTo` says |
| Service.Bridge.Book | app/main.py:266-273 | the "book profit" branch answers, orders and saves exactly as `BookOpenLeg` says |
| Service.Bridge.Signal | app/main.py:252-275 | the signal dispatch answers, orders and saves exactly as `Dispatch` says |
| Service.Bridge.Trade | app/main.py:252-286 | the `try` block, including the recording of the id, does exactly what `Remember` of `Dispatch` says |
| Service.Bridge.Webhook | app/main.py:176-286 | the handler's answer, final state file and orders are exactly those of `Handle` on the state before the call and the broker's replies |
| Service.OpenLegIgnoresTheOpenLeg | app/main.py:245-247 | the purchase's answer and orders do not depend on the leg open before, and on success the same state is saved |

## Left out

- The shared-secret check (403) comes before everything modelled. Only requests that pass it are modelled.
- Logging (`tvlogger`, `log.*`) and Telegram notifications are left out. They are side effects without influence on the outcome; a failed notification is swallowed.
- Downloading and parsing the instrument CSV, and its `lru_cache`, are left out. The table is a parameter of already-parsed rows.
- `parse_date_try`'s formats are left out. A row carries its expiry as a day number, or `None` when no format matched.
- The file I/O of `load_state`/`save_state`, including an unreadable state file, is left out. The state file is the `Bridge` fields.
- `datetime.utcnow()` is a parameter (`today`), and the broker's answers come from the broker's log.
- The broker's wire protocol is left out. A `place_order` call that returns, whatever it returns, is a success; only a raised exception is a failure.
- `get_order`, the ngrok and health endpoints, and the rest of the file outside the handler and its helpers are not part of this model.
- The lock is left out. The model handles one request at a time, so the race between the two `with lock:` blocks (and the expiry lookup between them) is not modelled.
- The spot is modelled as `int(float(spot))`. NaN and infinite spots (on which `int` raises) and the float value echoed in the response payload are not modelled.
- The response payloads and HTTP status codes are not modelled, only which answer is given. The internal-error path returns a tuple whose status the framework decides.
- Only ASCII white space is stripped, and only ASCII letters change case. Python's Unicode rules are not modelled.
- Request fields that are not strings are not modelled; `signal`, `symbol`, `alert_id` and `id` are text or missing. A non-string `signal` makes `.strip()` raise at app/main.py:184, and a numeric `alert_id` would be compared and stored as a number (app/main.py:188, 193, 278).
- A row whose SECURITY_ID is missing is not modelled. Every row carries a security id.
- `compute_strike_by_type`, which the strike test imports, is not in the source. Only `compute_itm1_strike`, which the handler calls, is modelled.
- A zero strike step makes `int(spot) // 0` raise inside the handler's `try`. It is modelled as `InternalError(StrikeStepZero)`; its value comes from configuration.
