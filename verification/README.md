# The bolt card service, verified

A Dafny model of the bolt card service: a Lightning wallet whose NFC cards are tapped at a point of sale. A tap mints a
withdraw request (`k1`), the wallet of the point of sale calls back with an invoice, the callback checks the PIN and the
limits and claims the payment, the card holder may be asked to approve it, and a node pays it. The project models

- the three tables `cards`, `card_payments` and `card_receipts` and every statement that decides about money or taps, as
  a class updated in place (`Databases.Database`) tied to functions on table values (`Tables`);
- the handlers and goroutines as processes between whose database statements anything may happen (`System`), with
  theorems over every run of any number of them;
- the limiter, the cap on requests in flight, the proxy key, the settings cache and the approval wait.

## How it is put together

| file | module | about |
|---|---|---|
| sums.dfy, tables.dfy | Sums, Tables | truncating division, weighted sums, rows, the SQL statements and totals as functions |
| database.dfy | Databases | db/db.go as methods that update the tables in place |
| callback.dfy, approval.dfy, node.dfy, tap.dfy | Callbacks, Approval, Node, TapRequest | the handlers and loops as methods |
| callrules.dfy | CallRules | exactly when a callback starts a payment or spends its row, told by columns |
| system.dfy | System | processes, events, runs, and the rules a run may be required to keep |
| taprun.dfy, waitrun.dfy, noderun.dfy | TapRuns, WaitRuns, NodeRuns | an uninterrupted tap, the approval wait and the node's loops are runs of their processes |
| spent.dfy, hands.dfy, outcome.dfy | Spent, Hands, Outcomes | at most once, what a holder knows, sent or released, under every interleaving |
| onetap.dfy, bindtap.dfy, pins.dfy | OneTap, BindTaps, Pins | one tap one payment, the tap that binds a card, one PIN for each tap |
| amounts.dfy, agree.dfy, serial.dfy, oneinvoice.dfy | Amounts, Agree, Serial, OneInvoices | the rules on amounts, what the exact one keeps, and two kinds of run that keep it |
| daylimit.dfy, floor.dfy, erase.dfy, ledger.dfy, sent.dfy | DayLimits, Floors, Erasure, Ledger, Sent | what sound runs and exact runs promise of the money |
| limits.dfy, answers.dfy, deposits.dfy | Limits, Answers, Deposits | transaction limit and PIN of every claim, the Y behind every asked payment, the card behind every credit |
| tokens.dfy, registry.dfy | Tokens, Registry | approval tokens, and live cards under a name or UID |
| witness.dfy, replay.dfy | Witnesses, Replays | concrete runs: bounds that are reached, properties that fail |
| limiter.dfy, slots.dfy, proxykey.dfy | Limiters, Slots, ProxyKey | rate limit, concurrency cap, limiter key |
| settings.dfy, gets.dfy | Settings, Gets | the settings cache, and exactly when its answers go backwards |

`System` reads the source this way, one step of a process per database statement or network call:

- `StepTap` is `Response` and `parse_request` (lnurlw/lnurlw_request.go:120-282). Counting the cards of a UID, listing
  the blank ones and binding one are three steps, and the update that binds asks nothing of the card (db/db.go:305).
- `StepCallback` is `Callback`, `lnd_payment` and `lndhub_payment` (lnurlw/lnurlw_callback.go:60-225, 291-411).
- `StepWait` is `await_approval` and `release` (lnurlw/lnurlw_callback.go:234-289).
- `StepNode` is the status loop of `PayInvoice` and the state loop of `Monitor_invoice_state`
  (lnd/lnd.go:169-190, 293-316).
- `TakeDeposit` is the LNURL-pay callback (lnurlp/lnurlp_callback.go:48-87), `TakeAnswer` the answer by token, and the
  other events are single statements of the internal API. `Stop` ends a process anywhere: a crash, a timeout, an error.

Every statement takes the value of `NOW()` it ran with as an input, and nothing orders these values: in PostgreSQL a
transaction's `NOW()` is its start, and transactions block on `FOR UPDATE`, so claim times need not be in commit order.

## What is required of a run

The theorems of `Spent`, `Hands`, `Outcomes`, `Limits` and `Deposits` require nothing. The others name their rule, in
terms of the state an event happens in. Where a rule is needed because the code does not keep the promise of itself, an
equivalence says of each single event that it keeps the promise if and only if it keeps the rule, and `Witnesses` and
`Replays` hold concrete runs that break rule and promise.

**Amounts.** The invoice of a row is written with no condition on `paid_flag` (db/db.go:588), and a claim is measured
with the amount its callback read, not with the one on the row. So the promises about amounts are false of runs in
which two callbacks work on one `k1`. The rules are per card and look only at its claimed rows, those with a payment
time:

- `SoundOn`: a claim finds no more recorded on its row than it is measured with, and an invoice recorded on a claimed
  row is for no more than the row records. `Amounts.KeptIffSound`: claimed rows never record more than before and every
  new claim covers its row if and only if the event is sound. The day limit and the erasure of released payments from
  the daily totals hold of every run that is sound for the card. `Witnesses.OverlapBreaksTheDayLimit` and
  `Witnesses.StaleClaimBreaksTheDayLimit` break either half of the rule and with it the day limit.
- `ExactOn`: a claim finds its row recording exactly what it is measured with, and an invoice recorded on a claimed row
  is for the amount that is there. `Amounts.SteadyIffExact`: claimed rows keep their amount or lose it and every new
  claim is for what its row records if and only if the event is exact. What is really sent is bounded in every run that
  is exact for the card. `Witnesses.UndercutBreaksWhatIsSent` is a sound run in which a card limited to 1000 sats a day
  sends 1999.
- `BalancedOn` and `MatchedOn` are the same two for the balance, in which rows with status FAILED do not count, so that
  invoices recorded on those are free. `Floors.OnlyClaimsDebit`: an event takes no more than it claims off the balance
  if and only if it is balanced. `Ledger.NextBalance`: the balance moves as the incremental book does if and only if
  the event is matched.
- `NoOverlap`: when a `k1` is presented and its row found, no other callback that found that row unpaid is under way.
  Every run that keeps it is exact, and so sound, for every card (`Serial.NoOverlapIsExact`, `Serial.NoOverlapRules`).
  It is not needed for that: `OneInvoices.OneInvoiceIsExact` proves the same of runs with any overlap in which the
  invoices presented with one `k1` are all for one amount and none is recorded on a row that was released in the
  meantime.

**Taps.** `AcceptedForward`: a tap that binds a card stores no counter behind one already accepted for the card.
`OneTap.CountersKeptIff` is its equivalence and `Replays.StalledBindingReplaysATap` a run without it: a tap accepted
twice, and both its requests paid. `BoundForward`: it stores no counter behind that of a tap under way that has bound
the same card; `BindTaps.BoundKeptIff` is its equivalence. Both follow from `CountersForward`, that the card's counter
is not put back, and so from `CleanBind`, that the card is still blank and the UID still without a card, as when the
three statements of binding are one (`BindTaps.NothingPutBack`). `UidFree`: no other live card has the UID;
`Registry.UidsKeptIff` is its equivalence.

**PINs.** `TriesOnce`: a PIN is refused, and a payment claimed, only on a row on which no refusal waits for its
`Fail_payment`, a PIN is refused only on an unspent row, and a callback with such a refusal stops only when the row is
or will be spent. `Pins.PinsKeptIff` is its equivalence, `Replays.PinTriedTwice` a run without it, and
`Pins.NoOverlapTriesOnce` derives it from `NoOverlap` when no callback is lost right after a refused PIN.

The other rules:

- `FinalStates`: the node's FAILED and SETTLED are final. `NamedStatus`: the node's statuses are not empty.
- `FreshToken`: a drawn approval token is not empty and not drawn before.
- `NoYes`: nobody answers Y for the row, neither by its id nor by the token it holds.
- `AddAfterWipe`: a card is added only when no live card has its name. `Insert_card` wipes the name first, so one
  request keeps it; `Registry.OverlappingInserts` shows two overlapping ones that do not, and
  `Registry.AddKeepsNamesIff` that the rule is exact.
- `LndOnly`: no payment of the card takes the lndhub path, which checks neither the day limit nor the balance.

## Where the code and its documentation disagree

db/db.go:884-886, approve_request.go:27-29 and docs/NTFY_APPROVAL.md:38 say that an approval token stops working once
its payment has been sent or released. The code tests `payment_status = ''`, which is still so after the payment has
been handed to the node and until the node reports. When the card holder's token gave the answer it has been cleared,
but when the internal API gave it the token is still on the row and is taken. The model follows the code:
`Tokens.TokenWorksAfterTheStartIff` says exactly when, `Witnesses.TokenAnsweredAfterTheStart` gives a run, and
`Tokens.NoLateAnswer` proves what does hold. An answer taken then has no effect on the payment, already on its way.

docs/FAQ.md:40, SECURITY.md:26 and lnurlw/lnurlw_callback.go:375-378 say that one PIN can be tried per card tap. The
code compares the PIN and fails the payment in two steps, so overlapping callbacks of one `k1` try several: in
`Replays.PinTriedTwice` a wrong PIN is refused and the payment is made with the right one on the same tap. What does
hold is `Spent.WrongPinEndsTheTap`, from the commit of `Fail_payment` on, and `Pins.OneRefusalEndsTheTap` under
`TriesOnce`.

db/settings.go:113-115 says `Get_setting_now` refreshes the value held. It clears every entry and holds nothing.

## Model

| member | source | states |
|---|---|---|
| Spent.RunKeeps | db/db.go:614-752 | Every sequence of events keeps the invariant of at-most-once: unpaid rows untouched, claims and log in one-to-one relation, one holder per claim, no holder left that could pay again |
| Spent.AtMostOneSpend | db/db.go:701-752 | Under every interleaving, of all true answers of Authorize_payment and all successes of Fail_payment on one row there is at most one |
| Spent.AtMostOneStart | lnurlw/lnurlw_callback.go:183-217 | A pay attempt or approval wait is preceded by a claim of its row; a row gets at most one of each, and a wait only before the payment |
| Spent.PaidIsForever | db/db.go:701-702 | From any state and under any statements a claimed or failed row never becomes unpaid again |
| Spent.WrongPinEndsTheTap | lnurlw/lnurlw_callback.go:375-392 | Once a wrong PIN is committed, no later claim, wait or payment is for that row |
| Limits.EveryClaimWithinTx | db/db.go:654-656 | Under every interleaving and on both payment paths, every claim is for at most the transaction limit of its card, in whole satoshis |
| Limits.NewClaimWithinTx | db/db.go:631-656 | The event that claims a row finds the limits it logs in the columns of the row's own card, and an amount within the transaction limit |
| Limits.ClaimedIff | db/db.go:648-703 | A routed callback's row becomes paid if and only if it is unpaid and, on the card's columns, within the transaction limit and, unless it takes the lndhub path, within day limit and balance |
| Limits.PinVerdict | lnurlw/lnurlw_callback.go:380-381 | The PIN check on the card's columns: refused if and only if the PIN is enabled, the invoice is at least the PIN limit and the PIN given is not the card's |
| Limits.EveryClaimHadItsPin | lnurlw/lnurlw_callback.go:365-392 | Under every interleaving, every claim for an amount that called for a PIN was made by a callback given the card's PIN |
| Pins.OneRefusalEndsTheTap | lnurlw/lnurlw_callback.go:375-392 | In every run that tries no PIN twice, a refused PIN is the only one refused for its row, and the row is never authorised, asked for or paid, before or after |
| Pins.PinsKeptIff | lnurlw/lnurlw_callback.go:375-392 | An event keeps that each refused PIN is the only one of its row and has spent it, or will, if and only if it refuses or claims on no row with a refusal pending, refuses on no spent row, and stops no callback before its Fail_payment |
| Pins.NoOverlapTriesOnce | lnurlw/lnurlw_callback.go:313-392 | Without overlapping callbacks, and with none lost between a refused PIN and its Fail_payment, no PIN is tried twice |
| Replays.PinTriedTwice | lnurlw/lnurlw_callback.go:375-392 | A concrete run: of two overlapping callbacks one has its PIN refused, the other is authorised and paid on the same tap before the first fails the payment |
| Outcomes.RunKeepsOutcomes | lnurlw/lnurlw_callback.go:234-289 | Every sequence of events keeps: whoever gave a payment up cannot start it, and nobody holds one that was released |
| Outcomes.NeverSentAndReleased | lnurlw/lnurlw_callback.go:227-289 | Under every interleaving no payment is both handed to be paid and released from the limits |
| OneTap.RunKeepsTaps | lnurlw/lnurlw_request.go:120-282 | Every sequence of events in which no binding stores a counter behind an accepted one keeps: accepted counters grow and stay behind the card's, each accepted tap mints at most one row and for its own card |
| OneTap.OneTapOnePayment | lnurlw/lnurlw_callback.go:183-217 | Over every such run, two payments started have different accepted (card, counter) pairs behind them, each of the paying card |
| OneTap.CountersIncrease | db/db.go:455-467 | Over every such run, a card's accepted counters strictly increase |
| OneTap.CountersKeptIff | db/db.go:305-467 | An event keeps accepted counters growing and behind their cards' if and only if it is no binding that stores a counter smaller than one accepted for the card |
| Replays.StalledBindingReplaysATap | db/db.go:305 | A concrete run: a binding that stalls between its list and its update puts the counter back, the same tap is accepted again, and two payments are started for one (card, counter) |
| BindTaps.BindingTapIsNeverAccepted | lnurlw/lnurlw_request.go:104-112 | The tap that binds a card is never accepted for it, in every run in which no binding stores a counter behind that of another tap under way that bound the card |
| BindTaps.BoundKeptIff | db/db.go:297-318 | An event keeps that no accepted tap has bound its card, and that a card bound by a tap under way holds at least its counter, if and only if it is no such binding |
| BindTaps.NothingPutBack | lnurlw/lnurlw_request.go:183-192 | Both rules on binding hold of every run in which no binding puts a card's counter back, and of every run in which each finds its card still blank |
| OneTap.K1NamesItsRow | sql/create_db.sql:41 | In every reachable state, looking up the k1 of a row finds that row |
| Amounts.NextAmounts | db/db.go:588-773 | Exactly two kinds of event change a recorded amount, a callback that records its invoice and a spoiled or released row, which loses it; no row changes card or becomes unpaid |
| Amounts.KeptIffSound | db/db.go:588-703 | An event leaves every claimed row of a card recording no more than before, and a new claim on the card covering its row, if and only if it is sound for the card |
| Amounts.SteadyIffExact | db/db.go:588-703 | An event leaves every claimed row of a card with its amount or none, and a new claim on the card for what its row records, if and only if it is exact for the card |
| Hands.RunKnown | lnurlw/lnurlw_callback.go:173-289 | Every sequence of events keeps: whoever holds a claim knows its row is claimed and with which status, whoever watches a receipt knows its state, and no step writes another's row |
| Agree.RunAgree | lnurlw/lnurlw_callback.go:173-289 | Every run that is exact for the card keeps: whoever holds a claim of the card and every payment started has its row recording the amount that was claimed |
| Ledger.LedgerRefinesBook | db/db.go:1095-1104 | In every state of a run that is matched for the card and has final node states, the total of card_total_sats_sql, recomputed from the rows, is the sum kept incrementally: -m on a claim, +m on a release or a first FAILED, +r on a first SETTLED of a deposit made for the card |
| Ledger.NextBalance | db/db.go:580-819 | A single event changes the recomputed balance by exactly what it adds to the incremental book if and only if it is matched for the card |
| Ledger.ClaimEffect | db/db.go:614-721 | A claim takes what its row records off its own card's balance, adds it to that card's daily total for the day from the claim's time on, and moves no other card's totals |
| Deposits.DepositEffect | lnurlp/lnurlp_callback.go:48-87 | A deposit alone changes no balance; settled, it raises that of the card it was made for by its amount and no other card's |
| Deposits.SettledEffect | lnd/lnd.go:169-190 | In any state and for any watched receipt, the first SETTLED raises the balance of the card the deposit was for by its amount and no other |
| Deposits.DepositTakenIff | lnurlp/lnurlp_callback.go:57-87 | A deposit is taken if and only if it is for whole satoshis in range, an existing card and an unused hash; then it adds one receipt with its card, hash and amount, and one watcher, else nothing |
| Deposits.EveryReceiptWasAskedFor | db/db.go:500-530 | Under every interleaving, every receipt has the card, hash and amount of a deposit of the run |
| Deposits.CreditsWereDeposited | lnd/lnd.go:169-190 | Under every interleaving, the card and the amount the ledger credits are those of a deposit logged before |
| Tables.UnionKeepsEveryRow | db/db.go:1095-1104 | The de-duplicating UNION drops no row: the sum over the set of transactions equals the sum row by row |
| Floors.BalanceFloor | db/db.go:683-695 | In every run that is balanced for the card and has final node states, a card that may not go negative never falls below -1998 msat on the LND path, and never below zero when its invoices are whole sats |
| Floors.OnlyClaimsDebit | db/db.go:1095-1104 | An event takes no more off a card's balance than it claims on it if and only if it is balanced for the card |
| Floors.CheckedClaimFloor | db/db.go:692 | What the truncating check lets through when the row records no more than was checked: at most 1998 msat, nothing when both sides are whole sats |
| Witnesses.BoundsAreReached | db/db.go:668-692 | One run reaches a balance of exactly -1998 msat and a window of exactly 1000 D + 1998 msat, so both bounds are tight |
| DayLimits.DayLimit | db/db.go:658-679 | In every run that is sound for the card and for every instant t, what the card's claims recorded in (t - 1 day, t] is at most 1000 D + 1998 msat, D the limit read by the last of them in commit order, whatever the claim times, limit changes and later releases |
| Sent.SentIsOnTheBooks | lnurlw/lnurlw_callback.go:183-217 | In every run that is exact for the card, for ever after a payment of it was started its row is claimed and carries the very amount the claim was measured with |
| Sent.SentWithinTheDay | db/db.go:658-679 | In every run that is exact for the card, the payments really sent, out of the card's claims of any 24 hours, total at most 1000 D + 1998 msat by the amounts they were claimed for |
| DayLimits.EmptyWindow | db/db.go:668-670 | A window without a claim in the log has no recorded amount, under every interleaving |
| DayLimits.NewClaimWithin | db/db.go:668-703 | A checked claim, with everything committed before it that lies in its own last day, is inside 1000 D + 1998 msat |
| DayLimits.OnlyInvoicesRaise | db/db.go:588 | An event raises what a row records, spent or not, if and only if it is a callback recording a larger invoice on it |
| Witnesses.OverlapBreaksTheDayLimit | db/db.go:588 | A concrete run in which an invoice is recorded on a claimed row breaks the day limit; it is not sound |
| Witnesses.StaleClaimBreaksTheDayLimit | db/db.go:698-703 | A concrete run in which a claim finds another callback's larger invoice on its row breaks the day limit; it is not sound |
| Witnesses.UndercutBreaksWhatIsSent | db/db.go:588 | A concrete sound run sends 1999 sats for a card limited to 1000 a day, after 1 msat was recorded over a paid 1000 sats; it is not exact |
| Serial.RunKeepsSerial | lnurlw/lnurlw_callback.go:173-411 | Without overlapping callbacks every process agrees with the row it works on, no two work on one row, and every event is exact for every card |
| Serial.NoOverlapRules | lnurlw/lnurlw_callback.go:313-361 | Whatever is promised of runs that are exact or sound for a card is promised of runs without overlapping callbacks |
| OneInvoices.OneInvoiceIsExact | lnurlw/lnurlw_callback.go:313-361 | However callbacks overlap, when those of one k1 present one amount and none records it on a row that was released in the meantime, every event is exact for every card |
| Erasure.ReleaseFreesTheBalance | db/db.go:728-787 | Under every interleaving, from a release or a spoiled tap on, the balance equals that of the database without the row, and the row stays spent |
| Erasure.ReleaseErasesTheClaim | db/db.go:728-787 | In every run that is sound for the card, from then on every daily total of the card equals that of the database without the row as well |
| Erasure.FailureKeepsTheDay | db/db.go:668-670 | In every run that is exact for the card and has final node states, after a node FAILED the balance is that without the row, while the daily total still counts its amount for its day |
| Tokens.TokenUsedOnce | db/db.go:851-911 | With distinct tokens, each token is answered at most once and for the row it was drawn for |
| Tokens.AnswerTouchesItsRow | db/db.go:887-911 | An answer by token that changes a row succeeds, changes only that row, and the token was drawn for it |
| Tokens.AnswerFindsOne | db/db.go:899-910 | In every state with distinct tokens the rows an answer updates are one or none, and it succeeds when there is one |
| Tokens.NoLateAnswer | db/db.go:763-819 | No answer is ever taken for a row that was released or that the node has reported on |
| Tokens.TokenWorksAfterTheStartIff | db/db.go:880-911 | When a payment is started, under every interleaving with distinct tokens, its token is still taken if and only if the row holds it |
| Witnesses.TokenAnsweredAfterTheStart | db/db.go:821-843 | A lawful run in which a token is answered after its payment was sent, because the internal API gave the approval |
| Databases.Database.constructor | sql/create_db.sql:10-67 | The tables start empty |
| Databases.Database.DayTotal | db/db.go:668-670 | The loop's total is the sum over the claimed rows of the last day |
| Databases.Database.CardTotalSats | db/db.go:1106-1123 | The loops' total is the UNION's sum and the row-by-row balance, truncated to satoshis |
| Databases.Database.AuthorizePayment | db/db.go:614-721 | A payment is granted if and only if its row is unpaid and within the limits in its card's columns; then the row alone is marked paid with the claim's time; state and verdict are those the processes use |
| Databases.Database.Fail | db/db.go:728-752 | An unpaid row is spent, its amount cleared, its status FAILED; any other row is left |
| Databases.Database.Release | db/db.go:763-787 | A row the node has not reported on loses amount and token and is FAILED; any other row is left |
| Databases.Database.UpdateStatus | db/db.go:789-819 | The status is written with no condition |
| Databases.Database.UpdateInvoice | db/db.go:580-602 | The amount is written with no condition on paid_flag, and only a positive one |
| Databases.Database.Insert | db/db.go:472-498 | A blank, unanswered row with the card, k1 and time given is added for an existing card and an unused k1, and only then |
| Databases.Database.RecordAnswer | db/db.go:821-843 | The answer given is stored by row, with no condition and without clearing the token |
| Databases.Database.CreateToken | db/db.go:851-878 | The drawn token is put on the row, and given out only if there is one |
| Databases.Database.ApproveByToken | db/db.go:887-911 | Every claimed row without a status that holds the token stores the answer given and loses the token; success means exactly one |
| Databases.Database.AddReceipt | db/db.go:500-530 | A receipt with the card, hash and amount given is added for an existing card, an unused hash and a positive amount, and only then |
| Databases.Database.UpdateReceiptState | db/db.go:532-555 | The state of the receipt with the hash is written with no other condition; no such receipt is an error |
| NodeRuns.HashNamesItsReceipt | sql/create_db.sql:61 | In every reachable state, looking up a receipt's hash finds that receipt |
| Databases.Database.BlankCards | db/db.go:249-295 | Exactly the unwiped cards without UID and counter are candidates |
| Databases.Database.StoreUidCounter | db/db.go:297-318 | UID and counter are stored on the one card |
| Databases.Database.CheckAndUpdateCounter | db/db.go:447-470 | The counter is stored if and only if it is larger than the one held |
| Databases.Database.SetupCardRecord | lnurlw/lnurlw_request.go:66-118 | A bound card was blank and its CMAC matched; no binding means no change, and that no candidate matched or one had an unusable key |
| Databases.Database.WipeNamed | db/db.go:1280-1283 | Every card of the name is wiped and disabled, no other is touched |
| Databases.Database.InsertCard | db/db.go:1146-1267 | The cards of the name are wiped, then one is added with each column as given |
| Databases.Database.WipeCard | db/db.go:1268-1307 | The cards of the name are wiped and id, UID and keys of the last of them are returned, if there is one |
| Databases.Database.UpdateCard | db/db.go:1309-1432 | Every unwiped card of the name gets the limits and PIN columns given and keeps the rest, no other card changes, and it is an error for them not to be exactly one |
| Tables.FindK1 | db/db.go:566-568 | A found row has the k1, and when none is found no row has it |
| Callbacks.Callback | lnurlw/lnurlw_callback.go:291-411 | The whole outcome of a callback; a goroutine is started only for an unpaid row in time, an allowed payee, an invoice within the transaction limit and the right PIN where one is asked for, and it is the one the settings say |
| CallRules.AcceptedIff | lnurlw/lnurlw_callback.go:313-411 | On the columns: a callback starts a payment if and only if row, time, invoice, PIN, payee and all limits allow it; then the row is claimed for the invoice and nothing else changes |
| CallRules.SpoiledIff | lnurlw/lnurlw_callback.go:375-392 | On the columns: a refused callback spends its row if and only if a PIN is asked for and the one given is wrong; otherwise it leaves at most its invoice |
| CallRules.UnknownK1 | lnurlw/lnurlw_callback.go:313-318 | A callback whose k1 names no row changes nothing and starts nothing |
| Callbacks.CallbackIsARun | lnurlw/lnurlw_callback.go:173-411 | A callback that nothing interrupts is a run of the process steps, ending in the same database and goroutine, so every theorem over runs holds of it |
| Approval.AwaitApproval | lnurlw/lnurlw_callback.go:234-281 | At most the period over 2 s, rounded up, of polls; exactly one of pay or release; pay if and only if the last poll read a row answered Y, rejected if and only if it read one answered otherwise, whatever read errors came before |
| Answers.PollVerdict | db/db.go:913-939 | A poll on the row's columns: no answer time waits on, Y starts the payment, any other answer drops it |
| Answers.EveryStartIsLogged | lnurlw/lnurlw_callback.go:183-217 | Under every interleaving, whoever pays or waits has its start in the log, so the theorems about starts miss none |
| Answers.AnswerSets | db/db.go:821-911 | An answer by id is stored as given on that row, one by token on every claimed row without a status that holds the token, and no other row changes |
| Answers.AskedPaysOnYes | lnurlw/lnurlw_callback.go:255-274 | Under every interleaving, a payment the card holder was asked about is started only in a state in which its row is answered Y |
| Answers.OnlyYesPays | db/db.go:821-911 | In every run in which nobody answers Y for a row, whatever else is answered, a payment of it that was asked about is never started |
| WaitRuns.RequestedIsARun | lnurlw/lnurlw_callback.go:238-251 | The wait is requested by a token stored on the row and a notification; when either fails it is given up for release without a poll |
| WaitRuns.AwaitIsARun | lnurlw/lnurlw_callback.go:234-281 | The polling process of any run, whatever others do between its polls, starts the payment or goes on to release it at the very poll the method says |
| Node.PayInvoice | lnd/lnd.go:221-316 | The rows are those of writing the reports one by one: the last update stands, FAILED when the node cannot be reached or the invoice not be decoded, nothing when no node is configured |
| Node.LastReportStands | lnd/lnd.go:293-316 | Of a payment only the status and its time change, no other row does, and the last report stands |
| NodeRuns.PayInvoiceIsARun | lnd/lnd.go:293-316 | What PayInvoice writes is what the run of the paying process writes |
| Node.MonitorInvoiceState | lnd/lnd.go:169-190 | The rows are those of writing the updates one by one, and the last update of the hash's receipt stands |
| Node.LastUpdateStands | lnd/lnd.go:169-190 | Of the hash's receipt only the state and its time change, no other row does, and without such a receipt nothing does |
| NodeRuns.MonitorIsARun | lnd/lnd.go:169-190 | What Monitor_invoice_state writes is what the run of the watching process writes |
| TapRequest.FillSv2 | lnurlw/lnurlw_request.go:37-55 | The buffer filled byte by byte holds the six fixed bytes, then the UID's and then the counter's, each in its place |
| TapRequest.TapsStayApart | lnurlw/lnurlw_request.go:165-176 | Both the CMAC input and the stored UID with the counter are equal for two taps if and only if UID and counter bytes are |
| TapRequest.CounterCounts | lnurlw/lnurlw_request.go:172 | The counter read from the bytes counts the card's increments, lowest byte first: zero at zero, one more after each |
| TapRequest.CardDataSays | lnurlw/lnurlw_request.go:165-176 | The UID looked up says bytes 1 to 7 of the card data in hexadecimal, and the counter is bytes 8 to 10, lowest first |
| TapRequest.AcceptsIff | lnurlw/lnurlw_request.go:165-247 | Acceptance on the columns of the one unwiped card of the UID and the bytes of the tap |
| TapRequest.NextTapIsAccepted | lnurlw/lnurlw_request.go:172-247 | After an accepted tap the card's next one, counter incremented, is accepted |
| TapRequest.ParseRequest | lnurlw/lnurlw_request.go:165-247 | A tap is accepted if and only if the one live card of its UID is enabled, verifies the CMAC and has a smaller counter; then only that counter changes; a refused tap changes nothing but a blank card it binds |
| TapRequest.LiveCards | db/db.go:141-160 | Exactly the unwiped cards of the UID, each once |
| TapRequest.AfterBinding | lnurlw/lnurlw_request.go:189-242 | After a tap with an unknown UID, whatever card has the UID holds that tap's own counter, so the counter check refuses it |
| TapRuns.AcceptedTapIsARun | lnurlw/lnurlw_request.go:172-247 | A tap that the live card accepts is a run of the tap process with the same effect |
| TapRuns.AcceptedRunIsATap | lnurlw/lnurlw_request.go:172-247 | Whatever card is looked up, the tap process accepts only a tap that the method accepts |
| TapRuns.ListedIsBlank | lnurlw/lnurlw_request.go:183-192 | A tap looks for a card to bind only when no unwiped card has its UID, and goes on to bind none but an unwiped card without UID and counter |
| TapRuns.BindingTapIsARun | lnurlw/lnurlw_request.go:183-192 | A tap that binds a card is a run of the tap process with the same effect |
| TapRuns.BindingTapIsRefused | lnurlw/lnurlw_request.go:189-242 | However the steps of the binding tap go on, it ends without being accepted |
| Registry.OneLiveCard | db/db.go:1171-1192 | With serial card requests, at most one unwiped card per name, and wiped cards are disabled |
| Registry.OneLiveUid | lnurlw/lnurlw_request.go:66-118 | In every run in which no binding finds another live card of its UID, at most one unwiped card per non-empty UID |
| Registry.UidsKeptIff | db/db.go:297-318 | An event keeps one live card per UID if and only if it binds no second one |
| Registry.CleanBindKeepsUids | lnurlw/lnurlw_request.go:183-192 | That holds of every run in which each binding finds its card still blank and its UID still without a card |
| Registry.WipedIsForever | db/db.go:1280-1282 | Whatever the requests and their interleaving, a wiped card stays wiped |
| Registry.WipeReturnsTheLiveCard | db/db.go:1268-1307 | The keys and UID returned by a wipe are those of the card that was live |
| Registry.ChangeSets | db/db.go:1309-1345 | A card update sets the columns it names to the values given, on the unwiped cards of the name, and no other column or card |
| Registry.AddSets | db/db.go:1183-1243 | A new card has each column as given, and is blank and unwiped |
| Registry.UpdateTouchesTheLiveCard | db/db.go:1309-1345 | A card update that changes a card changes the last of the name, and it was live |
| Registry.AddKeepsNamesIff | db/db.go:1183-1190 | Adding a card keeps one live card per name if and only if every card of the name was wiped |
| Registry.InsertKeepsTheRule | db/db.go:1171-1190 | Insert_card as one request keeps that rule |
| Registry.OverlappingInserts | db/db.go:1171-1190 | Two overlapping inserts of one name leave two live cards |
| Limiters.Limiter.constructor | ratelimit/ratelimit.go:43-59 | Rate and burst are the configured ones, at least one each |
| Limiters.Limiter.Allow | ratelimit/ratelimit.go:62-92 | New table and answer are those of one request: refill, prune, spend |
| Limiters.Limiter.Prune | ratelimit/ratelimit.go:96-102 | Visiting the buckets in any order deletes exactly the expired ones |
| Limiters.TraceRefines | ratelimit/ratelimit.go:62-102 | From any agreeing tables on, a client's answers are those of one bucket that is never pruned, on its own requests |
| Limiters.PruningIsUnobservable | ratelimit/ratelimit.go:62-102 | Over any trace of any clients, pruning and the other clients change no answer of a client |
| Limiters.PruningUnobservableIff | ratelimit/ratelimit.go:94-102 | That holds of all traces if and only if the burst is at most ten times the requests per minute |
| Limiters.ConfiguredRefills | main.go:24-33 | The condition in the settings' terms, and both sets of defaults meet it |
| Limiters.RateWindow | ratelimit/ratelimit.go:43-92 | With a burst that refills before a bucket expires: from any request to any later one, a client is admitted at most the burst plus what refills in between |
| Limiters.RateWindowIff | ratelimit/ratelimit.go:94-102 | That bound holds of all traces if and only if the burst is at most ten times the requests per minute |
| Limiters.ConfiguredGain | ratelimit/ratelimit.go:54 | What refills in a span is the requests per minute times the span over 60 |
| Limiters.SlowClientIsNeverRefused | ratelimit/ratelimit.go:62-92 | A client whose requests are 60 / rpm seconds apart is never refused, whatever the others do |
| Slots.ConcurrencyLimiter.constructor | ratelimit/concurrency.go:21-29 | The cap is at least one and no slot is taken |
| Slots.ConcurrencyLimiter.TakeSlot | ratelimit/concurrency.go:38-51 | A slot is taken if and only if one is free, as the interleaved arrivals take them |
| Slots.ConcurrencyLimiter.GiveSlot | ratelimit/concurrency.go:42 | A slot taken is given back, as the interleaved departures give them |
| Slots.SlotConservation | ratelimit/concurrency.go:36-55 | Under any arrivals, returns and panics the slots taken are the requests inside, never more than the cap, and the rate table is that of the requests let through |
| Slots.HandledIff | main.go:129-131 | A request inside goes on to its handler if and only if the rate limiter's answer to it, in the order of all requests let through, is yes |
| Slots.BusyLeavesNoTrace | main.go:129-131 | In every run, leaving out the requests that are turned away changes nothing: slots, requests inside and every client's rate tokens are the same |
| Slots.AllLeave | ratelimit/concurrency.go:40-42 | After every request inside has left, no slot is taken |
| ProxyKey.SplitAtComma | ratelimit/ratelimit.go:153 | Splitting at a comma splits the text before it and the text after it |
| ProxyKey.SplitEntries | ratelimit/ratelimit.go:153 | Splitting undoes joining comma-free entries |
| ProxyKey.NoProxyNoHeader | ratelimit/ratelimit.go:143-145 | With no proxy configured the key is the host that connected, whatever the header says |
| ProxyKey.CallerCannotChooseTheKey | ratelimit/ratelimit.go:143-171 | With n trusted proxies the key depends on the first of the n entries they added and the remote address, never on what the caller sent before them |
| ProxyKey.ShortHeader | ratelimit/ratelimit.go:155-171 | A header with no more entries than proxies is read from its first entry |
| Settings.Cache.constructor | db/settings.go:34-41 | The cache starts empty with the given period |
| Settings.Cache.Get | db/settings.go:49-75 | A fresh entry is served and nothing changes; otherwise the database's answer is served, and held unless the read failed or holding is off |
| Settings.Cache.Clear | db/settings.go:77-82 | Nothing is held |
| Settings.Cache.GetNow | db/settings.go:116-125 | The database's answer, with nothing held afterwards |
| Settings.Cache.SetSeconds | db/settings.go:129-138 | The period is the seconds, at least zero, and nothing is held |
| Settings.Staleness | db/settings.go:49-75 | Under every interleaving, a value served from a held entry was the database's less than ttl + d before, d bounding the time from reading to holding |
| Settings.UnchangedAgrees | db/settings.go:49-75 | If the setting was not written in that span before the value was served, the value is the database's when it was served |
| Settings.HeldWasRead | db/settings.go:60-72 | In every run, whatever reads failed, what is held is a value the database had when it was read |
| Settings.LastWriteStands | db/settings.go:85-110 | What a read returns is the last value written for the setting |
| Settings.NeverBackwards | db/settings.go:49-138 | When the gets of one setting come one after the other, they return database versions that never decrease, whatever gets of other settings, clears and changes of the period overlap them |
| Gets.NeverBackwardsIff | db/settings.go:49-75 | From every state reached so, a get may be asked for without any later answer ever going backwards if and only if no other get of the setting is under way |
| Settings.HeldFromStoring | db/settings.go:68-72 | A value is held from the time it is stored, however long after it was read |
| Settings.UninterruptedGet | db/settings.go:49-75 | A get that nothing interrupts is the method Get on the database as it stands |
| Gets.OverlappingGetsGoBack | db/settings.go:60-72 | A concrete instance: two overlapping gets go backwards and leave the older value held |
| Sums.SatsBracketMsats | db/db.go:668 | How far truncation towards zero can be from the millisatoshis |

## Left out

- Statements inside one db function: each is atomic in the model. Between the SUM of Authorize_payment and its commit,
  the source lets statements on other rows commit; claims for one card are serialised by its row lock.
- A commit that is reported as failed although it happened, and ids skipped by an identity column.
- The lookup of the live card as two statements, by UID and by id: one step.
- The lndhub path is outside `DayLimits.DayLimit` and `Floors.BalanceFloor`, because the source checks neither there; it
  is inside everything in `Spent`, `Hands`, `Outcomes`, `OneTap`, `Pins` and `Ledger`. What lndhub answers is not
  followed.
- Wiping a card does not cancel a k1 already minted for it, in the source and in the model; nothing is claimed about it.
- AES, the CMAC (NIST SP 800-38B) and random draws: the CMAC check is a parameter, k1 and tokens are inputs.
- BOLT 11: an invoice is an amount, and only a positive one can be recorded.
- float64 rounding in the limiter: tokens and times are reals. 64-bit overflow of the totals.
- strings.TrimSpace, net.ParseIP and net.SplitHostPort: parameters of the proxy key.
- The order in which binding candidates and buckets are visited is not promised; the methods hold for the one they use.
- Fields that decide nothing: one-time codes, UID privacy, e-mail address, invoice text, failure reason.
- Get_new_card, Get_card_txs, Get_latest_card_tx and the card lookups by name: reads for display and programming.
- Setting parsing, host checks, hex decoding, the internal API's authentication and validation: single tests.
- Notifications (ntfy, nostr, e-mail), gRPC, HTTP and JSON: only the events they deliver.
