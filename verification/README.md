# hotline.guru orchestrator, verified

A Dafny model of the money core of the phone-wallet orchestrator, with proofs of what it promises over
whole runs.

The orchestrator keeps one account per phone number. A message becomes an intent, a deterministic gate
checks it against caps, frozen user rules and savings locks, an accepted payment waits in the phone's one
pending slot, and a PIN settles it: an idempotency row, a transfer, ledger rows, a saved answer. Money for
unknown numbers waits in a pooled escrow until the payee sets up a PIN or the claim expires.

How the files fit together:

- `Text`, `Tables`: strings, and all database tables. `State` is the value of all tables; `Desk` is the
  object the handlers update, each of its methods equal to the function of the same purpose on `State`.
- `Policy` (with `Settings`), `Payees`, `Names`, `Claims`, `Calendar`: the gate and the frozen rules, payee
  resolution, the name registry's operations, the escrow jobs, UTC dates.
- `Pipeline` says what each handler does to the tables; `Handlers` runs the same handlers imperatively,
  one table operation at a time, each proved equal to its effect; `Orchestrator` runs whole inputs.
- `Channels` is the link table of the chats and the one thing that deletes accounts, a shared contact.
- `Runs` are arbitrary sequences of messages, calls, missed calls, voice notes, deposits, expiry jobs, shared
  contacts and dropped names, with the states between them; `t[k]` is the state after k inputs.
  `Frames`, `Effects`, `Steps`, `Payments` and `Registers` classify every step; `Safety`, `Authorization`,
  `NewPayees`, `Daily`, `Accounts`, `Escrow`, `Overpaid`, `ClaimRuns`, `PinGuard`, `Identity`, `Registry`, `Keys` and
  `Ceilings` hold the theorems about runs.
- `Gates` says exactly what the gate lets through, in sums, balance, locks, rules and windows. `Dialogue` is a caller
  who asks and then confirms, in any state of the tables; `WhoIsPaid`, `Quotes` and `Consequences` say what such
  dialogues lead to: whom a send pays, what a top-up and a swap cost, what the other messages do.
- `Scenes` sets up one caller; `Spree`, `MissedCap`, `Shortfall`, `PaidTwice` and `Unguarded` are concrete runs that
  reach what the theorems leave open.
- `Settlement` is the idempotent settlement protocol as small steps of concurrent handlers; `Turns` is what its
  PIN turn is for; `Undisturbed` adds up the steps of one handler and compares them with the whole handler.
- `Workers`, `RateLimit`, `AuditChain` and `Labels` are the smaller stateful cores.
- `Regex`, `Grammar`, `SendText` and `PinTexts` are the message grammar up to the send rule and the round trips
  of payment texts, confirmations and recovery codes.

Money is counted in whole micro-USDC, because transfers are rounded to six decimals; the 1e-9 tolerances
of the gate vanish with that. Time is in milliseconds, a UTC day is `at / 86400000`. How a transfer ends, what
a swap pays out, whether the airtime provider delivers, and the drawn recovery code are inputs of a step
(`Env`); a transfer may land, fail, or throw although the money moved. In `Runs` each message is handled to
its end before the next; `Settlement` is where handlers interleave.

Some promises do not hold as one might expect; the model keeps the code as it is, says exactly when they
hold, and gives a run in which they do not:

- "Spent today is at most the daily cap" is false: sends above the soft cap skip the daily check
  (`policy.ts:209-214`) and the send gate does not count swaps and airtime. `Daily` proves the bound the
  code gives and exactly when the cap itself holds, `Spree` reaches the bound.
- The new-payee cap can be missed when a saved address carries a contact name that is itself a counterparty
  paid before. `NewPayees` proves exactly when, `MissedCap` is a run that does it.
- Gas can eat into locked savings, because the gate does not know the gas. `Safety` proves that nothing else
  can, `Shortfall` exactly when a payment does, and a run.
- A payout whose transfer throws although the money moved leaves its claim held, and a later job pays it
  again. `Overpaid` proves exactly when a claim is overpaid, `PaidTwice` is a run; `Escrow` and `ClaimRuns`
  carry the leaked money as its own term.
- The PIN lock guards rules, sends, swaps and top-ups only. `PinGuard` bounds the guesses there and says exactly
  what still counts while an account is locked. `Unguarded` shows that recovery codes, and the PIN of a standing
  order or a savings lock, can be tested without bound, also at a pace that the message limiter admits.
- "CHANGE PIN old new" never changes a PIN, although the replies offer it: the text is taken for setting a PIN
  (`intent.ts:152-153`). `Grammar` proves that no text reaches this test, nor "confirm policy" or "cancel standing".
  Messages in `Runs` may still carry these intents, so what is proved of all runs covers their handlers.
- The ledger is not the whole story of a wallet: gas, transfers that throw although they landed, charges that are
  neither delivered nor refunded, swap proceeds and raw sends to a hotline wallet have no row. `Accounts` proves the
  equation with these terms for every run, and the plain one for runs without them.
- A claimed label does not always pay its owner: a text with seven to fifteen digits is taken for a number first, so a
  send to the label "bob1234567" pays the number +1234567. `WhoIsPaid` proves exactly when the owner is paid.
- A number dialled with the prefix 00 is not the account with the plus sign if it then has ten digits in all.
  `WhoIsPaid` proves exactly when it is.
- A label cut at 32 characters can end in a dash, and the label shown after a claim is then a different
  name. `Labels` proves exactly when.

## Model

| member | source | states |
|---|---|---|
| Settlement.AtMostOnePayment | orchestrator/src/lib/pipeline.ts:1287-1296 | in every interleaving of requesting, confirming, cancelling and memo handlers, with any call allowed to throw and any transfer allowed to throw after the money moved, each idempotency key has at most one transfer and at most one payer row, and no row without a transfer |
| Settlement.PaymentsMatchTheirRequest | orchestrator/src/lib/pipeline.ts:1331-1368 | whatever copies of the slot were written back in between, money moves and is booked only with the payer, amount, payee and kind of the request that drew the key |
| Settlement.FinishedAnswersAgree | orchestrator/src/lib/pipeline.ts:1287-1291 | every handler that answers "went through" gives the one saved answer of the key, and that key was transferred and booked exactly once |
| Settlement.RaceBranchIsDead | orchestrator/src/lib/db.ts:979-980 | a handler that lost the insert always finds the row, so the branch commented "race unlikely" is never taken |
| Settlement.AnswersAreFinal | orchestrator/src/lib/db.ts:985-1008 | no step of any handler ever changes a saved answer |
| Settlement.EveryInterleaving | orchestrator/src/lib/db.ts:952-983 | the invariant behind the laws above, what each key, handler and slot may look like, holds after every sequence of steps, including voice notes written back after the payment (pipeline.ts:1644-1656); what the PIN turn is for is not in it but in `Turns` |
| Turns.TransfersHadARightPin | orchestrator/src/lib/pipeline.ts:682-711 | in every interleaving, each transfer was made by a handler that was started as a confirmation of the paying phone and found the PIN right at an earlier step of its own, holding just the order that was paid |
| Turns.RowsHadARightPin | orchestrator/src/lib/pipeline.ts:682-711 | each ledger row, of the payer or of the payee, likewise |
| Turns.WrongPinsTouchNothing | orchestrator/src/lib/pipeline.ts:690-708 | a turn that finds the PIN wrong, or throws, changes no slot, key, transfer or row: the handler ends, or goes on to empty the slot exactly if it locked the account |
| Turns.RefusedHandlersNeverPay | orchestrator/src/lib/pipeline.ts:690-708 | a handler refused at its PIN never moves money, adds a row or touches a key, whatever happens afterwards |
| Turns.OrdersAreConfirmedByTheirPhone | orchestrator/src/lib/pipeline.ts:495-497 | whoever checks or pays an order was started as a confirmation of the phone that pays it |
| Turns.CancelEmptiesTheSlot | orchestrator/src/lib/pipeline.ts:482-493 | after any sequence of steps, a cancellation that runs alone leaves no order in the slot of its phone and everything else as it was |
| Turns.LockoutEmptiesTheSlot | orchestrator/src/lib/pipeline.ts:695-704 | the handler that locks the account leaves no order in its slot |
| Turns.RequestsFillTheSlot | orchestrator/src/lib/pipeline.ts:1122-1140 | a request that runs alone leaves its order in the slot, under a key never drawn before, and pays nothing |
| Undisturbed.UndisturbedConfirmationPays | orchestrator/src/lib/pipeline.ts:1277-1427 | a confirmation that nothing disturbs completes from any state of the protocol in which its key is fresh: one transfer, the payer row and the row of a payee with a number, an emptied slot, and one answer both given and saved |
| Undisturbed.RepeatedConfirmationAnswersTheSame | orchestrator/src/lib/pipeline.ts:1287-1291 | confirming an order that already went through, as after a voice note wrote it back, moves no money, books nothing and gives the saved answer |
| Undisturbed.WholePaymentBooksTheSameRows | orchestrator/src/lib/pipeline.ts:1277-1641 | a send, hold, swap or top-up that goes through in one piece adds to the ledger exactly the rows that the small steps of the same order add, empties the slot and completes the key |
| Safety.LockedSavingsAreCovered | orchestrator/src/lib/policy.ts:194-207 | after every run with sponsored gas, the unmatured active locks of a person total at most the wallet balance, although locks are only checked at request time |
| Safety.LockedSavingsAreCoveredUpToGas | orchestrator/src/lib/policy.ts:194-207 | after every run at all, they total at most the balance plus the gas that the payments of that person can have burned |
| Shortfall.PaymentsKeepCoverageExactly | orchestrator/src/lib/pipeline.ts:682-709 | at each payment of a run the locked savings stay covered if and only if locked sum plus what the payment takes, amount, gas, refunds and proceeds included, is within the balance before it |
| Shortfall.PaymentTakes | orchestrator/src/lib/pipeline.ts:1277-1641 | to the micro-dollar, what paying a send, hold, swap or top-up takes out of the wallet of its payer, however its transfers end |
| Shortfall.GasCanEatLockedSavings | orchestrator/src/lib/policy.ts:194-207 | a run from empty tables in which one micro-dollar of gas takes the wallet below the locked savings |
| Authorization.PaidSendsObeyTheRules | orchestrator/src/lib/policyRules.ts:228-264 | when a send or hold is paid, no rule then in force for the payer is broken by it, although rules are only checked at request time |
| Safety.RunsAreBound | orchestrator/src/lib/pipeline.ts:1123-1129 | after every run only set-up callers have payment orders pending, each pending send has the shape its payee resolution gave it and still satisfies the rules in force |
| Authorization.SpendingIsAuthorized | orchestrator/src/lib/pipeline.ts:603-711 | a fall of a balance or a new outflow row comes only from a message of that phone with the right PIN while set up and unlocked, for an order that the policy gate accepted earlier with the same amount and payee, with no other outflow of that phone in between |
| Authorization.PendingMoneyMeansOnboarded | orchestrator/src/lib/pipeline.ts:604-606 | a pending payment implies a name and a PIN, so the set-up checks of the confirm branches are redundant |
| Authorization.LargeSendsHadACallback | orchestrator/src/lib/policy.ts:185-192 | with the default threshold, a paid send above the soft cap was accepted while a callback window of the caller was open |
| Daily.DailySpendingIsBounded | orchestrator/src/lib/policy.ts:209-223 | on each day of each run on which the limits stand: sends and holds at or under the soft cap total at most the daily cap, swaps out of USDC plus airtime total at most the daily cap, all together at most twice the daily cap |
| Daily.TheCapHoldsExactlyWhenSendsFit | orchestrator/src/lib/policy.ts:89-98 | all of these together stay within the daily cap itself if and only if each small send, when it is paid, fits beside everything spent that day, swaps and airtime included |
| Spree.TwiceTheCapIsReached | orchestrator/src/lib/policy.ts:89-98 | a concrete run under the shipped caps that reaches twice the daily cap, because the send gate does not count swaps |
| NewPayees.FirstPaymentsAreCapped | orchestrator/src/lib/policyRules.ts:253-260 | in every run, while a new-payee cap is in force the first send or hold to a ledger counterparty is at most the cap, unless the payee is a saved address whose contact name is itself a counterparty paid before |
| NewPayees.CapHoldsExactlyOutsideTheGap | orchestrator/src/lib/policyRules.ts:236-237 | for a counterparty never paid, the rule test enforces the cap for all amounts if and only if the payment is outside that gap |
| MissedCap.TheCapCanBeMissed | orchestrator/src/lib/contacts.ts:33-41 | a run from empty tables in the gap: while a cap of one dollar is in force, a first payment of five dollars to an address is booked |
| Accounts.EveryBalanceIsAccountedFor | orchestrator/src/lib/pipeline.ts:1277-1641 | in every state of every run, to the micro-dollar, each person's balance is deposits plus receive, escrow_claim and escrow_refund rows minus send, escrow_hold, airtime and swap rows, minus the gas of that person's payments, minus what left without a row, plus what came without one |
| Accounts.BalancesMatchTheLedger | orchestrator/src/lib/pipeline.ts:1342-1368 | in runs whose transfers are clean, whose undelivered charges are refunded and which pay only orders that the ledger books on both sides, nothing moves past the ledger, and balances are deposits and rows |
| PinGuard.GuessesAreBounded | orchestrator/src/lib/db.ts:472-490 | in a span of a run in which no message gives the right PIN where it is asked for and none succeeds in setting a new one, wrong PINs tested by the rule, send, swap and top-up confirmations number at most the limit plus the span divided by the lock time, also when failed recoveries, failed changes and the unguarded branches come in between |
| PinGuard.DispatchCounts | orchestrator/src/lib/pipeline.ts:344-711 | exactly what any message does to the failure count and lock of its sender: a reset, one more failure, or nothing |
| PinGuard.AllowanceIsQuotient | orchestrator/src/lib/db.ts:472-490 | the allowance of a span is the failure limit plus the span divided by the lock time |
| PinGuard.LockedCountsChangeExactly | orchestrator/src/lib/pipeline.ts:540-601 | while an account is locked, its failure count rises if and only if a wrong PIN is given for a standing order or a savings lock, and count or lock change at all exactly then or on a reset |
| Unguarded.WrongCodesLeaveNoTrace | orchestrator/src/lib/pipeline.ts:426-440 | in any state, a wrong recovery code against an open challenge changes no table at all |
| Unguarded.CodeTestsAreUnbounded | orchestrator/src/lib/pipeline.ts:404-440 | however large n is, a run tests n wrong recovery codes, given by texts of the grammar at a pace the limiter admits, and nothing is counted |
| Unguarded.LockedTestsAreUnbounded | orchestrator/src/lib/pipeline.ts:540-580 | however large n is, a run tests n wrong PINs for a standing order, and one for a savings lock, at a pace the limiter admits, all but three while the account is locked |
| Identity.TiersNeverFall | orchestrator/src/lib/identity.ts:87-100 | no step of any run lowers an identity tier |
| Escrow.EscrowConserves | orchestrator/src/lib/claims.ts:78-193 | over every sequence of holds, fulfil jobs and expiry jobs, however their transfers end: balance minus held claims changes by exactly what stayed behind (short payouts, holds that arrived but threw), less the gas burned, less what leaked through payouts that threw after moving the money; nothing leaks if transfers land or fail, and nothing changes at all if gas is sponsored too |
| Escrow.SettledClaimsGetTheirMoney | orchestrator/src/lib/claims.ts:57-67 | whenever an operation settles a claim, first or last of its job, a new ledger row books the payout to its payee or sender, whose wallet has grown by it; it is at most the amount, at least the amount minus the reserve minus all gas and leaks before it, and exactly the amount with sponsored gas and transfers that land or fail |
| Escrow.SettledClaimsAreBooked | orchestrator/src/lib/claims.ts:125-151 | a claim settled by a job has its own row right after the rows of the claims paid before it in the job |
| Escrow.PayoutFitsTheBalance | orchestrator/src/lib/claims.ts:47-67 | with the fee within the reserve, payout plus fee never exceeds the escrow balance |
| Escrow.PayOutIsExact | orchestrator/src/lib/claims.ts:125-150 | what one payout attempt does to status, ledger, payee, everybody else and slack, to the micro-dollar, also when the transfer throws after moving the money, and exactly when it settles |
| Escrow.JobsSettleTheirOwnClaims | orchestrator/src/lib/claims.ts:117-193 | a fulfil job settles only claims held for its payee, as claimed; an expiry job only overdue held claims, as refunded; all others stay as they were |
| Escrow.NothingStaysHeld | orchestrator/src/lib/claims.ts:117-153 | when the transfers land, a fulfil job leaves no claim of its payee held and reports how many it paid |
| ClaimRuns.ClaimsSettleOnce | orchestrator/src/lib/db.ts:1203-1221 | over every run, shared contacts that delete chat accounts included, a claim keeps parties and amount, leaves held at most once and never returns, is never written off as expired, and its sender keeps an account |
| ClaimRuns.ClaimsPerDayAreCapped | orchestrator/src/lib/claims.ts:69-76 | no sender opens more than the daily number of claims on a UTC day |
| ClaimRuns.SettledClaimsGetTheirMoney | orchestrator/src/lib/claims.ts:117-193 | over every run of the whole program, a step that settles a claim books a row for exactly what its payee or sender received: at most the amount, at least the amount minus the reserve minus all gas and leaks so far, and exactly the amount with sponsored gas and payouts that land or fail |
| ClaimRuns.EscrowStaysSolvent | orchestrator/src/lib/claims.ts:161-191 | in every run of the whole program, however payouts end, held claims exceed the escrow balance by at most the gas burned plus what leaked |
| Overpaid.ClaimsAreOverpaidExactlyAfterALeak | orchestrator/src/lib/claims.ts:125-150 | over every sequence of operations, the next payout of a held claim takes its total above its amount if and only if it moves money, an earlier payout of it leaked, and the balance beyond the reserve exceeds what the leak left of the amount |
| Overpaid.ClaimsWithoutLeaksStayWithin | orchestrator/src/lib/claims.ts:125-150 | a claim none of whose payouts threw after moving the money never takes more than its amount out of the escrow |
| Overpaid.OutflowIsLeaksAndOnePayout | orchestrator/src/lib/claims.ts:161-191 | all that ever left the escrow for a claim is what leaked plus, once it is settled, at most one payout |
| Overpaid.RunOutflowIsLeaksAndOnePayout | orchestrator/src/lib/claims.ts:117-193 | the same over every run of the whole program |
| Overpaid.RunClaimsAreOverpaidExactlyAfterALeak | orchestrator/src/lib/claims.ts:117-193 | over every run of the whole program, the payout of a held claim in a fulfil or expiry job takes its total above its amount if and only if it moves money, an earlier payout leaked, and the balance beyond the reserve exceeds what the leak left |
| PaidTwice.OneClaimCanBePaidTwice | orchestrator/src/lib/claims.ts:161-191 | a run from empty tables in which two expiry jobs refund one claim twice, so that the escrow no longer covers another claim |
| ClaimRuns.SetupReleasesEveryClaim | orchestrator/src/lib/pipeline.ts:322 | with sponsored gas, when a phone completes PIN set-up and the transfers land, no claim to it is held |
| ClaimRuns.SponsoredEscrowOwesNothing | orchestrator/src/lib/claims.ts:52-55 | nothing leaks in a run whose payouts land or fail; with a zero reserve and sponsored payouts the escrow also burns nothing and covers every held claim |
| Policy.AcceptedMeansNoRuleBroken | orchestrator/src/lib/policyRules.ts:239-263 | the in-order rule test answers with no rule exactly if none of the rules, tested on its own, is broken, so the order of testing does not matter to acceptance; what breaks a rule is said in `Gates.RulesAcceptExactly` |
| Policy.RuleOrderIsIrrelevant | orchestrator/src/lib/policyRules.ts:239-263 | acceptance does not depend on the order of the rules |
| Policy.AddingRulesOnlyTightens | orchestrator/src/lib/policy.ts:166-175 | of two callers alike but for their rules, a send that the gate accepts under more rules it accepts under fewer; what the gate accepts is said in `Gates.SendsPassExactly` |
| Gates.RulesAcceptExactly | orchestrator/src/lib/policyRules.ts:228-264 | a payment passes the frozen rules if and only if it is under every per-transfer cap in force, under every new-payee cap unless its payee was paid before, and its title and number contain no denied text or its digits |
| Gates.SendsPassExactly | orchestrator/src/lib/policy.ts:153-226 | a send is accepted if and only if it is positive, under the ceiling of the tier, allowed by the rules, small enough for an open risk window, called back if large, beside the locked savings and, up to the soft cap, within the daily cap with the sends and holds of today |
| Gates.CallbacksAreAskedExactly | orchestrator/src/lib/policy.ts:185-192 | a callback is asked for if and only if ceiling, rules and risk window allow the send, it is above the callback threshold and no callback window is open |
| Gates.SwapsPassExactly | orchestrator/src/lib/policy.ts:55-107 | a swap is accepted if and only if the tokens differ and the amount is under the ceiling and, for USDC, fits risk window, locked savings and daily cap with everything spent today |
| Gates.TopupsPassExactly | orchestrator/src/lib/policy.ts:109-147 | a top-up is accepted if and only if its quote is positive and fits ceiling, risk window, locked savings and daily cap with everything spent today |
| Gates.LookupsPassExactly | orchestrator/src/lib/policy.ts:45-53 | a price lookup is served if and only if one more cent fits under the cap for lookups |
| Gates.PaidBeforeMeansARow | orchestrator/src/lib/policyRules.ts:222-226 | a payee counts as paid before if and only if a send or hold row to it carries money |
| Gates.RulesInForce | orchestrator/src/lib/policyRules.ts:206-216 | a rule is in force if and only if an active row of the phone holds it |
| Gates.LocksHoldUntilTheyMature | orchestrator/src/lib/db.ts:1649-1667 | a savings lock holds back its amount before its date and nothing from then on |
| Ceilings.SpendingIsWithinTheCeiling | orchestrator/src/lib/policy.ts:109-164 | in every run, each row that books money leaving a phone, send, hold, swap or airtime, was accepted at an earlier step, is at most the hard ceiling of the tier the phone had at that step, and at most the risk-window maximum if a risk window was open then |
| Ceilings.PaidSendsAreUnderTheCap | orchestrator/src/lib/policyRules.ts:251-252 | in every run, while a per-transfer cap is in force each booked send or hold to a titled payee is at most the cap |
| Ceilings.DeniedPayeesAreNotPaid | orchestrator/src/lib/policyRules.ts:240-250 | in every run, while a label is denied no send or hold is booked to a payee whose title contains the text in any case or whose number contains its digits |
| Policy.LetterLabelDeniesEveryPhone | orchestrator/src/lib/policyRules.ts:242-248 | a deny label without digits forbids every payee that has a phone |
| Policy.ReplacedRulesAreTheDraft | orchestrator/src/lib/policyRules.ts:186-216 | clearing and freezing leaves exactly the draft in force, in order, and nobody else's rules change |
| Policy.ApplyUserRules | orchestrator/src/lib/policyRules.ts:228-264 | the loop over the table answers with a rule in force that the single-rule test finds broken, or with none exactly when that test finds none; the test itself is settled by `Gates.RulesAcceptExactly` |
| Steps.ConfirmedRulesAreTheDraft | orchestrator/src/lib/pipeline.ts:520-523 | confirming a drafted policy puts exactly the draft in force when the PIN is right and the account unlocked, and changes no rule otherwise |
| Steps.StepHasEffect | orchestrator/src/lib/pipeline.ts:344-1275 | every step of a run, seen from any person's phone, is harmless to its money, or an accepted order, a payment with the right PIN, a savings lock, newly frozen rules, or the end of an unused chat account |
| Steps.StepIsKnown | orchestrator/src/lib/pipeline.ts:344-1275 | every step leaves everybody else's rows alone and moves no money, or is one of five named actions, a deposit, the expiry job or a shared contact |
| Payments.PayingSpends | orchestrator/src/lib/pipeline.ts:1277-1641 | paying an order costs the payer at most its cost and gas, books its one row or nothing, uses up its key and leaves no live order in the slot |
| Payees.ResolvedShape | orchestrator/src/lib/contacts.ts:27-105 | every resolved payee is an address or a waiting phone, and a known phone is paid at its own wallet; which payee it is, is said in `WhoIsPaid` |
| WhoIsPaid.SavedNumbersArePaid | orchestrator/src/lib/contacts.ts:33-59 | after a caller saved a number under a name, a send to that name in any case opens an order for that number, and confirming it grows the wallet of the number or opens a claim for it, unless an address is saved under the name or the name is itself an address |
| WhoIsPaid.SavedAddressesArePaid | orchestrator/src/lib/contacts.ts:33-40 | after a caller saved an address under a name, confirming a send to that name pays the address, also if a number was saved before |
| WhoIsPaid.AddressesPayThemselves | orchestrator/src/lib/contacts.ts:28-31 | confirming a send to an address pays that address |
| WhoIsPaid.NumbersPayThemselves | orchestrator/src/lib/contacts.ts:61-81 | confirming a send to a number that is no contact grows the wallet of that number, or opens a claim for it if it has no account |
| WhoIsPaid.ClaimedLabelsPayTheirOwner | orchestrator/src/lib/contacts.ts:83-92 | after somebody claimed a name, a send to a text with that label is an order for its owner if and only if the text is not taken for another number, and confirming it pays the owner |
| WhoIsPaid.SomeLabelsPayANumber | orchestrator/src/lib/contacts.ts:16-19 | a valid claimed label, "bob1234567", that is taken for the number +1234567 |
| WhoIsPaid.FirstNamesPayTheirOnlyBearer | orchestrator/src/lib/db.ts:769-797 | a send to a first name pays the only set-up caller who goes by it, and opens nothing if two do or none does |
| WhoIsPaid.PayeesAreFoundExactly | orchestrator/src/lib/contacts.ts:27-105 | a payee is found if and only if the text is an address, a contact, a number, or a label or first name that leads to somebody |
| WhoIsPaid.UnknownTextsPayNobody | orchestrator/src/lib/pipeline.ts:1070-1084 | a send to any other text is refused and changes no table |
| WhoIsPaid.TenDigitsAreOneAccount | orchestrator/src/lib/db.ts:359-374 | ten digits, with or without the country code 1 and its plus sign, are one account |
| WhoIsPaid.TheDoubleZeroIsAPlus | orchestrator/src/lib/db.ts:359-374 | the prefix 00 leads to the account with the plus sign if and only if the number does not then have ten digits in all |
| Dialogue.SendsOpenExactly | orchestrator/src/lib/pipeline.ts:1070-1153 | a send request of a set-up caller opens an order if and only if its payee resolves and the gate accepts it, with that payee and the next key, and otherwise releases matured locks at most |
| Dialogue.ConfirmingReaches | orchestrator/src/lib/pipeline.ts:1277-1427 | confirming the order for a number with the right PIN and enough money takes amount and gas from the caller and grows the wallet of the number, or opens one claim for it |
| Keys.NextKeyIsFresh | orchestrator/src/lib/db.ts:952-983 | in every state of every run the key of the next order has never been tried, so the order can be paid |
| Quotes.QuotesAreRounded | orchestrator/src/lib/airtime.ts:46-55 | the quote is face times rate plus the fee in basis points, to within half a micro-dollar |
| Quotes.DollarsAreDollars | orchestrator/src/lib/airtime.ts:46-55 | without a fee a dollar of airtime costs a dollar |
| Quotes.EurosAreExchanged | orchestrator/src/lib/airtime.ts:46-55 | euros cost what the dollars cost that they are worth, when these are whole micro-dollars |
| Quotes.QuotesGrow | orchestrator/src/lib/airtime.ts:46-55 | more airtime, a higher fee or a dearer euro never costs less |
| Quotes.QuotesCoverTheFace | orchestrator/src/lib/airtime.ts:46-55 | a quote in dollars is never below the face |
| Quotes.TopupsCostTheirQuote | orchestrator/src/lib/pipeline.ts:1217-1641 | a caller who asks for airtime, is accepted and confirms pays exactly quote and gas, the airtime account gets the quote, and one row books it to the right number |
| Quotes.DollarTopupsTakeTheirFace | orchestrator/src/lib/airtime.ts:46-55 | without a fee the wallet falls by the dollar face and the gas |
| Quotes.SwapsCostTheirAmount | orchestrator/src/lib/pipeline.ts:1155-1532 | a caller who asks for a swap, is accepted and confirms pays amount and gas if USDC goes out, gets the proceeds if USDC comes in, and has one row of what was paid |
| Consequences.ConfirmedOrdersAreOpened | orchestrator/src/lib/pipeline.ts:540-570 | asking for a standing order and confirming it adds one order for that amount and payee, first due at midnight on the first of next month if monthly, seven days on if weekly |
| Consequences.ConfirmedLocksHold | orchestrator/src/lib/pipeline.ts:572-601 | asking to lock savings and confirming it holds the amount back until the date and no longer, and moves no money |
| Consequences.RecoveryResetsThePin | orchestrator/src/lib/pipeline.ts:404-452 | with the drawn code in time the new PIN is the PIN, the account is open and a risk window is open for just the cool-down; with any other code, or too late, PIN, lock and window stay |
| Consequences.WarningsOpenWindows | orchestrator/src/lib/pipeline.ts:454-480 | a SIM report opens a risk window and a callback a callback window, each for just its time, and changes nothing else |
| Consequences.RiskWindowsKeepSendsSmall | orchestrator/src/lib/policy.ts:177-183 | while a risk window is open a larger send is rejected outright |
| Consequences.IdentityRaisesTheCaps | orchestrator/src/lib/identity.ts:87-173 | a well-formed id gives the caps of tier one, or keeps those of tier two, an accepted attestation those of tier two, and a refused one changes nothing |
| Consequences.TheFirstPinCounts | orchestrator/src/lib/pipeline.ts:311-342 | a named caller without a PIN who sets one has that PIN afterwards and is set up |
| Consequences.APinIsNotReplaced | orchestrator/src/lib/pipeline.ts:373-392 | setting a PIN does not replace the PIN of a caller who has one |
| Consequences.NamesAreStored | orchestrator/src/lib/pipeline.ts:286-309 | a given name is the name, and nothing of anybody else changes |
| Consequences.BareDigitsConfirm | orchestrator/src/lib/pipeline.ts:184-196 | bare digits of a set-up caller are the PIN for whatever is pending, and do nothing if nothing is |
| Consequences.CancellingEmptiesTheSlot | orchestrator/src/lib/pipeline.ts:482-493 | a cancellation empties the slot of its caller and changes nothing else |
| Consequences.MemosAreAttached | orchestrator/src/lib/pipeline.ts:1644-1656 | a voice note rewrites the memo of a pending send, to at most 280 characters, and nothing else |
| Consequences.CancellingStopsOneOrder | orchestrator/src/lib/pipeline.ts:815-820 | cancelling a standing order stops exactly that order, and only if it is the own one of the caller |
| Consequences.ClearingLeavesNoRules | orchestrator/src/lib/pipeline.ts:775-778 | clearing the policy leaves the caller no rule and everybody else theirs |
| Calendar.MonthlyIsFirstOfNextMonth | orchestrator/src/lib/retention.ts:41-56 | the two computations of the first of next month agree on every date |
| Calendar.FirstOfNextMonthIsNext | orchestrator/src/lib/retention.ts:53-56 | it is midnight of the first day of the following calendar month, and every moment before it lies in the current month |
| Calendar.MonthsFollowTheKnuckles | orchestrator/src/lib/retention.ts:53-56 | the months have the lengths of the knuckle rule |
| Calendar.YearsStartByTheGregorianCount | orchestrator/src/lib/retention.ts:53-56 | each year starts where the Gregorian count of leap days puts it |
| Calendar.WeeklyIsSevenDays | orchestrator/src/lib/retention.ts:43-46 | a weekly order moves exactly seven days on, across month and year ends and leap days |
| Calendar.NextRunIsLater | orchestrator/src/lib/retention.ts:109-113 | each run moves the schedule strictly past now, by a calendar month or seven days |
| Workers.StandingOrdersRunOncePerPeriod | orchestrator/src/lib/workers.ts:60-85 | over every history of the tables themselves, however ticks, slow jobs, errors of handlers and any other inputs interleave, a monthly order is marked run at most once per UTC month and a weekly one at most once in seven days |
| Workers.UndisturbedJobIsTheLoop | orchestrator/src/lib/workers.ts:23-51 | the events of a job that nobody interrupts do to the tables exactly what the loop does, with one mark for each order it counts |
| Registers.StepsKeepOrders | orchestrator/src/lib/db.ts:1500-1615 | no input of a run loses, reschedules or changes a standing order, apart from cancelling it |
| Workers.RunDueStanding | orchestrator/src/lib/workers.ts:23-51 | the loop pays the first fifty due orders by id through the message handlers, keeps what a throwing handler left and goes on, and counts those it marked |
| Workers.PayOrder | orchestrator/src/lib/workers.ts:27-48 | asks for the send on behalf of the owner, confirms with the operator PIN if asked, and marks the order unless there is no PIN or a handler threw |
| Workers.TheJobSaysItsTexts | orchestrator/src/lib/workers.ts:27-42 | for every order to a number, of any amount, and every PIN of four to six digits, the texts of the job are read by the grammar as exactly the send and the confirmation that the job hands to the handlers |
| Workers.MarkedOrdersAreNotDue | orchestrator/src/lib/db.ts:1548-1562 | an order just marked is not listed as due |
| RateLimit.DecidesLikeFullHistory | orchestrator/src/lib/rateLimit.ts:18-28 | with a clock that does not go back, pruned buckets decide every request as counting all accepted requests of the window would |
| RateLimit.NoWindowOverflows | orchestrator/src/lib/rateLimit.ts:18-28 | no window of the configured length, wherever it starts, holds more accepted requests than the limit |
| RateLimit.WaitingAsToldWorks | orchestrator/src/lib/rateLimit.ts:22-24 | a refused caller who retries after the stated seconds is accepted, whatever refused calls came in between |
| RateLimit.AllPassExactlyWhenSpaced | orchestrator/src/lib/rateLimit.ts:18-28 | none of the calls of a key is refused if and only if each comes at least a window after the call `limit` places before it |
| RateLimit.Limiter.RateLimit | orchestrator/src/lib/rateLimit.ts:9-29 | one call changes only the bucket of its key, to the pruned bucket with the new time when accepted |
| RateLimit.Limiter.Prune | orchestrator/src/lib/rateLimit.ts:18 | keeps exactly the times less than a window old |
| AuditChain.HeadChangesExactlyWithTheLog | orchestrator/src/lib/db.ts:1011-1079 | the newest hashes of two logs are equal exactly when the logs agree row by row as the hash sees them, for logs of any length |
| AuditChain.ChainedTablesAreLogs | orchestrator/src/lib/db.ts:1011-1079 | a stored table passes the row-by-row check exactly when it is the log of its own decisions |
| AuditChain.AuditLog.Record | orchestrator/src/lib/db.ts:1011-1079 | appends one row linked to the newest and changes no earlier row |
| SendText.PayTextsReadBack | orchestrator/src/lib/intent.ts:142-300 | for every plain decimal A and every +digits number T, "send A usdt to T" passes all earlier tests of the grammar untaken and is read as exactly A to T |
| SendText.PrintedPaymentsReadBack | orchestrator/src/lib/workers.ts:28-29 | an amount of whole micro-dollars printed into that text is read back to the last micro-dollar |
| SendText.AmountsReadBack | orchestrator/src/lib/x402.ts:391 | printing an amount and reading it gives it back, without exponent or trailing zeros |
| SendText.NoEarlierTest | orchestrator/src/lib/intent.ts:142-296 | none of the tests before the send rule matches a payment text |
| SendText.TargetsAreClean | orchestrator/src/lib/intent.ts:103-114 | cleaning a +digits payee changes nothing |
| PinTexts.ConfirmTextsReadBack | orchestrator/src/lib/intent.ts:148-150 | "CONFIRM P" passes the earlier tests untaken and is read as the PIN P, for every P of four to six digits |
| PinTexts.CodeTextsReadBack | orchestrator/src/lib/intent.ts:142-252 | "recover confirm C P" passes all earlier tests untaken and is read as the code C and the new PIN P, for all digits of the allowed lengths |
| PinTexts.RecoverIsRead | orchestrator/src/lib/intent.ts:247 | "recover" asks for a recovery code |
| Grammar.ThreeTestsAreUnreachable | orchestrator/src/lib/intent.ts:148-153 | no text at all reaches the change-PIN, confirm-policy and cancel-standing tests first |
| Regex.FirstChoicesAreTheMatch | orchestrator/src/lib/intent.ts:45-46 | a backtracking match whose first choices succeed all the way is the match |
| Regex.RareIsNotFound | orchestrator/src/lib/intent.ts:45-100 | a text over a small alphabet never matches an expression that needs a character outside it |
| Registry.RegistriesStayWellKept | orchestrator/src/lib/db.ts:1753-1782 | after every run of the whole program, names and users are inverse partial bijections, a phone has one chat per channel, and every linked chat leads to a phone account |
| Registry.SharedChatsResolve | orchestrator/src/lib/channel.ts:61-67 | after an accepted shared contact the chat resolves to that phone, which has an account |
| Channels.SharingKeepsHistory | orchestrator/src/lib/db.ts:1798-1818 | linking never deletes an account with ledger rows or a name and changes nobody else's row, money or claims |
| Channels.SharingShares | orchestrator/src/lib/channel.ts:76-129 | sharing a contact registers at most one phone and removes at most the unused account of the chat; money, ledger, claims, rules, locks, orders, names and keys stay |
| Labels.NormalizingTwiceIsEnough | orchestrator/src/lib/hotlinens.ts:29-37 | two applications of the label normalization reach a fixpoint for every text |
| Labels.NormalizingOnceIsEnoughUnlessCut | orchestrator/src/lib/hotlinens.ts:29-37 | one application does exactly when the 32-character cut left no trailing dash |
| Labels.TheCutCanLeaveADash | orchestrator/src/lib/hotlinens.ts:36 | a concrete valid name where the cut leaves one |
| Labels.ShownLabelLeadsBack | orchestrator/src/lib/hotlinens.ts:47-50 | looking up the label shown after a claim finds the claimant exactly when the cut left no dash |
| Labels.ClaimedNameIsFound | orchestrator/src/lib/hotlinens.ts:65-98 | looking up the claimed text finds the claimant |
| Labels.SuggestionsCanBeClaimed | orchestrator/src/lib/hotlinens.ts:53-63 | a suggested name can be claimed by any known phone, unless it is the plain name cut at a dash |
| Labels.SuggestHotlineName | orchestrator/src/lib/hotlinens.ts:53-63 | the loop returns the base or the first free numbered form, or nothing |
| Labels.NormalizingPhonesIsIdempotent | orchestrator/src/lib/db.ts:359-374 | an account key is its own account key |
| Orchestrator.WorkThrough | orchestrator/src/lib/pipeline.ts:198-211 | handling the inputs of a run one after the other on the mutable tables leaves exactly the state the run theorems speak of |
| Orchestrator.Perform | orchestrator/src/lib/pipeline.ts:198-234 | each input, handled imperatively, has exactly the effect of one step of a run |
| Handlers.HandleMessage | orchestrator/src/lib/pipeline.ts:198-211 | on the mutable tables, account key, bare digits read as a PIN, then dispatch, leave exactly the tables that the step of a run leaves, and chat accounts change nothing; what these steps do is said in `Gates`, `WhoIsPaid`, `Quotes`, `Consequences` and the theorems about runs |
| Claims.HeldClaimsOf | orchestrator/src/lib/db.ts:1166-1183 | lists exactly the claims still held for the payee, each once, oldest first |
| Claims.HeldPast | orchestrator/src/lib/db.ts:1185-1201 | lists exactly the held claims past their time, each once, oldest first |

## Handlers

These methods work on the mutable tables. Each is proved equal to the specified effect of the same handler, and
together they carry `Orchestrator.WorkThrough`, so the theorems above are theorems about them.

| method | source | effect |
|---|---|---|
| Handlers.Dispatch | orchestrator/src/lib/pipeline.ts:344-1275 | the branches of dispatch, in effect |
| Handlers.ExecuteSend | orchestrator/src/lib/pipeline.ts:1277-1427 | the key is tried once; hold or transfer, rows, slot and answer |
| Handlers.ExecuteSwap | orchestrator/src/lib/pipeline.ts:1429-1532 | the key is tried once; swap, row, slot and answer |
| Handlers.ExecuteTopup | orchestrator/src/lib/pipeline.ts:1534-1641 | the key is tried once; airtime, row, slot and answer |
| Handlers.AttachSendMemo | orchestrator/src/lib/pipeline.ts:1644-1656 | rewrites the memo of the pending send and nothing else |
| Handlers.CheckPin | orchestrator/src/lib/pipeline.ts:682-709 | the PIN step of the payment branches: set-up, lock, failure count, cancellation at the limit, or go |
| Handlers.ConfirmRules | orchestrator/src/lib/pipeline.ts:499-538 | locked accounts are refused; a right PIN replaces the rules |
| Handlers.ConfirmOrder | orchestrator/src/lib/pipeline.ts:540-570 | a right PIN opens the order with its first run; the lock is not consulted |
| Handlers.ConfirmLock | orchestrator/src/lib/pipeline.ts:572-601 | a right PIN closes the lock and books it; the lock-out is not consulted |
| Handlers.ConfirmPayment | orchestrator/src/lib/pipeline.ts:603-711 | payment only after the PIN step |
| Handlers.ConfirmPending | orchestrator/src/lib/pipeline.ts:495-711 | which branch a confirmation takes |
| Handlers.RequestSend | orchestrator/src/lib/pipeline.ts:1070-1153 | payee, gate, then the slot with a fresh key; refused requests leave the slot |
| Handlers.RequestSwap | orchestrator/src/lib/pipeline.ts:1155-1215 | gate, then the slot with a fresh key |
| Handlers.RequestTopup | orchestrator/src/lib/pipeline.ts:1217-1272 | quote, gate, then the slot with a fresh key |
| Handlers.RequestLock | orchestrator/src/lib/pipeline.ts:822-848 | only what is available can be locked |
| Handlers.RequestOrder | orchestrator/src/lib/pipeline.ts:780-800 | a standing order waits for its PIN |
| Handlers.CompletePinSetup | orchestrator/src/lib/pipeline.ts:311-342 | stores the PIN, empties the slot and releases the held claims |
| Handlers.SetPin | orchestrator/src/lib/pipeline.ts:373-392 | name first; an existing PIN is not replaced |
| Handlers.ConfirmRecovery | orchestrator/src/lib/pipeline.ts:426-452 | an expired or wrong code changes no PIN; a right one resets it and starts the cool-down |
| Handlers.ContinueOnboardOrGreet | orchestrator/src/lib/pipeline.ts:258-284 | what is still missing, or an empty slot |
| Handlers.FinishNaming | orchestrator/src/lib/pipeline.ts:286-309 | stores the name and empties the slot |
| Handlers.AnswerName | orchestrator/src/lib/pipeline.ts:347-356 | an awaited name is taken from either form, else asked again |
| Handlers.SaveContact | orchestrator/src/lib/pipeline.ts:1044-1054 | stores an address or a normalized phone, keeping the other field |
| Handlers.LookUpPrice | orchestrator/src/lib/pipeline.ts:1056-1068 | one paid lookup within the nanopay cap |
| Handlers.FulfillAirtime | orchestrator/src/lib/airtime.ts:114-168 | debit to the sink, then delivery, or the compensating refund |
| Handlers.MoveSwap | orchestrator/src/lib/swap.ts:151-156 | a swap moves USDC out of or into the wallet only when funds and tokens allow |
| Handlers.EvaluateSend | orchestrator/src/lib/policy.ts:153-226 | the send gate: ceiling, rules, cool-down, callback, savings lock, soft cap, daily cap, in that order |
| Handlers.EvaluateSpend | orchestrator/src/lib/policy.ts:66-98 | the gate shared by swaps out of USDC and top-ups |
| Handlers.UpgradeIdentity | orchestrator/src/lib/identity.ts:87-100 | an accepted id raises the tier to at least one, an attested SIM to two |
| Claims.HoldPendingClaim | orchestrator/src/lib/claims.ts:78-114 | refused at the daily cap; else transfer, claim and row, or nothing |
| Claims.PayClaim | orchestrator/src/lib/claims.ts:125-150 | pays what the escrow can pay and settles the claim, or leaves it held |
| Claims.PayNext | orchestrator/src/lib/claims.ts:161-191 | one claim of a fulfil or expiry job; an unknown sender is written off |
| Claims.PayAll | orchestrator/src/lib/claims.ts:123-151 | the job loop over the listed claims, counting the paid ones |
| Claims.FulfillPendingClaimsFor | orchestrator/src/lib/claims.ts:117-153 | releases every claim held for a known payee |
| Claims.ExpirePendingClaims | orchestrator/src/lib/claims.ts:156-193 | refunds every held claim past its time |
| Tables.Desk.SetPending | orchestrator/src/lib/db.ts:851-876 | the one pending slot of the phone is set or emptied |
| Tables.Desk.AddLedger | orchestrator/src/lib/db.ts:587-594 | appends one row |
| Tables.Desk.RecordPinFailure | orchestrator/src/lib/db.ts:472-490 | one more failure, locking from the limit on; the count is not cleared by time |
| Tables.Desk.ClearPinFailures | orchestrator/src/lib/db.ts:492-505 | count and lock are cleared |
| Tables.Desk.SetPin | orchestrator/src/lib/db.ts:455-470 | stores the PIN and clears count and lock |
| Tables.Desk.ClaimIdempotency | orchestrator/src/lib/db.ts:952-983 | inserts the marker if the key is new, else reports what is there and changes nothing |
| Tables.Desk.SaveIdempotentResult | orchestrator/src/lib/db.ts:985-1008 | stores the answer of the key |
| Tables.Desk.ReleaseMaturedLocks | orchestrator/src/lib/db.ts:1684-1700 | closes exactly the phone's matured locks |
| Tables.Desk.TransferUsdc | orchestrator/src/lib/wallets.ts:197-239 | moves amount to the target and amount plus gas from the sender, or burns at most the gas and moves nothing; reports success only if it landed |
| Tables.Desk.EnsureWallet | orchestrator/src/lib/wallets.ts:129-167 | creates the account once |
| Policy.FreezeRules | orchestrator/src/lib/policyRules.ts:186-200 | one insert per drafted rule, in order |
| Policy.ClearFrozenRules | orchestrator/src/lib/policyRules.ts:202-204 | revokes every rule of the phone and nothing else |
| Workers.MarkStandingRan | orchestrator/src/lib/retention.ts:109-113 | moves the schedule of this order only |
| Names.ClaimName | orchestrator/src/lib/hotlinens.ts:65-78 | refuses an invalid or taken name or an unknown phone and changes nothing, else replaces the name in both tables |
| Names.ReleaseName | orchestrator/src/lib/db.ts:838-849 | removes the name of the phone from both tables |
| Channels.LinkTelegramToPhone | orchestrator/src/lib/channel.ts:76-129 | links, creates the phone account and drops the provisional one, or refuses and changes nothing |
| Channels.DeleteProvisional | orchestrator/src/lib/db.ts:1798-1818 | removes only a chat account without name and ledger rows, with its session and contacts |
| Channels.Link | orchestrator/src/lib/db.ts:1753-1782 | replaces the link of the phone on this channel and the old phone of the chat |

## Left out

- Demo mode (`DEMO_SIMPLE=1`) and asynchronous settlement (`ASYNC_SETTLE`): other configurations of the same handlers.
- Overlapping fulfil and expiry jobs: `markPendingClaim` has no status guard, so paying a claim at most once is proved for jobs that run to their end one after the other.
- Configurations in which the escrow or airtime account calls in as a user, or shares its number with one (`ESCROW_WALLET_ADDRESS`, the agent operations phone).
- Circle, viem, Swap Kit, Reloadly and marketplace calls: a transfer is an abstract step that lands, fails or throws after moving money; swap output and delivery are inputs.
- PIN hashing, key encryption and SHA-256: PIN comparison is equality, the hash is injective with separator-free output.
- Reply wording, SMS and speech output; `Reply` keeps only what a caller can tell apart.
- `compilePolicyRules`, `normalizeTranscript` and the language-model compiler: the drafted rules are an input.
- The results of the grammar beyond which test matches first and what the send rule captures; a top-up or swap text whose amount or tokens turn out unusable falls through in the source and is outside the claims.
- Unicode: letters are folded and classified as ASCII; finer white space is not distinguished.
- `parseUnlockDate`: the unlock time of a savings lock is an input, absent when the text has no date.
- Name prettifying and the wording of suggestions; a given name is stored as given.
- Floating-point rounding below a micro-dollar, including the intermediate rounding of the airtime quote.
- Policy decisions written to the audit table during a run: the chain is modelled on its own in `AuditChain`.
- SQLite and Postgres differences, and start-up migrations.
- The ingress in front of `handleMessage`: runs start behind the limiter, which is modelled on its own in `RateLimit`; `Unguarded` shows that its runs pass it.
- HTTP routes, webhooks, telephony, the front end, Docker files and scripts.
- Accounts.BalancesMatchTheLedger: for runs of the booked kinds; `Accounts.EveryBalanceIsAccountedFor` is the statement for every run, and the two house accounts are the subject of `Escrow`.
- Safety.LockedSavingsAreCovered: for sponsored gas; `Safety.LockedSavingsAreCoveredUpToGas` is the statement for every run.
- Safety.LockedSavingsAreCoveredUpToGas: counts for each payment its fee, as far as the wallet covers it, also if the payment was given up before the transfer.
- Daily.DailySpendingIsBounded: for a day on which the limits do not change, because a raised tier raises the caps within the day; orders from the day before are covered if the limits never changed or if the caps make sense, as the shipped ones do (a soft cap within its daily cap, daily caps that rise with the tier).
- Daily.TheCapHoldsExactlyWhenSendsFit: on the same days.
- WhoIsPaid.NumbersPayThemselves: for a number other than that of the caller, as the lemmas beside it; what a send to oneself does to the one wallet is covered by `Accounts.EveryBalanceIsAccountedFor`.
- Settlement.AtMostOnePayment: the gate, the PIN counters and the escrow arithmetic are not part of the small-step model; a PIN check is an arbitrary answer there.
- Workers.PayOrder: hands intents to the handlers; that its texts read back as these intents is `Workers.TheJobSaysItsTexts`, for orders to a number. An order to a label is sent to the label as it is, and a configured PIN is given as it is.
- Workers.StandingOrdersRunOncePerPeriod: a handler that throws may leave any tables in which no standing order was lost or rescheduled, since handlers only open and cancel orders.
- Handlers.UpgradeIdentity: the format test of an id and the attestation are flags of the message.
- Handlers.LookUpPrice: the marketplace call and its price are an input.
- Chat messages after linking: the message of a linked chat is handled as a message of its phone (`ingress.ts`), which is how runs contain it.
