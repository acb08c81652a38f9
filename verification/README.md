# OpenReserve ledger: model and proofs

OpenReserve is a payments ledger with its own chain. Money in any asset sits in four kinds of place: accounts, the round
pot of a savings circle, what a circle holds beside the pot (deposits, autopay money, insurance), and escrows. A
transaction is validated, makes its change, and then its sender pays the cost; the fee is burned (native asset) or goes to
the issuer. The same rule is reached from the mempool, from block production, from verification, from consensus and from
replay at start-up.

The project has two layers. The ledger is first described with exact integers, as values and functions (`Circle.dfy`,
`Escrow.dfy`, `Ledger.dfy`), and the properties are proved there: who may do what, what each operation records, books of a
circle, escrow accounting, conservation, runs, recovery. `LedgerMachine.dfy` then holds the objects whose fields the program
updates in place, with 64-bit amounts and the program's loops. Each method ends in exactly the value the rules give, so every assignment to an `Amount` is also a proof
that the program's arithmetic does not wrap there. Where it may wrap (the cost, the debit, the fee and the reserve of a huge
autopay), the modulus is written out: `Ledger.ApplyIn64` is the transaction as the program runs it on a sound ledger, and
`WrappedCosts` says exactly when it is the exact one. The chain, which runs over `ApplyIn64`, the node's application
interface, the block log, the signed encodings, the transaction root, decimal amounts and recovery phrases follow in their own
modules.

| file | source | holds |
|---|---|---|
| `Core.dfy` | | numbers, sums over sequences and maps |
| `Circle.dfy`, `CircleBooks.dfy`, `CircleSteps.dfy`, `CircleRuns.dfy`, `CircleAutopay.dfy`, `CircleHistories.dfy`, `CircleLaws.dfy`, `CircleClocks.dfy`, `LotteryDraw.dfy` | `circle.go`, `poolOp` | savings circles, their books, their histories in ledger runs, autopay, who may do what and what it records, due times, the lottery |
| `Escrow.dfy`, `EscrowOrigins.dfy` | `escrowOp` | escrows and their histories, from the transaction that opened them |
| `Ledger.dfy`, `Conservation.dfy`, `LedgerSafety.dfy`, `LedgerRuns.dfy`, `ClaimFunding.dfy`, `Outcomes.dfy`, `Witnesses.dfy`, `WrappedCosts.dfy`, `WrappedReserves.dfy`, `AssetLaws.dfy`, `Permissions.dfy`, `RunLimits.dfy` | `ledger.go`, `circle.go` | one transaction, what it keeps, whole runs, who receives what, where the rules fall short, mints and fees, exactly when a transaction is accepted, and the limits of `CheckStateless` over runs |
| `RecoverySafety.dfy`, `RecoveryOrigins.dfy`, `RecoveryLaws.dfy` | `guard.go` | social recovery over whole runs, who chose an account's guardians, who may act and what ends a recovery |
| `MachineFacts.dfy`, `LedgerMachine.dfy`, `Genesis.dfy` | `ledger.go`, `circle.go`, `guard.go`, `genesis.go` | the classes, their refinement of the rules, the first ledger |
| `Encoding.dfy`, `SignBytes.dfy`, `SigningSafety.dfy`, `Merkle.dfy`, `AmountText.dfy`, `Mnemonic.dfy` | `types.go`, `mnemonic.go` | codecs |
| `ChainRules.dfy`, `BlockLaws.dfy`, `ChainIndex.dfy`, `Snapshot.dfy`, `Chain.dfy`, `BlockLog.dfy`, `Restart.dfy`, `Abci.dfy`, `ChainLedger.dfy` | `chain.go`, `snapshot.go`, `store.go`, `app.go` | the chain over any ledger that obeys `Lawful`, and the proof that this ledger does |

## Premises

Each is a `requires` where it is used.

- `Check(s, tx) == None`, with the cost in exact numbers, wherever a property of one transaction or of a run is stated. The
  program's own checks are `CheckIn64`; the two differ exactly where the cost is 2^64 or more (`WrappedCosts.AcceptedExactly`),
  which transfers and burns rule out (`node/types/types.go:449`, `node/types/types.go:481`) and an opened escrow or circle and
  every payment into a circle do not. The methods of `LedgerMachine` do not need this premise.
- `Covered`: the funds check comes before the effect and the debit after it. For a claim and for a recovery finish that
  carries a fee and is sent by the recovered account itself, the check alone does not cover the debit.
  `LedgerSafety.DebitCovered` proves that `Covered` is exactly the condition under which the debit does not underflow, and that
  it is void for every other transaction; `Outcomes.KeptExactly` that it is exactly what keeps the ledger sound, but for an
  issuer paying a fee to itself; `ClaimFunding.ClaimCovered` puts it in closed form for claims and proves it for plain ones.
- `supply + burned < 2^64` where the 64-bit and the exact ledger are compared: true of every genesis document that builds, and
  kept by every transaction.
- Block times in ledger runs are not negative (`LedgerRuns.Committed`).
- `CollisionFree` (leaf and node hashing), `Signing` (a signature made with a key verifies under its address), `Inverse` (JSON
  of a block, no raw line break in it), `GoodSetting` (2048 different words). SHA-256 and Ed25519 are otherwise arbitrary functions.
- Where a result speaks of a node's own snapshot it says so (`SnapshotOk`). The state root is not claimed to be injective.

## Where the code does less than it says

Each comes with a sound ledger, or a log, on which it happens, and with the exact condition.

- A claim may fail to bring in its own fee. `node/ledger/ledger.go:402-404` lets the fee come out of the pot, but the check
  counts the whole pot, and the claimer of an insured or bidding circle receives less: `Witnesses.InsuredClaimFallsShort`,
  `ClaimFunding.ClaimCovered`.
- A recovered account may finish its own recovery with a fee that the move has just taken away: `Witnesses.OwnFinishFallsShort`,
  `LedgerSafety.DebitCovered`.
- The autopay guard at `node/ledger/ledger.go:676` adds the rounds already set aside and the new ones as `int`s, and both the
  conversion and the sum wrap around. An allowed autopay leaves more set aside than there are rounds if and only if old and new
  rounds together are 2^63 or more: `CircleAutopay.StepReserved`; over whole histories `CircleHistories.AutopayUsedUp`. One
  autopay of 2^63 rounds does it (`Witnesses.HugeAutopayAccepted`), and so does one round followed by 2^63 - 1 more
  (`Witnesses.SumAutopayAccepted`). Where the cost wraps too, the reserve itself may wrap and money set aside is lost instead:
  `WrappedReserves.ReservedIn64`.
- The cost is added up in 64 bits (`node/ledger/ledger.go:342-370`), and whoever opens an escrow or a circle or pays into a
  circle can make it wrap with a large fee. The program accepts what its exact cost does not allow if and only if that cost is
  2^64 or more (`WrappedCosts.AcceptedExactly`). Its next ledger is the exact one if and only if the cost is below 2^64 and
  either the debit is `Covered` or the sender is the asset's issuer (`WrappedCosts.SameExactly`), and otherwise money is not
  conserved, unless a reserve, the supply or the issuer's balance happens to wrap with it (`WrappedCosts.ConservedExactly`;
  `WrappedCosts.ExcessExactly` is the full account). `WrappedCosts.AutopayCostWraps`, `WrappedCosts.SavingsCostWraps` and
  `WrappedCosts.EscrowCostWraps` are three such payments by an account that owns 1.
- "Everything old holds" at `node/ledger/guard.go:140-141` leaves out a seat, with its deposit, autopay money and turn, in a
  circle that already seats the new key: `Witnesses.OldSeatStays`, `RecoverySafety.RecoveredHoldsNothing`.
- An account's guardians need not be its own choice. A recovery overwrites the guardians of the new key, and drops a recovery
  pending on it, without a transaction of that key (`node/ledger/guard.go:176`), so the guardians of any account can become
  those of any key: `Witnesses.ChoiceReplaced`. An account's setup is that of its own last SetGuards if and only if no
  recovery finished into it since: `RecoveryOrigins.OwnSetup`. Only that way can a key also become its own guardian:
  `RecoveryOrigins.SelfGuarded`.
- A recovery may give one key two roles in an escrow, against the rule for new escrows: `RecoverySafety.RolesStayDistinct`,
  `Outcomes.BuyerAsArbiter`.
- Start-up with a snapshot takes every block at or below its height on trust, wherever it stands in the log
  (`node/chain/chain.go:95`): `Snapshots.StrayLog`, `Snapshots.OpeningAgrees`.

## Model

| member | source | states |
|---|---|---|
| CircleBooks.PayInBooks | node/ledger/circle.go:20-47 | an instalment or a full payment adds exactly its amount to that member's line and to the pot, keeps the pot equal to the sum of the lines, and marks the member paid exactly when the contribution is complete, also across the switch from nil to non-nil PaidAmt |
| CircleBooks.RunAutopayBooks | node/ledger/ledger.go:99-110 | autopay only moves money from Prepaid into this round's pot: the books hold, the total is unchanged, nothing else changes, and without autopay money or outside an active circle it does nothing |
| CircleBooks.CoverToBooks | node/ledger/circle.go:76-94 | covering missed payments moves money from deposits and insurance into the pot and changes nothing else the circle holds |
| CircleBooks.PotCreditsSum | node/ledger/circle.go:95-113 | the winner's part and the discount shares together are exactly the pot less the insurance cut, and go to members only |
| CircleBooks.WinningsBounds | node/ledger/circle.go:95-113 | the winner's part is between zero and the pot, whatever was bid |
| CircleBooks.CloseSum | node/ledger/circle.go:118-149 | ending a circle returns, to members only, exactly the deposits, autopay money and insurance it still held |
| CircleBooks.PayoutKeeps | node/ledger/circle.go:75-150 | a payout keeps every circle invariant, pays out exactly what leaves the circle, to members only, marks just the recipient, moves on one round, and ends the circle exactly in the last round |
| CircleBooks.SwapIdxSeats | node/ledger/circle.go:153-177 | swapping two turns exchanges two whole member records, over all thirteen per-member slices with nil ones staying nil, so the multiset of records is kept |
| CircleBooks.SwapIdxInv | node/ledger/circle.go:153-177 | exchanging two members with equal collected flags keeps the circle sound and its money unchanged |
| CircleBooks.DrawKeeps | node/ledger/circle.go:179-189 | the lottery yields a sound circle with the same money, equal but for the order of its member records, whatever the hash chain yields |
| LotteryDraw.DrawIsLots | node/ledger/circle.go:179-189 | the last turn goes to the member at the position of the joining order that the first hashed seed's first eight bytes name modulo their number, and so on down for those still standing |
| LotteryDraw.EveryOrder | node/ledger/circle.go:179-189 | every order of the members comes out of some lots |
| LotteryDraw.OneDraw | node/ledger/circle.go:179-189 | different lots give different orders |
| LotteryDraw.AnyOrderComesOut | node/ledger/circle.go:179-189 | for every order of a circle's members there are hash functions whose draw gives it |
| LotteryDraw.DrawsDiffer | node/ledger/circle.go:179-189 | two draws agree exactly when all their lots do |
| CircleBooks.NewCircleInv | node/ledger/ledger.go:479-509 | a created circle satisfies the invariant and holds exactly its creator's deposit |
| CircleBooks.CancelKeeps | node/ledger/ledger.go:687-707 | a cancelled circle holds nothing and everything it held went back to members |
| CircleSteps.RecipientCollects | node/ledger/circle.go:49-72 | exactly one member collects: the turn of the round, or the earliest of the highest positive bids among those who have not collected, or the first of them without bids, and Recipient finds that member |
| CircleSteps.StepSound | node/ledger/ledger.go:512-719 | every allowed step of a circle keeps the invariant and the terms, credits members only, and old money plus the sender's stake is new money plus credits |
| CircleSteps.SwapLeavesTurns | node/ledger/ledger.go:611-636 | one side's swap request alone moves no record; an agreed swap exchanges the two records whole; turns already paid out or being collected stay as they are |
| CircleLaws.StepsExactly | node/ledger/ledger.go:512-716 | every operation is allowed exactly to the member, in the situation, at the time and within the amounts stated; a claim only when everybody paid the round or its due time passed, a bid only up to half the pot, a withdrawal only at the goal or the deadline, a cancellation only to the organiser while the circle forms |
| CircleLaws.BidRecorded | node/ledger/ledger.go:599-609 | a bid changes the sender's own bid and nothing else |
| CircleLaws.PaymentRecorded | node/ledger/circle.go:31-47 | a payment changes what its sender has paid this round, and the pot, by its amount or by all that is owed |
| CircleLaws.SavingsRecorded | node/ledger/ledger.go:549-563 | savings change the sender's own savings and the pot, and end the circle exactly when it holds its target |
| CircleLaws.WithdrawalPaid | node/ledger/ledger.go:638-660 | a withdrawal brings the sender exactly their own savings and empties them; the circle is done exactly when everybody else has withdrawn, or was before |
| CircleLaws.ReserveReturned | node/ledger/ledger.go:709-716 | stopping autopay brings the sender exactly their own reserve and empties it |
| CircleLaws.AdmitRecorded | node/ledger/ledger.go:526-535 | a join marks its sender as in, with the deposit put down, and nobody else |
| CircleLaws.JoinRecorded | node/ledger/ledger.go:526-543 | only the last join starts the circle, at its block time, with the draw in a lottery and a run of autopay |
| CircleLaws.ReserveRecorded | node/ledger/ledger.go:679-685 | autopay money is added to the sender's own reserve, and then autopay runs |
| CircleLaws.AutopayServes | node/ledger/ledger.go:99-110 | autopay pays a member's whole need when their reserve reaches it and nothing otherwise, for every member, and touches nothing else |
| CircleLaws.SwapRecorded | node/ledger/ledger.go:626-636 | a request is on record for its sender alone; when the other had asked for the sender all requests are gone |
| CircleLaws.RoundTurns | node/ledger/circle.go:113-137 | after a payout nobody has paid, no bid stands, the winner's record shows what was paid out, and every other record is as it was but for covered payments |
| CircleLaws.CircleOpened | node/ledger/ledger.go:478-509 | a new circle has the agreed terms and members, its creator in with the deposit, nobody else, and nothing started |
| CircleClocks.StartClock | node/ledger/ledger.go:534-541 | over any history a circle's clock is the block time of the join that started it |
| CircleClocks.TakenOnlyWhenDue | node/ledger/ledger.go:587-594 | over any history every claim came when all had paid or after the round's due time counted from that join; a default is recorded only by a late claim, and deposits fall only by one, by the last claim or by a cancellation |
| CircleClocks.RunTakesWhenDue | node/ledger/ledger.go:587-594 | the same in every ledger run, by block times |
| CircleRuns.StepClaims | node/ledger/circle.go:113-117 | a step marks a seat as collected exactly when it is that seat's own claim, and only if it had not collected before |
| CircleRuns.EachSeatOnce | node/ledger/circle.go:113-126 | over any history from creation, operations and recoveries alike, no seat collects twice, the collected seats are the Claimed ones, as many as rounds have passed and in turn order outside bidding, and a finished circle has paid every seat |
| CircleHistories.CircleReplays | node/ledger/ledger.go:478-719 | in every ledger run every circle is the replay, from the circle its opening created, of what the committed transactions were to it, operations and recoveries |
| CircleHistories.SeatsPaidOnce | node/ledger/circle.go:113-126 | in every ledger run, every circle opened in it has paid no seat twice, has as many committed claims as rounds, and when done has paid every seat |
| CircleRuns.DrivenToDone | node/ledger/ledger.go:577-597 | an active scheduled circle past its last due date is finished, and left empty, by exactly n - Round claims of the one who collects, each allowed if and only if the pot cannot overflow the claimer's balance |
| CircleAutopay.NothingLeftOver | node/ledger/circle.go:126-137 | when the last round is paid, no autopay money is left in a circle whose reserves match its rounds |
| CircleAutopay.StepReserved | node/ledger/ledger.go:662-685 | while nobody pays in instalments, an allowed step keeps every member's autopay money a whole number of rounds, no more than are left, if and only if it is not an autopay that brings the rounds set aside, old and new together, to 2^63 or more |
| WrappedReserves.ReservedIn64 | node/ledger/ledger.go:662-685 | the same for the step as the program makes it: a reserve that reaches 2^64 wraps around and stays within the rounds left |
| CircleAutopay.HugeOverReserves | node/ledger/ledger.go:676 | every autopay that brings the rounds set aside to 2^63 or more leaves more set aside than there are rounds left |
| CircleHistories.TableStays | node/ledger/circle.go:31-47 | once a circle has instalments on record it keeps recording them: no operation and no recovery goes back to a nil PaidAmt |
| CircleHistories.AutopayUsedUp | node/ledger/circle.go:118-133 | over any history without instalments every member's autopay money covers whole rounds still to be paid at all times, if and only if no autopay brought the rounds set aside to 2^63 or more, which autopays of fewer than 2^63 - 50 rounds never do; then none is left to return when the last round is collected |
| Escrows.NewEscrowInv | node/ledger/ledger.go:723-738 | a funded escrow holds exactly its milestones and satisfies the accounting |
| Escrows.EscrowStepKeeps | node/ledger/ledger.go:740-852 | an allowed step keeps held plus paid equal to the milestones and pays, to the parties only, exactly what leaves the balance; a closed escrow allows no step |
| Escrows.ResolveAdds | node/ledger/ledger.go:802-822 | a resolved dispute splits the whole balance into the arbiter's cut, the seller's and the buyer's part |
| Escrows.EscrowHistory | node/ledger/ledger.go:721-852 | over any history of attempted steps and recoveries the accounting holds, and once closed no amount changes again |
| EscrowOrigins.CommittedOpening | node/ledger/ledger.go:723-738 | an accepted opening leaves an escrow with the sender as buyer, the named seller and arbiter, the agreed milestones, times and rate, the block time, and nothing released, paid or dispatched |
| EscrowOrigins.EscrowOrigin | node/ledger/ledger.go:721-852 | in every run an escrow stays on the terms of its opening, its parties are those the opening named under the names recoveries gave them, and its review clock is the block time of its dispatch |
| EscrowOrigins.ActsExactly | node/ledger/ledger.go:740-846 | every step is allowed exactly to whom, in which situation and when it is due |
| EscrowOrigins.StepPays | node/ledger/ledger.go:767-852 | every step pays the three roles exactly their shares and leaves exactly the stated situation and tallies |
| EscrowOrigins.RunPays | node/ledger/ledger.go:721-852 | in every run a committed step brings every address exactly the shares of the roles it holds by the opening, so a release brings its milestone to the named seller |
| Conservation.MoveMoney | node/ledger/guard.go:140-150 | moving an account's holdings to its new key creates and loses nothing, in any asset |
| Conservation.CreditsMoney | node/ledger/ledger.go:306-308 | a list of credits adds its sum to the accounts' total in that asset and nothing in any other |
| LedgerSafety.ApplyConserves | node/ledger/ledger.go:379-447 | for every kind of transaction, every asset's money still adds up to its supply, and supply plus burned is unchanged |
| LedgerSafety.DebitCovered | node/ledger/ledger.go:400-434 | the debit after the effect never underflows if and only if the transaction is Covered, which only a claim or a self-sent fee-bearing recovery finish can fail to be |
| LedgerSafety.ApplyKeeps | node/ledger/ledger.go:379-447 | a transaction that passes its checks and is Covered keeps the whole invariant: conservation, 64-bit bounds, sound circles, escrows and recoveries |
| Outcomes.KeptExactly | node/ledger/ledger.go:400-447 | a transaction that passes its checks leads to a sound ledger if and only if it is Covered or its sender is the issuer of its asset |
| LedgerSafety.TransferNeverOverflows | node/ledger/ledger.go:452-457 | conservation makes the overflow guard of a transfer unreachable once the funds check passed |
| Permissions.AcceptsExactly | node/ledger/ledger.go:379-429 | on a sound ledger a transaction is accepted if and only if its asset is known, it pays the least fee it has to, it carries the sender's next nonce, the sender holds what it costs, and the operation is open to the sender |
| AssetLaws.AnswersInOrder | node/ledger/ledger.go:379-410 | which answer each failure of the frame gives, in order |
| AssetLaws.RuleErrors | node/ledger/ledger.go:411-429 | which class of answer the rules of each operation give |
| AssetLaws.FeeTooLowExactly | node/ledger/ledger.go:387-391 | a transaction is refused for its fee exactly when it is not one of the free kinds and pays less than the least fee of its own asset |
| AssetLaws.FeesPaid | node/ledger/ledger.go:387-391 | in every run every committed transaction pays at least the least fee genesis asks of it |
| AssetLaws.MintAllowed | node/ledger/ledger.go:461-468 | a mint is allowed exactly to the issuer of a known asset, while the supply stays in 64 bits |
| AssetLaws.TransferAllowed | node/ledger/ledger.go:452-457 | a transfer is allowed exactly in a known asset and while the receiver's balance stays in 64 bits, on any ledger, sound or not |
| AssetLaws.SupplyHistory | node/ledger/ledger.go:461-475 | in every run an asset's supply is its first supply plus what the issuer named at genesis minted less what was burned |
| AssetLaws.OnlyIssuerMints | node/ledger/ledger.go:461-468 | a supply that grew was minted by that issuer in that transaction |
| AssetLaws.BurnHistory | node/ledger/ledger.go:438-446 | in every run ORP is burned exactly as the fees paid in it, and never minted |
| RunLimits.CirclesWithin | node/types/types.go:609-663 | in every run a circle opened in it keeps two to fifty different members, a pot that fits in 64 bits, rounds without a schedule or of an hour to a year, a deposit of at most the pot and only with a schedule, at most a tenth for insurance and a target exactly in a savings circle |
| RunLimits.EscrowsWithin | node/types/types.go:544-582 | in every run an escrow opened in it has one to ten positive milestones that fit in 64 bits together, a review of an hour to ninety days, at most a twentieth for the arbiter, and was opened by three different keys |
| RunLimits.SetupsWithin | node/types/types.go:490-512 | in every run a recovery setup has one to five different guardians, a threshold they can reach and a delay of an hour to thirty days |
| RunLimits.PaymentsWithin | node/types/types.go:439-485 | every committed transfer, mint and burn is of a positive amount that fits in 64 bits with its fee, to another key; a mint is free, and ORP is neither minted nor burned |
| LedgerSafety.PlacesBounded | node/ledger/ledger.go:112-129 | no place ever holds more than the supply of its asset, so no amount in the ledger exceeds 64 bits |
| LedgerSafety.RenameKeeps | node/ledger/guard.go:152-164 | a recovery leaves every circle sound, with as much money and every seat held by a different key |
| LedgerRuns.RunKeeps | node/ledger/ledger.go:379-447 | in every reachable state every asset's money equals its supply, everything is sound and within 64 bits, and supply plus burned is the genesis total |
| LedgerRuns.NonceCounts | node/ledger/ledger.go:392-397 | an account's nonce is its first nonce plus the number of transactions it committed, recoveries included |
| LedgerRuns.NonceDiscipline | node/ledger/ledger.go:392-437 | committed transactions of a sender carry consecutive nonces in chain order, so no sender and nonce commit twice |
| ClaimFunding.ClaimReceived | node/ledger/circle.go:95-149 | the credits of a claim give its sender exactly the closed-form receipt: the winnings and, in the last round, their autopay money, deposit and insurance part |
| ClaimFunding.ClaimCovered | node/ledger/ledger.go:401-410 | a claim's fee is covered if and only if balance plus receipt reach it, which always holds without an insurance cut or an own bid |
| Witnesses.InsuredClaimFallsShort | node/ledger/ledger.go:401-410 | a sound ledger and an accepted claim with a fee of 10 after whose effect the account holds less than 10 |
| Witnesses.OwnFinishFallsShort | node/ledger/ledger.go:400-431 | a sound ledger and an accepted finish of the sender's own recovery with a fee of 5 after whose effect the account holds 0 |
| Witnesses.OldSeatStays | node/ledger/guard.go:152-155 | a sound ledger and an accepted recovery after which the old key still sits in a circle, with its deposit of 5 |
| Witnesses.HugeAutopayAccepted | node/ledger/ledger.go:672-678 | a sound ledger and an accepted, funded autopay of 2^63 rounds in a circle of two, after which more is set aside than there are rounds |
| Witnesses.SumAutopayAccepted | node/ledger/ledger.go:672-678 | a sound ledger and an accepted, funded autopay of 2^63 - 1 rounds by a member with one round set aside, after which more is set aside than there are rounds |
| WrappedCosts.AcceptedExactly | node/ledger/ledger.go:342-429 | on a sound ledger the exact checks accept a transaction if and only if the program's do and its cost is below 2^64 |
| WrappedCosts.WrapKinds | node/ledger/ledger.go:342-370 | a cost of 2^64 or more belongs to an opened escrow or circle, a join, a contribution or an autopay |
| WrappedCosts.SameExactly | node/ledger/ledger.go:379-447 | after a transaction the program accepts, its ledger is the exact one if and only if the cost is below 2^64 and either the debit is Covered or the sender is the asset's issuer; then it is sound again |
| WrappedCosts.ExcessExactly | node/ledger/ledger.go:379-447 | for every accepted transaction, money exceeds supply in its asset by exactly what the wrapping of the cost lost, less what the reserve, the debit and the fee lost, and in no other asset |
| WrappedCosts.ConservedExactly | node/ledger/ledger.go:379-447 | where reserve, supply and issuer's balance do not wrap, an accepted transaction conserves money if and only if the exact rules accept it and it is Covered; with a cost of 2^64 or more, 2^64 units appear |
| WrappedCosts.AutopayCostWraps | node/ledger/ledger.go:662-685 | a sound ledger in which an account that owns 1 has an autopay of 2^64 - 1 with a fee of 1 accepted, after which there are 2^64 units more than the supply |
| WrappedCosts.SavingsCostWraps | node/ledger/ledger.go:545-563 | the same for savings of 2^64 - 1 put into an empty goal circle |
| WrappedCosts.EscrowCostWraps | node/ledger/ledger.go:342-370 | the same for an escrow over 2^64 - 1 with a fee of 1 |
| Outcomes.PotWhole | node/ledger/circle.go:76-94 | every missed payment counts as one default and is taken whole from the member's own deposit where that suffices, never in part; the pot is full if and only if insurance covers all payments that deposits do not |
| Outcomes.PotDivided | node/ledger/circle.go:95-113 | member by member: the cut is the insurance rate rounded down, everyone else gets an equal part of the winning bid rounded down and capped by the pot, and the winner the rest, with less than one unit a head from rounding |
| Outcomes.ClosingReturns | node/ledger/circle.go:126-149 | at the end every member gets their own deposit and autopay money and an even part of the insurance, the last member also the remainder |
| Outcomes.CancelReturnsOwn | node/ledger/ledger.go:687-707 | deleting a forming circle gives every member exactly their own deposit and autopay money |
| Outcomes.EscrowAuthority | node/ledger/ledger.go:740-852 | money leaves an escrow only to the seller by the buyer's release, the arbiter's decision or a claim after the review, to the buyer by the seller, the missed deadline or the arbiter, and to the arbiter as the fee, each in exactly its amount |
| Outcomes.BalancesAfter | node/ledger/ledger.go:379-447 | for every kind of transaction, every address and every asset: the new balance is the old one plus what the operation brings, less the cost for the sender, plus the fee for an issuer |
| Outcomes.TransferExact | node/ledger/ledger.go:452-457 | a transfer moves its amount, charges the fee on top, burns it or hands it to the issuer, uses up one nonce of its sender, and touches nothing else in the ledger |
| RecoverySafety.OnlyOwnerOrRecovery | node/ledger/ledger.go:379-447 | a committed transaction lowers an account's balance only if that account sent it or it finishes that account's recovery |
| RecoverySafety.RecoveredHoldsNothing | node/ledger/guard.go:142-179 | after the move the old key has no money in any asset, no escrow role and no recovery setup, and keeps its nonce; the new key has both balances, the roles and the same guardians with nothing pending; the old key keeps a circle seat if and only if the circle already seats the new key, and such a circle is left as it is; of every circle at most that seat and the creator's place change hands |
| RecoverySafety.RolesStayDistinct | node/ledger/guard.go:165-175 | a recovery keeps the three parties of an escrow different keys if and only if the old and the new key are not both among them |
| Outcomes.BuyerAsArbiter | node/ledger/ledger.go:793-822 | what that protects against: a buyer who is also the arbiter may dispute any undisputed escrow and then resolve its whole balance to themselves |
| RecoverySafety.GuardSetupsOk | node/ledger/guard.go:58-138 | after every guard operation ReadyAt is set exactly when the threshold is reached, and approvals are distinct guardians |
| RecoverySafety.RunSetupsOk | node/ledger/guard.go:58-138 | the same in every reachable state |
| RecoverySafety.PendingBacked | node/ledger/guard.go:83-123 | every pending recovery in a reachable state is backed by transactions of the run: one start and then approvals of the same new key, one for each recorded guardian, under an unchanged set with no cancel in between |
| RecoverySafety.RecoveryAuthorised | node/ledger/guard.go:97-138 | a recovery finishes only with at least Threshold distinct guardians behind it as above and at least DelaySecs of block time after the approval that reached the threshold |
| RecoveryLaws.GuardsExactly | node/ledger/guard.go:58-138 | every step of a recovery is allowed exactly to whom and when it is due; only the account's own key cancels |
| RecoveryLaws.GuardRecorded | node/ledger/guard.go:58-123 | what a step leaves of the setup it is about, and that it touches no other |
| RecoveryLaws.RecoveryEnds | node/ledger/guard.go:58-179 | a pending recovery ends only by its finish, by a cancellation the account itself sent, or by a recovery into the account; otherwise it stays with every approval it had |
| RecoveryLaws.RecoveryMarks | node/ledger/guard.go:178 | a finished recovery records where the account went, and nothing else touches that record |
| RecoveryLaws.RecoveredForGood | node/ledger/guard.go:65-82 | the old key of a recovered account never sets guardians again |
| RecoveryLaws.GuardiansComplete | node/ledger/guard.go:83-138 | the first Threshold guardians can always recover an account: start, approvals and, exactly from the end of the delay on, the finish are allowed |
| RecoveryOrigins.SetupChanges | node/ledger/guard.go:58-179 | a transaction gives an account a setup only by its own SetGuards or a recovery finishing into it, takes it away only by recovering the account, and otherwise leaves guardians, threshold and delay alone |
| RecoveryOrigins.SetupOrigin | node/ledger/guard.go:58-179 | in every reachable state an account has a setup if and only if some transaction of the run gave it and none took it away since, and its terms are the ones given |
| RecoveryOrigins.OwnSetup | node/ledger/guard.go:165-179 | an account's setup is that of its own last SetGuards if and only if no recovery finished into it since; otherwise it is that of the account last recovered into it |
| RecoveryOrigins.SelfGuarded | node/ledger/guard.go:165-179 | an account is among its own guardians only when a recovery finished into it |
| RecoveryOrigins.RecoveryChosen | node/ledger/guard.go:83-138 | every recovery that finishes was started under terms the account had been given before, by its own SetGuards or by a recovery into it |
| Witnesses.ChoiceReplaced | node/ledger/guard.go:165-179 | a sound ledger and an accepted recovery that replaces the new key's two chosen guardians by the old key's one and drops the recovery pending on it |
| LedgerMachine.LedgerState.Apply | node/ledger/ledger.go:379-447 | for every transaction on a sound ledger, the in-place transaction answers the error of the rules in 64 bits, leaves the ledger unchanged when it refuses, and makes exactly the state of ApplyIn64 when it accepts; when the exact rules accept it and it is Covered, that is their next state, sound and with the same total |
| LedgerMachine.LedgerState.CostOf | node/ledger/ledger.go:342-370 | for every transaction, the sums and loops yield the exact cost modulo 2^64 |
| LedgerMachine.LedgerState.Check | node/ledger/ledger.go:372-429 | for every transaction, the checks in program order find exactly the error of the rules under that cost, and change nothing |
| LedgerMachine.LedgerState.MoveAccount | node/ledger/guard.go:142-179 | the loops over assets, circles and escrows, in any map order, make the one state the rules give |
| LedgerMachine.LedgerState.Clone | node/ledger/ledger.go:856-877 | the copy is the same ledger over fresh circles, escrows and setups only, so executing on it leaves this one alone |
| LedgerMachine.LedgerState.Endow | node/ledger/ledger.go:330-339 | a genesis credit is refused, changing nothing, exactly when the balance or the supply would wrap |
| LedgerMachine.Pool.Check | node/ledger/ledger.go:512-716 | the rules of every circle operation, with Go's integer conversions, in program order |
| LedgerMachine.Pool.Perform | node/ledger/ledger.go:512-719 | every allowed circle operation in place leaves exactly the circle and the account balances of the rules, with a reserve kept in 64 bits |
| LedgerMachine.Pool.PayIn | node/ledger/circle.go:31-47 | the in-place payment, including writing out PaidAmt on the first instalment, is the rule's |
| LedgerMachine.Pool.Recipient | node/ledger/circle.go:52-72 | the loop over best and first finds the rule's recipient |
| LedgerMachine.Pool.Payout | node/ledger/circle.go:75-150 | the loops over missed payments, discount shares and final returns, with their running 64-bit totals, credit and leave exactly what the rules say |
| LedgerMachine.Pool.TakePot | node/ledger/circle.go:95-101 | the two-step 64-bit insurance formula is the floor of pot times basis points over 10000, without intermediate overflow |
| LedgerMachine.Pool.SwapIdx | node/ledger/circle.go:153-177 | slice by slice, the two records are exchanged |
| LedgerMachine.Pool.DrawOrder | node/ledger/circle.go:179-189 | the in-place Fisher-Yates loop is the rule's draw, and leaves the members in the order of the lots the hashed seeds give |
| LedgerMachine.Pool.Autopay | node/ledger/ledger.go:99-110 | the loop over members serves each as the rule does |
| LedgerMachine.LockedEscrow.Check | node/ledger/ledger.go:740-846 | the rules of every escrow step, in program order |
| LedgerMachine.LockedEscrow.Perform | node/ledger/ledger.go:740-852 | every escrow step in place leaves exactly the escrow and the balances of the rules |
| LedgerMachine.RecoverySetup.Act | node/ledger/guard.go:83-123 | a start, an approval or a cancel in place leaves exactly the rules' setup |
| Genesis.FirstSound | node/chain/genesis.go:87-108 | the ledger of a document whose allocations fit in 64 bits satisfies every invariant, owns exactly what was allocated, and has no nonce, burned fee or recovery setup |
| Genesis.FirstOwns | node/chain/genesis.go:99-107 | every address owns exactly what its own rows allocate |
| Genesis.FirstDefines | node/chain/genesis.go:88-98 | exactly the assets of the rows are defined, each with its own row's issuer and least fee |
| Genesis.Build | node/chain/genesis.go:87-108 | building succeeds exactly when no asset row is bad or repeated and the allocations together fit in 64 bits, and then yields that ledger |
| Merkle.RootIsTreeHash | node/types/types.go:767-791 | bottom-up pairing with odd-node promotion is, for every non-empty list, the Merkle Tree Hash of section 2.1 of RFC 6962 |
| Merkle.SplitIsPower | node/types/types.go:767-791 | the split used by that hash is a power of two, as the RFC asks |
| Merkle.SameRootSameIds | node/types/types.go:767-791 | without hash collisions equal roots mean equal transaction lists, whatever their lengths |
| Merkle.TxRoot | node/types/types.go:767-791 | the level-by-level loops compute that root |
| Encoding.FieldsBack | node/types/types.go:288-299 | reading length-prefixed fields gives them back and leaves what follows |
| SigningSafety.TxBack | node/types/types.go:301-378 | a decoder recovers every signed field of every transaction, through both versions and all optional sections |
| SigningSafety.TxInjective | node/types/types.go:301-378 | two transactions have the same signed bytes if and only if they have the same signed content |
| SigningSafety.HeaderInjective | node/types/types.go:727-738 | the same for block headers |
| SigningSafety.DomainsSeparate | node/types/types.go:288-378 | no transaction's signed bytes are any header's |
| SigningSafety.SignBytesOf | node/types/types.go:301-378 | the appending encoder writes those bytes |
| SigningSafety.HeaderBytesOf | node/types/types.go:727-738 | the same for headers |
| AmountText.RoundTrip | node/types/types.go:794-816 | reading a written amount gives it back, for every 64-bit amount |
| AmountText.ParseExact | node/types/types.go:801-825 | reading succeeds with v exactly on digits, optionally followed by a point and one to six digits, that denote v below 2^64 |
| AmountText.FormatCanonical | node/types/types.go:794-798 | written amounts have no leading zero, no trailing zero after the point and no bare point, and denote the amount |
| AmountText.CanonicalUnique | node/types/types.go:794-798 | each amount has exactly one canonical text |
| AmountText.FitsExactly | node/types/types.go:801-816 | the guard before the multiplication refuses exactly the values beyond 64 bits |
| AmountText.CheckDigits | node/types/types.go:818-825 | the character loop accepts exactly the non-empty strings of digits |
| Mnemonic.Encode | node/mnemonic/mnemonic.go:31-45 | the shifting loop writes the 24 base-2048 digits of seed and checksum as words; other lengths are refused |
| Mnemonic.Decode | node/mnemonic/mnemonic.go:49-68 | a phrase is accepted with a seed if and only if its words, up to case and spacing, are that seed's words; each refusal has its exact cause |
| Mnemonic.WriteAndRead | node/mnemonic/mnemonic.go:31-68 | decoding an encoded seed gives the seed, for every 32-byte seed |
| Mnemonic.ReadAndWrite | node/mnemonic/mnemonic.go:31-68 | an accepted phrase is, up to case and spacing, the encoding of its seed |
| Mnemonic.RadixJoined | node/mnemonic/mnemonic.go:36-44 | 24 base-2048 digits determine the number |
| Mnemonic.PhraseSpells | node/mnemonic/mnemonic.go:31-68 | a seed's phrase spells that seed and no other |
| BlockLog.CrashRecovery | node/chain/store.go:21-58 | after a crash at any byte of an append, the log reads as the blocks written before, and the new one exactly when its last byte arrived, and is cut to their encoding |
| BlockLog.Reopen | node/chain/store.go:21-58 | the opening loop, on the file any crash leaves, returns those blocks and truncates the file to them |
| BlockLog.Log.Append | node/chain/store.go:60-69 | a completed append turns the file of any block list into the file of that list and the new block |
| ChainRules.KeptAlone | node/chain/chain.go:613-640 | executing with refused transactions skipped is the same as running only the kept ones |
| ChainRules.DecidedVerifies | node/chain/chain.go:613-651 | every decided block for the next height passes verification and leads to the decided state |
| ChainRules.SealedVerifies | node/chain/chain.go:205-237 | a block made from applied transactions passes verification if and only if consensus is external or the authority's key sealed it |
| BlockLaws.VerifiesExactly | node/chain/chain.go:262-309 | a block verifies to a ledger exactly when it carries this chain's id, the next height, the last header's hash, a time not before it, the Merkle Tree Hash of its ids and that ledger's root, at most a thousand transactions each applying to the ledger before it, and under an authority its name, its signature, a later time and a transaction |
| BlockLaws.ReplaysExactly | node/chain/chain.go:94-110 | a block list replays to a ledger exactly when there are ledgers between its blocks so that every block may stand where it does |
| BlockLaws.ExecutesExactly | node/chain/chain.go:613-640 | deterministic execution marks exactly the transactions that can run after those marked before, and ends where running them alone ends |
| BlockLaws.DecidedFields | node/chain/chain.go:613-651 | the decided block's every field: links, time, proposer, the transactions that run, and no signature |
| ChainRules.ReplayPrefix | node/chain/chain.go:94-110 | every prefix of a replayable block list replays, and each further block verifies on it |
| ChainRules.RunNonces | node/chain/chain.go:312-321 | along a block nonces only grow, past every nonce the block used |
| ChainIndex.HitsExact | node/chain/chain.go:330-365 | the scan lists exactly the transactions that touch an address |
| ChainIndex.TouchedExactly | node/chain/chain.go:330-362 | a transaction is listed under exactly its sender, the receiver, the parties named when an escrow is opened, and the account and agreed new key of a recovery |
| ChainIndex.ListedOnce | node/chain/chain.go:330-362 | and once under each of them |
| ChainIndex.SubjectExactly | node/chain/chain.go:340-362 | a transaction belongs to the circle or escrow it opens or acts on and to no other |
| ChainIndex.Tables.Index | node/chain/chain.go:330-365 | recording a block keeps the address, circle and escrow tables equal, in order and multiplicity, to a scan of all blocks, and every id leads to a transaction with that id |
| Chains.AtMostSixteen | node/chain/chain.go:137-140 | a sender never has more than sixteen pending transactions |
| Snapshots.OwnSnapshotLoads | node/chain/snapshot.go:31-53 | a snapshot this node wrote always passes the checks of loading |
| Snapshots.UsedExactly | node/chain/snapshot.go:43-50 | a snapshot is used exactly when the log has a block at its height whose header has the snapshot's hash and its state's root |
| Snapshots.LoadedRoot | node/chain/chain.go:89-110 | whatever snapshot is found, if no block is out of place start-up ends in a state with the root of the last block of the log |
| Snapshots.OpeningAgrees | node/chain/chain.go:89-110 | for every log and every snapshot this node wrote of it: a log that replays is accepted with the same state, and an accepted log replays if and only if no block after the snapshot stands at or below its height |
| Snapshots.StrayAccepted | node/chain/chain.go:94-101 | with a snapshot at the tip, the log is still accepted after any block at or below that height is added, although it no longer replays |
| Snapshots.StrayLog | node/chain/chain.go:94-101 | such a log for every chain under external consensus: one block, its snapshot and the same block again, refused without the snapshot and accepted with it |
| Chains.Chain.Load | node/chain/chain.go:67-112 | for every log and snapshot, start-up accepts what it verifies or takes on trust and ends in that state; with a snapshot this node wrote, or none, an accepted log leaves state, tip, tables and mempool those of a full replay if and only if no block after the snapshot stands at or below its height |
| Chains.Chain.Commit | node/chain/chain.go:312-327 | committing keeps state, tables, mempool and snapshot in agreement with the block list |
| Chains.Chain.MaybeSnapshot | node/chain/snapshot.go:57-65 | the snapshot is exactly the present height, block hash and state at every snapshotEvery-th block when the write succeeds, and the previous one otherwise |
| Chains.Chain.Submit | node/chain/chain.go:121-167 | each answer has exactly its cause, in the order the reasons are looked at, with the pending costs of the sender added up in 64 bits; an accepted transaction is in no committed block, and nothing else changes |
| Chains.Chain.CheckPending | node/chain/chain.go:669-684 | the shared-mempool check accepts exactly what could apply now or later within the sender's window, and adds nothing |
| Chains.Chain.NextNonce | node/chain/chain.go:405-423 | the search ends within sixteen steps at the least nonce from the committed one on that nothing pending uses |
| Chains.Chain.AddBlock | node/chain/chain.go:240-252 | a foreign block is committed if and only if it may stand after the blocks there are, as stated field by field in BlockLaws; under an authority it then carries the authority's name and signature; a refused one changes nothing |
| ChainRules.TriedFull | node/chain/chain.go:197-203 | once a block is full no later candidate is kept |
| Chains.Chain.Fill | node/chain/chain.go:195-213 | filling a block keeps the same transactions as deterministic execution of the candidates, and removes from the mempool exactly those refused for another reason than a missing earlier nonce |
| Chains.Chain.Produce | node/chain/chain.go:172-237 | the block holds what deterministic execution keeps of all transactions pending for at most ten minutes, in sender and nonce order, under the producer's name and signature, and nothing is produced exactly when that is empty; a produced block is refused only with a foreign key where the authority is required; what stays pending is exactly what has not waited longer, can still succeed and is not committed |
| Chains.Chain.ExecuteDecided | node/chain/chain.go:613-651 | the decided block and state are those of deterministic execution, the block verifies, and the chain is untouched |
| Chains.Chain.CommitDecided | node/chain/chain.go:654-665 | a decided block is committed exactly when nothing was committed since it was decided, and the committed root is the one in its header |
| Chains.Chain.Lookup | node/chain/chain.go:450-460 | a committed transaction is found by its id if and only if a scan finds one |
| Chains.Chain.History | node/chain/chain.go:464-475 | an address's history is the reverse of the last hits of a scan of all blocks |
| Abci.Application.GetInfo | node/abci/app.go:59-67 | the reported height and root are those of the last committed block |
| Abci.Application.FinalizeBlock | node/abci/app.go:101-125 | the app hash is the root of the pending state and of the pending block's header, each position reports its own outcome, and the chain is untouched |
| Abci.ReportsMatchBlock | node/abci/app.go:101-125 | the ids reported as executed are, in order, those of the decided block, and bad bytes are reported exactly where they did not parse |
| Abci.Application.Commit | node/abci/app.go:127-140 | committing the pending decision never fails when nothing came in between, and the committed root is the agreed app hash |
| Abci.Application.Round | node/abci/app.go:101-140 | one round of consensus adds one block, and the agreed app hash is the root of the committed state |
| Restarts.Restart | node/chain/chain.go:67-112 | a node reopened from its log and snapshot has the same blocks, tables and root, and the same state but for the time it was last evaluated at |
| Restarts.RestartAfterCrash | node/chain/chain.go:67-112 | after a crash at any byte of the append of a verified block, a node over the remaining log has the committed blocks, the new one exactly when its last byte arrived, and the state they lead to, and the log is cut to their encoding |
| ChainLedger.LedgerLawful | node/ledger/ledger.go:379-447 | the ledger as the program runs it, in 64 bits, obeys every law the chain relies on: time is only an input, the root ignores it, and applying uses and advances exactly the sender's nonce |
| ChainLedger.ReplaySoundly | node/chain/chain.go:94-110 | for every block list that replays from a genesis document, all transactions lead where exact numbers lead if and only if each costs less than 2^64 and either its debit is Covered or its sender is the asset's issuer; then the final state satisfies the ledger invariant, and supply plus burned is what the document allocated |

## Left out

- State root: an arbitrary function of the state that ignores the time. It is not claimed to be injective, since it has no element counts for accounts and guardians and leaves out asset definitions and the minimum fee.
- SHA-256, Ed25519, hex, JSON, lower-casing and white space: functions with the premises named above.
- LedgerMachine.LedgerState.Apply: a sound ledger is required; what the program does from a ledger that an uncovered debit or a wrapped cost has already left unsound is not followed.
- ChainLedger.ReplaySoundly: of a chain with a transaction that leaves the exact ledger only that is stated; `WrappedCosts.ExcessExactly` says what the first such transaction does.
- CircleAutopay.StepReserved: nothing is claimed once somebody paid an instalment; autopay then tops up a part and leaves an odd amount, which the final payout returns (`CircleBooks.CloseSum`).
- Abci.Application.Commit: a block that came in from elsewhere between FinalizeBlock and Commit makes Commit fail; consensus never does that.
- Chains.Chain.Load: of a snapshot this node did not write only the blocks and the state reached are stated, as the root alone does not identify a state; and a snapshot that does not load is forgotten here, where the file stays on disk until the next one.
- Chain over objects: the chain is proved over ledger values; that an object ledger and its `Clone` compute those values is proved separately in `LedgerMachine`.
- Nonces, heights and times are unbounded integers.
- Wire form of transactions: which fields a kind may not carry (the `takes only` rules of `checkPoolOp`, `checkEscrowOp`, `checkGuardOp`), memo, reference and name lengths; the ledger takes the parsed operation, `SignBytes` the full content.
- Duplicate allocations and document fields of `Genesis.Validate`; a ledger built from a document with repeated allocations is covered by `Genesis.Build`.
- Names, memos, tracking strings, delivery references and `GuardedBy`: no rule reads them.
- Circle and escrow histories (`PoolHistory`, `EscrowHistory`), `PoolsOf`, `Stats`, `Counts`, `Updated`: readers of tables proved to agree with a scan.
- Mutexes, goroutines, fsync and rename: operations are atomic steps; an append that is cut short is `BlockLog.CrashRecovery`.
- HTTP, client, keys, command line, gateway, rate limiter, front ends, analytics and the experimental directory.
