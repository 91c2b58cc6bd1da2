# Kairos execution: a verified model

Kairos is an order-execution engine that writes intent down before it acts, never blindly repeats a call to the
venue, and calls a position finished only when the venue proves it. This project models its safety-critical parts in
Dafny and proves what they promise, over every run.

## What is modelled

- **The protected trade lifecycle** (`LifecycleLog`, `LifecycleWorld`, `LifecyclePorts`, `LifecycleEvidence`,
  `EntrySettlement`, `LifecycleCompensation`, `PaperEngine`, `LifecycleSafety`, `LifecycleRuns`, `LifecycleWitnesses`). One
  trade with its durable row, its effect journal, the venue's own truth about its orders, and the history of everything that
  happened, awaits that raised and clock readings included. `Desk` is the engine's surroundings: each of its methods is one
  await, whose outcome the environment chooses and which may raise or lose the process before or after taking effect.
  `LifecycleCompensation` reads off the history what must follow where protecting, placing or exiting does not succeed, and
  the methods of `PaperEngine` are proved against it for exceptions as for normal returns. `PaperEngine` follows the engine method by method. `Inv` holds
  between any two awaits, so it holds at every crash; `Run` puts any commands in any order and `Safe` is what a reader
  gets out of it. `Legal` says of a history what had to come before each step.
- **The account-wide audit** (`AccountAudit`, `AccountRecovery`). The loops that collect blockers, against a declarative
  account of a clean snapshot, and the gate that only a clean recovery opens. `PaperEngine` works behind that gate:
  its startup pass drives it, its entries and periodic passes ask it, and an ambiguous placement or a failed periodic pass
  closes it.
- **One-shot signing and dispatch** (`ProductionClaims`, `OneShotDispatch`, `DispatchTrails`). The insert-only tables as a class, and N
  workers as a transition system: other workers act between any two steps, commits succeed unacknowledged, workers
  stop for good, terminal writes land late. Signing and wire workers share one step function. `DispatchTrails` tells from
  the actions alone what every call, release and completed terminal must have gone through.
- **The journaled adapter** (`JournaledAdapter`) and **the compensating engine** with its bounded memory
  (`ExecutionTrails`, `ExecutionEngine`, `IdempotencyCache`). `ExecutionTrails` says which histories an order may leave, with
  which result, and what they mean; the engine's methods are proved against it, whether they return or raise.
- **Cancellation safety** (`CancellationSafety`, `CancellationClaims`).
- **Exact arithmetic** (`Decimals`, `MinimumQuantity`, `ExitRisk`) and **the pager** (`HistoryPager`).

Quantities and prices are exact reals; the engine's tolerances are the constants of `Amounts`. `Outcomes` separates an
exception, which a handler may catch, from the loss of the process, which none sees.

## Assumptions

About persistence: `prepare` answers `created` to one caller per key and refuses a changed request; a transition and
its public fact commit together; an omitted column stays as it was; an edge that is not declared is refused. Any write
may raise, or lose the process, after it was committed. Every command begins with the durable row; the one place that
goes on with an older row after a caught exception is the emergency close behind a failed protection, and `Remembers`
says what that row may then be.

About the venue:

- an order or protection that stopped being live never becomes live again, and account reads are complete;
- a record that carries the identity of an order, or the geometry and parent of a protection, speaks about the order
  this trade created;
- a position on the instrument means that the entry reached the venue;
- a terminal or FILLED entry record, and the absence of an entry that had reached the venue, mean that the entry order
  is closed;
- a listed protection is live exactly when its record says so, and every live one that was ever listed is listed;
- a protection that was looked up, or whose cancellation was acknowledged, is in the venue's index;
- a streamed event that reports a fired protection speaks about one that is no longer live;
- an accepted protection enters the listing, and an issued entry is executed or lost, within the two-minute grace.

A read or an answer that breaks these assumptions counts as one that failed.

About identity: deterministic keys and digests are injective. One trade is modelled at a time, as the trade lock
serializes its work; its effect keys meet those of no other trade. The emergency close is entered from PROTECTING or
ACTIVE only, as every caller does.

## What the proofs found

- An emergency exit that measured nothing to close reaches FLAT without looking for a fired stop or target. They are
  looked for exactly behind a close (`LifecycleEvidence.TriggerCheckedBehindClose`); a run in which every read of the
  exit shows the stop fired is played in `LifecycleWitnesses.EmergencyFlatBesideFiredStop`.
- The same exit, when it loses the process before FLAT, cannot be finished: without a close effect, no reconciliation
  that reads a zero position returns normally (`PaperEngine.ReconcileTrade`).
- Settling an entry can return an order that may still fill: exactly when the position is open and a working entry record
  covers it (`EntrySettlement.SettledButStillFillable`, `LifecycleWitnesses.HalfFilledOrderSettles`). The remainder is then
  cancelled at its expiry while the trade is active, or before a close of the engine's own.
- An acknowledgement relabelled CANCELED can read as filled by as much as the tolerance admits, with no position behind
  it (`LifecycleWitnesses.RelabelledOrderReadsFilled`, `LifecycleWitnesses.DustBecomesAFill`).
- A stop or target exit reaches FLAT without looking at the entry order, which may still be open and working: such runs
  are played in `LifecycleWitnesses.FlatBesideOpenEntry`. FLAT guarantees a closed entry exactly after timeout and
  emergency exits (`LifecycleWitnesses.EntryClosedExactlyAfterManualExit`), and a single step into FLAT beside an open
  entry is possible exactly when a trigger ended the trade and the placement's recorded answer did not already say that
  the order was over (`LifecycleEvidence.FlatBesideOpenEntryExactly`).
- The periodic pass returns normally and does nothing while the process has not recovered or the account is closed, so
  such a return says nothing about the trade (`PaperEngine.ReconcileUnlocked`).
- A larger slippage rate can lower the budget of a profitable long exit (`ExitRisk.SlippageIsNotMonotone`).

## Model

| member | source | states |
|---|---|---|
| `LifecycleLog.SentAtMostOnceAndPreparedFirst` | kairos_execution/paper_engine.py:1513-1614 | In every legal history each venue call goes out at most once, and only after the journal row of its effect was durable |
| `LifecycleLog.NotSentAgain` | kairos_execution/paper_engine.py:1886-2013 | No later event of a legal history repeats a venue call |
| `LifecycleLog.TargetOnlyBehindLiveStop` | kairos_execution/paper_engine.py:1262-1417 | Before any take-profit create is sent, the stop was read back live with the planned price and side and then reconciled in the journal with that identity; also across crashes and re-entry |
| `LifecycleLog.RowsOnlyAdvance` | kairos_execution/paper_engine.py:2174-2475 | Between any transition and any later point of a history: no state that was left is entered again, filled quantity never falls, recorded identities and the first-fill time never change, terminal rows absorb, and the row satisfies what its state promises (fill and fill time from PROTECTING on, both protection ids when ACTIVE, this trade's own close client id in manual exits) |
| `LifecycleLog.CloseOnlyAfterEntryGone` | kairos_execution/paper_engine.py:2684-2727 | A timeout or emergency close exists in a history only if the entry order had been seen absent from the open orders |
| `LifecycleLog.CloseIsMeasured` | kairos_execution/paper_engine.py:2626-2727 | A close is prepared for exactly the position of the last account read before it, which no longer listed the entry order; also on resumed exits |
| `LifecycleLog.FlatNeedsProof` | kairos_execution/paper_engine.py:2729-2830 | Every transition into FLAT out of a timeout or emergency exit follows an observed zero position, read after the last transition, after any close was prepared and in the current pass over the trade; an earlier sight of the entry order gone; and, for timeouts, a close effect |
| `LifecycleLog.FlatNeedsWonClose` | kairos_execution/paper_engine.py:2650-2682 | Behind any close, such a FLAT follows, after the close and in the current pass, first an observed zero position and then a later account read that judged the close won: filled in full for exactly the requested quantity, in that read or on record, and no stop or target fired in that read |
| `LifecycleLog.FillFollowsClose` | kairos_execution/paper_engine.py:2800-2830 | A close on record as filled was recorded after it was prepared |
| `LifecycleLog.FlatAfterTriggerNeedsFill` | kairos_execution/paper_engine.py:2596-2624 | Every FLAT out of a stop or target exit follows an observed zero position before the exit was recorded and a completely filled generated exit order for the held quantity |
| `LifecycleLog.LegalPrefix` | kairos_execution/paper_engine.py:192-276 | Every prefix of a legal history is legal: a crash leaves nothing that needs undoing |
| `LifecycleLog.MovedStep` | kairos_execution/paper_engine.py:3334-3412 | Every transition of a history starts from the row the history had reached, follows a declared edge, and leaves a row that satisfies what its state promises |
| `LifecycleLog.RowStepAdvances` | kairos_execution/paper_engine.py:3334-3412 | One durable transition extends what was already recorded and loses nothing |
| `LifecycleLog.EntrySentInWindow` | kairos_execution/paper_engine.py:356-428 | In every legal history the entry goes out only behind a clock reading between its eligibility and its expiry |
| `LifecycleLog.TimeoutWasDue` | kairos_execution/paper_engine.py:2439-2448 | In every legal history a trade is timed out only behind a clock reading at which it had been held for its maximum time |
| `LifecycleLog.MoveWasShown` | kairos_execution/paper_engine.py:545-581 | Every recorded fill had been seen before: in the position, by a read no transition, close or new pass made stale, at most the approval where the code takes the minimum, or as the fill of the entry order's own valid record; its date rests on the eligibility or a clock reading; and a pending trade is cancelled only with its entry never prepared, reconciled absent, or terminal and unfilled on record |
| `LifecycleLog.OverfillWasRead` | kairos_execution/paper_engine.py:2381-2403 | A recorded fill beyond the approved quantity was read off the account as exactly this position in the pass that recorded it |
| `LifecycleSafety.InvIsSafe` | kairos_execution/paper_engine.py:1262-1511 | The invariant kept at every await implies the safety of the whole run: each call once and prepared first, entries inside their window, nothing confirmed unsent, targets behind stops at the planned price, closes for exactly the measured position, every recorded fill, date, timeout and cancellation justified by what was seen before, cancellations of its own protections only, monotone rows, and terminal trades that leave nothing of their own working at the venue |
| `LifecycleSafety.OrdersAreSettled` | kairos_execution/paper_engine.py:2832-3001 | In every reachable state a cancellation names the order this trade created, FLAT leaves no protection that can fire, a manual FLAT no entry that can fill, and CANCELLED nothing at all |
| `LifecycleSafety.AllConfirmedSent` | kairos_execution/paper_engine.py:1549-1614 | No effect of a legal history is confirmed that was not sent before |
| `LifecycleSafety.AllRowsMonotone` | kairos_execution/paper_engine.py:2174-2475 | Along any legal history rows change only along the declared edges, keep what they recorded, and never leave a terminal state |
| `LifecycleSafety.AllMovesShown` | kairos_execution/paper_engine.py:545-581 | Along any legal history entries go out inside their window and every transition records only what had been seen |
| `LifecycleSafety.MovesAdvance` | kairos_execution/paper_engine.py:3334-3412 | Of any two transitions of a history the later extends the earlier, and the earlier was not terminal |
| `LifecycleWorld.InitialInv` | kairos_execution/paper_engine.py:407-414 | A trade just created satisfies the invariant |
| `LifecycleWorld.InvPrepare` | kairos_execution/paper_engine.py:1513-1547 | Inserting a PREPARED row keeps the invariant; a close row only for the position of the last read, with the entry order gone, and a protective cancellation only for the trade's own order |
| `LifecycleWorld.InvSend` | kairos_execution/paper_engine.py:1549-1614 | Issuing a prepared, unsent call keeps the invariant, whatever becomes of its answer |
| `LifecycleWorld.InvFinish` | kairos_execution/paper_engine.py:1886-1945 | Recording an outcome keeps the invariant when the recorded identity is the one the venue gave this order |
| `LifecycleWorld.InvMove` | kairos_execution/paper_engine.py:3334-3412 | A declared transition with its evidence keeps the invariant; FLAT requires both protections harmless for good |
| `LifecycleWorld.InvEvolve` | kairos_execution/paper_engine.py:2174-2475 | Whatever the venue does on its own keeps the invariant |
| `LifecyclePorts.Desk.Prepare` | kairos_execution/paper_engine.py:1907-1925 | The row is inserted exactly once, a changed request is refused, `created` is true for the inserting caller only, and a failure may hide a commit; an exception stays on record |
| `LifecyclePorts.Desk.Finish` | kairos_execution/paper_engine.py:1940-1944 | An outcome is recorded whole or not at all; a failure may hide a commit |
| `LifecyclePorts.Desk.Transition` | kairos_execution/paper_engine.py:3334-3412 | Row and public fact commit together; an exception, which stays on record, and a crash may both hide a commit |
| `LifecyclePorts.Desk.Fetch` | kairos_execution/paper_engine.py:2838-2838 | A complete account read that obeys the stated venue assumptions becomes evidence in the history, one that raises becomes a fault in it; nothing else durable changes |
| `LifecyclePorts.Desk.Grace` | kairos_execution/paper_engine.py:2015-2024 | Two minutes after its row, an entry call is no longer in flight and an accepted protection is in the listing |
| `LifecyclePorts.Desk.SendCreate` | kairos_execution/paper_engine.py:1931-1939 | The venue knows of the create from the moment it is issued; a named identity is the one it gave this order |
| `LifecycleEvidence.NotLiveMeansGone` | kairos_execution/paper_engine.py:2934-2948 | A protection known to the venue and listed as not live, or absent once it had been listed, is gone for good |
| `LifecycleEvidence.UnlistedMeansClosed` | kairos_execution/paper_engine.py:2691-2697 | An entry that reached the venue and is absent from the open orders is closed for good |
| `LifecycleEvidence.ClosedFlat` | kairos_execution/paper_engine.py:2800-2830 | A close judged won after it was prepared and after the position was seen gone justifies FLAT, and the entry is then closed |
| `LifecycleEvidence.UnclosedFlat` | kairos_execution/paper_engine.py:1482-1511 | With no close ever prepared, an emergency exit needs only the zero position and the entry seen gone |
| `LifecycleEvidence.TriggerCheckedBehindClose` | kairos_execution/paper_engine.py:1482-1511 | For every reachable timeout or emergency exit that saw zero position and the entry gone, with harmless protections: FLAT is open to it if and only if, with a close prepared, a later read in the current pass judged the close won after a zero position; or, without one, it is an emergency |
| `LifecycleEvidence.ReadsDecideBehindClose` | kairos_execution/paper_engine.py:2650-2682 | Behind a close, FLAT is closed while every read that counts shows the position open, or every one shows a stop or target fired |
| `LifecycleEvidence.FlatBesideOpenEntryExactly` | kairos_execution/paper_engine.py:2729-2798 | For every reachable step into FLAT: it could also be taken beside an entry order still open if and only if a stop or target ended the trade and the recorded placement answer did not say the order was over |
| `LifecycleEvidence.FillTimeStays` | kairos_execution/paper_engine.py:531-537 | The fill time of a transition is on the row at any later point |
| `LifecycleEvidence.TriggerMeansGone` | kairos_execution/paper_engine.py:3016-3130 | A proven trigger names a recorded protection that is no longer live |
| `LifecycleEvidence.SourcesAreOurs` | kairos_execution/paper_engine.py:2865-2909 | Trade row, journal and geometry match can only name the identity the venue gave the order this trade created |
| `LifecycleEvidence.OnlyId` | kairos_execution/paper_engine.py:2900-2917 | Several sources yield one identity, none, or a conflict |
| `LifecycleEvidence.CancelledForGood` | kairos_execution/paper_engine.py:632-637 | When nothing of a sent entry is left in the last read, relabelling its acknowledgement CANCELED is true of the venue |
| `LifecycleEvidence.ExposureMeansBorn` | kairos_execution/paper_engine.py:482-494 | A position on the instrument proves that the entry order reached the venue |
| `LifecycleEvidence.CloseFacts` | kairos_execution/paper_engine.py:2626-2682 | In every reachable state a close effect implies that the entry order is closed and was seen gone |
| `LifecycleEvidence.ClosePayloadIsEvidence` | kairos_execution/paper_engine.py:2815-2826 | The history records the close as filled if and only if its journal row does |
| `VenueRecords.Find` | kairos_execution/paper_engine.py:4048-4088 | Returns the unique matching row, None exactly when there is none, and an error for duplicates |
| `VenueRecords.PositionQuantity` | kairos_execution/paper_engine.py:4015-4021 | The summed quantity of the instrument; zero only when every row of it is zero |
| `VenueRecords.PositionQuantityAdds` | kairos_execution/paper_engine.py:4015-4021 | The quantity is a sum over rows: reading two lists is reading each, one row of the instrument counts as its non-negative quantity, others as nothing |
| `VenueRecords.PositionForTrade` | kairos_execution/paper_engine.py:4023-4045 | The quantity of the one open row, which has the planned side and, within tolerance, the planned leverage; zero only when no row is open |
| `VenueRecords.ZeroForTradeIsZero` | kairos_execution/paper_engine.py:4015-4045 | A zero reading for the trade is a zero reading of the sum |
| `VenueRecords.ValidateEntry` | kairos_execution/paper_engine.py:3804-3882 | An accepted entry record carries the deterministic id, a known status, a fill that is its quantity less its unfilled part, capped at the plan and coherent with the status, and an average price on the allowed side of the cap |
| `VenueRecords.OrderStatusesPartition` | kairos_execution/paper_engine.py:3804-3882 | Every order status is exactly one of: still fillable, FILLED, terminal, unknown |
| `VenueRecords.ValidateClose` | kairos_execution/paper_engine.py:3885-3915 | An accepted close record carries the close id, a known status and the requested quantity |
| `VenueRecords.ValidateTrigger` | kairos_execution/paper_engine.py:3132-3167 | An accepted exit order of a fired protection is FILLED, on the closing side, for the triggered quantity |
| `VenueRecords.TpslStatusesPartition` | kairos_execution/paper_engine.py:3180-3206 | A protection is exactly one of: live, fired, withdrawn, unknown |
| `VenueRecords.ResponseTime` | kairos_execution/paper_engine.py:3918-3948 | Refused exactly when a venue stamp lies outside the skew around eligibility and observation |
| `VenueRecords.ResponseTimeBounds` | kairos_execution/paper_engine.py:3918-3948 | The fill is dated between eligibility less the skew and its observation, if and only if the clock allows any such date |
| `VenueRecords.ProvenTrigger` | kairos_execution/paper_engine.py:3016-3130 | At most one protection is proven fired, from its own record and a completely filled exit order in complete history |
| `Amounts.CloseMeans` | kairos_execution/paper_engine.py:1256-1260 | Two amounts are close if and only if they differ by no more than a billionth of either of them or the absolute slack |
| `Amounts.ToleranceMeans` | kairos_execution/paper_engine.py:2485-2485 | The slack of a quantity is the larger of a trillionth and a billionth of it |
| `EntrySettlement.ProjectionDefined` | kairos_execution/paper_engine.py:639-685 | One read decides if and only if position and records are readable, every record passes validation, an open position is covered by exactly one record, and without a position at most one record is terminal and unfilled |
| `EntrySettlement.ProjectionMeaning` | kairos_execution/paper_engine.py:639-685 | For every account read: a returned record is valid and either the only one whose fill covers the open position or terminal with no fill and no position; no record means no position, and with no open order and no fill nothing is left |
| `EntrySettlement.SettledButStillFillable` | kairos_execution/paper_engine.py:663-671 | However an entry was settled: the settled order can still fill if and only if the position is open and a working entry record covers it |
| `LifecycleWitnesses.HalfFilledOrderSettles` | kairos_execution/paper_engine.py:663-671 | Concrete account read: an open, half-filled entry order settles at once although it may still fill |
| `LifecycleWitnesses.RelabelledOrderReadsFilled` | kairos_execution/paper_engine.py:632-637 | A relabelled acknowledgement reads as filled if and only if its remainder was below its quantity |
| `LifecycleWitnesses.DustBecomesAFill` | kairos_execution/paper_engine.py:3846-3860 | Concrete acknowledgement: NEW with nothing filled, CANCELED with a billionth filled |
| `LifecycleWitnesses.EmergencyFlatBesideFiredStop` | kairos_execution/paper_engine.py:1482-1511 | A played run from the fresh trade: an emergency exit that prepared no close may go FLAT although every read since it began shows the stop fired |
| `LifecycleWitnesses.FlatBesideOpenEntry` | kairos_execution/paper_engine.py:2348-2372 | A played run from the fresh trade, for the stop and for the target: the trade may go FLAT while its entry order is open at the venue |
| `LifecycleWitnesses.EntryClosedExactlyAfterManualExit` | kairos_execution/paper_engine.py:2729-2798 | FLAT guarantees a closed entry order if and only if the exit was a timeout or an emergency |
| `LifecycleRuns.PlayIsSafe` | kairos_execution/paper_engine.py:116-127 | Any sequence of enabled steps from a fresh trade, in any order, is safe at its end |
| `LifecycleRuns.TakeKeeps` | kairos_execution/paper_engine.py:116-127 | Every enabled step keeps the invariant |
| `PaperEngine.PaperEngine.TpslEffect` | kairos_execution/paper_engine.py:1886-1945 | A protective create is sent by the caller that created its row only, and, when it is new, is journalled and sent unless an await on the way raises; a returned identity is the venue's own; a target needs an armed stop |
| `PaperEngine.PaperEngine.ConfirmLeg` | kairos_execution/paper_engine.py:1277-1321 | After a normal return the leg's identity is on the row and, for the stop, it was read back live and reconciled |
| `PaperEngine.PaperEngine.ArmStop` | kairos_execution/paper_engine.py:1268-1341 | A normal return means an armed stop on the row; the trade stays PROTECTING otherwise |
| `PaperEngine.PaperEngine.ArmTarget` | kairos_execution/paper_engine.py:1343-1412 | A normal return means ACTIVE; callable only behind an armed stop |
| `PaperEngine.PaperEngine.Protect` | kairos_execution/paper_engine.py:1262-1417 | However it ends short of a crash: either no account read was needed and the trade is ACTIVE, or the first read since opens an emergency before the trade was recorded ACTIVE (`LifecycleCompensation.ProtectionFrom`): a listed entry is cancelled, and once a read shows it gone beside a readable position the row enters EXITING_EMERGENCY and exactly that position is closed, unless a transition on the way raised, which is on record; a stop not yet created is undertaken first; a normal return means ACTIVE or FLAT |
| `PaperEngine.PaperEngine.CancelEntryOrder` | kairos_execution/paper_engine.py:2527-2567 | At most one cancellation is sent and no account is read; the returned answer is the one settled in the journal |
| `PaperEngine.PaperEngine.CancelEntryAndMeasure` | kairos_execution/paper_engine.py:2684-2727 | The returned quantity is the position of the last account read, in which the entry was gone, and the entry is closed for good; zero is an observed zero; a fill that arrived since is recorded exactly when it exceeds the record within the approval, as the smaller of position and approval; also for a caller whose row is older than the last commit; an exception after a measure is a transition that raised |
| `PaperEngine.PaperEngine.CloseEffect` | kairos_execution/paper_engine.py:1947-2013 | A returned close record is the one settled in the journal of this exit; a new close of a positive quantity is journalled for exactly it and sent, unless an await on the way raises |
| `PaperEngine.PaperEngine.AssertManualCloseWon` | kairos_execution/paper_engine.py:2800-2830 | Called with the position seen gone behind the close; it takes one account read, and unless that raises returns normally if and only if the read judges the close won: filled in full for exactly the requested quantity, no fired protection |
| `PaperEngine.PaperEngine.IdentifyLeg` | kairos_execution/paper_engine.py:2856-2918 | None only when no create was ever issued; otherwise the venue's own identity; nothing is sent |
| `PaperEngine.PaperEngine.CancelLegRemaining` | kairos_execution/paper_engine.py:2832-3001 | After a normal return the order this leg created, if any, is not live and never will be |
| `PaperEngine.PaperEngine.CancelLegOrder` | kairos_execution/paper_engine.py:2949-3001 | A verified cancellation leaves the order gone for good |
| `PaperEngine.PaperEngine.CancelRemaining` | kairos_execution/paper_engine.py:2832-3001 | A normal return leaves no stop or target of the trade live or ever live again, whatever it started from; only cancellations are sent |
| `PaperEngine.PaperEngine.MustBeFlat` | kairos_execution/paper_engine.py:1457-1481 | A normal return has just observed zero position and no open entry order, behind any close that was prepared; a read that shows either open takes the trade to FAILED_BLOCKED, unless that transition raises |
| `PaperEngine.PaperEngine.EmergencyClose` | kairos_execution/paper_engine.py:1419-1511 | However it ends short of a crash, it reads the account first, cancels a listed entry, and takes up the exit as soon as a read measures the position (`LifecycleCompensation.EmergencyFrom`); a normal return means FLAT, even when the caller holds the row from before a commit that raised |
| `PaperEngine.PaperEngine.CloseMeasured` | kairos_execution/paper_engine.py:2640-2682 | The measured quantity is closed once and a normal return means FLAT |
| `PaperEngine.PaperEngine.FinishUnclosedExit` | kairos_execution/paper_engine.py:1482-1511 | With nothing to close, a normal return means FLAT after a fresh zero position |
| `PaperEngine.PaperEngine.FinishManualExit` | kairos_execution/paper_engine.py:2729-2798 | A normal return means FLAT, with the close proven won and no protection left; without a close effect it never returns normally |
| `PaperEngine.PaperEngine.ResumeCloseExit` | kairos_execution/paper_engine.py:2626-2682 | Re-measures, then closes or finishes: a positive measure is closed for exactly its quantity when no close was prepared before; a normal return means FLAT |
| `PaperEngine.PaperEngine.TimeoutClose` | kairos_execution/paper_engine.py:2569-2594 | Callable only behind a clock reading past the holding time; short of a crash the row enters EXITING_TIMEOUT and the measured position is closed, unless a transition raised; a normal return means FLAT |
| `PaperEngine.PaperEngine.TransitionVenueExit` | kairos_execution/paper_engine.py:2596-2624 | The trade enters the exit of the protection proven fired, which is gone, with the filled exit order on the history |
| `PaperEngine.PaperEngine.FinishTriggered` | kairos_execution/paper_engine.py:2729-2798 | A normal return means FLAT with both protections harmless |
| `PaperEngine.PaperEngine.ResumeTriggered` | kairos_execution/paper_engine.py:2751-2760 | A recorded trigger exit finishes only if the same protection is proven fired again |
| `PaperEngine.PaperEngine.RecordCumulativeFill` | kairos_execution/paper_engine.py:2477-2525 | The recorded fill follows the position of a read that still counts, within tolerance, upwards only; nothing else of the row changes; on a readable fill it raises only for a transition that raised |
| `PaperEngine.PaperEngine.SettleOrCancelEntry` | kairos_execution/paper_engine.py:583-637 | At most eight reads and one cancellation; a returned record is true of the venue, settled by the very last read in one of three ways, and may still fill if and only if that read showed a working covering record; it raises only for an await that raised, a read that cannot decide or shows an unexplained fill, or a cancellation that is unanswered, refused or not visible |
| `PaperEngine.PaperEngine.CancelAndProve` | kairos_execution/paper_engine.py:604-637 | The second half: at most four reads after the one cancellation |
| `PaperEngine.PaperEngine.EntryEffect` | kairos_execution/paper_engine.py:1549-1614 | Sent only inside the entry window; a returned record is valid, is the entry's own, true of the venue and on record as the answer to the placement |
| `PaperEngine.PaperEngine.SubmitEntry` | kairos_execution/paper_engine.py:450-473 | As EntryEffect, settled when the acknowledgement was still open; the returned record is one the history shows |
| `PaperEngine.PaperEngine.CompensateAmbiguousEntry` | kairos_execution/paper_engine.py:474-513 | Entries are revoked before anything is read; when the revocation fails nothing else happens; otherwise exposure is dealt with as in CloseExposure; a normal return means that exposure was found and the trade is FLAT |
| `PaperEngine.PaperEngine.CloseExposure` | kairos_execution/paper_engine.py:482-513 | However it ends short of a crash: the account is read, and any position it shows becomes a fill of the smaller of position and approval, dated at the eligibility, and opens an emergency, unless that transition raised; without a position it raises and does nothing more |
| `PaperEngine.PaperEngine.RecordEntryAnswer` | kairos_execution/paper_engine.py:514-581 | However it ends short of a crash, its first transition records the answer for what it says: a positive fill as exactly this fill, dated by the venue's stamps, and then protected; a terminal answer without fill as CANCELLED; anything else as still pending; refused stamps raise before any transition |
| `PaperEngine.PaperEngine.PlacePending` | kairos_execution/paper_engine.py:443-581 | A normal return leaves the placement row durable and the trade pending, ACTIVE, FLAT or CANCELLED; short of a crash the answer was recorded for what it says, or the placement was ambiguous and its exposure dealt with, or an await before the placement raised; a placement that went out and has no outcome on record counts as ambiguous, and then the account is closed to entries unless the revocation itself failed |
| `PaperEngine.PaperEngine.SubmitNewTrade` | kairos_execution/paper_engine.py:414-581 | An expired decision is CANCELLED unsent; any other has its placement row durable and ends pending, ACTIVE, FLAT or CANCELLED with its answer recorded or its exposure dealt with, or says which await raised; an ambiguous placement closes the account as in PlacePending |
| `PaperEngine.PaperEngine.RecoverPreMutationGap` | kairos_execution/paper_engine.py:737-792 | A RECEIVED trade is cancelled, unless the transition raises; a pending one is CANCELLED only without placement row, order record and position, and one that has its row is left as it is |
| `PaperEngine.PaperEngine.ReconcilePlacement` | kairos_execution/paper_engine.py:2058-2085 | The placement is RECONCILED with the very record the read shows, and nothing is sent |
| `PaperEngine.PaperEngine.ReconcileCreate` | kairos_execution/paper_engine.py:2086-2124 | The create is settled and its protection has entered the listing; when the account is flat both protections are harmless afterwards; only cancellations are sent |
| `PaperEngine.PaperEngine.ReconcileOther` | kairos_execution/paper_engine.py:2125-2160 | Cancellations and closes are RECONCILED only when the read shows their outcome, and nothing is sent |
| `PaperEngine.PaperEngine.RecoverEffect` | kairos_execution/paper_engine.py:2015-2160 | An unsettled effect is looked for in a fresh account read; a normal return leaves it settled; recovery never sends that effect, and sends nothing but cancellations of protections |
| `PaperEngine.PaperEngine.ReconcileExcess` | kairos_execution/paper_engine.py:2201-2228 | However it ends short of a crash: a position beyond the approval becomes a fill of the approved quantity where there was none, and opens an emergency; a normal return means FLAT |
| `PaperEngine.PaperEngine.AdoptFill` | kairos_execution/paper_engine.py:2231-2273 | However it ends short of a crash: a readable position becomes exactly this fill, dated by the venue's stamps, and is protected, unless the transition raised; a normal return ends ACTIVE or FLAT with its time dated inside the window |
| `PaperEngine.PaperEngine.CancelUnfilled` | kairos_execution/paper_engine.py:2283-2344 | A placement reconciled as absent, or a valid terminal record without a fill, takes the trade to CANCELLED unless the transition raises; no record leaves it pending; anything else is refused; CANCELLED only when the entry was never sent or is closed at the venue |
| `PaperEngine.PaperEngine.ReconcilePending` | kairos_execution/paper_engine.py:2230-2346 | A pending trade ends pending, ACTIVE, FLAT or CANCELLED; with an open position it is adopted; an open order is left alone until its window closes and is then cancelled |
| `PaperEngine.PaperEngine.ReconcileGone` | kairos_execution/paper_engine.py:2348-2372 | A vanished position is attributed to the one fired protection that is proven, and to nothing else; a normal return means FLAT |
| `PaperEngine.PaperEngine.RefreshActive` | kairos_execution/paper_engine.py:2381-2403 | Late fills are recorded and an expired remainder is gone from the returned read |
| `PaperEngine.PaperEngine.ReconcileActive` | kairos_execution/paper_engine.py:2381-2451 | Behind a live stop and a live target the trade stays ACTIVE before its timeout and is closed from it on, unless a transition raised; a position that is gone is attributed to a proven trigger; a normal return means ACTIVE so, or FLAT |
| `PaperEngine.PaperEngine.ReconcileExiting` | kairos_execution/paper_engine.py:2459-2475 | A manual exit that still reads a position closes it; a triggered exit is left alone only while the position is still open; anything else is taken further on a fresh read; a manual exit ends FLAT, and one without a close effect that reads zero never returns normally |
| `PaperEngine.PaperEngine.ReconcileTrade` | kairos_execution/paper_engine.py:2174-2475 | On a readable view, short of a crash: more than the approval is closed, a first fill adopted, a fill without protection protected, a trade behind live protection kept until its time is up and then closed, and a pending entry or an exit under way decided (`LifecycleCompensation.HoldingAnswered`); a normal return never leaves a trade unprotected, in the middle of a close of its own, or blocked; and none is possible for a manual exit without a close effect on a zero position |
| `PaperEngine.PaperEngine.RecoverEffects` | kairos_execution/paper_engine.py:703-711 | Recovering any list of due rows sends nothing but cancellations of protections; a normal return leaves every listed row that was there settled |
| `PaperEngine.PaperEngine.ReconcileRedelivery` | kairos_execution/paper_engine.py:687-735 | As ReconcileTrade for a decision delivered again: a normal return has finished the trade or made a whole pass over it, on a read of its own |
| `PaperEngine.PaperEngine.Handle` | kairos_execution/paper_engine.py:346-435 | Behind a closed gate it fails and changes nothing; a new trade is sent only through a gate that was open, on a clock reading between eligibility and expiry, and ends as SubmitNewTrade says; an ambiguous placement leaves the account closed, whether or not exposure was found, unless the revocation itself failed; a normal return leaves the trade converged, and a redelivered one finished or passed over on a read of its own |
| `PaperEngine.PaperEngine.AwaitEligibility` | kairos_execution/paper_engine.py:358-371 | At most two clock readings and one bounded wait; it returns the last reading if and only if that is at or after eligibility |
| `PaperEngine.PaperEngine.ReconcileUnlocked` | kairos_execution/paper_engine.py:831-877 | Done(false) exactly when this process has not recovered or the account is closed, with the trade and its history untouched; Done(true) leaves the trade converged, and finished or passed over on a read of its own |
| `PaperEngine.PaperEngine.ReconcileOnce` | kairos_execution/paper_engine.py:818-829 | The same, and an exception closes the account unless the revocation itself fails |
| `PaperEngine.PaperEngine.RecoverSteps` | kairos_execution/paper_engine.py:218-259 | When no step failed the trade has converged, and is finished or was passed over on a read of its own |
| `PaperEngine.PaperEngine.FinalRead` | kairos_execution/paper_engine.py:260-267 | The evidence is the last account read with the trade as it now is |
| `PaperEngine.PaperEngine.InitializeRecovery` | kairos_execution/paper_engine.py:192-276 | A pass without blockers has converged the trade, opened the gate, and rests on a clean account whose very last read lists the trade; an exposed trade then has its planned stop live in that read; a pass with blockers leaves the gate closed |
| `PaperEngine.AccountedIsProtected` | kairos_execution/paper_engine.py:1211-1224 | In a clean account that lists the trade, an exposed trade with a position has its planned stop live |
| `PaperEngine.PaperEngine.Execute` | kairos_execution/paper_engine.py:116-127 | Every command keeps the invariant; a lost process leaves its successor behind a closed gate; local blockers are lifted by a clean recovery only |
| `PaperEngine.PaperEngine.Run` | kairos_execution/paper_engine.py:116-127 | Every run of commands, exceptions and crashes keeps the invariant and is safe from its first step |
| `PaperEngine.RunFromScratch` | kairos_execution/paper_engine.py:116-127 | The same from a freshly created trade |
| `AccountAudit.Audit` | kairos_execution/paper_engine.py:1077-1237 | No blocker and no error if and only if the whole account snapshot is accounted for |
| `AccountAudit.BuildOwners` | kairos_execution/paper_engine.py:1095-1122 | No blocker if and only if no two trades share a symbol, an entry id or a protection and every symbol is allowed; the lookups are then exact |
| `AccountAudit.CheckPosition` | kairos_execution/paper_engine.py:1136-1161 | No blocker if and only if the row has its owner's side, leverage and allowed quantity, and the recorded fill when PROTECTING or ACTIVE |
| `AccountAudit.CheckPositions` | kairos_execution/paper_engine.py:1124-1161 | No blocker if and only if every open row is held as planned; the accumulated totals are then the projection of the rows |
| `AccountAudit.CheckOrders` | kairos_execution/paper_engine.py:1162-1185 | No blocker if and only if every open order is a valid entry of a working trade; likewise for the totals |
| `AccountAudit.CheckProtections` | kairos_execution/paper_engine.py:1187-1209 | No blocker if and only if every live protection, as a map by id, is owned with the planned geometry |
| `AccountAudit.CheckTrades` | kairos_execution/paper_engine.py:1211-1224 | No blocker if and only if every ACTIVE trade has a position and target and every exposed trade its stop |
| `AccountAudit.ProjectBalance` | kairos_execution/paper_engine.py:1239-1254 | Succeeds exactly on readable rows, with their projection |
| `AccountAudit.ProjectionHoldsTotals` | kairos_execution/paper_engine.py:1124-1135 | The accumulated dictionary holds exactly the positive per-symbol, per-side totals |
| `AccountAudit.MatchMeansSameTotals` | kairos_execution/paper_engine.py:1256-1260 | The two dictionaries match if and only if the per-symbol, per-side totals agree |
| `AccountAudit.CleanMeansSums` | kairos_execution/paper_engine.py:1239-1260 | In a clean account, for every instrument and side, the balance summary agrees with the sum of the open positions and with the sum of the unfilled order quantities |
| `AccountAudit.SeparateExtends` | kairos_execution/paper_engine.py:1095-1122 | A further trade keeps the trades separate if and only if the lookups do not know its identities |
| `AccountAudit.CleanPositionHasOneOwner` | kairos_execution/paper_engine.py:1125-1161 | In a clean account each open position row has exactly one owning trade, which holds it as planned |
| `AccountAudit.CleanExposureIsProtected` | kairos_execution/paper_engine.py:1211-1224 | In a clean account every exposed trade has its own stop live at the planned stop price, and every ACTIVE trade its target at the planned target price as well |
| `AccountRecovery.AccountGate.Conclude` | kairos_execution/paper_engine.py:260-276 | The account is opened if and only if every step succeeded, the final snapshot is clean and no other recovery began; a result without blockers means the gate is open on that snapshot |
| `AccountRecovery.AccountGate.Begin` | kairos_execution/paper_engine.py:196-200 | Revocation comes first, under a new epoch |
| `AccountRecovery.AccountGate.Rivals` | kairos_execution/paper_engine.py:268-275 | Recoveries of other processes, which may complete, keep every permission on a clean snapshot |
| `AccountRecovery.AccountGate.Complete` | kairos_execution/paper_engine.py:268-275 | Permission is granted only for the expected epoch and rests on the clean snapshot |
| `AccountRecovery.AccountGate.Block` | kairos_execution/paper_engine.py:319-327 | After a normal return the account is revoked durably and a blocker remains; a failure leaves the blockers |
| `AccountRecovery.AccountGate.Collect` | kairos_execution/paper_engine.py:222-259 | No blocker if and only if every step succeeded |
| `ProductionClaims.WithClaim` | kairos_execution/production_claims.py:247-291 | A claim is inserted once, nothing is ever removed or changed, and the tables stay consistent |
| `ProductionClaims.WithTerminal` | kairos_execution/production_claims.py:299-359 | A terminal is written once, for its exact claim only, and an admitted write is on record afterwards |
| `ProductionClaims.PostgresClaims.TryClaim` | kairos_execution/production_claims.py:247-291 | True proves that this very call inserted the row; a failure may hide the insertion |
| `ProductionClaims.PostgresClaims.Finish` | kairos_execution/production_claims.py:365-423 | A normal return proves the terminal on record for the exact claim; a failure may hide the write |
| `ProductionClaims.PostgresClaims.Load` | kairos_execution/production_claims.py:425-459 | Returns the row with its terminal, only for its own context |
| `OneShotDispatch.RunSafe` | kairos_execution/production_dispatch.py:286-440 | For every number of workers and every interleaving, loss and crash: one call per identity, each on the caller's own committed claim, all authority checks, a reading before expiry and, on the wire, a COMPLETED signing claim with that exact signature; returned results are on record as COMPLETED; COMPLETED terminals were really called |
| `OneShotDispatch.InvIsSafe` | kairos_execution/managed_signer.py:341-435 | The invariant implies these four statements about signing and dispatch |
| `OneShotDispatch.StepKeeps` | kairos_execution/production_dispatch.py:286-440 | Every single step of any worker keeps the invariant |
| `OneShotDispatch.ClaimKeeps` | kairos_execution/production_claims.py:247-291 | Committing a claim makes at most one worker the owner of its identity |
| `OneShotDispatch.CallKeeps` | kairos_execution/production_dispatch.py:391-424 | Calling the sender or the signing backend keeps the invariant |
| `OneShotDispatch.WriteKeeps` | kairos_execution/production_dispatch.py:442-482 | A terminal write that lands late, after its issuer is gone, keeps the invariant |
| `OneShotDispatch.ReleaseKeeps` | kairos_execution/production_dispatch.py:435-440 | A result is released only behind its own acknowledged terminal |
| `OneShotDispatch.RunGrows` | kairos_execution/production_claims.py:38-69 | Claims, terminals and the record of calls are write-once over every run |
| `DispatchTrails.TrailOf` | kairos_execution/production_dispatch.py:286-440 | After any run, a worker that has not stopped got where it is by its own actions in the order of the protocol, each with its good verdict and a clock that never runs backwards nor reaches the expiry |
| `DispatchTrails.CallsWalked` | kairos_execution/production_dispatch.py:286-424 | Behind every call of a run stands, among the actions, the whole walk of its worker: begin within thirty of the expiry, on the wire the loaded evidence and the independent verification, authority, its own claim and acknowledgement, on the wire the second check |
| `DispatchTrails.ReleasesWalked` | kairos_execution/managed_signer.py:341-435 | Every released digest is that of a good answer to the releasing worker's own earlier call, found among the actions, with the completion and its acknowledgement after it |
| `DispatchTrails.CompletionsWalked` | kairos_execution/production_dispatch.py:428-440 | Every COMPLETED terminal of a run holds the digest of a good answer to the call of the worker that owns its identity |
| `DispatchTrails.CheckingAuthorizes` | kairos_execution/production_dispatch.py:286-390 | A worker whose evidence is in place and whose verdicts are good is authorized, and nothing else changes |
| `DispatchTrails.ClaimingAdmits` | kairos_execution/production_dispatch.py:370-415 | An authorized worker whose identity is unclaimed becomes its owner and is admitted, and nobody else moves |
| `DispatchTrails.CompletionReleases` | kairos_execution/production_dispatch.py:415-440 | An admitted worker answered in time calls exactly once and releases exactly that answer behind its own COMPLETED terminal |
| `DispatchTrails.FailureIsRecorded` | kairos_execution/production_dispatch.py:391-482 | A call or second check that fails while it can still be recorded stops the worker, and once its write lands the identity is UNRESOLVED with nothing released |
| `JournaledAdapter.CalledOnce` | kairos_execution/journaled_adapter.py:68-133 | Every call carries exactly the request on record and follows its durable row; placing, closing and setting leverage reach the venue at most once per key |
| `JournaledAdapter.ConfirmedWasAnswered` | kairos_execution/journaled_adapter.py:83-91 | What is on record as CONFIRMED is what the venue answered to the call directly before, as it came |
| `JournaledAdapter.ReconciledWasSeen` | kairos_execution/journaled_adapter.py:238-346 | What is on record as RECONCILED claims nothing that was not seen directly before: no fill for an order or close over a flat position, the stop that was found, or none over a flat position |
| `JournaledAdapter.RecoveredPlaceWasFlat` | kairos_execution/journaled_adapter.py:238-262 | A recovered placement was settled directly after its order was seen inactive and then the position seen flat, with a cancelled report of this very order |
| `JournaledAdapter.Adapter.PlaceOrder` | kairos_execution/journaled_adapter.py:68-91 | A normal return is the report on record; a new key is journalled, sent once and confirmed with the venue's own answer, which is returned; a settled key is replayed and a changed request refused, without touching venue or journal |
| `JournaledAdapter.Adapter.ClosePosition` | kairos_execution/journaled_adapter.py:93-133 | The same for closes |
| `JournaledAdapter.Adapter.SetProtectiveStop` | kairos_execution/journaled_adapter.py:135-180 | A normal return is settled, with the stop on record, or with none required; a new key returns the venue's own answer; a settled key is replayed and a changed request refused |
| `JournaledAdapter.Adapter.CancelOrder` | kairos_execution/journaled_adapter.py:182-213 | A normal return is settled, which the history allows only after the order was seen inactive; a settled key touches nothing, an unsettled one is looked at |
| `JournaledAdapter.Adapter.SetLeverage` | kairos_execution/journaled_adapter.py:215-236 | A normal return is settled; a new key is sent once and confirmed; a settled key is replayed and a changed request refused |
| `JournaledAdapter.Adapter.RecoverPlace` | kairos_execution/journaled_adapter.py:238-262 | A normal return is RECONCILED with the returned report, and the placement is not sent |
| `JournaledAdapter.Adapter.RecoverClose` | kairos_execution/journaled_adapter.py:264-293 | A normal return is RECONCILED with the returned report, and the close is not sent |
| `JournaledAdapter.Adapter.RecoverStop` | kairos_execution/journaled_adapter.py:295-346 | A normal return is settled: an existing stop, none needed when flat, or a new one |
| `JournaledAdapter.Adapter.RecoverEffect` | kairos_execution/journaled_adapter.py:363-392 | A normal return is settled, and a one-shot effect is never sent by recovery |
| `JournaledAdapter.Adapter.RecoverPending` | kairos_execution/journaled_adapter.py:348-361 | Every listed effect is settled or among the blockers, and none that could be recovered is passed over; no blockers means all are CONFIRMED or RECONCILED |
| `JournaledAdapter.Adapter.Run` | kairos_execution/journaled_adapter.py:58-66 | Any sequence of calls, redeliveries, recoveries and crashes keeps the invariant and the at-most-once rule |
| `ExecutionTrails.TrustedAccounts` | kairos_execution/engine.py:562-638 | A trusted report speaks about this venue, order, symbol and side and accounts for it: nothing beyond the quantity, all of it when FILLED, filled and remaining together while it works |
| `ExecutionTrails.ExactReportIsTrusted` | kairos_execution/engine.py:547-638 | A report that answers this very order and accounts for it exactly is trusted, however much of it was filled |
| `ExecutionTrails.ExplicitStopIsExact` | kairos_execution/engine.py:166-201 | A requested stop is accepted if and only if it lies on the losing side of the entry, less than the whole price away, and is then armed at exactly the requested price |
| `ExecutionEngine.ExecutionEngine.OpenPosition` | kairos_execution/engine.py:104-220 | For every answer of the venue and for none, whether it returns or raises: an unfilled trusted refusal is passed on; a stop goes where the intent asked or the default distance from the entry price, exactly when one protects; everything else, and a stop that failed, is compensated; at most one close |
| `ExecutionEngine.ExecutionEngine.Compensate` | kairos_execution/engine.py:432-545 | Whether it returns or raises: an entry that may still work is cancelled first and must be inactive, the position is read, and what is open is closed once unless an earlier close works; it returns exactly when the position ends flat |
| `ExecutionEngine.ExecutionEngine.CloseAndObserve` | kairos_execution/engine.py:486-545 | One close; it returns exactly when the position then reads flat, the answer does not speak against it, and the close is inactive |
| `ExecutionEngine.ExecutionEngine.ResolveAmbiguousEntry` | kairos_execution/engine.py:323-354 | Never returns normally: the entry is compensated and the delivery stays pending |
| `ExecutionEngine.ExecutionEngine.CloseToDesiredState` | kairos_execution/engine.py:222-321 | Whether it returns or raises: on a flat position nothing is sent and no fill is claimed; otherwise one close is sent unless one works already, and its answer is returned only when trusted, FILLED and over a flat position with the close inactive; the desired state without a fill in every other normal end |
| `ExecutionEngine.ExecutionEngine.CancelIfActive` | kairos_execution/engine.py:381-408 | Returns exactly when the order was seen inactive, at once or after one cancellation; nothing else was touched |
| `ExecutionEngine.ExecutionEngine.HandleOnce` | kairos_execution/engine.py:64-104 | Only allowed, approved orders act; a blocked engine only closes; a detached one never opens; the side is BUY for a long entry, SELL for a short one and the intent's own for a rebalance; a reduction sets the leverage to half, at least one, and does nothing else; entries and closes end as their histories above say |
| `ExecutionEngine.ExecutionEngine.Handle` | kairos_execution/engine.py:45-62 | A retained message never reaches the venue again: it is replayed, or refused when its payload changed; a new one ends as HandleOnce says; only successes are remembered |
| `ExecutionEngine.ExecutionEngine.HandleAll` | kairos_execution/engine.py:45-62 | Over any history of requests the memory stays exact and within its size |
| `ExecutionTrails.Compensated` | kairos_execution/engine.py:640-686 | A compensated report is CANCELED, about this very order, and claims what the entry reported as far as it is finite and within the requested quantity |
| `ExecutionTrails.CompensationMeansFlat` | kairos_execution/engine.py:432-545 | A compensation that ends normally has seen the position flat after the last thing it did, and an entry that might still work cancelled and inactive before it measured anything |
| `ExecutionTrails.OpenEndsSafe` | kairos_execution/engine.py:104-220 | An OPEN that ends normally left an unfilled trusted refusal, a trusted entry behind an acknowledged stop, or an observed flat position behind a withdrawn entry |
| `ExecutionTrails.CloseEndsFlat` | kairos_execution/engine.py:222-321 | A CLOSE that ends normally has seen the position flat and then the close inactive; a fill is reported only as the venue's trusted FILLED answer to the close that was sent |
| `IdempotencyCache.TouchRetained` | kairos_execution/engine.py:47-57 | Touching a retained message moves it to the end of the window exactly as it moves to the end of the unbounded recency order |
| `IdempotencyCache.TouchForgotten` | kairos_execution/engine.py:59-61 | Touching a message outside the window appends it and drops the oldest exactly as the last N of the unbounded order |
| `IdempotencyCache.StoreRemembers` | kairos_execution/engine.py:59-62 | After a store the dictionary again holds exactly the last N distinct messages in recency order with their latest fresh values |
| `IdempotencyCache.ReplayRemembers` | kairos_execution/engine.py:47-57 | The same after a replay |
| `IdempotencyCache.Cache.Store` | kairos_execution/engine.py:59-61 | The fresh result is retained and the size never exceeds the capacity |
| `IdempotencyCache.Cache.Replay` | kairos_execution/engine.py:49-57 | A replay changes the order only |
| `CancellationSafety.CancellationKeepsCover` | kairos_execution/production_cancellation.py:934-1025 | For every accepted snapshot and every role, removing the target leaves no position, or all of it behind the trade's own stop or a reduce-only exit on the closing side |
| `CancellationSafety.AcceptedIsFreshAndOwn` | kairos_execution/production_cancellation.py:934-1025 | Accepted facts come from this source, are of this account and instrument, at most five seconds old and still valid, and the target is the trade's own working entry order, or the stop or target its row names, behind its entry |
| `CancellationSafety.TargetIsNotTheStop` | kairos_execution/production_cancellation.py:117-127 | Unique identities make the cancelled target a different record from every stop |
| `CancellationSafety.TargetDecisionIsExact` | kairos_execution/production_cancellation.py:996-1025 | An owned target is let go if and only if what remains is flat or behind the stop |
| `CancellationSafety.StopDecisionIsExact` | kairos_execution/production_cancellation.py:996-1013 | An owned stop is let go if and only if what remains is flat or behind a competing exit |
| `CancellationSafety.EntryDecisionIsExact` | kairos_execution/production_cancellation.py:952-995 | The trade's own working entry order is let go if and only if nothing is held, or what is held stands behind both of its own protections |
| `CancellationSafety.UniquenessIsNeeded` | kairos_execution/production_cancellation.py:117-127 | Concrete facts without unique identities: accepted, and the position is left bare |
| `CancellationClaims.SentOnceAndCovered` | kairos_execution/production_cancellation.py:302-416 | Every cancellation of a history went out once per effect, after its claim was won, proven before and after the claim with the same digests, the second time directly before and on fresh facts about this very order, under which letting it go keeps the cover |
| `CancellationClaims.Canceller.Cancel` | kairos_execution/production_cancellation.py:302-416 | A normal return won the claim, sent the target proven again with the same digests, and returns the digest of the venue's own CANCELED for it, on record as COMPLETED; a claim that was won never ends without an attempt to record it, UNRESOLVED for anything else; an effect already claimed is never sent |
| `CancellationClaims.Canceller.Prove` | kairos_execution/production_cancellation.py:418-562 | A proven plan rests on well-shaped, accepted venue facts |
| `CancellationClaims.Canceller.Record` | kairos_execution/production_cancellation.py:1027-1051 | A normal return has the terminal on record; an exception stays in the history |
| `Decimals.PrintRoundTrips` | kairos_execution/production_dispatch.py:138-160 | For every non-negative integer the printed decimal parses to exactly v / 10^8 and is canonical |
| `Decimals.PrintIsInjective` | kairos_execution/production_dispatch.py:138-160 | Different integers print differently |
| `Decimals.WireBody` | kairos_execution/production_dispatch.py:123-160 | Succeeds exactly for a reviewed operation on unsigned numeric fields; each becomes the canonical decimal of the same value and nothing else changes but policy and signature |
| `Decimals.UnitsSurviveTheWire` | kairos_execution/production_lifecycle_binding.py:70-79 | Printed units read back as the same units, exactly and under both rounding modes |
| `Decimals.ExactUnitsMeaning` | kairos_execution/production_lifecycle_binding.py:70-79 | The exact conversion succeeds if and only if the decimal is a positive whole number of units, and then all conversions agree |
| `Decimals.RoundingBounds` | kairos_execution/crypto.py:85-89 | For all inputs half-up is within half a unit with ties away from zero (section 4.3.1 of IEEE 754-2019), truncation within one unit and never away from zero |
| `MinimumQuantity.EffectiveMinimumIsLeast` | kairos_execution/paper_engine.py:1785-1796 | The effective minimum is a multiple of the increment meeting both minima, and a multiple meets both if and only if it reaches it |
| `MinimumQuantity.VolumeThreshold` | kairos_execution/paper_engine.py:1787-1790 | A multiple reaches the minimum volume if and only if it reaches the rounded volume quantity |
| `MinimumQuantity.MinimumFallsWithPrice` | kairos_execution/paper_engine.py:1864-1874 | The effective minimum never rises with the price |
| `MinimumQuantity.AdmittedAtEveryPriceBetween` | kairos_execution/paper_engine.py:1805-1881 | A quantity admitted at the cap and at the live price is the effective minimum at every price in between |
| `MinimumQuantity.Lowest` | kairos_execution/paper_engine.py:1836-1840 | The best ask is the least ask |
| `MinimumQuantity.Highest` | kairos_execution/paper_engine.py:1836-1840 | The best bid is the greatest bid |
| `MinimumQuantity.DepthAdds` | kairos_execution/paper_engine.py:1842-1861 | The executable depth is the sum of price times quantity over the levels at the cap or better, and of nothing else |
| `MinimumQuantity.DepthIsMarketable` | kairos_execution/paper_engine.py:1842-1861 | A positive book has depth at the cap if and only if some level trades there |
| `MinimumQuantity.DepthGrows` | kairos_execution/paper_engine.py:1842-1861 | A worse cap never finds less depth |
| `ExitRisk.BudgetBoundsRealLoss` | kairos_execution/production_exit_risk.py:661-708 | For longs and shorts: any part of the closable quantity, entered no worse than the position entry or the approved entry and filled, after slippage, no worse than at the executable price or, for a stop, the trigger, loses at most the budget, fee included; stated on the evidence fields |
| `ExitRisk.BudgetedExactly` | kairos_execution/production_exit_risk.py:661-708 | A budget exists if and only if the closable quantity is a positive whole number of units and the executable price is not better than the reference; it is then for exactly that quantity |
| `ExitRisk.ChosenIsWorst` | kairos_execution/production_exit_risk.py:687-703 | The chosen entry and the adverse fill are the worst that the evidence fields allow, and nothing beyond |
| `ExitRisk.UnitLossBounded` | kairos_execution/production_exit_risk.py:698-708 | The same for one unit; for long exits it rests on a fee rate below one |
| `ExitRisk.BudgetIsAttained` | kairos_execution/production_exit_risk.py:698-708 | Some such outcome costs the whole budget if and only if some such outcome is no profit |
| `ExitRisk.AdverseFillPositive` | kairos_execution/production_exit_risk.py:698-703 | Verified rates and prices keep the adverse fill positive |
| `ExitRisk.ProtectionBudgetsTheApproval` | kairos_execution/production_exit_risk.py:678-685 | A protection is budgeted for exactly the approved quantity |
| `ExitRisk.SlippageIsNotMonotone` | kairos_execution/production_exit_risk.py:702-708 | Concrete profitable long exit: more slippage lowers the budget |
| `HistoryPager.Collector.Pages` | kairos_execution/production_history.py:183-238 | At most a hundred reads, each at the offset of the rows held; success only with distinct rows of this account, as many as every page reported; an honest server of an unchanging list of at most ten thousand distinct rows, with any fresh cursors, is read completely unless a read itself fails |
| `HistoryPager.Collector.TakePage` | kairos_execution/production_history.py:188-237 | One page is admitted only with a consistent count and new, owned rows; an honest page always is |
| `HistoryPager.Collector.TakeRows` | kairos_execution/production_history.py:208-223 | Succeeds if and only if every row is owned and all identities stay distinct |
| `HistoryPager.Collector.Read` | kairos_execution/production_history.py:132-172 | Reads run between ordered clock readings and within the size bound |
| `HistoryPager.Collector.CaptureOnce` | kairos_execution/production_history.py:127-262 | A capture holds two complete paging passes between the two account reads, with ordered clocks, all within its allotted span; against honest servers of the two lists it holds exactly those lists, and it succeeds unless a read or a check of the account, the funding or the closing clock fails |

## Left out

- LifecyclePorts.Desk.Fetch: account reads inside health, rule and admission checks are one `Await` without evidence, since no later step relies on them.
- PaperEngine.PaperEngine.Handle: decision validation, canary and operator admission, book freshness and mutation budgets are one await that may refuse.
- PaperEngine.PaperEngine.InitializeRecovery: what became of the other trades' own recovery is given from outside.
- PaperEngine.PaperEngine.RecordEntryAnswer: the parsing of venue timestamps is not modelled; the stamps of an answer are given beside it, and unreadable ones are absent from them.
- PaperEngine.PaperEngine.RefreshActive: no upper bound on a late recorded fill is stated, because the expired-remainder branch does not compare it with the approved quantity; `LifecycleLog.OverfillWasRead` says where such a fill comes from.
- PaperEngine.PaperEngine.ReconcileOnce: other trades of the account are not part of the run; the account-wide audit models them together.
- OneShotDispatch.RunSafe: the transport's private one-call token and the digest of the wire body are folded into the step that admits a worker; a signing worker measures its deadline on a monotonic clock, so its readings are the starting wall reading plus elapsed time.
- JournaledAdapter.Adapter.SetProtectiveStop: at-most-once is not claimed for stops and cancellations, which the code repeats on purpose.
- JournaledAdapter.Adapter.Run: one process works at a time; two processes recovering the same journal at once are not modelled.
- ExecutionEngine.ExecutionEngine.OpenPosition: the in-memory trailing anchors are not kept, only the initial stop price they yield.
- CancellationClaims.Canceller.Prove: durable ownership, owner arm and lineage checks are one verdict of the environment.
- HistoryPager.Collector.Read: payload digests and JSON shapes are not modelled.
- Account equity snapshots, balance funding and telemetry.
- PostgreSQL privileges, schema inspection and advisory locks: tables are maps with the stated key rules.
- Typed-data hashing, signatures, key custody and the signing subprocess.
- HTTP and SDK adapters, market capture, signed input envelopes and language-model capture.
- Configuration, factories and scope-equality constructors: they would add easy members only.
- Staging of the three exit-risk stores and the lifecycle binding's message layout beyond its exact quantities.
- Rounding of binary floating point and the 28-digit decimal context: arithmetic is exact.
