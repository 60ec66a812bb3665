# Marble races: settlement, live stream, archive and fairness

A verification project for the marble-race server and game. It models how the server takes and settles
bets, how it streams a race to subscribers, how races are written to and read from replay files, how spawn
slots follow from the seeds, and how replays are stored -- and proves what each of these keeps over every
history, interleaving and input. `dafny verify dfyconfig.toml` checks everything.

## What is where

* **Settlement.** `Settlement.dfy` is a transition machine: its twenty actions are the lock-held sections and
  wallet calls of OpenSession, PlaceBet, PlaceBetOnRound, GenerateRoundSpec, RunNextRound and CloseSession, and
  a state holds any number of calls in progress at any point of their programs. `SettlementInvariant.dfy` and
  `SettlementSteps.dfy` show what every action keeps; `SettlementSafety.dfy` draws the conclusions over whole
  runs; `SettlementVerdicts.dfy` says exactly which bets are settled in the end; `SettlementProgress.dfy` shows
  that no guard of the machine hides a step of the code, `SettlementBounds.dfy` that no call goes on for ever;
  `SettlementExamples.dfy` strands two stakes.
  `Manager.dfy` says what each section does to the guarded state, and `ManagerObject.dfy` is the Manager as an
  object whose methods do just that, together with whole calls that nothing interrupts; `RunOutcome.dfy` says how
  a whole RunNextRound ends, and `RunReport.dfy` that its report is true: verdicts, payouts in the log, balances.
  `Session.dfy`, `Wallet.dfy`, `Round.dfy` and `Rtp.dfy` are the objects it drives;
  `Tracks.dfy` is the rotation of tracks over calls one after the other, `TrackSections.dfy` over calls that overlap.
* **Live stream.** `Messages.dfy` is the framing. `LiveRound.dfy` is one round with bounded channels, a log and,
  per subscriber, the history of what was sent; `Hub.dfy` holds the objects, `Registration.dfy` the two-lock
  registration protocol, `Ingest.dfy` the loop that feeds a round from a connection.
* **Archive.** `ReplayFormat.dfy` and `ReplayCodec.dfy` are replay format v3, as bytes and as programs over a
  byte buffer; `Lists.dfy` and `Words.dfy` are their building blocks. `Recorder.dfy` is the simulator's side, and
  `LiveArchive.dfy` shows that the stream carries what the file stores, down to the live client.
  `ReplayStore.dfy` interleaves Saves system call by system call; `StoreObject.dfy` is the Store object.
* **Fairness.** `Probing.dfy` is linear probing over home slots; `FairSeed.dfy` the hash preimages, the derivation
  and its Python reference.

Objects that the programs update in place are classes; each method is proved against a function of the old
state, and the theorems are about these functions and their histories. What such a function means is stated once
more without its name -- by direct clauses of the method, or by a lemma that writes the answer, each error and each
byte out.

## Where the code and its documentation disagree

* Every debited bet should be settled or refunded. RunNextRound takes the queue and the pending round first and
  does not put them back on an error, so the bets of a failed run stay open for ever and their sessions locked;
  `SettlementVerdicts.SettledIff` is the exact condition, `SettlementExamples.StakeStranded` a run whose
  bets stay open.
* ErrHeaderRequired says that HEADER must precede any TICK or DONE; DONE is not checked
  (`LiveRounds.DoneWithoutHeader`), and precedes it exactly as `LiveRounds.HeaderPrecedesDoneIff` says.
* A round's result should exist exactly in SETTLE; a finish whose time is refused leaves a result behind in
  RACING (`Rounds.RoundHistory`, `Rounds.ResultWithoutSettle`).
* Tracks should never repeat back to back; they may with two queued specifications or after a failed round
  (`Tracks.TwoQueuedSpecsRepeat`, `Tracks.FailedRoundRepeats`), and when rounds overlap
  (`TrackSections.OverlapRepeats`). `Tracks.NeverRepeatsIff` is the exact condition for calls one after the other,
  `TrackSections.NeverRepeatsIff` that for every interleaving.
* The effective RTP should be within 1 bp; it is exactly when the ten-thousandths of a unit that a round loses to
  rounding are no more than the units it stakes (`Rtp.DriftIsBounded`).
* The order of marbles is said to matter for the derivation. It does for who gets which slot
  (`Probing.AssignmentKeptIff`), but not for the set of slots filled nor for the number of probes
  (`Probing.OrderInvariance`).

## Assumptions

Round ids, bet ids, session ids, object addresses and temporary directory names are fresh where the programs
draw them from the clock or at random. Amounts are uint64 in the wallet and exact reals where the game server
uses float64. SHA-256 and FNV-1a are parameters. In the settlement machine the sections between locks are
atomic, and so are wallet calls. A crash in the replay store is one of the process, not of the machine: the
files of a round are flushed to disk but the directory entries are not, so what a loss of power leaves behind is not
covered. The recorder of a broadcast is given its
round and its marbles once, before the first frame, as `game/main.gd` does. The branch for a fresh seed that
cannot be drawn is kept as the source has it, although Go's generator does not fail.

## Model

| member | source | states |
|---|---|---|
| `SettlementSteps.StepKeeps` | server/rgs/manager.go:165-578 | every lock-held section of every call in progress keeps the invariant that ties the wallet log, the sessions, the queue, the local lists of the runs and the round bets together; no credit is refused |
| `SettlementSafety.PathKeeps` | server/rgs/manager.go:165-578 | the invariant over whole runs, for every interleaving |
| `SettlementSafety.MoneyConserved` | server/rgs/manager.go:165-440 | balances, stakes in flight, waiting, racing and stranded, and the signed house account add up to the initial money, less 2^64 per wrapped balance |
| `SettlementSafety.OneOutcomePerBet` | server/rgs/manager.go:176-190 | the wallet log holds one debit per bet, and never both a refund and a prize; the amounts are those of the bet |
| `SettlementSafety.ListedOnceOrRefunded` | server/rgs/manager.go:565-577 | a round bet is listed in at most one place, with the amount debited, and BetsForRound mirrors that list; a refunded bet is listed nowhere |
| `SettlementSafety.PoppedBetsFrozen` | server/rgs/manager.go:218-223 | the bets of a round only grow at the end while it is pending and never change once a run has popped it |
| `SettlementSafety.SettlementErrorsUnreachable` | server/rgs/manager.go:284-371 | the error returns of AssignMarble, Settle and the credits are unreachable, and each refund and prize moves money |
| `SettlementSafety.OneWinnerPerRun` | server/rgs/manager.go:345-357 | at most one session bet wins a run, and it is paid the RTP share of the full field |
| `SettlementSafety.RoundBetVerdict` | server/rgs/manager.go:415-440 | a settled round bet won exactly if its marble won the run that popped its round; the payout is within 18 units of 19 debits |
| `SettlementSafety.SessionHeldOnce` | server/rgs/manager.go:212-214 | a session is in at most one of the queue and the unsettled seats of all runs, and there once |
| `SettlementVerdicts.SettledIff` | server/rgs/manager.go:211-448 | over every run that ends with nothing in progress: a session bet is settled exactly if its run met no overfull field, found a seed, and had its race answered and not refused; a round bet exactly if, besides, the replay was stored; every other bet is refunded |
| `SettlementVerdicts.SettledByRun` | server/rgs/manager.go:211-448 | the same in terms of the state: settled exactly if the run of the session raced, or the run of the round ended without error |
| `SettlementVerdicts.FailsIff` | server/rgs/manager.go:228-401 | these guards are the only ways a run fails |
| `SettlementVerdicts.AllOrNothingAlways` | server/rgs/manager.go:344-440 | a failed run that had raced has settled every seat, and no failed run has settled a round bet |
| `SettlementVerdicts.UnsavedRunStrandsItsRound` | server/rgs/manager.go:395-401 | a run that fails only because its replay is not stored strands exactly the bets of its round, and no session |
| `SettlementSafety.StrandedIffRunFailed` | server/rgs/manager.go:211-448 | in any state, a stake is stranded exactly when a run that returned an error had taken it |
| `SettlementSafety.StrandedForever` | server/rgs/manager.go:211-223 | no later step frees a stranded bet |
| `SettlementSafety.StrandedSessionLocked` | server/rgs/session.go:103-166 | the session of a stranded bet can neither bet again nor be closed |
| `SettlementSafety.OverfullFieldStrands` | server/rgs/manager.go:272-276 | seating fails, and strands every queued session, exactly when more sessions queued than there are marbles |
| `SettlementExamples.StakeStranded` | server/rgs/manager.go:272-276 | two sessions queue for a race of one marble: a concrete run after which both debited bets are neither settled nor refunded |
| `SettlementProgress.RunsGoOn` | server/rgs/manager.go:211-448 | every RunNextRound in progress can take its next step, whatever the simulator answers |
| `SettlementProgress.CallsGoOn` | server/rgs/manager.go:165-578 | every PlaceBet and PlaceBetOnRound in progress can take its next step |
| `SettlementBounds.StepUsesUp` | server/rgs/manager.go:211-448 | a measure of what a run has left: each of its own steps lowers it, nobody else's changes it |
| `SettlementBounds.RunIsBounded` | server/rgs/manager.go:211-448 | whatever the others do, a run that took n sessions and a round with m bets takes at most 3n + m + 8 more steps |
| `SettlementBounds.CallIsBounded` | server/rgs/manager.go:165-578 | each step of a bet call behind its debit brings it nearer to its end, and no other step does |
| `Managers.Manager.constructor` | server/rgs/manager.go:106-131 | a fresh manager has no sessions, no rounds and no previous track |
| `Managers.Manager.OpenSession` | server/rgs/manager.go:135-152 | a fresh open session under the id, or an error for the empty player |
| `Managers.Manager.AskSession` | server/rgs/manager.go:185-191 | one session takes or refuses a bet; nothing else changes |
| `Managers.Manager.Enqueue` | server/rgs/manager.go:192-194 | the last section of PlaceBet |
| `Managers.Manager.PlaceBet` | server/rgs/manager.go:165-196 | debit, ask, queue; a refusal is refunded and leaves sessions and queue as they were |
| `Managers.Manager.CloseSession` | server/rgs/manager.go:617-625 | closes exactly the sessions that hold no bet |
| `Managers.Manager.Mint` | server/rgs/manager.go:496-499 | the last section of GenerateRoundSpec |
| `Managers.Manager.GenerateRoundSpec` | server/rgs/manager.go:471-502 | a fresh pending round whose track is the hashed entry of the pool unless that is the previous track, and never the previous track if cyclic neighbours of the pool differ; prevTrack and queue move as a step of the rotation |
| `Managers.Manager.FindPendingRound` | server/rgs/manager.go:606-613 | the first pending round with the id |
| `ManagerState.Shared.FindFromSpec` | server/rgs/manager.go:606-613 | nothing is found exactly when no pending round has the id; otherwise the first one that has it |
| `Managers.Manager.LookUpRound` | server/rgs/manager.go:515-543 | which placements are refused before the debit: exactly when each of the errors for marble, amount, unknown round and round already run is returned |
| `Managers.Manager.Append` | server/rgs/manager.go:573-574 | the bet is appended to the round and to the record of its id |
| `Managers.Manager.CommitRoundBet` | server/rgs/manager.go:565-577 | re-validation: append, or refund in full and report the round as run |
| `Managers.Manager.DebitAndCommit` | server/rgs/manager.go:545-577 | debit, balance, commit; undisturbed, the debit is never refunded |
| `Managers.Manager.PlaceBetOnRound` | server/rgs/manager.go:515-578 | the whole placement: accepted exactly when the round is pending, the marble and amount are valid and the debit goes through; otherwise exactly which error |
| `Managers.Manager.BetsForRound` | server/rgs/manager.go:583-602 | a bet is returned for a named player exactly if it is recorded for the round and that player; the entries come in their order, each once; all of them for the empty name; an error exactly for unknown rounds |
| `Managers.Manager.Take` | server/rgs/manager.go:212-223 | takes the whole queue and the oldest pending round |
| `Managers.Manager.Register` | server/rgs/manager.go:225-247 | a fresh round that never becomes pending |
| `Managers.Manager.Begin` | server/rgs/manager.go:212-247 | the specification and the bets that the next round will use |
| `Managers.AssignMarbles` | server/rgs/manager.go:284-288 | seat i races as marble i; no session refuses |
| `Managers.SettleSeat` | server/rgs/manager.go:347-371 | a winner is credited before its session settles; a refused credit leaves both alone |
| `Managers.SettleSeats` | server/rgs/manager.go:345-372 | which seats are settled, and what the wallet holds, with and without a refused credit |
| `Managers.SettleRoundBets` | server/rgs/manager.go:411-440 | every winning round bet is credited once, in order, up to the first refusal, and the verdicts of `RunReports.RoundBetsAreReported` are reported |
| `Managers.RaceRound` | server/rgs/manager.go:260-342 | the manifest and the prize, exactly when the field fits and the race and its arithmetic succeed |
| `Managers.PayRound` | server/rgs/manager.go:344-440 | settles, stores and pays exactly when the replay is stored and no credit is refused; on an error, how far wallet and sessions have got |
| `Managers.SettleRound` | server/rgs/manager.go:249-444 | the part of RunNextRound between its sections |
| `Managers.Manager.Conclude` | server/rgs/manager.go:225-449 | the same on whatever was taken, a run without a seed included |
| `Managers.Manager.ConcludeRound` | server/rgs/manager.go:249-449 | the same on a round that was taken, and the track it leaves behind |
| `Managers.Charge` | server/rgs/manager.go:545-554 | a debit and the balance behind it |
| `Managers.Manager.RunNextRound` | server/rgs/manager.go:211-449 | when a report is returned and what it says (`RunReports`); in every case, the credits made up to the first refusal, which sessions are settled, racing or untouched, and that the queue is gone; prevTrack, the queue of rounds and the track raced move as a step of the rotation |
| `RunOutcomes.PrizeIsTheShare` | server/rgs/manager.go:335-339 | rtp.Settle on MaxMarbles equal stakes yields the prize of the settlement machine |
| `RunOutcomes.RoundCreditsAreWins` | server/rgs/manager.go:415-429 | each credit of a round belongs to one winning bet and each winning bet has its credit, in the order of the bets |
| `RunOutcomes.CreditsAccepted` | server/rgs/manager.go:354-427 | with distinct unpaid bets and known players no credit of a round is refused |
| `Managers.Manager.OldestComesNext` | server/rgs/manager.go:216-247 | the oldest pending round is next, with the bets placed on it; without one, a fresh round under the fresh id and seed |
| `Managers.Manager.TakeAndRun` | server/rgs/manager.go:211-449 | RunNextRound, track rotation apart |
| `Managers.RaceField` | server/rgs/manager.go:295-342 | the race, the manifest and the prize of a seated round, exactly when clock, simulator and arithmetic allow |
| `RunReports.RoundBetsAreReported` | server/rgs/manager.go:411-439 | of each round bet, in order: reported won exactly if its marble is the one the simulator named, and then with the floor of 1900 times its amount, else with 0 |
| `RunReports.SeatsAreReported` | server/rgs/manager.go:344-372 | of each seat, in order: the id, player and amount of its bet, won exactly if its index is the one the simulator named, and then with the whole prize; the session is settled, without bet, and shows that outcome |
| `RunReports.ManifestIsReported` | server/rgs/manager.go:374-395 | the manifest names the round consumed, its track and the winner, lists the queue in order and fillers behind it, and reveals the seed and its hash |
| `RunReports.WinsAreCredited` | server/rgs/manager.go:354-427 | for unpaid bets of known players the log holds the credit of a bet exactly if the report says it won, with the int64 mark of the prize or units reported |
| `RunReports.PlayersGetWhatIsReported` | server/rgs/manager.go:344-440 | the balance of every player has grown by the sum of what the report says that player won, modulo 2^64 |
| `RunReports.RunSucceedsIff` | server/rgs/manager.go:211-449 | for unpaid bets of known players: a report is returned exactly if a seed in hexadecimal, a field that fits, a clock that does not go back, a marble of the field, a pot within range and a stored replay come together; and which error tells a missing seed or an unsaved replay |
| `RunReports.FailedRaceLeavesRacing` | server/rgs/manager.go:293-342 | a run whose race or arithmetic failed leaves every session racing with its bet, on the marble of its seat, and the wallet alone |
| `RunReports.PrizeInNumbers` | server/rtp/rtp.go:43-72 | the prize is at most bps/10000 of the pot of a full field, and by less than one unit |
| `ManagerState.PayoutDust` | server/rgs/manager.go:418-422 | a winning credit is between 19 debits and 18 units more; the lower end exactly when the fraction of a unit staked is below 1/19 |
| `ManagerState.DustEndsAttained` | server/rgs/manager.go:540-543 | both ends of that range occur |
| `Tracks.AvoidsPreviousIff` | server/rgs/manager.go:630-642 | the previous track is avoided, whatever the hash, exactly for pools of two or more whose cyclic neighbours differ |
| `Tracks.SelectTrackIs` | server/rgs/manager.go:630-642 | the track drawn is the hashed entry of the pool, unless that is the previous track: then the entry behind it, cyclically |
| `Managers.RunIsStep` | server/rgs/manager.go:445-447 | what a run does to prevTrack and to the queue of rounds is what the rotation of the theorems does |
| `Tracks.AvoidsIff` | server/rgs/manager.go:630-642 | a track of the pool is avoided, whatever the hash, exactly if it is the previous one |
| `Tracks.SafeIff` | server/rgs/manager.go:212-247 | a call keeps the tracks raced and next in turn free of repeats, whatever its hash, exactly if prevTrack is the last of them when it chooses a track, or the failed round did not separate two equal ones |
| `Tracks.NeverRepeatsIff` | server/rgs/manager.go:468-482 | a sequence of calls never repeats a track, whatever the hashes, exactly if every call comes when it is safe, whatever the hashes |
| `Tracks.RowIsRaced` | server/rgs/manager.go:218-222 | what is next in turn is raced in that order, so a repeat there is a repeat on the track |
| `Tracks.NeverTwiceInARow` | server/rgs/manager.go:468-482 | with at most one queued specification and no failed round every call is safe, and no track runs twice in a row |
| `Tracks.MintedAheadNeverRepeats` | server/rgs/manager.go:468-482 | nor with any number of specifications minted before the first round |
| `Tracks.TwoQueuedSpecsRepeat` | server/rgs/manager.go:445-447 | with two queued specifications a repeat is reachable |
| `Tracks.FailedRoundRepeats` | server/rgs/manager.go:218-224 | so it is after a failed round |
| `TrackSections.GenerateAlone` | server/rgs/manager.go:471-502 | the two sections of an uninterrupted GenerateRoundSpec are one step of the sequential rotation |
| `TrackSections.RunAlone` | server/rgs/manager.go:212-447 | so are the sections of an uninterrupted RunNextRound |
| `TrackSections.SectionSafeIff` | server/rgs/manager.go:212-234 | a lock-held section of any call keeps the tracks started and next in turn free of repeats, whatever its hash, exactly if its guard holds |
| `TrackSections.NeverRepeatsIff` | server/rgs/manager.go:468-499 | under every interleaving: a history of sections never repeats a track, whatever the hashes, exactly if every section comes when it is safe, whatever the hashes |
| `TrackSections.OverlapRepeats` | server/rgs/manager.go:445-447 | two overlapping rounds are enough for a repeat, with never more than one specification queued |
| `Sessions.Session.constructor` | server/rgs/manager.go:143-149 | an open session without bet or result |
| `Sessions.Session.PlaceBet` | server/rgs/session.go:103-120 | the new state or the first error that applies; the marble is reset to -1 |
| `Sessions.Session.AssignMarble` | server/rgs/session.go:124-137 | BET to RACING with the given marble |
| `Sessions.Session.Settle` | server/rgs/session.go:142-153 | RACING to SETTLED, the outcome kept and the bet released |
| `Sessions.Session.Close` | server/rgs/session.go:157-166 | refused while a bet is held |
| `Sessions.AcceptedIsSettledThenHeld` | server/rgs/session.go:96-153 | over all histories the accepted bets are the settled ones, in order, then the one held; ErrBetExists and ErrNoBet are never returned |
| `Sessions.ClosedIsFinal` | server/rgs/session.go:155-166 | closing succeeds exactly without a bet, and nothing changes a closed session |
| `Wallet.MockWallet.constructor` | server/rgs/wallet.go:80-85 | an empty wallet |
| `Wallet.MockWallet.Debit` | server/rgs/wallet.go:95-115 | the balance and the log after a debit, a replay, or one of three errors |
| `Wallet.MockWallet.Credit` | server/rgs/wallet.go:117-132 | the same for a credit, wrapping at 2^64 |
| `Wallet.DebitOutcome` | server/rgs/wallet.go:95-115 | exactly when each of the three errors is returned; the balance and the int64 mark after an applied debit; no change otherwise |
| `Wallet.CreditOutcome` | server/rgs/wallet.go:117-132 | the same for a credit: the balance grows by the amount, less 2^64 on overflow |
| `Wallet.BalanceIsNet` | server/rgs/wallet.go:95-142 | a player's balance is the initial one with the player's own calls, each counted once, modulo 2^64, after any replays and refusals |
| `Wallet.StepAccounts` | server/rgs/wallet.go:95-132 | what one call does to the total held and the total logged |
| `Wallet.StepExactIff` | server/rgs/wallet.go:104-130 | held minus logged is kept by a call exactly when its int64 entry is the change of the balance, and always modulo 2^64 |
| `Wallet.LedgerBalanced` | server/rgs/wallet.go:95-132 | after any calls, replays included, held and logged agree modulo 2^64 |
| `Wallet.LedgerExact` | server/rgs/wallet.go:95-132 | exactly so when no amount or balance leaves its range |
| `Wallet.RunOnlyAdds` | server/rgs/wallet.go:113-130 | players and log entries are never forgotten or rewritten |
| `Wallet.ReplayIsNoOp` | server/rgs/wallet.go:50-58 | a call that has succeeded, repeated after any others, succeeds and moves nothing |
| `Wallet.CreditOnDebitTx` | server/rgs/wallet.go:101-128 | a credit under the id of a debit moves nothing, and is an error except for 0 and 2^63 |
| `Rtp.Settle` | server/rtp/rtp.go:46-72 | exactly when each of the five errors is returned, over the true sum and product; else prize and house cut make up the pot, and the prize is bps/10000 of it, rounded down |
| `Rtp.SplitIsUnique` | server/rtp/rtp.go:43-45 | prize + house cut = pot with the prize rounded down leaves one split |
| `Rtp.DivisionGuard` | server/rtp/rtp.go:66-68 | the guard before the product is an exact overflow test |
| `Rtp.EffectiveIsPerRound` | scripts/analyze_replays.py:146-150 | the number of rounds cancels out of the effective RTP |
| `Rtp.DriftIsBounded` | scripts/analyze_replays.py:146-157 | the drift is the rounding loss of one round per unit of stake, rounded up: at most 1 bp exactly if stake * bps mod 10000 is at most the stake, and 0 exactly if nothing was rounded; without a stake it is the whole RTP |
| `Rtp.DriftCanExceedOne` | scripts/analyze_replays.py:157-161 | a stake of 3 drifts by 2834 bp |
| `Rounds.Round.constructor` | server/round/round.go:83-92 | a waiting round committed to the hash of its seed |
| `Rounds.Round.OpenBuyIn` | server/round/round.go:135-140 | WAITING to BUY_IN |
| `Rounds.Round.AddParticipant` | server/round/round.go:145-158 | appended under its position, or the first error that applies |
| `Rounds.Round.StartRace` | server/round/round.go:163-168 | BUY_IN to RACING |
| `Rounds.Round.FinishRace` | server/round/round.go:172-182 | the result is recorded before the time is checked |
| `Rounds.Round.Advance` | server/round/round.go:184-191 | phases do not start before their predecessors |
| `Rounds.RoundHistory` | server/round/round.go:62-191 | over all histories: numbering, cap and commitment hold, and a result exists exactly in SETTLE or after a finish rejected for its time |
| `Rounds.PhasesOnlyAdvance` | server/round/round.go:160-191 | phases and times only advance, participants are locked from the race on, SETTLE is final |
| `Rounds.SeedOnlyAfterSettle` | server/round/round.go:111-118 | no phase is skipped, and the seed is out exactly after three phase changes |
| `Rounds.ResultWithoutSettle` | server/round/round.go:179-188 | a history with a result but no SETTLE |
| `Rounds.SeatField` | server/rgs/manager.go:260-281 | bettors in queue order, then fillers, up to the cap; refused exactly when they do not fit, a name is empty or the seed is no hex |
| `Rounds.SeatBettors` | server/rgs/manager.go:272-276 | every bettor gets a seat in queue order, exactly if they fit and have names |
| `Rounds.SeatFillers` | server/rgs/manager.go:277-281 | the remaining seats go to fillers |
| `Rounds.FillerText` | server/rgs/manager.go:278 | filler names count in two decimal digits, in more from 100 on |
| `Rounds.RaceToManifest` | server/rgs/manager.go:295-327 | succeeds exactly when the clock does not go back and the simulator answers |
| `Rounds.RunToManifest` | server/rgs/manager.go:249-395 | the manifest names the consumed specification, reveals a seed that hashes to its commitment, and lists exactly MaxMarbles participants by position |
| `Rounds.MintedSeedIsRevealed` | server/rgs/manager.go:483-494 | for minted specifications the manifest reveals the string of the specification |
| `Text.ParseFormat` | server/replay/store.go:165-199 | parsing a formatted id gives it back |
| `Text.NoLeadingDigit` | server/replay/store.go:164-168 | a name that does not begin with a digit is no id |
| `Text.HexRoundTrip` | server/rgs/manager.go:239-250 | decoding encoded bytes gives them back |
| `Text.HexText` | server/rgs/manager.go:239 | two lower-case digits per byte, the high half first |
| `Text.DecimalText` | server/replay/store.go:198-200 | decimal notation, digit by digit |
| `Text.ParsesIff` | server/replay/store.go:165 | texts of up to 19 decimal digits parse, leading zeros or not, and nothing but digits does |
| `Messages.Encode` | server/stream/stream.go:49-62 | the bytes of the message, or a proper prefix of them when a write fails |
| `Messages.EncodeInline` | server/stream/ws.go:107-116 | the same bytes in one buffer: type, length, payload |
| `Messages.WireLayout` | server/stream/stream.go:49-62 | one byte of type, four of length, the payload |
| `Messages.ReadMessage` | server/stream/stream.go:66-83 | one message, consuming exactly its bytes, or the error of a short or oversized input |
| `Messages.ReadBack` | server/stream/stream.go:66-83 | a message comes back exactly when its payload is within the cap |
| `Messages.ReadOneConsumes` | server/stream/stream.go:66-83 | whatever is accepted is the encoding of what is returned |
| `Messages.ReadCut` | server/stream/stream.go:67-80 | how a cut message ends |
| `Messages.WholeIsMaximal` | server/stream/stream.go:66-83 | the number of whole messages in front of a cut |
| `Messages.ReadTruncated` | server/stream/stream.go:66-83 | a stream cut anywhere yields exactly the whole messages before the cut |
| `Messages.EofIff` | server/stream/stream.go:67-80 | plain EOF arises exactly on a message boundary or right after a five-byte header |
| `Messages.ReadAllEncodeAll` | server/stream/stream.go:49-83 | any sequence within the cap is read back unchanged |
| `Messages.ReadAllConsumes` | server/stream/stream.go:66-83 | of any input the messages read are the bytes consumed |
| `Messages.EncodeAllInjective` | server/stream/stream.go:15-22 | different sequences have different bytes |
| `Words.LERoundTrip` | server/stream/stream.go:52 | a number comes back from its low bytes modulo their range |
| `Words.LEInverse` | server/stream/stream.go:72 | bytes are the encoding of the number they stand for |
| `Words.Shifts` | server/stream/ws.go:110-113 | the four bytes by right shifts |
| `Words.LongShifts` | game/recorder/replay_writer.gd:33 | the eight bytes of a long word are those of its two halves |
| `Words.BEMirrorsLE` | game/fairness/seed.gd:82-94 | network order is the reverse |
| `LiveRounds.StepKeeps` | server/stream/stream.go:152-274 | one event keeps the invariant and only extends the log; sends and closes meet their preconditions, so nothing is sent on or closes a closed channel and nothing blocks |
| `LiveRounds.SubscribersSeeTheLog` | server/stream/stream.go:152-274 | over all histories an attached subscriber has been sent the whole log over an open channel, any other a prefix over a closed one; the log is HEADER TICK* [DONE] |
| `LiveRounds.PathExtends` | server/stream/stream.go:152-274 | a history never gets stuck |
| `LiveRounds.HeaderPrecedesDoneIff` | server/stream/stream.go:97-100 | over all histories of a round, DONE stands alone in the log exactly if the round was finished before any header was written; the log begins with HEADER exactly otherwise |
| `LiveRounds.DoneWithoutHeader` | server/stream/stream.go:97-100 | DONE without HEADER is accepted |
| `LiveRounds.FinishDelivers` | server/stream/stream.go:186-200 | the first Done logs DONE and sends it to everybody with room; every channel is closed and nobody stays attached; a second Done does nothing |
| `LiveRounds.LateJoiner` | server/stream/stream.go:215-240 | a late subscriber is given the whole log at once, DONE included; on a running round there is then room for liveBuf messages, and for 16 at least, and one more if the header is still to come |
| `LiveRounds.LeaverIsOut` | server/stream/stream.go:265-274 | who unsubscribes is detached and its channel closed behind what was sent; nobody else notices |
| `LiveRounds.ReadConsumes` | server/stream/stream.go:256-263 | a read takes the oldest message that is waiting; nobody else notices |
| `LiveRounds.WriteOutcomes` | server/stream/stream.go:152-182 | which writes are refused, and why; an accepted one is the next of the log and reaches exactly the subscribers with room, who stay |
| `LiveRounds.SurvivesIff` | server/stream/stream.go:242-254 | an idle subscriber stays attached exactly as long as its channel can hold what was sent |
| `LiveRounds.StaysOut` | server/stream/stream.go:245-274 | once detached, always detached, and nothing more is sent |
| `LiveRounds.KickBound` | server/stream/stream.go:211-225 | an idle subscriber is attached as long as at most 16 or at most liveBuf messages have been sent since, and is out after more than both; one more before the header |
| `Hubs.Subscriber.Offer` | server/stream/stream.go:247-252 | send without blocking, or close |
| `Hubs.Subscriber.SendAll` | server/stream/stream.go:227-232 | sends in order |
| `Hubs.Subscriber.Receive` | server/stream/stream.go:261-263 | the oldest message, which is consumed, or nothing |
| `Hubs.Round.constructor` | server/stream/stream.go:111-115 | a round without header, ticks or subscribers |
| `Hubs.Round.WriteHeader` | server/stream/stream.go:152-165 | the round after the call, or the error |
| `Hubs.Round.WriteTick` | server/stream/stream.go:169-182 | the round after the call, or the error |
| `Hubs.Round.FanoutLocked` | server/stream/stream.go:245-254 | every subscriber is offered the message; the full ones are gone |
| `Hubs.Round.Finish` | server/stream/stream.go:187-200 | the locked half of Done |
| `Hubs.Round.CloseAll` | server/stream/stream.go:195-199 | every channel closed, nobody attached |
| `Hubs.Round.Done` | server/stream/stream.go:186-205 | both halves, once |
| `Hubs.Round.NewSubscriber` | server/stream/stream.go:222-236 | the preloaded channel, with the promised headroom |
| `Hubs.Round.Subscribe` | server/stream/stream.go:215-240 | preloaded with the whole log; attached, with room for liveBuf and for 16 messages at least, unless the round is done |
| `Hubs.Round.Unsubscribe` | server/stream/stream.go:267-274 | detached, and the channel is closed with what it holds |
| `Hubs.Hub.Open` | server/stream/stream.go:105-118 | a fresh round registered under its id, or an error if the id is taken |
| `Hubs.Hub.ActiveRounds` | server/stream/stream.go:128-136 | every live id once |
| `Registration.FoundUntilDeleted` | server/stream/stream.go:105-205 | in every interleaving a round is registered under its id exactly until the second half of its Done |
| `Registration.DeletesOnlyItself` | server/stream/stream.go:202-204 | that half deletes its own round and no newer one |
| `Registration.DeletedOnce` | server/stream/stream.go:186-205 | each round is deleted exactly once |
| `Registration.DoneRoundIsFoundInTheGap` | server/stream/stream.go:200-204 | in the gap a done round is still found and blocks its id |
| `Ingest.HandleConn` | server/stream/ingest.go:75-128 | the round after a whole connection, finished and unregistered whatever the bytes were |
| `Ingest.FeedRound` | server/stream/ingest.go:102-127 | the loop makes exactly the writes that the input asks for |
| `Ingest.KeptIsLongest` | server/stream/ingest.go:102-127 | of the messages read, the longest beginning made of a HEADER and TICKs is kept |
| `Ingest.Dispatch` | server/stream/ingest.go:110-126 | a message is written, or ends the loop and changes nothing |
| `Recorder.TickStreamer.constructor` | game/recorder/tick_streamer.gd:52-61 | the handshake; the latch holds exactly if the connection took it |
| `Recorder.TickStreamer.SendMsg` | game/recorder/tick_streamer.gd:84-96 | what reaches the wire is always a prefix of what was said; the latch falls exactly when one of the two writes fails, and nothing is said after that |
| `Recorder.TickStreamer.SendHeader` | game/recorder/tick_streamer.gd:63-64 | says a HEADER |
| `Recorder.TickStreamer.SendTick` | game/recorder/tick_streamer.gd:66-67 | says a TICK |
| `Recorder.TickStreamer.SendDone` | game/recorder/tick_streamer.gd:69-79 | says DONE and nothing after it |
| `Recorder.LayOut` | game/recorder/tick_recorder.gd:64-74 | one header entry per marble, short lists padded |
| `Recorder.TickRecorder.Track` | game/recorder/tick_recorder.gd:61-89 | the header is laid out anew and announced, however often it is called |
| `Recorder.TickRecorder.SetRoundContext` | game/recorder/tick_recorder.gd:42-59 | the round as given, with the 24 slots of the spawn rail |
| `Recorder.AnnouncementTellsTheRound` | game/recorder/tick_recorder.gd:61-89 | who decodes the HEADER payload finds round id, 60 Hz, seed, hash, slots and track as set, and marble i with the client seed, slot and colour at i, or padding |
| `Recorder.FileTellsTheRound` | game/recorder/tick_recorder.gd:115-157 | what the round-trip check samples, for everything: the file is read back with the announced header, seed and hash in their places, and all frames in order |
| `Recorder.CrossingFlagsNextFrame` | game/recorder/tick_recorder.gd:91-110 | over any history, a recorded frame is flagged exactly if a marble crossed the line since the frame before |
| `Recorder.StopsAfterTail` | game/recorder/tick_recorder.gd:106-113 | after the race has finished, frame after frame is recorded, each with its tick and its states, up to that of 60 ticks later, which is the last |
| `Recorder.TickRecorder.Capture` | game/recorder/tick_recorder.gd:94-105 | one frame with the pending flags, kept and sent |
| `Recorder.TickRecorder.PhysicsProcess` | game/recorder/tick_recorder.gd:91-107 | a frame per tick until the stop tick, then the end; the stream is told the same frame, and the file is written with the last |
| `Recorder.TickRecorder.Finalize` | game/recorder/tick_recorder.gd:115-132 | DONE to the stream, the file to disk if it can be written |
| `LiveArchive.WritesDecide` | server/stream/stream.go:152-274 | subscribers never influence header, ticks and end of a round |
| `LiveArchive.FedLog` | server/stream/ingest.go:102-127 | the log is what the loop keeps of the messages read |
| `LiveArchive.LogOfBroadcast` | server/stream/ingest.go:95-127 | the log of a finished broadcast, wherever the connection broke |
| `LiveArchive.DoneAloneIff` | server/stream/ingest.go:95-127 | a connection leaves behind a bare DONE exactly if the first message read from it is not a HEADER |
| `LiveArchive.StoryIsArchive` | game/recorder/replay_writer.gd:74-82 | HEADER payload, tick count and TICK payloads are the file |
| `LiveArchive.DoneArrivesIff` | server/stream/ingest.go:95-127 | the DONE of the simulator is read exactly if the recording is over, all its bytes arrived, and no message is above the 1 MiB cap |
| `LiveArchive.LiveEqualsArchive` | game/recorder/tick_recorder.gd:79-132 | a subscriber that got a DONE got the whole log, a prefix of the recording with a DONE behind it; it is the whole recording -- and then byte for byte the file -- exactly if the header and every tick reached the server, as they have if the DONE of the simulator did |
| `LiveArchive.RecorderLiveEqualsFile` | game/recorder/tick_recorder.gd:91-132 | the same for a recorder object and the file it wrote |
| `LiveArchive.LiveStreamClient.DispatchPacket` | game/playback/live_stream_client.gd:67-99 | what one packet does to the client |
| `LiveArchive.PacketIsMessage` | game/playback/live_stream_client.gd:67-80 | a packet is taken for the message that was put into it |
| `LiveArchive.PacketIgnored` | game/playback/live_stream_client.gd:67-99 | short or cut packets, unknown types and ticks ahead of the header change nothing |
| `LiveArchive.ClientFollows` | game/playback/live_stream_client.gd:81-95 | header and frames as the client has decoded them |
| `LiveArchive.ClientSeesTheReplay` | game/recorder/replay_writer.gd:10-13 | a live client decodes the very replay that the file decodes to |
| `ReplayCodec.EncodeHeader` | game/recorder/replay_writer.gd:28-57 | the header bytes |
| `ReplayCodec.EncodeFrame` | game/recorder/replay_writer.gd:61-72 | the frame bytes |
| `ReplayCodec.Encode` | game/recorder/replay_writer.gd:74-82 | the file bytes |
| `ReplayCodec.ReadHeaderInto` | game/playback/replay_reader.gd:50-92 | the header, and the cursor behind it |
| `ReplayCodec.ReadFrameInto` | game/playback/replay_reader.gd:94-105 | a frame, and the cursor behind it |
| `ReplayCodec.Decode` | game/playback/replay_reader.gd:15-31 | the replay a file holds |
| `ReplayCodec.DecodeHeader` | game/playback/replay_reader.gd:36-40 | the header of a HEADER payload |
| `ReplayCodec.DecodeFrame` | game/playback/replay_reader.gd:44-48 | the frame of a TICK payload |
| `ReplayCodec.RoundTrip` | game/recorder/tick_recorder.gd:142-157 | writing and reading give back the replay exactly when its sizes fit |
| `ReplayFormat.HeaderBack` | game/playback/replay_reader.gd:50-92 | the header reader consumes exactly the bytes of the header |
| `ReplayFormat.FrameBack` | game/playback/replay_reader.gd:94-105 | so does the frame reader for a frame |
| `ReplayFormat.FileBack` | game/playback/replay_reader.gd:15-31 | a well-sized replay is read back from the front of any input |
| `ReplayFormat.FileFrom` | game/playback/replay_reader.gd:15-31 | whatever is accepted is the encoding of the replay it is read as |
| `ReplayFormat.RoundTripIff` | game/recorder/replay_writer.gd:28-82 | the round trip holds if and only if names, seeds and hash are at most 255 bytes, the counts fit 32 bits and every frame has one state per marble |
| `ReplayFormat.FilesAreUnambiguous` | game/recorder/replay_writer.gd:74-82 | different well-sized replays have different files |
| `ReplayFormat.LongNameIsLost` | game/recorder/replay_writer.gd:50-52 | a name of 256 bytes breaks the round trip |
| `ReplayFormat.HeaderLayout` | game/recorder/replay_writer.gd:28-44 | version 3 and every shared field at its offset |
| `ReplayFormat.MarbleLayout` | game/recorder/replay_writer.gd:46-56 | every field of a marble at its offset |
| `ReplayFormat.PoseLayout` | game/recorder/replay_writer.gd:67-71 | position and rotation in 28 bytes |
| `ReplayFormat.FrameLayout` | game/recorder/replay_writer.gd:61-72 | tick, flags, and the states 28 bytes apart |
| `ReplayFormat.FileLayout` | game/recorder/replay_writer.gd:74-82 | header, frame count, frames |
| `FairSeed.BigEndian` | game/fairness/seed.gd:82-94 | the bytes of a word, filled from the back |
| `FairSeed.BytesToU32Inverse` | game/fairness/seed.gd:96-97 | the inverse of _u32_be, both ways |
| `Words.BERoundTrip` | game/fairness/seed.gd:82-94 | a number comes back from its big-endian bytes |
| `FairSeed.HashMarble` | game/fairness/seed.gd:66-80 | the hash of the preimage; an empty client seed is not fed |
| `FairSeed.PreimageInjective` | game/fairness/seed.gd:74-79 | with 32-byte seeds a preimage belongs to one seed, round, client seed and marble |
| `FairSeed.PreimageNeedsFixedSeed` | game/fairness/seed.gd:74-79 | with seeds of other lengths it need not |
| `FairSeed.Probe` | game/fairness/seed.gd:43-44 | the loop ends, at the cyclically first free slot from home |
| `FairSeed.DeriveSpawnSlots` | game/fairness/seed.gd:31-47 | with at most as many marbles as slots it ends with the assignment of the rule, distinct and in range |
| `FairSeed.SpawnRule` | docs/fairness.md:28-32 | the rule written out: marble i is hashed as seed, round id, client seed and index; the first four digest bytes modulo the slots are its home; it gets the free slot nearest to its home, counting upwards round the rail |
| `FairSeed.Unpack` | scripts/gen_fairness_vectors.py:39 | the big-endian word |
| `FairSeed.ReferenceSlots` | scripts/gen_fairness_vectors.py:32-44 | the reference obeys the same rule |
| `FairSeed.CrossCheck` | scripts/gen_fairness_vectors.py:32-44 | game and reference derive the same slots for every round |
| `Probing.ProbingEnds` | game/fairness/seed.gd:43-44 | by pigeonhole, probing ends while a slot is free |
| `Probing.FullTableNeverEnds` | game/fairness/seed.gd:43-44 | with more marbles than slots the loop would not end |
| `Probing.OtherSlotIgnored` | game/fairness/seed.gd:43-46 | marbles bound for different slots do not interfere |
| `Probing.SameSlotShared` | game/fairness/seed.gd:43-46 | marbles bound for the same slot share what comes after it |
| `Probing.OrderInvariance` | docs/fairness.md:47 | any order of insertion fills the same slots with the same number of probes |
| `Probing.SameSlotsFilled` | docs/fairness.md:47 | so do whole assignments |
| `Probing.AssignmentKeptIff` | docs/fairness.md:47 | two marbles keep their slots when they trade places exactly if they are bound for different slots |
| `Probing.OrderIrrelevantIff` | docs/fairness.md:47 | every order gives every marble the same slot exactly if all homes are different |
| `Probing.AssignmentIsUnique` | docs/fairness.md:32 | the rule determines the slots |
| `Probing.NearestFree` | game/fairness/seed.gd:43-46 | the slot found is free, and no free slot is nearer, counting upwards |
| `Probing.AssignmentIsValid` | game/fairness/seed.gd:28-30 | distinct and in range |
| `Stores.Store.constructor` | server/replay/store.go:73-81 | an empty store |
| `Stores.Store.Save` | server/replay/store.go:87-132 | the round appears under the decimal text of its id, complete, with the hash of its replay and a creation time, or the root is as before; invalid exactly without id, seed, hash or participants |
| `Stores.Store.Fill` | server/replay/store.go:112-125 | the two files of a round in its temporary directory |
| `Stores.Store.Load` | server/replay/store.go:136-151 | the manifest, or why there is none |
| `Stores.Store.Verify` | server/replay/store.go:177-196 | passes exactly when the stored hash is that of the stored replay; always for what Saves wrote |
| `Stores.Store.List` | server/replay/store.go:154-173 | ascending; strictly, and exactly the stored rounds, where only Saves have written |
| `Stores.SortIds` | server/replay/store.go:171 | a sorted permutation |
| `ReplayStore.StepKeeps` | server/replay/store.go:87-132 | one system call of any Save, an error or a crash keeps the invariant |
| `ReplayStore.VisibleNeverChanges` | server/replay/store.go:11-14 | a visible round stays byte for byte, and new ones come only from a winning Save |
| `ReplayStore.VisibleIsComplete` | server/replay/store.go:99-132 | what is visible has its replay and its manifest, under its own id and with the hash of that replay, seeds and participants |
| `ReplayStore.ExactlyOneWins` | server/replay/store.go:83-131 | of racing Saves of a round exactly one wins, and what is visible is what it was given |
| `ReplayStore.LeftoversAreInvisible` | server/replay/store.go:159-170 | no leftover of a crash or an error looks like a round |

## Left out

- HTTP routing, JSON, CORS, middleware, metrics, flags and daemons: plumbing over libraries.
- The Godot subprocess, physics, tracks, cameras, audio and playback: the simulator is an arbitrary answer or an error.
- Wallets other than MockWallet, and SetBalance and AppliedAmount of MockWallet: an arbitrary funded initial state stands for SetBalance.
- Session.Snapshot: a copy of three fields.
- Time stamps of sessions and bets, deadlines, timeouts, contexts and log lines.
- Rounding of float64 amounts: stakes and payouts of round bets are exact reals; amounts whose payout leaves the uint64 range are outside the machine.
- Round.Participants and Round.Result: copies of fields.
- Managers.Manager.PlaceBet: the call as a whole is modelled uninterrupted; interleavings are the subject of the settlement machine.
- Managers.Manager.RunNextRound: the same; the order of map iteration and the totals it prints are not modelled.
- Managers.Manager.PlaceBetOnRound: amounts whose debit or payout exceeds 64 bits are excluded, because Go leaves the conversion of such a float to the implementation.
- Sockets and WebSocket transport: a connection is a byte sequence with an end; writes may be cut short at any byte.
- encodeActiveList and the HTTP status of the live endpoints.
- Replay bytes that end early: the reader returns nothing, whereas the engine's buffer goes on with bytes of its own.
- LiveStreamClient: connecting, polling and closing; frames cut short are dropped, see above.
- UTF-8: names and client seeds are byte sequences.
- derive_marble_colors, color_to_rgba32, to_hex and from_hex of FairSeed: colours do not influence a result.
- The chi-square test and the heatmaps of the analyzer.
- Files beside the round directories in the store's root, directories that other programs create there, and errors of the directory listing.
- Stores.Store.Save: uninterrupted, and the removal of the temporary directory succeeds; interleavings, crashes and half-done removals are the subject of ReplayStore.
- HMAC signing and the remote wallet clients are not part of this model.
