# Comptoken on-chain economy: a verified model

Comptoken is a token whose coins are mined by proof of work and whose holders are paid interest and a universal basic
income out of three banks. The on-chain program mints 10000 coins for each accepted proof, and once a day distributes
146000 coins for each coin the *high water mark* of daily mining rises. What a day pays is recorded in a ring of 365 slots,
and each user claims the days missed later, rounding day by day.

This project models the program as one state machine (mine, daily event, claim, blockhash update, user transfer, create and
grow a user's data account) and proves what every step and every run of it keeps: conservation of coins, solvency of the
interest bank up to a rounding allowance and a debt that is accounted for, that each event is paid to each user exactly once and when it is not, that
no proof of work is paid for twice, and the arithmetic and byte-level facts those rest on.

## How it is organised

| file | what it holds |
|---|---|
| `Clock.dfy`, `Rounding.dfy`, `Bytes.dfy`, `Options.dfy`, `Sums.dfy` | UTC days; the program's own ties-to-even rounding; byte strings as integers; sums over accounts |
| `Growth.dfy`, `Distribution.dfy`, `Settlement.dfy` | the high water mark and its cap; the three-way split and the recorded day; the folds of a claim and their laws |
| `DailyDistributionData.dfy`, `Blockhashes.dfy`, `GlobalData.dfy`, `UserData.dfy`, `Proof.dfy`, `TransferHook.dfy` | the program's data as classes and arrays with methods in the source's own order, each proved against a function on values |
| `Ledger.dfy`, `Comptoken.dfy` | each instruction as a function on the whole state, and the handlers over the accounts, proved to do exactly that |
| `Runs.dfy`, `SupplyLaw.dfy`, `EventLog.dfy`, `NoDoublePay.dfy`, `Solvency.dfy` | runs of any calls under a clock that does not go back, and the invariants of every run |
| `ClaimTiming.dfy`, `Incidents.dfy` | two runs that differ in one claim, compared; short concrete runs in which something is lost or owed too much |

`Runs.World` is the state with a history beside it (accepted proofs, the log of recorded days, the days of the events, where
in the log each user was last paid, the announced and adopted blockhashes, the rounding slack, the debt made by mining before
claiming). The history never influences the state. A run is any sequence of timed calls from a freshly initialised program; a
call that aborts changes nothing.

Every handler of `Comptoken.Accounts` states its whole effect: `ok` exactly when the corresponding step of `Ledger` is
defined, and then the new state is that step's, otherwise the old one. What the source promises is proved about those steps.
Most theorems about one instruction are exact in both directions (when mining, claiming, inserting a proof or growing the
mark succeeds, what is read, what is paid).

## Conventions

- `f64` is `real`, and `u64` is `nat`. The program's rounding function is modelled as written, epsilon test included; so are
  the cast to `u64` (which saturates) and the wrapping of `365 - n` and of the iterator's counters (no manifest turns on the
  overflow checks that a release build leaves out).
  Section 4.3.1 of IEEE 754-2019 is the reference for ties-to-even.
- `powf(x, -0.3)` is a parameter with the contract that its result r is positive and r^10 * x^3 = 1 for every x >= 1. At a
  supply of exactly 1000000 the argument is 0, the limiter is infinite, and the cast gives the largest `u64`.
- SHA-256 is an arbitrary function from byte strings to 32 bytes. Nothing assumes it is injective: where two submissions
  agree, the theorem exhibits the colliding inputs.
- The newest slot hash, the time and the payload of a call are inputs. Runs start after the first day of the epoch.
- A call that panics, or whose token transfer fails, is rolled back as a whole.
- A user's data account is a byte string in the C layout; the value of the padding and of newly allocated tail bytes is
  arbitrary. A user is named by the key of the token account, as the proof of work is.
- The program is not told who is a verified human: the number of verified humans is an arbitrary constant of a run, and the
  laws of claims are proved for verified and unverified users alike.

## What the code does that its texts do not say

- The guard of the daily event is strict, so that an event at exactly 00:00:00 UTC is refused even when the day before had
  one (`EventLog.EventSucceedsIff`); the message beside it ("already called today") describes something weaker.
- Rounding agrees with ties-to-even except in a window one epsilon wide behind each even half
  (`Rounding.RoundEvenIsTiesToEvenIff`); on the doubles of magnitude at least 1 it always agrees
  (`Rounding.RoundEvenOnGrid`), and just above one half it does not (`Rounding.RoundEvenBelowOneIsNotIeee`).
- A claim after more than 365 days reads no day at all, pays nothing and still moves the payout date
  (`EventLog.LateClaimsForfeit`).
- A claim reads as many slots as the calendar has moved on by days, not as many as there were events. When these differ it
  goes back to slots from before the last payout (paid days, days before the account, unfilled slots), or it leaves out the
  oldest unpaid events (`EventLog.ClaimReads`). A claim made before the day's event loses that event for the user even if no
  day lacks one (`Incidents.ClaimBeforeEventLosesIt`).
- UBI is paid from the interest bank, although the comment above it and the account list speak of a UBI bank.
- Nothing obliges a user to be current when mining. Coins mined before claiming earn interest for days before they existed,
  which no event put into the bank (`Solvency.StaleMiningCreatesDebt`), and a run of three calls with every event in its place
  takes the bank from solvent to insolvent (`Incidents.StaleMiningBreaksSolvency`). The general theorem therefore carries that
  debt (`Solvency.RunIsCovered`); it stays 0 while users mine only when current (`Solvency.CarefulRunHasNoDebt`).
- Unfilled slots of a new program hold the factor 0, not 1. A claim of more days than the program has had events reads one,
  which wipes the balance out before the recorded days are folded in; the saturating subtraction turns that into no interest
  at all, and the date moves on, so that whatever was due is lost (`EventLog.ClaimsPastTheLogForfeit`). That is exactly when
  claiming in two parts and in one can differ (`Settlement.SettlementAgreesIff`), and a run of four calls shows it
  (`Incidents.UnfilledSlotBreaksSettlement`).

## Model

| member | source | states |
|---|---|---|
| `Clock.NormalizeIsMidnight` | comptoken-utils/src/comptoken_utils.rs:42-44 | the normalised time is the one and only midnight within the last 86400 seconds |
| `Rounding.RoundEvenIsTiesToEvenIff` | comptoken/src/global_data/daily_distribution_data.rs:193-209 | over all reals, the result is IEEE ties-to-even if and only if the value is not within one epsilon behind an even tie |
| `Rounding.RoundEvenOnGrid` | comptoken/src/global_data/daily_distribution_data.rs:193-209 | every multiple of 2^-52, so every double of magnitude 1 or more, is rounded to nearest, ties to even |
| `Rounding.RoundEvenBelowOneIsNotIeee` | comptoken/src/global_data/daily_distribution_data.rs:204-209 | the double just above one half goes to 0 although the nearest integer is 1 |
| `Rounding.TiesToEvenIsUnique` | comptoken/src/global_data/daily_distribution_data.rs:193-202 | at most one integer is the ties-to-even rounding of a value, so the two results above are equalities |
| `Rounding.RoundEvenIsMonotone` | comptoken/src/global_data/daily_distribution_data.rs:193-202 | a larger value, negative ones included, never rounds to less |
| `Rounding.RoundEvenIsClose` | comptoken/src/global_data/daily_distribution_data.rs:193-209 | any magnitude gains at most one half and loses at most one half and an epsilon |
| `Rounding.RoundEvenFixesIntegers` | comptoken/src/global_data/daily_distribution_data.rs:193-202 | whole values, negative ones included, are not changed |
| `Rounding.RoundEvenShifted` | comptoken/src/global_data/daily_distribution_data.rs:193-202 | a non-negative value shifted by an integer and at least one epsilon more is never rounded to less than the shifted result |
| `Rounding.ShiftAtTieIsLost` | comptoken/src/global_data/daily_distribution_data.rs:193-202 | behind every odd number a shift by exactly one is lost: both ties round to the even number between them |
| `Growth.LimiterIsAntitone` | comptoken/src/global_data/daily_distribution_data.rs:87-91 | the larger the supply, the strictly smaller the share it may grow by, always above 0.00061 |
| `Growth.MatureLimiter` | comptoken/src/global_data/daily_distribution_data.rs:87-91 | from 10^10 above the threshold the share is at most 0.00161 |
| `Growth.IncreaseIsLargestAllowed` | comptoken/src/global_data/daily_distribution_data.rs:75-100 | an increase k is allowed if and only if it stays within the day's mining and, from a supply S of 1000000 on, k <= 1 or 146000 k is a 64-bit number and (past 1000000) at most S * ((S - 1000000)^-0.3 + 0.00061) rounded; the event takes the largest |
| `Growth.IncreaseByPowerLaw` | comptoken/src/global_data/daily_distribution_data.rs:87-99 | the same with the power -0.3 as the positive r with r^10 * (S - 1000000)^3 = 1 in place of the library routine |
| `Growth.SecondDayIsCapped` | comptoken/src/global_data/daily_distribution_data.rs:75-100 | from a supply of 1460010000 and a mark of 10000, 20000 mined coins raise the mark by exactly 23 |
| `Growth.GrowthCap` | comptoken/src/global_data/daily_distribution_data.rs:75-100 | past the threshold an event mints at most the larger of 146000 and the rounded capped share of yesterday's supply |
| `Growth.MatureGrowthCap` | comptoken/src/global_data/daily_distribution_data.rs:75-100 | with a mature supply an event mints one step or at most 0.161 percent of yesterday's supply and one half |
| `Growth.HighWaterMarkBounds` | comptoken/src/global_data/daily_distribution_data.rs:41-43 | over any days the mark never falls, never passes the best day, and is the best day while no event is capped |
| `Growth.ConstantMiningIsReached` | comptoken/src/global_data/daily_distribution_data.rs:75-100 | a constant daily output is reached after at most as many events as it is above the mark, however tight the cap |
| `Distribution.FutureUbiInterestFits` | comptoken/src/global_data/daily_distribution_data.rs:59-67 | the future UBI bank never earns more than the interest half, so the saturating subtraction never clips |
| `Distribution.FutureUbiInterestIsRounded` | comptoken/src/global_data/daily_distribution_data.rs:61-64 | the future UBI bank earns its coins times 73000 k / supply, rounded ties to even (off the epsilon window), so never less than an epsilon and one half below it |
| `Distribution.SplitIsExact` | comptoken/src/global_data/daily_distribution_data.rs:44-67 | for every number of verified humans the three amounts add up to 146000 times the increase, and the bank's interest and the future UBI interest to one half of it |
| `Distribution.VerifiedShare` | comptoken/src/global_data/daily_distribution_data.rs:47-58 | the UBI of verified humans grows with their number h, is the UBI half times 2h/(10^9+h) rounded ties to even (off the epsilon window), and is the whole half from 10^9 humans on |
| `Distribution.DailyUbiIsEqualPart` | comptoken/src/global_data/daily_distribution_data.rs:68-70 | the recorded daily UBI is the largest amount that, paid to each verified human, is covered by what the event sets aside for them |
| `Distribution.EventStaysInU64` | comptoken/src/global_data/daily_distribution_data.rs:28-73 | no 64-bit sum or product of an event overflows while the supply is within 2^61 (below the cap's threshold: within a 146001st of the range) |
| `Settlement.RecordedDayGrows` | comptoken/src/global_data/daily_distribution_data.rs:59-70 | an event records a factor of 1 or at least the next double above it, and above 1 whenever the mark rose |
| `Settlement.LastDayOfFolds` | comptoken/src/global_data/daily_distribution_data.rs:102-122 | each day multiplies what the days before it left by its factor and rounds that ties to even (off the epsilon window), and a verified human's UBI is added after the day's interest |
| `Settlement.ClaimedIsLarger` | comptoken/src/global_data/daily_distribution_data.rs:108-121 | whatever days are read, a claim leaves the larger of what the days make of the money and the money with the UBI |
| `Settlement.FoldsGrow` | comptoken/src/global_data/daily_distribution_data.rs:102-122 | with recorded factors the final balance is at least the start (and all UBI), so the saturating subtraction never clips |
| `Settlement.InterestIsMonotone` | comptoken/src/global_data/daily_distribution_data.rs:102-109 | a larger balance earns no less interest over the same days, rounding included |
| `Settlement.VerifiedInterestComparison` | comptoken/src/global_data/daily_distribution_data.rs:102-122 | a verified human never earns less interest than anyone else on the same balance, and exactly as much where no UBI is paid |
| `Settlement.SettlementAgreesIff` | comptoken/src/global_data/daily_distribution_data.rs:102-128 | claiming a days and, after b more events, b days leaves an unverified user exactly the balance of one claim of a + b <= 365 days if and only if the first a days reach back no further than the first event, or the later days pay nothing |
| `Settlement.VerifiedSettlementAgreesIff` | comptoken/src/global_data/daily_distribution_data.rs:113-128 | the same for a verified human: they agree if and only if the first days reach back no further than the first event, or the recorded UBI with its interest has already outgrown money and UBI, or the later days earn no interest |
| `Settlement.UnfilledWindowPaysNothing` | comptoken/src/global_data/daily_distribution_data.rs:102-122 | a claim of more days than were recorded pays no interest on the money, and a verified human just the UBI with what it earned beyond the money |
| `Settlement.RecordAllKeepsLastDays` | comptoken/src/global_data/daily_distribution_data.rs:124-128 | after any inserts the slots hold the last 365 of the initial slots followed by the inserts |
| `Settlement.WindowIsLastDays` | comptoken/src/global_data/daily_distribution_data.rs:102-128 | skipping 365 - n slots leaves exactly the last n inserts (or initial slots, where there were fewer) |
| `DailyDistributionData.NthIsRepeatedNext` | comptoken/src/global_data/daily_distribution_data.rs:140-158 | the overridden nth returns what n + 1 calls of next return last and leaves the iterator in the same place |
| `DailyDistributionData.DistributionAccount.Initialize` | comptoken/src/global_data/daily_distribution_data.rs:24-26 | a zero-filled account with today's date |
| `DailyDistributionData.DistributionAccount.Insert` | comptoken/src/global_data/daily_distribution_data.rs:124-128 | in chronological order, the oldest day goes and the new day comes last |
| `DailyDistributionData.DistributionAccount.DailyDistribution` | comptoken/src/global_data/daily_distribution_data.rs:28-73 | the account and the amounts after an event, both branches, are those of the value-level event |
| `DailyDistributionData.DistributionAccount.DistributeNewCoins` | comptoken/src/global_data/daily_distribution_data.rs:41-72 | with new coins: the mark, the split, the recorded day and the new supply, field by field |
| `DailyDistributionData.DistributionAccount.GetInterestForNDays` | comptoken/src/global_data/daily_distribution_data.rs:102-109 | walking the ring with skip and next computes the interest on the chronological last n days, and on none when n > 365 |
| `DailyDistributionData.DistributionAccount.GetDistributionsForNDays` | comptoken/src/global_data/daily_distribution_data.rs:113-122 | the same for interest and UBI together |
| `DailyDistributionData.Iter.Next` | comptoken/src/global_data/daily_distribution_data.rs:140-151 | the element at the cursor, or none after 365; the cursor moves one on, around the ring |
| `DailyDistributionData.Iter.Nth` | comptoken/src/global_data/daily_distribution_data.rs:153-158 | the element n places on; the cursor moves past it |
| `DailyDistributionData.Iter.Skip` | comptoken/src/global_data/daily_distribution_data.rs:103-105 | after skip(365 - n), wrapping included, what remains is exactly the window of the last n days |
| `Blockhashes.ValidBlockhashes.Initialize` | comptoken/src/global_data/valid_blockhashes.rs:17-19 | a zero-filled account after its first update |
| `Blockhashes.ValidBlockhashes.UpdateHashes` | comptoken/src/global_data/valid_blockhashes.rs:21-32 | the two conditional overwrites, in order, give the value-level update |
| `Blockhashes.UpdateReplaces` | comptoken/src/global_data/valid_blockhashes.rs:21-40 | the announced hash is replaced, by the slot hash, exactly when its stamp is more than 86400 s old, and the valid hash, by the announced one, exactly when its midnight is; the new stamp is 300 s before a midnight and within the last 86400 s, the new valid time today's midnight |
| `Blockhashes.UpdateCatchesUp` | comptoken/src/global_data/valid_blockhashes.rs:34-40 | after any update both times are at most 86400 s old |
| `Blockhashes.LastFiveMinutesAnnounce` | comptoken/src/global_data/valid_blockhashes.rs:21-27 | an update after 23:55:00 announces the slot hash for tomorrow and leaves today's valid hash alone |
| `Blockhashes.NextDayAdopts` | comptoken/src/global_data/valid_blockhashes.rs:28-31 | the next day's update, until 23:55:00, makes the announced hash valid and keeps announcing it |
| `Blockhashes.UpdateMakesTwoPhase` | comptoken/src/global_data/valid_blockhashes.rs:21-40 | after any update the valid time is a midnight, the announcement is five minutes before that midnight (and then the hashes are equal) or before the next, neither hash is stale, and no time went back |
| `Blockhashes.UpdateIsIdempotent` | comptoken/src/global_data/valid_blockhashes.rs:21-32 | a second update at the same time changes nothing, whatever the slot hash |
| `Blockhashes.RunIsConsistent` | comptoken/src/global_data/valid_blockhashes.rs:21-40 | in every run of updates each announcement stamp has one hash, stamps and switch-over midnights rise, the valid hashes follow the announced ones in order, and each was announced for its midnight or, in a day's last five minutes, for the next |
| `Blockhashes.AdoptedTwiceIff` | comptoken/src/global_data/valid_blockhashes.rs:21-32 | two switch-overs take the same announcement if and only if they are on consecutive days and the first took early what the second took in time |
| `Blockhashes.AdoptedAtMostTwice` | comptoken/src/global_data/valid_blockhashes.rs:21-32 | no announcement becomes valid at three switch-overs |
| `Blockhashes.AdoptsEarlyIff` | comptoken/src/global_data/valid_blockhashes.rs:21-32 | a switch-over takes the next day's announcement if and only if it announces, too, and happens in the last five minutes of a day |
| `Blockhashes.RunExtends` | comptoken/src/global_data/valid_blockhashes.rs:21-32 | a longer run only adds announcements, and adopts none older than before |
| `Blockhashes.ValidHashNeverReturns` | comptoken/src/global_data/valid_blockhashes.rs:21-32 | if no hash is announced twice, a valid hash that was replaced never becomes valid again |
| `Bytes.LexLessIsIntegerLess` | comptoken/src/comptoken_proof.rs:102-106 | byte-by-byte comparison of equally long strings is comparison of their big-endian values |
| `Bytes.ReversedValue` | comptoken/src/comptoken_proof.rs:76-77 | reversing a digest turns its little-endian value into a big-endian one |
| `Bytes.LittleEndianRoundTrip` | comptoken-utils/src/user_data.rs:8-16 | an integer written in n little-endian bytes reads back unchanged |
| `Proof.FromBytes` | comptoken/src/comptoken_proof.rs:39-86 | filling the buffer slice by slice and reversing in place gives, for 76 bytes, the key in bytes 0..32 and the reversed double hash of version, reversed blockhash, double hash of extra data and key, timestamp, d8ad0e18 and nonce; otherwise no proof |
| `Proof.VerifySubmittedProof` | comptoken/src/comptoken_proof.rs:109-123 | a proof comes out if and only if the payload parses and all three assertions hold, and then it is the parsed one |
| `Proof.ReverseBytes` | comptoken/src/comptoken_proof.rs:50-51 | in-place reversal puts each byte in its mirror place |
| `Proof.HeaderIs` | comptoken/src/comptoken_proof.rs:52-72 | 80 bytes are the header if and only if the six fields, the double hash of extra data and key among them, stand in their places: every byte is written exactly once |
| `Proof.SameProofNeedsCollision` | comptoken/src/comptoken_proof.rs:39-86 | two different (payload, blockhash) inputs with one proof hash show a hash collision on one of four given pairs |
| `Proof.TargetIsIntegerBound` | comptoken/src/comptoken_proof.rs:88-107 | a digest is accepted if and only if its little-endian value is below 0x0eadd8 * 256^29 |
| `UserData.CapacityFillsTheAccount` | comptoken-utils/src/user_data.rs:61-64 | the slots computed from the size end exactly at the account's last byte |
| `UserData.LayoutIs` | comptoken-utils/src/user_data.rs:8-16 | which sizes and lengths are accepted, and the bytes at which date, status, length, blockhash and each proof lie |
| `UserData.InsertSucceedsIff` | comptoken-utils/src/user_data.rs:30-41 | a proof is stored if and only if it is not in the set used with this blockhash and that set is below the capacity |
| `UserData.InsertAddsOneProof` | comptoken-utils/src/user_data.rs:30-41 | the set used with this blockhash gains exactly the proof, the sets of other blockhashes become empty, the stored proofs stay distinct and within capacity |
| `UserData.PushedMeans` | comptoken-utils/src/user_data.rs:35-40 | writing one slot and the counter, as bytes, appends one proof and keeps every layout assertion |
| `UserData.PushedFrame` | comptoken-utils/src/user_data.rs:35-40 | only the 8 bytes of the counter and the 32 bytes at 56 + 32 * length change |
| `UserData.GrowthMeans` | comptoken/src/comptoken.rs:615-626 | a grown account keeps date, status, blockhash and every stored proof whatever the new bytes hold, and never loses capacity |
| `UserData.UserDataAccount.Create` | comptoken/src/comptoken.rs:343-359 | a new account has today's date, no proofs and the capacity of its size |
| `UserData.UserDataAccount.TryFrom` | comptoken-utils/src/user_data.rs:57-80 | bytes become an account, unchanged, if and only if their size fits the layout and the stored length fits the slots |
| `UserData.UserDataAccount.Initialize` | comptoken-utils/src/user_data.rs:47-50 | the date becomes today, the status unverified, nothing else changes |
| `UserData.UserDataAccount.Update` | comptoken-utils/src/user_data.rs:23-28 | a new blockhash empties the store, the same one changes no byte, and only the length and the blockhash are ever written |
| `UserData.UserDataAccount.Contains` | comptoken-utils/src/user_data.rs:43-45 | true exactly for the proofs in the first `length` slots |
| `UserData.UserDataAccount.Insert` | comptoken-utils/src/user_data.rs:30-41 | set insertion on the bytes: success, the new contents, the bytes that may change, and no change on refusal |
| `UserData.UserDataAccount.Grow` | comptoken/src/comptoken.rs:626 | the old bytes stay in front and only the capacity changes |
| `GlobalData.GlobalDataAccount.Initialize` | comptoken/src/global_data/mod.rs:19-22 | both parts of the account are initialised |
| `GlobalData.GlobalDataAccount.DailyDistributionEvent` | comptoken/src/global_data/mod.rs:24-30 | blockhash update and distribution each have their own effect and no other |
| `Ledger.GenesisIs` | comptoken/src/comptoken.rs:185-311 | the program starts with empty banks, mark 0, no users, unfilled slots, today as the last event's day and the first slot hash both announced and valid |
| `Ledger.MineSucceedsIff` | comptoken/src/comptoken.rs:163-180 | a submission is paid if and only if the account exists, the payload is 76 bytes and begins with the sender's key, the valid hash is at most a day old, the double hash of the header, spelled out, is below 0x0eadd8 * 256^29, the proof is unused and a slot is free |
| `Ledger.MinePays` | comptoken/src/comptoken.rs:172-180 | a paid submission gives the sender 10000 coins and stores its proof, and changes nobody else's coins or data |
| `Ledger.EventPaysBanks` | comptoken/src/comptoken.rs:418-439 | with the mark up by k, the interest bank gains 73000 k less what the future UBI bank earns, the verified humans' bank their part of 73000 k, the future UBI bank the rest and what it earns; without new coins no bank gains |
| `Ledger.EventWithoutHumans` | comptoken/src/comptoken.rs:418-439 | with nobody verified the verified humans' bank gains nothing and the future UBI bank at least 73000 k, both others together 146000 k |
| `Ledger.EventRecordsDay` | comptoken/src/global_data/daily_distribution_data.rs:28-36 | an event needs more than 86400 s since the last event's midnight, stamps today's, and pushes one day onto the 365, the oldest dropping out |
| `Ledger.RecordedDayIs` | comptoken/src/global_data/daily_distribution_data.rs:59-70 | the recorded factor is 1 + 73000 k / supply and the UBI the equal part of what the verified humans' bank gained; without new coins it is (1, 0) |
| `Ledger.TransferSucceedsIff` | comptoken-transfer-hook/src/comptoken-transfer-hook.rs:69-77 | a user's transfer goes through if and only if the coins suffice, the sender has been paid today, and the receiver is one of the three banks or has been paid today |
| `Ledger.TransferMoves` | comptoken/src/comptoken.rs:731-747 | the sender loses and the receiver gains exactly the amount, and nothing else changes |
| `Ledger.CreateSucceedsIff` | comptoken/src/comptoken.rs:341-359 | an account is created if and only if there is none and the size is 88 plus a multiple of 32; it is dated today, unverified, empty, with (size - 88)/32 + 1 slots, and moves no coins |
| `Ledger.GrowSucceedsIff` | comptoken/src/comptoken.rs:615-626 | an account grows if and only if it exists and the new size is larger, by at most 10240, and 88 plus a multiple of 32; only the number of slots changes |
| `Ledger.ClaimSucceedsIff` | comptoken/src/comptoken.rs:549-583 | a claim goes through if and only if the interest bank holds interest and UBI together |
| `Ledger.ClaimPays` | comptoken/src/comptoken.rs:518-583 | the claimant's coins become what the days read make of them, the interest bank loses exactly the gain, no other account moves, and of all data only the claimant's date changes, to today |
| `Ledger.SecondClaimChangesNothing` | comptoken/src/comptoken.rs:528-547 | a second claim on one day succeeds and leaves the state as it is |
| `Ledger.ClaimingInPartsPaysTheSame` | comptoken/src/comptoken.rs:528-547 | over recorded days only, claiming now and again after one event a day leaves the same coins as claiming only then, for verified users, too |
| `Ledger.CurrentIsOwedNothing` | comptoken-utils/src/user_data.rs:52-54 | a current user is owed nothing |
| `Ledger.TransfersLeaveOwedAmounts` | comptoken-transfer-hook/src/comptoken-transfer-hook.rs:69-77 | no transfer that passes the hook changes what anyone is owed |
| `Ledger.OwedAmountsMoveOnlyThrough` | comptoken-transfer-hook/src/comptoken-transfer-hook.rs:69-77 | what a user is owed changes only by an event, the user's own claim or the user's own mining |
| `Comptoken.Accounts.Initialize` | comptoken/src/comptoken.rs:185-311 | empty banks, no users, the wallets' coins as the supply, first hashes, today's date |
| `Comptoken.Accounts.Mint` | comptoken/src/comptoken.rs:716-729 | the destination and the supply grow by the amount |
| `Comptoken.Accounts.TransferTokens` | comptoken/src/comptoken.rs:731-747 | coins move if and only if the source has them and the hook agrees; otherwise nothing changes |
| `Comptoken.Accounts.StoreHash` | comptoken/src/comptoken.rs:762-765 | the proof goes into the sender's bytes, or nothing changes |
| `Comptoken.Accounts.MintComptokens` | comptoken/src/comptoken.rs:136-183 | the handler is the mining step, success condition and whole new state |
| `Comptoken.Accounts.DailyDistributionEvent` | comptoken/src/comptoken.rs:364-440 | the handler is the event step: guard, hashes, distribution and three mints |
| `Comptoken.Accounts.GetValidBlockhashes` | comptoken/src/comptoken.rs:442-469 | the handler updates the hashes and returns the valid and the announced one |
| `Comptoken.Accounts.ComputeOwed` | comptoken/src/comptoken.rs:518-546 | reading the date out of the bytes and walking the ring gives what the value-level claim owes |
| `Comptoken.Accounts.PayOut` | comptoken/src/comptoken.rs:549-583 | interest and then UBI move from the interest bank, each only when positive |
| `Comptoken.Accounts.GetOwedComptokens` | comptoken/src/comptoken.rs:471-584 | the handler is the claim step, and a failed payment undoes the new date |
| `Comptoken.Accounts.CreateUserDataAccount` | comptoken/src/comptoken.rs:313-362 | the handler is the creation step, refused for an existing account or a size off the layout |
| `Comptoken.Accounts.ReallocUserData` | comptoken/src/comptoken.rs:586-627 | the handler is the growing step, refused unless the size grows, by at most 10240, and fits the layout |
| `Comptoken.Accounts.Process` | comptoken/src/comptoken.rs:60-90 | every dispatched instruction does to the accounts exactly what the state machine does to the state |
| `SupplyLaw.TransferKeepsHoldings` | comptoken/src/comptoken.rs:731-747 | a transfer conserves all coins, between any accounts, the same one included |
| `SupplyLaw.EventMints` | comptoken/src/comptoken.rs:418-439 | an event mints exactly 146000 for each coin the mark rises, and then yesterday's supply is the supply |
| `SupplyLaw.NextConserves` | comptoken/src/comptoken.rs:175-180 | every call keeps the supply law, and neither the supply nor the mark falls |
| `SupplyLaw.SupplyLawHolds` | comptoken/src/global_data/daily_distribution_data.rs:32-72 | in every run: supply = initial supply + 10000 * accepted proofs + 146000 * high water mark = all balances together, and yesterday's supply is no larger, so its subtraction never underflows |
| `SupplyLaw.NothingShrinks` | comptoken/src/global_data/daily_distribution_data.rs:41-43 | between any two points of a run the supply and the high water mark do not fall |
| `SupplyLaw.SuppliesAgreeAfterEvent` | comptoken/src/global_data/daily_distribution_data.rs:32-72 | right after every event of every run, the early return included, yesterday's supply equals the supply |
| `EventLog.RunIsLogged` | comptoken/src/global_data/daily_distribution_data.rs:28-73 | in every run the slots are the last 365 of everything recorded, the mark is what the mining days make of it, and event days, payout dates and places in the log agree |
| `EventLog.EventSucceedsIff` | comptoken/src/comptoken.rs:409-413 | in every run an event goes through if and only if the last event was on an earlier UTC day and it is not exactly the midnight that ends that day |
| `EventLog.EventsPerDay` | comptoken/src/comptoken.rs:409-413 | no two events of a run fall on one UTC day, and a run has no more events than days |
| `EventLog.HighWaterMarkOfRun` | comptoken/src/global_data/daily_distribution_data.rs:75-85 | in every run the mark is at most the best mining day, and equal to it while no event was capped |
| `EventLog.ClaimReads` | comptoken/src/comptoken.rs:528-542 | in every run a claim reads exactly the unpaid events if and only if as many days are without an event now as were at the last payout; otherwise it goes back to as many earlier slots, or leaves out as many of the oldest unpaid events, as the numbers differ by |
| `EventLog.EachEventPaidOnce` | comptoken/src/comptoken.rs:528-547 | where every day has its event first, a claim reads precisely the events since the user's last claim |
| `EventLog.RunSkipsNothing` | comptoken/src/comptoken.rs:528-547 | in every such run the days since a user's payout are as many as the events since |
| `EventLog.LateClaimsForfeit` | comptoken/src/comptoken.rs:528-547 | after more than 365 days a claim pays nothing, and only the date moves |
| `EventLog.ClaimsPastTheLogForfeit` | comptoken/src/global_data/daily_distribution_data.rs:102-109 | in every run a claim of more days than the program has had events pays nothing and moves the date |
| `ClaimTiming.EarlierClaimMattersIff` | comptoken/src/comptoken.rs:528-547 | in every run with one event a day between a user's two claims, whatever else others do: leaving out the first claim leaves the user the same coins if and only if that claim reached back no further than the first event, or the days between pay nothing |
| `ClaimTiming.EarlierClaimNeverMatters` | comptoken/src/comptoken.rs:528-547 | where every day has its event first, an earlier claim never makes a difference to what a later one leaves |
| `ClaimTiming.RunKeepsAlike` | comptoken/src/comptoken.rs:364-440 | claims and transfers, made or not, change nothing that later events record, mint in total or announce |
| `Incidents.UnfilledSlotBreaksSettlement` | comptoken/src/global_data/daily_distribution_data.rs:18 | a reachable pair of runs: after a day without an event and then an event, a user who claimed on both days holds 730010000 coins and one who claimed only on the last 10000 |
| `Incidents.ClaimBeforeEventLosesIt` | comptoken/src/comptoken.rs:528-547 | a run with an event every day in which a claim before the day's event makes the user lose the 730000000 coins it was due |
| `Incidents.StaleMiningBreaksSolvency` | comptoken/src/comptoken.rs:163-180 | a run with every event first, solvent after the event and insolvent after one user mines before claiming |
| `NoDoublePay.RunIsChronicled` | comptoken/src/global_data/valid_blockhashes.rs:21-40 | the blockhash invariants hold in every run of the whole program, and every store is a set within its capacity |
| `NoDoublePay.RunIsSpent` | comptoken-utils/src/user_data.rs:23-45 | in every run a proof accepted for the still valid hash is in its owner's store, across account growth, updates and other users' calls |
| `NoDoublePay.RunPaysPerAcceptance` | comptoken/src/comptoken.rs:164-180 | each user has mined 10000 times the acceptances |
| `NoDoublePay.NoProofPaysTwice` | comptoken/src/comptoken.rs:164-180 | if no slot hash is announced twice, no (user, blockhash, proof) is accepted twice, and each user has mined 10000 for each different pair |
| `Solvency.InterestShare` | comptoken/src/global_data/daily_distribution_data.rs:59-67 | the bank gains the day's rate on the whole supply less what the future UBI bank earns, to within half a coin |
| `Solvency.EventKeepsCovered` | comptoken/src/global_data/daily_distribution_data.rs:59-71 | an event keeps bank + slack + debt at or above all dues, the slack becoming factor * slack + (users + 1)/2 and the debt factor * debt |
| `Solvency.OwedIsDue` | comptoken/src/comptoken.rs:518-547 | what the program would pay now is what the unpaid events make due, or nothing when it is too late |
| `Solvency.RunIsCovered` | comptoken/src/comptoken.rs:518-564 | in every run whose days have their event first, bank + slack + debt covers all interest due, where mining before claiming adds to the debt what the new coins earn for the unclaimed days |
| `Solvency.CarefulRunHasNoDebt` | comptoken/src/comptoken.rs:163-180 | the debt is 0 in every such run in which users mine only when current |
| `Solvency.RunIsSolvent` | comptoken/src/comptoken.rs:518-564 | in every run with each day's event first and mining only when current, interest bank + slack covers all interest due |
| `Solvency.TotalOwedIsCovered` | comptoken/src/comptoken.rs:518-564 | at any call of an events-first run but an event, bank + slack + debt covers what the program would pay all users together, and nobody is owed UBI |
| `Solvency.MiningKeepsSolventIff` | comptoken/src/comptoken.rs:163-180 | mining leaves the bank solvent if and only if bank + slack covers the dues and what the new coins earn for the days the miner has not claimed |
| `Solvency.StaleMiningCreatesDebt` | comptoken/src/comptoken.rs:163-180 | mining with any unclaimed days, one of them of 0.02 percent or more, strictly raises the miner's claim while the bank gains nothing |

## Left out

- IEEE rounding inside `f64` products, quotients and `powf`, and the loss of casting large `u64` values to `f64`: exact reals
  are used; only the program's own rounding function is treated on the grid of doubles.
- 64-bit overflow of token balances and of the casts at the end of a claim: unbounded naturals are used. An event's
  arithmetic is covered by the range lemma `Distribution.EventStaysInU64`.
- `verify_human`: everything after its `todo!` is unreachable. No run contains a verified human, and the number of verified
  humans stays what it was at the start.
- Per-bank solvency of the UBI paid to verified humans: the program pays it from the interest bank.
- Account verification, program-derived addresses, cross-program calls, rent, lamports and instruction decoding: wrappers
  around the runtime. The runtime's limit on the size of a new account is not modelled either.
- The token program's own failures in minting: a mint is assumed to go through. Burning coins, closing accounts and minting
  by other means do not exist in the model.
- The slot-hashes sysvar: the newest hash is an input of the call that reads it.
- Creating token accounts: a wallet that does not exist holds nothing, and creating a user's data account adds it with 0.
- `test_mint`, logging, generated constants, the transfer hook's metadata accounts and all clients.
- The unit tests of `comptoken/src/comptoken_proof.rs`: they call functions that file no longer defines.
- Solvency.RunIsCovered: asks that each day has its event before other calls of that day, without which a claim need not pay
  what is due (`EventLog.ClaimReads`), and that the supply is a 64-bit number.
- ClaimTiming.EarlierClaimMattersIff: compares two claims by one user with one event a day between them, and asks that nothing
  else moves that user's coins and that the compared claims go through.
- Comptoken.Accounts.DailyDistributionEvent: asks that the supply has not shrunk since the last event, which the supply law
  gives for every run; otherwise the source's subtraction would wrap.
