# RePugMod: a verified model

RePugMod runs Counter-Strike matches on a game server: it counts rounds, changes sides, builds
teams, draws menus, limits chat and keeps statistics. This project models the parts of it that
are about more than one function at a time, in Dafny 4.11, and proves what they keep over whole
runs. `dafny verify dfyconfig.toml` checks all of it.

## The modules

| files | what they model |
|---|---|
| `CrcTable`, `BitRegister`, `CrcRegister`, `Crc32c` | The checksum. A shift register over bits is proved to do long division; a 32-bit word is proved to move like that register; the 256 table entries are proved to be eight clocks each, because eight clocks are linear; the byte loop and the word loop are proved against the word. |
| `Tasks`, `TaskLaws`, `Loops` | The timer map, whose callbacks create and remove entries of the map that is being walked. Callbacks are values, and a behaviour says which world and which timer commands each leads to. Entries that fire once, and entries that repeat. |
| `Match`, `PugMod` | The match engine: as functions of the match state, and as a class over arrays that is proved to carry out those functions. |
| `MatchLaws`, `Kickoffs` | What single operations mean: going live, the rounds that count, surrender, an overtime won; and the runs from warm-up to the first round that counts and from the end to what follows it. |
| `MatchScores`, `Regulation` | What the engine keeps: scores against an independent ledger, and a whole match on the re-entrant timer map. |
| `Frames`, `Halftime`, `Restarts`, `Transitions`, `Overtimes`, `Exactness` | A frame of the engine timer by timer; the swap at half-time; when a live-on-three restart or an early round end spoils a match; how a tie reaches overtime and how an overtime can be won; exactly which events are harmless. |
| `Players`, `RandomTeams`, `Captain` | Building teams: the in-place random draw and the captain draft. |
| `SkillTeams`, `SkillLaws`, `SkillTies`, `Alternation`, `SkillBalance`, `SkillOrders` | The skill draft: what it computes, what it does with ties, and exactly when the teams come out even. |
| `Codec` | Writing and reading user messages in a bounded buffer. |
| `Sums`, `Stats`, `StatsLaws`, `Hits` | Damage, what a hit and a life can cost, and the shares of a won round. |
| `AntiFlood`, `TimeFormat`, `Menu` | Chat limiter, durations in words, paged menus. |
| `Options` | A value that may be missing. |

Classes whose methods change fields (`TaskQueue`, `CPugMod`, `PlayerList`, `CCaptain`,
`BufferWriter`, `MessageReader`, `CStats`, `CAntiFlood`, `CMenu`) have contracts that give the
whole new state as a function of the old one. The theorems are lemmas about those functions, and
in the captain draft, which is not deterministic, about the record of the picks.

## What is assumed

- Console variables are constants of a match, and time, which the source keeps in a float, is a
  real number. Indices of timers are below 107: the plugin uses the two team numbers and 100 to
  106 (PugMod/Task.h:3-9).
- The engine calls JoinTeam, SwapAllPlayers and BalanceTeams are small operations on teams:
  JoinTeam sets the team, SwapAllPlayers exchanges the two, BalanceTeams leaves numbers that are
  part of the environment. The environment may change between any two events of a match.
- The score arrays have a column for each of the four team numbers (PugMod/PugMod.cpp:476-503);
  only the two playing ones are ever written with anything but zero.
- Regulation is claimed for an even round limit and overtime types 1 and 2. The events are rounds,
  frames, changes of players, and the end of a vote or a captain draft in the START state
  (PugMod/VoteTeam.cpp:222, PugMod/Captain.cpp:65), which asks for the next state.
  `Regulation.Allowed` says which of them a match may contain. All frames and changes of players are
  allowed, and every event that is not allowed is one with which the source loses its promise: after
  an event at any moment of a match some allowed events can break the promise if and only if the
  event was not allowed (`Exactness.AllowedIff`). What is not allowed:
  - A round that counts and ends a half, with a delay, while the live-on-three restart is pending,
    since the last step of the restart wipes the period. Frames and changes of players alone, in
    order of time, then break the promise if and only if the rest of the restart can end before the
    transition is due (`Restarts.LateRoundIff`); a drawn round puts the transition off until it can,
    so such a half can always be lost (`Restarts.LateRoundLost`). `Restarts.RestartLosesHalf` is such
    a match from any kickoff on a game that has been started before.
  - A round that wins an overtime while the restart or a transition is pending: the restart leaves
    the counters of the overtime before it, so the winner test can succeed, and the transition then
    ends the match (`Overtimes.WinnerEnds`). `Overtimes.OvertimeCanBeWon` leads there by allowed
    events from any live overtime of at least four rounds. Other rounds of an overtime may count.
  - A round that counts while the transition of a half is pending, unless the side that has lost the
    match wins one of the rounds that are left.
  - A round that ends without a delay while the transition to half-time is pending, if half-time has
    too few players to set its own transition over the pending one (`Transitions.ZeroDelayIff`, from
    a kickoff `Transitions.ZeroDelayFromKickoff`).
  - A vote that ends without a delay while a transition is pending, if it starts the first half. The
    plugin never does that: a vote asks for the next state without a delay only from the callback of
    the transition itself (PugMod/VoteMap.cpp:124-144).
- A round counts only if the game has been started (PugMod/PugMod.cpp:798-815); the last
  live-on-three step starts it (PugMod/PugMod.cpp:619-626).
- A failed start of the second half re-enters half-time and schedules another swap
  (PugMod/PugMod.cpp:129-146), so nothing here says that there is exactly one swap. The last
  live-on-three step zeroes the period that goes live (PugMod/PugMod.cpp:626), so overtime scores
  do not add up across overtime periods, and a tie that is played on by allowed events is never
  decided (`Regulation.OvertimeNeverDecides`).
- The skill draft has 32 slots, although the source's outer bound is the array's size in bytes
  (PugMod/VoteTeam.cpp:312). std::sort is taken as any arrangement its comparator permits; that
  comparator truncates to int (PugMod/VoteTeam.cpp:306), so equal efficiencies need not stay
  together. `SkillTies.SortKeepsTies` says exactly when they do, and `SkillOrders.BalancedIffFair`
  says exactly when the team sizes come out within one of each other whatever the order:
  `SkillBalance.Fair` asks for no integer part with two odd tie groups of which one has several
  slots, or for an odd number of players and a single such integer part that can only make up for
  the odd player. An efficiency is a number unless frags and deaths add up to zero
  without being zero.
- The captain draft runs without anybody connecting, disconnecting or changing team on his own.
- Damage received is added twice for armed hits (PugMod/Stats.cpp:293 and PugMod/Stats.cpp:297);
  the model does the same and `StatsLaws.DamageAddsUp` says by how much the counter is too large.
  Sums of damage are integers and shares real numbers.
- The words of durations come from a table that the theorems quantify over; `long` has 32 bits and
  the number of seconds has to fit.
- The checksum instructions are the bit-at-a-time register. The final complement of RFC 3720 is
  not part of the source and not of the model. The word load is little-endian.

## Model

| member | source | states |
|---|---|---|
| `CrcRegister.TableEntry` | PugMod/include/cssdk/engine/crc32c.cpp:39-104 | Each of the 256 table entries is the register after eight bit-at-a-time clocks from its index |
| `CrcRegister.BitsReflected` | PugMod/include/cssdk/engine/crc32c.cpp:39-104 | The constant of that clock, 0x82F63B78, is the generator 0x1EDC6F41 in reverse bit order |
| `CrcRegister.FeedIsRun` | PugMod/include/cssdk/engine/crc32c.cpp:106-116 | The machine-word register, fed any bits, moves exactly like a 32-place shift register |
| `CrcRegister.BitsInjective` | PugMod/include/cssdk/engine/crc32c.cpp:106-108 | Two machine words with the same 32 bits are equal |
| `CrcRegister.TableStepIsFeed` | PugMod/include/cssdk/engine/crc32c.cpp:106-108 | One table lookup has the effect of eight message bits, for every register and byte |
| `BitRegister.RunIsLongDivision` | PugMod/include/cssdk/engine/crc32c.cpp:110-116 | The shift register holds the remainder of textbook long division by the generator |
| `BitRegister.RunLinear` | PugMod/include/cssdk/engine/crc32c.cpp:39-116 | The register is linear: the sum of two runs is the run of the sums |
| `BitRegister.RunInjective` | PugMod/include/cssdk/engine/crc32c.cpp:39-116 | For fixed message bits different register values stay different |
| `BitRegister.RunPreload` | PugMod/include/cssdk/engine/crc32c.cpp:110-116 | A start value has the effect of being added onto the first 32 message bits |
| `BitRegister.BurstDetected` | PugMod/include/cssdk/engine/crc32c.cpp:39-116 | Two messages that differ within 32 consecutive bits leave different registers |
| `Crc32c.CrcAppend` | PugMod/include/cssdk/engine/crc32c.cpp:110-135 | The checksum of a concatenation is that of the second piece started from that of the first |
| `Crc32c.Crc32cT8NoSse` | PugMod/include/cssdk/engine/crc32c.cpp:106-108 | The single table step computes the checksum of its byte |
| `Crc32c.Crc32cTNoSse` | PugMod/include/cssdk/engine/crc32c.cpp:110-116 | The table loop computes the bit-at-a-time checksum of the buffer; a negative length takes in nothing |
| `Crc32c.WordIsFourBytes` | PugMod/include/cssdk/engine/crc32c.cpp:126-128 | The word instruction on a little-endian load takes in the four bytes in order |
| `Crc32c.LoadAndFeed` | PugMod/include/cssdk/engine/crc32c.cpp:126-128 | One pass of the word loop, with its load inside the buffer |
| `Crc32c.Crc32cTSse` | PugMod/include/cssdk/engine/crc32c.cpp:122-135 | With the bound len >> 2 and step 4 every load stays inside the buffer, and word loop and byte tail together compute the bit-at-a-time checksum |
| `Crc32c.Crc32cT` | PugMod/include/cssdk/engine/crc32c.cpp:137-139 | The dispatch, with the conversion of the length on the table path |
| `Crc32c.Crc32c` | PugMod/include/cssdk/engine/crc32c.cpp:141-143 | The public routine: start value all ones; a negative length takes in nothing on the table path and is read as unsigned on the other |
| `Crc32c.CrcIsLongDivision` | PugMod/include/cssdk/engine/crc32c.cpp:110-143 | For every start value and buffer the checksum is the remainder of long division by the generator of section 12.1 of RFC 3720 |
| `Crc32c.BitBurstDetected` | PugMod/include/cssdk/engine/crc32c.cpp:39-143 | Messages that differ only within 32 consecutive bits, wherever these begin, get different checksums from every start value |
| `Crc32c.WindowDetected` | PugMod/include/cssdk/engine/crc32c.cpp:39-143 | Buffers of one length that differ only in a window of at most four bytes get different checksums |
| `Crc32c.CollisionIffDivisible` | PugMod/include/cssdk/engine/crc32c.cpp:39-143 | Two buffers of one length collide exactly when the generator divides the pattern in which they differ |
| `Crc32c.ChecksumParity` | PugMod/include/cssdk/engine/crc32c.cpp:39-143 | The parity of a checksum is that of its start value and its message together, since the generator has an even number of terms |
| `Crc32c.OddErrorDetected` | PugMod/include/cssdk/engine/crc32c.cpp:39-143 | Every error in an odd number of bits is detected, for every length and start value |
| `Crc32c.PathsAgree` | PugMod/include/cssdk/engine/crc32c.cpp:110-139 | The two paths agree on every content of a given length exactly when the length is below 2^31; above, the table path reads it as negative |
| `Tasks.TaskQueue.Clear` | PugMod/Task.cpp:5-8 | Empties the map |
| `Tasks.TaskQueue.Create` | PugMod/Task.cpp:15-35 | Replaces the entry of the index, with a deadline; a null callback changes nothing |
| `Tasks.TaskQueue.Remove` | PugMod/Task.cpp:49-55 | Marks the entry removed and keeps it in the map |
| `Tasks.TaskQueue.Exists` | PugMod/Task.cpp:37-47 | True exactly for an entry that is not removed |
| `Tasks.TaskQueue.Think` | PugMod/Task.cpp:81-105 | One frame is the walk over the indices in which every callback works on the map the walk is in the middle of |
| `TaskLaws.WalkAscends` | PugMod/Task.cpp:81-105 | A pass visits, and fires, every index at most once and in ascending order, whatever the callbacks do |
| `TaskLaws.FiresIffDue` | PugMod/Task.cpp:85-102 | An index fires in a frame if and only if its entry is live and due at the moment the walk reaches it |
| `TaskLaws.UntouchedFiresIffDue` | PugMod/Task.cpp:85-102 | Without commands for it an index fires exactly if it was live and due when the frame began |
| `TaskLaws.NeverFiresEarly` | PugMod/Task.cpp:49-55 | A removed, missing or early entry does not fire, unless a lower callback creates it with no delay |
| `TaskLaws.RecreatedStays` | PugMod/Task.cpp:89-101 | A one-shot entry that its own callback creates again is in the map after the frame, live, with the new deadline |
| `Loops.FrameRearms` | PugMod/Task.cpp:85-102 | A repeating entry without commands for it fires in a frame exactly if it is due, and afterwards it is live with the same time and callback, due that time after the frame if it fired and as before if not |
| `Loops.FiresEveryTime` | PugMod/Task.cpp:81-105 | Over any run without commands for it a repeating entry fires in a frame exactly if the frame is at least its time after the one in which it fired last |
| `TaskLaws.FiresAtMostOncePerCreate` | PugMod/Task.cpp:15-105 | Over a whole run of frames and commands a one-shot index fires at most once for every creation |
| `TaskLaws.LowerIndexFiresFirst` | PugMod/Task.cpp:81-105 | Of two live entries the one with the lower index and no later deadline fires first, for any frame times |
| `TaskLaws.WalkKeeps` | PugMod/Task.cpp:81-105 | What every single firing keeps, a frame keeps |
| `PugMod.CPugMod.SetState` | PugMod/PugMod.cpp:41-170 | Entering a state: its timers, resets, balance check and fall-backs |
| `PugMod.CPugMod.NextState` | PugMod/PugMod.cpp:172-182 | A delay sets a timer, no delay moves on at once |
| `PugMod.CPugMod.RunState` | PugMod/PugMod.cpp:184-267 | The next state from state, scores and settings |
| `PugMod.CPugMod.CheckBalanceTeams` | PugMod/PugMod.cpp:269-298 | Enough players on both sides, after balancing if need be |
| `PugMod.CPugMod.RestartPeriod` | PugMod/PugMod.cpp:380-405 | Wipes the current period and enters it again |
| `PugMod.CPugMod.EndGame` | PugMod/PugMod.cpp:408-432 | A surrender: the scores are rewritten if the winner is not ahead |
| `PugMod.CPugMod.GetRound` | PugMod/PugMod.cpp:464-474 | The total over all periods |
| `PugMod.CPugMod.GetScores` | PugMod/PugMod.cpp:476-486 | The total of one side over all periods |
| `PugMod.CPugMod.ResetScores` | PugMod/PugMod.cpp:488-493 | Clears every period |
| `PugMod.CPugMod.ResetStateScores` | PugMod/PugMod.cpp:495-503 | Clears the current period only |
| `PugMod.CPugMod.GetWinner` | PugMod/PugMod.cpp:505-513 | The side with more wins, or none |
| `PugMod.CPugMod.GetOvertimeWinner` | PugMod/PugMod.cpp:515-532 | The overtime winner test |
| `PugMod.CPugMod.Lo3` | PugMod/PugMod.cpp:609-630 | One step of the live-on-three chain |
| `PugMod.CPugMod.SwapTeams` | PugMod/PugMod.cpp:632-653 | Half-time swap, left out in a tied overtime without swapping |
| `PugMod.CPugMod.SwapScores` | PugMod/PugMod.cpp:655-661 | Exchanges the two sides in every live period |
| `PugMod.CPugMod.RoundEnd` | PugMod/PugMod.cpp:790-865 | Counts the round and asks for the next state |
| `MatchLaws.GoesLiveIff` | PugMod/PugMod.cpp:269-298 | Entering a live stage leaves the match live if and only if the check is off, or both sides have half the required players, or the game has rules and both have them after balancing; otherwise it is in warm-up or half-time. A match gone live under the check has enough on both sides |
| `MatchLaws.TransitionGoesLive` | PugMod/PugMod.cpp:200-223 | So it is for the transitions from the start and from half-time, and to which live stage they lead |
| `MatchLaws.EndLeadsTo` | PugMod/PugMod.cpp:250-263 | The end is followed by the vote for a map if that is held then, and by warm-up otherwise; scores and players stay |
| `MatchLaws.SwapExchanges` | PugMod/PugMod.cpp:632-661 | A swap exchanges the players and the totals of the two sides, and does nothing in a tied overtime that keeps its sides |
| `MatchLaws.RoundWritten` | PugMod/PugMod.cpp:790-817 | The end of a round writes exactly one round, for its winner, if and only if the match is live, the game has rules, is started and neither resetting nor frozen, and a side has won |
| `MatchLaws.OvertimeWonIff` | PugMod/PugMod.cpp:515-532 | An overtime is won exactly if more than half its length has been played beyond the last full one and one side leads by three |
| `MatchLaws.SurrenderWins` | PugMod/PugMod.cpp:408-432 | After a surrender the match is at its end with the winner ahead: with the scores as they were if he was ahead, else with half the rounds and one more against none |
| `MatchLaws.RestartWipes` | PugMod/PugMod.cpp:380-405 | A restarted period is at zero, the others are as before, and it goes live again through the live-on-three restart or falls back |
| `MatchLaws.StopEnds` | PugMod/PugMod.cpp:360-378 | A stopped match is at its end with its scores, and no step of a restart is left |
| `Kickoffs.WarmupFromStart` | PugMod/Ready.cpp:5-153 | A warm-up under any frames at any times, with players who come, go and get ready, is left in the first frame in which the ready list runs and everyone is ready; the list runs half a second after it was set and after each time it ran |
| `Kickoffs.FirstRoundCounts` | PugMod/PugMod.cpp:609-630 | From every kickoff on a game not yet started, under any frames and rounds: no round counts before the last step of the restart, and the first round after it counts for its winner |
| `Kickoffs.EndFromStart` | PugMod/PugMod.cpp:147-157 | From the end of a match, under any frames and changes of players: it is over for five seconds, and the first frame after that leads to the vote for a map or to warm-up |
| `MatchScores.StepsBalanced` | PugMod/PugMod.cpp:380-432 | Under every sequence of operations, surrender included, rounds equal the wins of both sides in every period, and only the three live periods are ever nonzero |
| `MatchScores.ScoresFollowRosters` | PugMod/PugMod.cpp:632-661 | Up to a surrender, a roster's score in every period, on the side it is on now, is its count in an independent ledger of won rounds |
| `MatchScores.TotalsFollowRosters` | PugMod/PugMod.cpp:476-486 | The total shown for a side is the total of the roster on it, through swaps, restarts and live-on-three resets |
| `Regulation.EveryStateSafe` | PugMod/PugMod.cpp:184-267 | The invariant of a whole match holds after every allowed sequence of rounds, frames and player changes |
| `Regulation.FrameKeeps` | PugMod/Task.cpp:81-105 | A frame keeps the match invariant although its callbacks re-enter the timer map |
| `Regulation.RoundOverKeeps` | PugMod/PugMod.cpp:790-865 | The end of a round keeps the match invariant |
| `Regulation.RegulationSafety` | PugMod/PugMod.cpp:184-267 | The first half ends after exactly half the rounds; no more rounds than the limit; at most one side exceeds half and by one; the match ends only so or with a type-2 tie |
| `Regulation.NoOvertimeWinner` | PugMod/PugMod.cpp:515-532 | While an overtime is at most half played there is no overtime winner |
| `Regulation.OvertimeNeverDecides` | PugMod/PugMod.cpp:235-252 | Once tied, no allowed sequence of events ends the match |
| `Frames.FrameIs` | PugMod/Task.cpp:81-105 | A frame of the engine is the swap, the ready list, the transition and the live-on-three step, each on what the ones before it left, and nothing else |
| `Restarts.LateRoundIff` | PugMod/PugMod.cpp:609-630 | A round that ends a half during the live-on-three restart: frames and changes of players, in order of time, lose it if and only if from then on the rest of the restart can end before the transition is due |
| `Restarts.LateRoundLost` | PugMod/PugMod.cpp:609-630 | However soon its transition is due such a round can be lost, by allowed events in order of time |
| `Restarts.RestartLosesHalf` | PugMod/PugMod.cpp:609-630 | From every kickoff of a started game: a half won round by round during the restart, wiped by its last step, and half-time with no round played |
| `Transitions.ZeroDelayIff` | PugMod/PugMod.cpp:112-123 | A round that ends at once over a pending transition to half-time can spoil the match if and only if half-time has too few players |
| `Transitions.ZeroDelayFromKickoff` | PugMod/PugMod.cpp:223-236 | From every kickoff of a started game: such a round, after which the ready list starts a second half that the old transition ends unplayed |
| `Overtimes.TieReachesOvertime` | PugMod/PugMod.cpp:218-252 | A type-1 tie under any number of frames at any times, with players who come and go without leaving too few: the match has come exactly as far as the frames have passed the deadlines of the two transitions and the three steps of the restart, and is then in a live overtime with its counters at zero; so it is from one overtime to the next |
| `Overtimes.WinnerEnds` | PugMod/PugMod.cpp:515-532 | Every round that counts and makes an overtime winner ends the match, at once or with the frame of its transition, even if the restart is pending |
| `Overtimes.OvertimeCanBeWon` | PugMod/PugMod.cpp:852-862 | From every live overtime of at least four rounds, on a started game with enough players: allowed events, in order of time, to a pending restart in which the next round wins the overtime |
| `Exactness.AllowedIff` | PugMod/PugMod.cpp:790-865 | At any moment of a match, after any event: some allowed events, in order of time, can break what regulation promises if and only if the event was not allowed |
| `Halftime.SwapBeforeTransition` | PugMod/PugMod.cpp:110-123 | Half-time entered while no ready list runs: over any events and at any moment inside any frame the swap has fired or the match is still in half-time, if and only if there are enough players for half-time to set its own transition |
| `Halftime.ReadyListFirst` | PugMod/PugMod.cpp:116-123 | The failing run: too few players at the start of half-time, then everyone ready, and one frame takes the match on without a swap |
| `Halftime.SwapTwice` | PugMod/PugMod.cpp:632-653 | The swap undoes itself, and does nothing exactly in a tied overtime that keeps its sides |
| `Halftime.OvertimePeriodLength` | PugMod/PugMod.cpp:852-862 | Entered after B rounds, an overtime period with k = floor(O/2) asks for the next state after exactly k - (B mod k) won rounds |
| `RandomTeams.Draw` | PugMod/VoteTeam.cpp:237-258 | Moving the last player into the gap takes out exactly the player drawn |
| `RandomTeams.TeamsRandomize` | PugMod/VoteTeam.cpp:225-263 | For any random choices every listed player is drawn exactly once and joins the team of his place in the draw, nobody else changes team; the first team gets half the players rounded up, the other half rounded down |
| `RandomTeams.DrawHalves` | PugMod/VoteTeam.cpp:261 | Alternate teams along any list of different players split it into halves that differ by at most one |
| `SkillTeams.Fill` | PugMod/VoteTeam.cpp:288-303 | Both arrays hold the efficiencies and zeros up to 32 slots |
| `SkillTeams.Efficiency` | PugMod/VoteTeam.cpp:295-301 | 0 exactly without frags, and between 0 and 100 for frags that are not negative |
| `SkillTeams.EfficiencyOrder` | PugMod/VoteTeam.cpp:295-301 | With frags, a better ratio of frags to deaths is exactly a higher efficiency, and 100 is for no deaths |
| `SkillTeams.TeamsOptimize` | PugMod/VoteTeam.cpp:273-340 | From frags and deaths and the order std::sort leaves, the arrays and the double loop leave everyone on the team that the slot-by-slot deal gives him |
| `SkillTeams.DraftResult` | PugMod/VoteTeam.cpp:312-340 | For any order of the slots: everyone is on the team of his rank counted from the flips before the last slot with his efficiency |
| `SkillLaws.TieAsDealtOnce` | PugMod/VoteTeam.cpp:324-333 | A tie of m players, dealt m times, ends as if dealt once |
| `SkillLaws.TieAsInSinglePass` | PugMod/VoteTeam.cpp:312-340 | A tie before every zero slot is dealt exactly as in one alternating pass |
| `SkillLaws.TeamsBalanced` | PugMod/VoteTeam.cpp:273-340 | With equal efficiencies adjacent everyone plays and the team sizes differ by at most one, despite the zero padding |
| `SkillTeams.WholeTruncates` | PugMod/VoteTeam.cpp:306 | What the comparator sees of an efficiency: the number without its fraction, on both sides of zero, so that all between -1 and 1 look alike |
| `SkillTies.SortKeepsTies` | PugMod/VoteTeam.cpp:306 | Every order that the truncating comparator permits keeps ties together if and only if no repeated efficiency shares its integer part with another |
| `SkillTies.SplitTieUnbalances` | PugMod/VoteTeam.cpp:273-340 | Five players, by frags and deaths, whose efficiencies the comparator takes for sorted as they stand, and of whom four end on one team |
| `SkillBalance.LeadIsSum` | PugMod/VoteTeam.cpp:312-340 | For any order of the slots the lead of a team is the alternating sum over the last slots of the odd tie groups |
| `SkillBalance.FairTotal` | PugMod/VoteTeam.cpp:273-340 | Fair efficiencies: in every order that the comparator permits the lead is at most one |
| `SkillOrders.UnfairUnbalanced` | PugMod/VoteTeam.cpp:306-340 | Any other efficiencies: the comparator permits an order that gives one team at least two players more |
| `SkillOrders.BalancedIffFair` | PugMod/VoteTeam.cpp:273-340 | For at most 32 efficiencies, negative ones included, the team sizes differ by at most one in every permitted order if and only if the efficiencies are fair |
| `SkillOrders.TiesApartBalanced` | PugMod/VoteTeam.cpp:273-340 | If no tie shares its integer part with another efficiency the sizes differ by at most one in every permitted order |
| `Captain.CCaptain.Init` | PugMod/Captain.cpp:17-54 | With more than five players both teams are recalled, two spectators made captains and the draft run until it waits or is over; otherwise it stops and nobody moves |
| `Captain.CCaptain.Recall` | PugMod/Captain.cpp:25-38 | Everyone in a team becomes a spectator, nobody else moves |
| `Captain.CCaptain.SetCaptain` | PugMod/Captain.cpp:90-105 | The captain joins his side; a null player changes nothing |
| `Captain.CCaptain.GetPlayer` | PugMod/Captain.cpp:122-152 | One pick, and whatever picks of bots and last spectators follow from it; terminates with the spectators as measure |
| `Captain.CCaptain.CheckPlayerCount` | PugMod/Captain.cpp:154-171 | Goes on exactly with spectators left and a side below half the player minimum |
| `Captain.CCaptain.Menu` | PugMod/Captain.cpp:193-228 | A captain who is no bot, with at least two to choose from, is asked: teams and picks stay and his timer runs. Otherwise picks are made for bots and of the last spectator until a captain is asked or the draft is over |
| `Captain.CCaptain.MenuHandle` | PugMod/Captain.cpp:230-243 | The chosen player is the next pick; all further picks in the same call are those of bots or of the last spectator |
| `Captain.CCaptain.GetRandomPlayer` | PugMod/Captain.cpp:245-269 | A captain whose time is up picks at random; all further picks in the same call are those of bots or of the last spectator |
| `Captain.CCaptain.HumanPicks` | PugMod/Captain.cpp:193-269 | Over a whole draft, every pick of a captain who is no bot with two or more left is his choice from the menu or was made when his time was up |
| `Captain.CCaptain.Stop` | PugMod/Captain.cpp:56-66 | Clears the draft and moves on |
| `Captain.PickedTeams` | PugMod/Captain.cpp:122-145 | Everyone picked is on the side that picked him, for good; everyone else stays where he was |
| `Captain.PickedSizes` | PugMod/Captain.cpp:122-145 | The size of each side and the spectators left after any number of picks |
| `Captain.AlwaysEven` | PugMod/Captain.cpp:142-170 | After every pick the sizes differ by at most one, and with m at least 2 no side exceeds m |
| `Captain.DraftEnds` | PugMod/Captain.cpp:154-171 | A whole draft ends with both sides at m or nobody left if and only if m is at least 2 or there was at most one to pick |
| `Captain.FullTeams` | PugMod/Captain.cpp:154-171 | With four or more players to a match and enough spectators both teams end equal and make up the match, but for one if its number is odd; with fewer nobody is left |
| `Codec.BufferWriter.constructor` | PugMod/include/cssdk/common/parsemsg.cpp:189-195 | An empty writer on a buffer, or on none |
| `Codec.BufferWriter.WriteByte` | PugMod/include/cssdk/common/parsemsg.cpp:198-209 | Appends the byte or sets the overflow flag; nothing behind it changes |
| `Codec.BufferWriter.WriteLong` | PugMod/include/cssdk/common/parsemsg.cpp:212-226 | Appends four bytes, low byte first, or sets the flag and writes none |
| `Codec.BufferWriter.WriteString` | PugMod/include/cssdk/common/parsemsg.cpp:229-251 | Appends the string with its end, an empty one for a null string, or sets the flag and leaves an empty string if there is room |
| `Codec.BufferWriter.GetSpaceUsed` | PugMod/include/cssdk/common/parsemsg.cpp:254-257 | The number of bytes written, 0 for a null buffer |
| `Codec.MessageReader.BeginRead` | PugMod/include/cssdk/common/parsemsg.cpp:35-41 | A reader at the start of the data |
| `Codec.MessageReader.ReadOk` | PugMod/include/cssdk/common/parsemsg.cpp:30-33 | No read has gone past the end |
| `Codec.MessageReader.ReadChar` | PugMod/include/cssdk/common/parsemsg.cpp:44-58 | A signed byte, or -1 and a bad message |
| `Codec.MessageReader.ReadByte` | PugMod/include/cssdk/common/parsemsg.cpp:60-74 | An unsigned byte, or -1 and a bad message |
| `Codec.MessageReader.ReadLong` | PugMod/include/cssdk/common/parsemsg.cpp:99-114 | Four bytes as a wrapped 32-bit integer, or -1 and a bad message |
| `Codec.MessageReader.ReadString` | PugMod/include/cssdk/common/parsemsg.cpp:136-159 | The characters up to a zero, a byte that reads as -1, the end of the data or 2047 of them |
| `Codec.OverflowIffTooLong` | PugMod/include/cssdk/common/parsemsg.cpp:198-257 | After any fields the flag is set if and only if their encoding is longer than the buffer; otherwise the buffer holds exactly the encoding |
| `Codec.LongRoundTrip` | PugMod/include/cssdk/common/parsemsg.cpp:220-223 | Every 32-bit integer comes back from its four bytes |
| `Codec.LowByteFirst` | PugMod/include/cssdk/common/parsemsg.cpp:220-223 | The four bytes of a long, low byte first, make up its value modulo 2^32 |
| `Codec.StringRoundTrip` | PugMod/include/cssdk/common/parsemsg.cpp:136-159 | A string comes back whole, with the cursor behind its end, if and only if it is at most 2046 long and has no byte 255 |
| `Codec.FieldRoundTrip` | PugMod/include/cssdk/common/parsemsg.cpp:60-159 | The same for a field of any kind |
| `Codec.RoundTrip` | PugMod/include/cssdk/common/parsemsg.cpp:60-257 | Any fields written without overflow read back field by field, READ_OK true and the cursor at the end, if and only if every string is readable |
| `Codec.ReadOkIff` | PugMod/include/cssdk/common/parsemsg.cpp:30-114 | Over any reads of bytes, longs and strings READ_OK is false exactly if a byte or a long went past the end of the data |
| `Codec.CharIsByte` | PugMod/include/cssdk/common/parsemsg.cpp:44-74 | A char is the byte of the same place modulo 256, between -128 and 127, and both are -1 past the end |
| `Codec.TooLongReadsEmpty` | PugMod/include/cssdk/common/parsemsg.cpp:229-251 | A string that does not fit sets the flag, and where there is room it reads back as an empty one |
| `Stats.CStats.Reset` | PugMod/Stats.cpp:224-238 | Clears the round, and everything if full |
| `Stats.CStats.TakeDamage` | PugMod/Stats.cpp:263-334 | The counters of victim and attacker after a hit |
| `Stats.CStats.RoundFreezeEnd` | PugMod/Stats.cpp:708-714 | A live round starts with cleared round counters |
| `Stats.CStats.RoundEnd` | PugMod/Stats.cpp:716-792 | Rounds and shares of every player after a won round |
| `StatsLaws.DamageAddsUp` | PugMod/Stats.cpp:291-320 | Over any session a player's damage done is the sum over his hit boxes; his damage received is what he took plus, a second time, what is counted under weapons |
| `StatsLaws.WeaponTotals` | PugMod/Stats.cpp:299-324 | For every weapon the totals over all players are the sums over the hits of the session |
| `StatsLaws.WeaponsBalance` | PugMod/Stats.cpp:291-325 | For every weapon dealt and received differ by the hits in which only one player has an id, and agree if all have one |
| `StatsLaws.RoundsPlayed` | PugMod/Stats.cpp:734-781 | Every round a player played is won or lost on one side |
| `StatsLaws.RoundsWon` | PugMod/Stats.cpp:734-781 | A won round in a live match raises, for every player, the rounds played and the won ones of his side if his team has won, and otherwise the lost ones; no other counter changes |
| `StatsLaws.CreditsGiven` | PugMod/Stats.cpp:716-792 | With distinct ids every player is credited his own share exactly once |
| `StatsLaws.SharesInProportion` | PugMod/Stats.cpp:755-771 | A winner's share times the team's damage is his own damage, or 0.7 of it on a map objective; losers get none |
| `StatsLaws.RoundShares` | PugMod/Stats.cpp:716-792 | The shares sum to 1, or 0.7 on a map objective, if and only if the winners of now dealt all of the winners' damage; they do if everyone who hit is still on his team |
| `Hits.HitBooked` | PugMod/Stats.cpp:263-334 | A hit costs what its victim had if he is dead and otherwise the loss without its fraction; the attacker's counters and the victim's grow by that, under the grenade for an explosion and else the weapon in hand; an ignored hit, one on oneself among them, changes nothing |
| `Hits.SessionBooked` | PugMod/Stats.cpp:263-334 | Over any session each player's damage done and received, and under each weapon, is the sum of what the hits concerned cost, received damage twice where a weapon is known |
| `Hits.RoundBooked` | PugMod/Stats.cpp:224-238 | A player's and a team's damage of the round is what their hits have cost since the round went live or the last full reset |
| `Hits.LifeCosts` | PugMod/Stats.cpp:287 | In one life, each hit finding at most the health that the one before left, no more damage is counted than health was lost; exactly as much if all hits count and all healths are whole |
| `Hits.LifeInSession` | PugMod/Stats.cpp:287-297 | Anywhere in a session, among other hits, a life costs at most the health it began with, and is counted as received at most twice |
| `AntiFlood.CAntiFlood.ClientCommand` | PugMod/AntiFlood.cpp:5-38 | The verdict on a command; only the speaker's own entry changes; the counters stay within 0 to 3 |
| `AntiFlood.OwnTimesDecide` | PugMod/AntiFlood.cpp:15-34 | What gets through from a player depends on the times of his own messages only |
| `AntiFlood.AcceptedAfter` | PugMod/AntiFlood.cpp:17-34 | The potential argument: a lowered counter is paid for by a whole delay |
| `AntiFlood.SilenceNeeded` | PugMod/AntiFlood.cpp:17-23 | After a blocked message nothing gets through until there has been no message for the delay and three seconds; then the next one does |
| `AntiFlood.FloodBound` | PugMod/AntiFlood.cpp:5-38 | After any history, a window of length W lets at most 2 * floor(W / delay) + 4 messages of one player through |
| `AntiFlood.BoundReached` | PugMod/AntiFlood.cpp:5-38 | That bound is reached for every number of delays |
| `AntiFlood.OnlyChat` | PugMod/AntiFlood.cpp:5-15 | Only the two chat commands are limited, in any mixture of cases, and only with a delay |
| `TimeFormat.GetTimeLength` | PugMod/TimeFormat.cpp:5-153 | The text of a duration, for every unit and every count whose seconds fit |
| `TimeFormat.Decompose` | PugMod/TimeFormat.cpp:52-68 | The greedy counts of the seven units |
| `TimeFormat.JoinElements` | PugMod/TimeFormat.cpp:109-146 | The switch joins with commas and one conjunction |
| `TimeFormat.Recompose` | PugMod/TimeFormat.cpp:52-68 | The seven counts add up to the duration |
| `TimeFormat.Ranges` | PugMod/TimeFormat.cpp:52-68 | At most 12 months, and 12 months leave no week and at most 4 days; the bounds of the other units |
| `TimeFormat.SingleUnit` | PugMod/TimeFormat.cpp:70-108 | A count of one unit, too small for a larger one, reads as the number, a space and the singular for one or the plural for more |
| `TimeFormat.JoinFront` | PugMod/TimeFormat.cpp:109-146 | For any number of units: the conjunction before the last one and a comma before the others |
| `TimeFormat.TextDeterminesDuration` | PugMod/TimeFormat.cpp:70-146 | With words without digits, equal texts mean equal durations if and only if no two units share a singular or a plural |
| `TimeFormat.English` | PugMod/TimeFormat.cpp:5-153 | With the English words two texts are equal exactly if the durations are, or both are not positive, which reads Permanently |
| `Menus.CMenu.Clear` | PugMod/Menu.cpp:5-16 | Closed and empty |
| `Menus.CMenu.Create` | PugMod/Menu.cpp:18-29 | A new, closed menu |
| `Menus.CMenu.AddList` | PugMod/Menu.cpp:48-56 | Replaces the items, in order and numbered |
| `Menus.CMenu.Show` | PugMod/Menu.cpp:58-64 | Opens page 0 of a menu that has items |
| `Menus.CMenu.Hide` | PugMod/Menu.cpp:66-71 | Closes the menu |
| `Menus.CMenu.Display` | PugMod/Menu.cpp:118-213 | The page shown, with wrap-around and exit, and the lines and keys sent to the client |
| `Menus.CMenu.Handle` | PugMod/Menu.cpp:73-116 | What a key does, the callback's own commands included |
| `Menus.DoKeepsPage` | PugMod/Menu.cpp:48-56 | A command leaves the page valid if and only if it does not replace the items of an open page by too few |
| `Menus.PageAlwaysValid` | PugMod/Menu.cpp:18-213 | Over any session without such a command the page is -1 or one that exists |
| `Menus.CallsPaidByShows` | PugMod/Menu.cpp:58-111 | Over any session, from any state, there are at most as many callbacks as Shows, and one more if the menu was open; callbacks may rebuild the menu |
| `Menus.DrawnKeys` | PugMod/Menu.cpp:93-105 | Keys 1 to 7 stand for exactly the lines drawn |
| `Menus.BackCloses` | PugMod/Menu.cpp:83-129 | Back on the first page closes the menu exactly if it has an exit, on any other it goes one page back; Next closes nothing |
| `Menus.KeyTaken` | PugMod/Menu.cpp:73-116 | A key is taken exactly by an open menu of a client without another menu; another menu closes this one |
| `Menus.NewMenuShown` | PugMod/Menu.cpp:18-64 | A new menu given a list and shown is open on its first page with the texts as numbered items, and stays closed for an empty list |
| `Menus.NextGoesRound` | PugMod/Menu.cpp:83-86 | n presses of Next go n pages on, counted round |
| `Menus.EveryItemReachable` | PugMod/Menu.cpp:83-213 | From any open page every item can be reached with keys that the drawn screens offer, by fewer of them than there are pages, and is then offered and selected by its own key |

## Left out

- Chat, HUD, MOTD and user-message output, the words on menu screens, translation lookup and the
  execution of configuration files: output only.
- LibCurl, Auth, the JSON building of Stats::Save, and loading admins, maps and languages: network and files.
- Hooks into the game and Metamod, and the SDK headers: foreign interfaces.
- Admin menus and the dispatch of commands: branch tables.
- The vote counters (kick, level, stop, pause, restart) and pausing a match: guards settled by one branch.
- How map and team votes in the START state are counted; their end, which asks for the next state, is an event of a match.
- Vote map during a live half and overtime type 3, whose vote sets the state from outside.
- An odd round limit, which sends a tie back to the second half.
- The knife round and its own swap.
- Players disconnecting during a match or a captain draft (PugMod/Captain.cpp:68-88, PugMod/PugMod.cpp:674-683).
- Kills, assists, bomb, flash and money statistics, kill streaks and versus counts: single counters.
- READ_SHORT, READ_WORD, READ_FLOAT, READ_COORD and the angle readers: the same pattern as the readers modelled, or floats.
- Timer parameters other than the live-on-three counter, Timeleft and GetInfo.
- Regulation.RegulationSafety: events are restricted to those that Regulation.Allowed describes, because after any other event the source can break the promise, as Exactness.AllowedIff says.
- PugMod.CPugMod.SetState: does not start the votes of the START state, whose end is an event of its own.
- PugMod.CPugMod.RoundEnd: does not start the overtime vote of type 3, and needs an overtime length of at least 2 in overtime, because the source divides by half of it there.
- SkillTeams.TeamsOptimize: does not model reading past the 32 slots, which the source's bound allows; an array read out of bounds has no defined value.
- TimeFormat.GetTimeLength: does not model the overflow of a 32-bit long, which has no defined result in C++.
- Menus.PageAlwaysValid: needs lists that are long enough for an open page; the plugin only sets a list on a closed menu.
- SkillTeams.Efficiency: needs frags that do not cancel out the deaths, because the quotient is not a number then.
- Stats.CStats.TakeDamage: round damage per victim and float rounding are not kept, because nothing modelled reads them.
- Stats.CStats.RoundEnd: kill streaks and versus counts are not kept, because no property of them spans operations.
