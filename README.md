# Lowest-unique-bid match engine, in Dafny

This project models the engine of a repeated two-player lowest-unique-bid
game, and the strategy G2.

Each round, both strategies bid an integer in 1..N. Only a strictly lower
bid is paid, and it is paid its own value; a tie pays nothing. The engine
runs the game the configured number of rounds and keeps these fields:

- the two action histories (`A_actions`, `B_actions`);
- the two cumulative scores (`scoreA`, `scoreB`).

Each round the engine does five things:

1. It hands each strategy an `Observation` of the past rounds, mirrored for B.
2. It validates the two bids.
3. It pays the round by the payoff rule.
4. It appends the bids to the histories.
5. It tells each strategy the round's `MatchResult`, mirrored for B.

G2 is a two-mode state machine. It reads a sliding window of the
opponent's last three bids:

- in mode ZH it bids 1, 2 or 3 (clipped to N);
- once the opponent has bid at most 2 three times running, it switches to ZD
  and bids 1;
- it returns to ZH when the opponent bids above 2.

Files:

- `game.dfy` (module `Game`): the payoff rule `Payoff` and the validator
  `ValidateAction`.
  - Python's `isinstance` test is modelled by the `Value` datatype: an
    integer, or a value of some other type.
  - A raised `TypeError` or `ValueError` is modelled by the `Outcome`
    datatype.
- `types.dfy` (module `Types`): the frozen records `Observation` and
  `MatchResult`, as datatypes.
- `g2.dfy` (module `TeamG2`):
  - `Memory` is the value of the `_Mem` record; `Push` is the bounded deque;
    `Step` is the effect of `on_result`;
  - the classes `Mem` and `G2` update their fields in place, as the Python
    objects do.
- `strategy.dfy` (module `Strategy`): the strategy protocol as a tagged
  variant `Player`.
  - Its cases are G2 and `External`, which stands for any strategy whose code
    is not modelled and whose bids may be any value at all.
  - Each strategy owns a footprint `Repr()`. The engine requires the two
    footprints to be disjoint from each other and from the engine, so only
    the engine changes its histories and scores.
  - Each strategy keeps ghost records of what it was handed since its last
    `reset` (`Seen()`, the observations; `Got()`, the results) and of what
    it returned (`Bids()`). `act` and `on_result` append to them.
- `match.dfy` (module `Match`): `MatchConfig` and the class `IteratedMatch`.
  - `Run` is `run`: the two `reset` calls, then the loop `PlayRounds`.
  - `PlayRound` is one iteration:
    - `Ask` builds the two observations and calls `act` on A, then B;
    - `CheckBids` is the two `validate_action` calls, A's first;
    - `Settle` finishes a round whose bids passed. It runs `Pay` (the
      payoff, the scores and the histories, through `RecordRound`) and
      then `Deliver` (the two `on_result` calls, through `Notify`).
  - `ObservationsFor` and `ResultsFor` give, for one side, every observation
    and every result that side is owed for the recorded histories.
  - The invariant `Accounted` ties the engine and the strategies' records to
    those functions and to `Totals`, the payoff rule summed over the
    histories. `Playing(t)` is the state before round t; `Stopped(t, e)` is
    the state after round t failed validation with `e`.
  - The properties of those functions are lemmas.

A failed validation is not an exception here: `Run` returns `Aborted` with
the round, the side, the bid and the error. A completed match returns
`Finished(scoreA, scoreB)`.

## Model

| member | source | states |
|---|---|---|
| Game.Payoff | shared/game.py:6-18 | a nonzero payoff goes only to the strictly lower bid and equals that bid; at most one side is paid |
| Game.PayoffCases | shared/game.py:14-18 | i < j pays (i, 0); a tie pays (0, 0); i > j pays (0, j) |
| Game.PayoffSwap | shared/game.py:6-18 | swapping the bidders swaps the two payoffs |
| Game.PayoffBounds | shared/game.py:14-18 | for bids in 1..N both payoffs lie in 0..N, at most one is nonzero, a nonzero payoff is min(i, j), and the two sum to at most min(i, j) |
| Game.ValidateAction | shared/game.py:21-28 | passes exactly for an integer in 1..N; a non-integer fails with the type error before any range test; an integer outside 1..N fails with the range error carrying the bid and N |
| Types.Observation.Mirrored | shared/types.py:7-19 | the other side's view of the same round swaps the two names and the two histories; an observation of past rounds only stays one |
| Types.MirroredTwice | shared/types.py:7-37 | mirroring an observation or a result twice gives back the record |
| TeamG2.Push | strategies/team_g2.py:29 | appending to the deque(maxlen=3): the window grows by one until it holds 3, and its newest entry is the appended bid |
| TeamG2.PushKeepsNewest | strategies/team_g2.py:29 | the entries kept beside the new one are the newest entries of the old window, in order; the oldest falls off the front |
| TeamG2.Step | strategies/team_g2.py:47-56 | after a result the window holds 1 to 3 entries ending with the opponent's bid, and the invariant `Memory.Inv` ("in ZD the window is full and all its bids are at most 2") is preserved |
| TeamG2.StepTransitions | strategies/team_g2.py:49-56 | the window always takes the bid; ZH becomes ZD exactly when the window then holds 3 bids all at most 2; ZD becomes ZH exactly when the bid is above 2 |
| TeamG2.HighBidKeepsZH | strategies/team_g2.py:51-56 | from ZH, or after a bid above 2, a bid above 2 anywhere in the window keeps G2 in ZH |
| TeamG2.ReentryNeedsThreeLowBids | strategies/team_g2.py:49-56 | after a bid above 2, G2 is in ZH for that result and the next two, and the third one takes it to ZD exactly when those three bids are all at most 2, because the window is not cleared |
| TeamG2.Replay | strategies/team_g2.py:27-29 | the record after any sequence of results from the one `reset` installs satisfies `Memory.Inv`, with a window of min(results, 3) entries |
| TeamG2.PushSuffix | strategies/team_g2.py:29 | pushing onto a window that holds the newest entries of a history gives the newest entries of that history extended by the pushed bid |
| TeamG2.ReplayWindow | strategies/team_g2.py:29 | the window after any sequence of results holds exactly the opponent's newest bids, oldest first |
| TeamG2.ZDExactlyAfterThreeLowBids | strategies/team_g2.py:47-56 | after any sequence of results from `reset`, G2 is in ZD exactly when there were at least 3 and the opponent's last three bids were all at most 2 |
| TeamG2.Mem.constructor | strategies/team_g2.py:29 | the `_Mem` record (a plain dataclass, lines 11-14) as `reset` creates it: in ZH with an empty window |
| TeamG2.G2.constructor | strategies/team_g2.py:23-25 | N is 0 and there is no memory record |
| TeamG2.G2.Reset | strategies/team_g2.py:27-29 | records N and installs a fresh record in ZH with an empty window; nothing handed out before is remembered |
| TeamG2.G2.Act | strategies/team_g2.py:31-45 | in ZD the bid is 1; in ZH it is one of min(1, N), min(2, N) and min(3, N); for N >= 1 the bid always passes validation; the record does not change |
| TeamG2.G2.OnResult | strategies/team_g2.py:47-56 | the record changes exactly as `Step` with the opponent's bid, and the ZD invariant keeps holding |
| Strategy.External.constructor | shared/strategy_base.py:8-23 | a strategy with the given name that has been handed nothing |
| Strategy.External.Reset | shared/strategy_base.py:25-36 | forgets everything handed out before |
| Strategy.External.Act | shared/strategy_base.py:38-44 | returns any value at all, which the engine must validate, and records the observation and the bid |
| Strategy.External.OnResult | shared/strategy_base.py:46-54 | records the result |
| Strategy.Player.Reset | shared/strategy_base.py:25-36 | after `reset` the strategy is ready to act, has been handed nothing, and only objects it owns or has just allocated change |
| Strategy.Player.Act | shared/strategy_base.py:38-44 | the strategy is handed the observation and returns the bid; G2's bid passes validation when N >= 1, and any other strategy may return anything |
| Strategy.Player.OnResult | shared/strategy_base.py:46-54 | the strategy is handed the result, stays ready, keeps its footprint, and changes only objects it owns; G2's record takes one `Step` |
| Match.RoundCount | shared/match.py:59 | `range(1, rounds + 1)` runs `rounds` rounds, or none when `rounds` is negative |
| Match.CheckBids | shared/match.py:77-78 | the round goes on exactly when both bids pass; otherwise it stops in round t with A's failure if A's bid fails, and else with B's, carrying the side, the failing bid and its error |
| Match.Totals | shared/match.py:81-83 | the scores are the payoffs summed over the rounds; identical histories pay nothing |
| Match.TotalsAppend | shared/match.py:81-87 | playing one more round adds exactly that round's payoffs to each score |
| Match.TotalsSwap | shared/match.py:81-83 | exchanging the two histories exchanges the two scores |
| Match.TotalsBounds | shared/match.py:81-83 | with legal bids each score is at least 0 and the two together are at most N per round played |
| Match.TotalsMonotone | shared/match.py:81-83 | with legal bids the scores after any earlier round are at most the current ones |
| Match.Examples | shared/game.py:6-28 | (2, 4) pays (2, 0); a tie on 3 pays nothing; three rounds of (1, 5) pay (3, 0); a bid of 7 with N = 4 and a string bid are rejected with the matching errors |
| Match.RoundObservations | shared/match.py:61-72 | A's observation carries A's history as its own and B's as the opponent's; B's is A's mirror image; both carry the same N and t; both hold t - 1 entries per history when t - 1 rounds are recorded |
| Match.RoundResults | shared/match.py:93-104 | A's result carries (a, b, pa, pb) where (pa, pb) is the payoff of (a, b); B's is the mirror image and its payoffs are the payoff of (b, a) |
| Match.ResultIsOneRound | shared/types.py:22-37 | with legal bids a result's payoffs are those of one round: each lies in 0..N and at most one is nonzero |
| Match.ObservationsForAt | shared/match.py:59-72 | the observation a side is owed in round k + 1 has t = k + 1, its own name first, and exactly the first k bids of each side, in order, with nothing of round k + 1 |
| Match.ResultsForAt | shared/match.py:93-104 | the result a side is owed for round k + 1 carries its own bid and the opponent's at position k and the payoff of that pair, its own first |
| Match.ObservationsMirror | shared/match.py:61-72 | B's observation of every round is the mirror image of A's |
| Match.ResultsMirror | shared/match.py:93-104 | B's result of every round is the mirror image of A's |
| Match.ObservationsForAppend | shared/match.py:59-72 | a new round extends a side's observations by that round's |
| Match.ResultsForAppend | shared/match.py:93-104 | a new round extends a side's results by that round's |
| Match.BookkeptObserve | shared/match.py:61-76 | handing out the current round's observations keeps the bookkeeping invariant |
| Match.BookkeptRound | shared/match.py:81-104 | paying, recording and handing out a round with legal bids keeps the bookkeeping invariant (scores, histories, observations and results) |
| Match.IteratedMatch.constructor | shared/match.py:26-37 | stores A, B and the configuration; empty histories, zero scores |
| Match.IteratedMatch.RecordRound | shared/match.py:81-87 | adds the round's payoffs to the scores, appends the bids to the histories and builds the two results |
| Match.IteratedMatch.Notify | shared/match.py:93-104 | A is handed the first result and B the second, nothing else; each changes only what it owns |
| Match.IteratedMatch.Ask | shared/match.py:61-76 | A is handed A's observation of the current round and B its mirror, both built from the histories before the round; the returned bids are recorded as theirs; no result is handed out and the engine's fields do not change |
| Match.IteratedMatch.Pay | shared/match.py:81-87 | a round whose bids passed is paid and recorded, and the bookkeeping holds once its results are handed out |
| Match.IteratedMatch.Deliver | shared/match.py:93-104 | handing out the results completes the round: the state before the next round holds |
| Match.IteratedMatch.Settle | shared/match.py:81-104 | a round whose bids passed appends exactly those bids and leaves the state before the next round |
| Match.IteratedMatch.PlayRound | shared/match.py:59-104 | the failure is that of validating A's returned bid and then B's; a round with two legal bids appends exactly the two returned bids; a failed round changes no history or score and hands out no result, and its error names the round, the side and that side's returned bid; two G2 players with N >= 1 never fail |
| Match.IteratedMatch.PlayRounds | shared/match.py:59-106 | the loop over rounds 1..rounds: it finishes with the final scores and every round accounted for, or stops in the first round whose bids fail |
| Match.IteratedMatch.Run | shared/match.py:49-106 | a finished match recorded one bid per side per configured round; the returned scores equal the payoff rule summed over the histories; each side was handed exactly its own observation and result of every round. An aborted match stopped in some round t in 1..rounds, with t - 1 rounds recorded and handed out, the current observations handed out and no result of round t; its error is the first failed validation of round t's returned bids, A's first. G2 against G2 with N >= 1 always finishes |

## Left out

- The `verbose` flag and `_print_round` (shared/match.py:39-47, 89-90) only print to the console. `MatchConfig` keeps the flag and nothing reads it.
- `strategies/random_bid.py` and every other strategy are not modelled. `External` stands for them: its `Act` may return any value, and its `Reset` and `OnResult` change nothing but its ghost records of what it was handed.
- TeamG2.G2.Act: the probabilities 0.15 / 0.50 / 0.35 of the ZH choice are not modelled. The choice is nondeterministic among 1, 2 and 3, so the contract states only the set the bid comes from.
- A strategy that raises an exception or never returns is not modelled. Every strategy call returns.
- Strategy.Player: the protocol is a tagged variant (G2 or external) with dispatching methods, not an open interface that any class can implement.
- Match.IteratedMatch.Run requires an `IteratedMatch` that has never run (empty histories, zero scores). The source never clears its fields inside `run`, so a second `run` on the same object would continue from the old totals, and this model does not cover that.
- Match.IteratedMatch.Run also requires that A and B own disjoint objects, neither of which is the engine. Passing the same strategy object as both A and B is not modelled.
- Python's `bool` passes the `isinstance(a, int)` test. The model has only integers and non-integers, so `True` is treated as the integer 1.
- The bound N and the round count are not checked by the source, and the model does not check them either. A negative round count means zero rounds, as `range(1, rounds + 1)` does.
- The exception objects' messages are not modelled. An error carries the offending type name, or the bid and N.
- The strategies' records of what they were handed and what they returned (`Seen`, `Bids`, `Got`) are ghost. The source keeps no such log; the records let the contracts say what each side receives.
- The G2 class does not carry, as an invariant, that its record is `Replay` of the results it received. `Replay` folds `Step` over a sequence of results, and `G2.OnResult` is stated through `Step`, one result at a time.
