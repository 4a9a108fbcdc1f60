/** The match engine: a repeated lowest-unique-bid game between two
    strategies A and B. Each round both see a mirrored observation of the
    past rounds, bid, have their bids validated, are paid by the payoff rule,
    and are told the mirrored result of the round. */
module Match {
  import opened Game
  import opened Types
  import opened Strategy

  /** Configuration of one match: bids run from 1 to n, the game is
      repeated `rounds` times, and `verbose` asks for a printed line per
      round. */
  datatype MatchConfig = MatchConfig(n: int, rounds: int, verbose: bool)

  /** The number of rounds `range(1, rounds + 1)` runs: `rounds` itself,
      or none when it is negative. */
  function RoundCount(cfg: MatchConfig): (r: nat)
    ensures r >= cfg.rounds
    ensures r == cfg.rounds || r == 0
  {
    if cfg.rounds < 0 then 0 else cfg.rounds
  }

  datatype Side = SideA | SideB

  datatype Option<T> = None | Some(value: T)

  /** How `run` ends: it returns the two final scores, or a bid fails
      validation in some round and the match stops with that error. */
  datatype RunOutcome =
    | Finished(scoreA: int, scoreB: int)
    | Aborted(round: int, side: Side, bid: Value, error: ActionError)

  /** The two `validate_action` calls of a round, A's first: the round
      goes on when both bids pass, and otherwise stops with the first failure
      in that order. */
  function CheckBids(t: int, bidA: Value, bidB: Value, n: int): (r: Option<RunOutcome>)
    ensures r.None? <==> ValidateAction(bidA, n) == Pass && ValidateAction(bidB, n) == Pass
    ensures ValidateAction(bidA, n).Fail? ==>
      r == Some(Aborted(t, SideA, bidA, ValidateAction(bidA, n).error))
    ensures ValidateAction(bidA, n) == Pass && ValidateAction(bidB, n).Fail? ==>
      r == Some(Aborted(t, SideB, bidB, ValidateAction(bidB, n).error))
  {
    match ValidateAction(bidA, n)
    case Fail(e) => Some(Aborted(t, SideA, bidA, e))
    case Pass =>
      match ValidateAction(bidB, n)
      case Fail(e) => Some(Aborted(t, SideB, bidB, e))
      case Pass => None
  }

  predicate AllLegal(h: seq<int>, n: int) {
    forall k :: 0 <= k < |h| ==> Legal(h[k], n)
  }

  /** The two cumulative scores of the rounds recorded in the histories,
      recomputed from them with the payoff rule. */
  function Totals(histA: seq<int>, histB: seq<int>): (r: (int, int))
    requires |histA| == |histB|
    ensures histA == histB ==> r == (0, 0)
  {
    if histA == [] then (0, 0)
    else
      var k := |histA| - 1;
      var before := Totals(histA[..k], histB[..k]);
      var p := Payoff(histA[k], histB[k]);
      (before.0 + p.0, before.1 + p.1)
  }

  /** Playing one more round adds that round's payoffs. */
  lemma TotalsAppend(histA: seq<int>, histB: seq<int>, x: int, y: int)
    requires |histA| == |histB|
    ensures Totals(histA + [x], histB + [y]).0 == Totals(histA, histB).0 + Payoff(x, y).0
    ensures Totals(histA + [x], histB + [y]).1 == Totals(histA, histB).1 + Payoff(x, y).1
  {
    assert (histA + [x])[..|histA|] == histA;
    assert (histB + [y])[..|histB|] == histB;
  }

  /** Exchanging the two sides exchanges the scores. */
  lemma {:induction false} TotalsSwap(histA: seq<int>, histB: seq<int>)
    requires |histA| == |histB|
    ensures Totals(histB, histA) == (Totals(histA, histB).1, Totals(histA, histB).0)
  {
    if histA != [] {
      var k := |histA| - 1;
      TotalsSwap(histA[..k], histB[..k]);
      PayoffSwap(histA[k], histB[k]);
    }
  }

  /** n * (k + 1) distributes; kept apart so the solver sees it alone. */
  lemma MulSucc(n: int, k: int)
    ensures n * (k + 1) == n * k + n
  {
  }

  /** With legal bids, each score is at least 0 and the two together are at
      most n per round. */
  lemma {:induction false} TotalsBounds(histA: seq<int>, histB: seq<int>, n: int)
    requires |histA| == |histB| && AllLegal(histA, n) && AllLegal(histB, n)
    ensures 0 <= Totals(histA, histB).0 && 0 <= Totals(histA, histB).1
    ensures Totals(histA, histB).0 + Totals(histA, histB).1 <= n * |histA|
  {
    if histA != [] {
      var k := |histA| - 1;
      TotalsBounds(histA[..k], histB[..k], n);
      PayoffBounds(histA[k], histB[k], n);
      MulSucc(n, k);
    }
  }

  /** With legal bids the scores never decrease: the totals of any earlier
      round are at most the current ones. */
  lemma {:induction false} TotalsMonotone(histA: seq<int>, histB: seq<int>, n: int, k: nat)
    requires |histA| == |histB| && AllLegal(histA, n) && AllLegal(histB, n)
    requires k <= |histA|
    ensures Totals(histA[..k], histB[..k]).0 <= Totals(histA, histB).0
    ensures Totals(histA[..k], histB[..k]).1 <= Totals(histA, histB).1
    decreases |histA| - k
  {
    if k < |histA| {
      var last := |histA| - 1;
      assert histA[..last][..k] == histA[..k] && histB[..last][..k] == histB[..k];
      TotalsMonotone(histA[..last], histB[..last], n, k);
      PayoffBounds(histA[last], histB[last], n);
    } else {
      assert histA[..k] == histA && histB[..k] == histB;
    }
  }

  /** Example matches: (2, 4) pays (2, 0); a tie on 3 pays nothing; three
      rounds of (1, 5) pay (3, 0); a bid of 7 with n = 4 and a non-integer bid
      are rejected. */
  lemma Examples()
    ensures Totals([2], [4]) == (2, 0)
    ensures Totals([3], [3]) == (0, 0)
    ensures Totals([1, 1, 1], [5, 5, 5]) == (3, 0)
    ensures ValidateAction(Int(7), 4) == Fail(RangeError(7, 4))
    ensures ValidateAction(NonInt("str"), 4) == Fail(TypeError("str"))
  {
    assert [1, 1, 1][..2] == [1, 1] && [5, 5, 5][..2] == [5, 5];
  }

  /** The observations of round t for A and B: A sees its own history as
      its own and B's as its opponent's, and B sees the mirror image. */
  function RoundObservations(cfg: MatchConfig, nameA: string, nameB: string, t: int,
                             histA: seq<int>, histB: seq<int>): (r: (Observation, Observation))
    ensures r.0.n == r.1.n == cfg.n && r.0.t == r.1.t == t
    ensures r.0.selfName == nameA && r.0.opponentName == nameB
    ensures r.0.selfActionHistory == histA && r.0.oppActionHistory == histB
    ensures r.1 == r.0.Mirrored()
    ensures t >= 1 && |histA| == |histB| == t - 1 ==> r.0.PastOnly() && r.1.PastOnly()
  {
    (Observation(cfg.n, t, nameA, nameB, histB, histA),
     Observation(cfg.n, t, nameB, nameA, histA, histB))
  }

  /** The results of round t for A and B, in which A bid x and B bid y:
      the bids and the payoffs of that round only, mirrored for B. */
  function RoundResults(cfg: MatchConfig, nameA: string, nameB: string, t: int,
                        x: int, y: int): (r: (MatchResult, MatchResult))
    ensures r.0.n == cfg.n && r.0.t == t
    ensures r.0.selfName == nameA && r.0.opponentName == nameB
    ensures r.0.selfAction == x && r.0.oppAction == y
    ensures (r.0.selfPayoff, r.0.oppPayoff) == Payoff(x, y)
    ensures r.1 == r.0.Mirrored()
    ensures (r.1.selfPayoff, r.1.oppPayoff) == Payoff(y, x)
  {
    var p := Payoff(x, y);
    PayoffSwap(x, y);
    (MatchResult(cfg.n, t, nameA, nameB, x, y, p.0, p.1),
     MatchResult(cfg.n, t, nameB, nameA, y, x, p.1, p.0))
  }

  /** With legal bids a result's payoffs are those of one round, each in
      0..n, and not a running total. */
  lemma ResultIsOneRound(cfg: MatchConfig, nameA: string, nameB: string, t: int, x: int, y: int)
    requires Legal(x, cfg.n) && Legal(y, cfg.n)
    ensures var r := RoundResults(cfg, nameA, nameB, t, x, y);
      0 <= r.0.selfPayoff <= cfg.n && 0 <= r.0.oppPayoff <= cfg.n &&
      (r.0.selfPayoff == 0 || r.0.oppPayoff == 0)
  {
    PayoffBounds(x, y, cfg.n);
  }

  /** The observations handed to a strategy named `self`, playing `opp`,
      over the completed rounds, in order. Round k + 1's observation holds
      the first k bids of each side, its own history as its own. A is
      `ObservationsFor(cfg, nameA, nameB, histA, histB)` and B is
      `ObservationsFor(cfg, nameB, nameA, histB, histA)`. */
  function ObservationsFor(cfg: MatchConfig, self: string, opp: string,
                           selfHist: seq<int>, oppHist: seq<int>): (log: seq<Observation>)
    requires |selfHist| == |oppHist|
    ensures |log| == |selfHist|
  {
    if selfHist == [] then []
    else
      var k := |selfHist| - 1;
      ObservationsFor(cfg, self, opp, selfHist[..k], oppHist[..k]) +
        [Observation(cfg.n, k + 1, self, opp, oppHist[..k], selfHist[..k])]
  }

  /** The results handed to a strategy named `self`, playing `opp`, over
      the completed rounds, in order: each carries its own round's bids and
      payoffs, its own first. */
  function ResultsFor(cfg: MatchConfig, self: string, opp: string,
                      selfHist: seq<int>, oppHist: seq<int>): (log: seq<MatchResult>)
    requires |selfHist| == |oppHist|
    ensures |log| == |selfHist|
  {
    if selfHist == [] then []
    else
      var k := |selfHist| - 1;
      var p := Payoff(selfHist[k], oppHist[k]);
      ResultsFor(cfg, self, opp, selfHist[..k], oppHist[..k]) +
        [MatchResult(cfg.n, k + 1, self, opp, selfHist[k], oppHist[k], p.0, p.1)]
  }

  /** The observation of round k + 1 is for round k + 1 and holds exactly
      the first k entries of each history: one per past round, in order,
      and nothing of round k + 1 or later. */
  lemma {:induction false} ObservationsForAt(cfg: MatchConfig, self: string, opp: string,
                                             selfHist: seq<int>, oppHist: seq<int>, k: nat)
    requires |selfHist| == |oppHist| && k < |selfHist|
    ensures ObservationsFor(cfg, self, opp, selfHist, oppHist)[k] ==
      Observation(cfg.n, k + 1, self, opp, oppHist[..k], selfHist[..k])
    ensures ObservationsFor(cfg, self, opp, selfHist, oppHist)[k].PastOnly()
  {
    var last := |selfHist| - 1;
    if k < last {
      ObservationsForAt(cfg, self, opp, selfHist[..last], oppHist[..last], k);
      assert selfHist[..last][..k] == selfHist[..k] && oppHist[..last][..k] == oppHist[..k];
    }
  }

  /** The results of round k + 1 carry that round's bids and payoffs. */
  lemma {:induction false} ResultsForAt(cfg: MatchConfig, self: string, opp: string,
                                        selfHist: seq<int>, oppHist: seq<int>, k: nat)
    requires |selfHist| == |oppHist| && k < |selfHist|
    ensures ResultsFor(cfg, self, opp, selfHist, oppHist)[k] ==
      MatchResult(cfg.n, k + 1, self, opp, selfHist[k], oppHist[k],
                  Payoff(selfHist[k], oppHist[k]).0, Payoff(selfHist[k], oppHist[k]).1)
  {
    var last := |selfHist| - 1;
    if k < last {
      ResultsForAt(cfg, self, opp, selfHist[..last], oppHist[..last], k);
    }
  }

  /** In every round B is handed the mirror image of A's observation: the
      same n and t, the names exchanged and the histories exchanged. */
  lemma ObservationsMirror(cfg: MatchConfig, nameA: string, nameB: string,
                           histA: seq<int>, histB: seq<int>, k: nat)
    requires |histA| == |histB| && k < |histA|
    ensures ObservationsFor(cfg, nameB, nameA, histB, histA)[k] ==
      ObservationsFor(cfg, nameA, nameB, histA, histB)[k].Mirrored()
  {
    ObservationsForAt(cfg, nameA, nameB, histA, histB, k);
    ObservationsForAt(cfg, nameB, nameA, histB, histA, k);
  }

  /** In every round B is handed the mirror image of A's result: bids and
      payoffs exchanged. */
  lemma ResultsMirror(cfg: MatchConfig, nameA: string, nameB: string,
                      histA: seq<int>, histB: seq<int>, k: nat)
    requires |histA| == |histB| && k < |histA|
    ensures ResultsFor(cfg, nameB, nameA, histB, histA)[k] ==
      ResultsFor(cfg, nameA, nameB, histA, histB)[k].Mirrored()
  {
    ResultsForAt(cfg, nameA, nameB, histA, histB, k);
    ResultsForAt(cfg, nameB, nameA, histB, histA, k);
    PayoffSwap(histA[k], histB[k]);
  }

  /** Playing one more round extends the observations by that round's. */
  lemma ObservationsForAppend(cfg: MatchConfig, self: string, opp: string,
                              selfHist: seq<int>, oppHist: seq<int>, x: int, y: int)
    requires |selfHist| == |oppHist|
    ensures ObservationsFor(cfg, self, opp, selfHist + [x], oppHist + [y]) ==
      ObservationsFor(cfg, self, opp, selfHist, oppHist) +
        [Observation(cfg.n, |selfHist| + 1, self, opp, oppHist, selfHist)]
  {
    assert (selfHist + [x])[..|selfHist|] == selfHist;
    assert (oppHist + [y])[..|oppHist|] == oppHist;
  }

  /** Playing one more round extends the results by that round's. */
  lemma ResultsForAppend(cfg: MatchConfig, self: string, opp: string,
                         selfHist: seq<int>, oppHist: seq<int>, x: int, y: int)
    requires |selfHist| == |oppHist|
    ensures ResultsFor(cfg, self, opp, selfHist + [x], oppHist + [y]) ==
      ResultsFor(cfg, self, opp, selfHist, oppHist) +
        [MatchResult(cfg.n, |selfHist| + 1, self, opp, x, y, Payoff(x, y).0, Payoff(x, y).1)]
  {
    assert (selfHist + [x])[..|selfHist|] == selfHist;
    assert (oppHist + [y])[..|oppHist|] == oppHist;
  }

  /** A recorded history as the values the strategy returned. */
  ghost function Ints(h: seq<int>): (r: seq<Value>)
    ensures |r| == |h|
  {
    if h == [] then [] else Ints(h[..|h| - 1]) + [Int(h[|h| - 1])]
  }

  lemma IntsAppend(h: seq<int>, x: int)
    ensures Ints(h + [x]) == Ints(h) + [Int(x)]
  {
    assert (h + [x])[..|h|] == h;
  }

  /** The engine's bookkeeping after the rounds recorded in the histories:
      one legal entry per completed round on each side; the scores are the
      payoff rule summed over the histories; each strategy has been handed
      the results of the completed rounds; and each has been handed the
      observations of the completed rounds and at most one more, the
      current round's. */
  ghost predicate Bookkept(cfg: MatchConfig, nameA: string, nameB: string,
                           histA: seq<int>, histB: seq<int>, scoreA: int, scoreB: int,
                           seenA: seq<Observation>, seenB: seq<Observation>,
                           gotA: seq<MatchResult>, gotB: seq<MatchResult>)
  {
    |histA| == |histB| &&
    AllLegal(histA, cfg.n) && AllLegal(histB, cfg.n) &&
    (scoreA, scoreB) == Totals(histA, histB) &&
    gotA == ResultsFor(cfg, nameA, nameB, histA, histB) &&
    gotB == ResultsFor(cfg, nameB, nameA, histB, histA) &&
    var current := RoundObservations(cfg, nameA, nameB, |histA| + 1, histA, histB);
    ((seenA == ObservationsFor(cfg, nameA, nameB, histA, histB) &&
      seenB == ObservationsFor(cfg, nameB, nameA, histB, histA)) ||
     (seenA == ObservationsFor(cfg, nameA, nameB, histA, histB) + [current.0] &&
      seenB == ObservationsFor(cfg, nameB, nameA, histB, histA) + [current.1]))
  }

  /** Handing out the current round's observations keeps the bookkeeping. */
  lemma BookkeptObserve(cfg: MatchConfig, nameA: string, nameB: string,
                        histA: seq<int>, histB: seq<int>, scoreA: int, scoreB: int,
                        seenA: seq<Observation>, seenB: seq<Observation>,
                        gotA: seq<MatchResult>, gotB: seq<MatchResult>)
    requires Bookkept(cfg, nameA, nameB, histA, histB, scoreA, scoreB, seenA, seenB, gotA, gotB)
    requires seenA == ObservationsFor(cfg, nameA, nameB, histA, histB)
    requires seenB == ObservationsFor(cfg, nameB, nameA, histB, histA)
    ensures var current := RoundObservations(cfg, nameA, nameB, |histA| + 1, histA, histB);
      Bookkept(cfg, nameA, nameB, histA, histB, scoreA, scoreB,
               seenA + [current.0], seenB + [current.1], gotA, gotB)
  {
  }

  /** Paying the current round with legal bids x and y, recording them and
      handing out its results keeps the bookkeeping, and leaves no round
      whose observation was handed out without its result. */
  lemma BookkeptRound(cfg: MatchConfig, nameA: string, nameB: string,
                      histA: seq<int>, histB: seq<int>, scoreA: int, scoreB: int,
                      seenA: seq<Observation>, seenB: seq<Observation>,
                      gotA: seq<MatchResult>, gotB: seq<MatchResult>, x: int, y: int)
    requires Bookkept(cfg, nameA, nameB, histA, histB, scoreA, scoreB, seenA, seenB, gotA, gotB)
    requires |seenA| == |histA| + 1 && Legal(x, cfg.n) && Legal(y, cfg.n)
    ensures var results := RoundResults(cfg, nameA, nameB, |histA| + 1, x, y);
      Bookkept(cfg, nameA, nameB, histA + [x], histB + [y],
               scoreA + Payoff(x, y).0, scoreB + Payoff(x, y).1,
               seenA, seenB, gotA + [results.0], gotB + [results.1])
    ensures seenA == ObservationsFor(cfg, nameA, nameB, histA + [x], histB + [y])
    ensures seenB == ObservationsFor(cfg, nameB, nameA, histB + [y], histA + [x])
  {
    TotalsAppend(histA, histB, x, y);
    ObservationsForAppend(cfg, nameA, nameB, histA, histB, x, y);
    ObservationsForAppend(cfg, nameB, nameA, histB, histA, y, x);
    ResultsForAppend(cfg, nameA, nameB, histA, histB, x, y);
    ResultsForAppend(cfg, nameB, nameA, histB, histA, y, x);
  }

  class IteratedMatch {
    const a: Player
    const b: Player
    const cfg: MatchConfig

    /** Every bid played so far, oldest first. */
    var aActions: seq<int>
    var bActions: seq<int>

    /** Cumulative scores. */
    var scoreA: int
    var scoreB: int

    constructor (a: Player, b: Player, cfg: MatchConfig)
      ensures this.a == a && this.b == b && this.cfg == cfg
      ensures NotStarted()
    {
      this.a := a;
      this.b := b;
      this.cfg := cfg;
      aActions, bActions := [], [];
      scoreA, scoreB := 0, 0;
    }

    ghost predicate NotStarted()
      reads this
    {
      aActions == [] && bActions == [] && scoreA == 0 && scoreB == 0
    }

    /** The two strategies own disjoint objects, none of which is the
        engine: only the engine changes the histories and the scores. */
    ghost predicate Separate()
      reads this, a.Handle(), b.Handle()
    {
      this !in a.Repr() && this !in b.Repr() && a.Repr() !! b.Repr()
    }

    /** The bookkeeping holds of the engine's fields and of what the two
        strategies have been handed. */
    ghost predicate Accounted()
      reads this, a.Handle(), b.Handle()
    {
      Bookkept(cfg, a.Name(), b.Name(), aActions, bActions, scoreA, scoreB,
               a.Seen(), b.Seen(), a.Got(), b.Got())
    }

    /** The state of the loop before round t: every invariant of the engine,
        with t - 1 rounds completed, no observation of round t handed out
        yet, and every returned bid recorded. */
    ghost predicate Playing(t: int)
      reads this, a.Handle(), b.Handle(), a.Repr(), b.Repr()
    {
      Accounted() && Separate() &&
      a.Valid() && b.Valid() && a.Ready() && b.Ready() &&
      |aActions| == t - 1 &&
      a.Seen() == ObservationsFor(cfg, a.Name(), b.Name(), aActions, bActions) &&
      b.Seen() == ObservationsFor(cfg, b.Name(), a.Name(), bActions, aActions) &&
      a.Bids() == Ints(aActions) && b.Bids() == Ints(bActions)
    }

    /** The state in which round t stopped with `outcome`: t - 1 rounds
        completed and accounted for, round t's observations handed out but
        no result, and `outcome` is the first failed validation of the two
        bids returned in round t, A's checked first. */
    ghost predicate Stopped(t: int, outcome: RunOutcome)
      reads this, a.Handle(), b.Handle(), a.Repr(), b.Repr()
    {
      Accounted() && Separate() && a.Valid() && b.Valid() &&
      t >= 1 && |aActions| == t - 1 &&
      (var current := RoundObservations(cfg, a.Name(), b.Name(), t, aActions, bActions);
       a.Seen() == ObservationsFor(cfg, a.Name(), b.Name(), aActions, bActions) + [current.0] &&
       b.Seen() == ObservationsFor(cfg, b.Name(), a.Name(), bActions, aActions) + [current.1]) &&
      |a.Bids()| == t && |b.Bids()| == t &&
      a.Bids() == Ints(aActions) + [a.Bids()[t - 1]] &&
      b.Bids() == Ints(bActions) + [b.Bids()[t - 1]] &&
      Some(outcome) == CheckBids(t, a.Bids()[t - 1], b.Bids()[t - 1], cfg.n)
    }

    /** Pays the current round with bids x and y: adds the payoffs to the
        scores, appends the bids to the histories and builds the two
        results. */
    method RecordRound(x: int, y: int) returns (results: (MatchResult, MatchResult))
      modifies this
      ensures aActions == old(aActions) + [x] && bActions == old(bActions) + [y]
      ensures scoreA == old(scoreA) + Payoff(x, y).0 && scoreB == old(scoreB) + Payoff(x, y).1
      ensures results == RoundResults(cfg, a.Name(), b.Name(), |aActions|, x, y)
    {
      var (pa, pb) := Payoff(x, y);
      scoreA := scoreA + pa;
      scoreB := scoreB + pb;
      aActions := aActions + [x];
      bActions := bActions + [y];
      results := RoundResults(cfg, a.Name(), b.Name(), |aActions|, x, y);
    }

    /** Hands each strategy its own view of the round just played: A gets
        the first result and B the second. */
    method Notify(results: (MatchResult, MatchResult))
      requires Separate() && a.Valid() && b.Valid() && a.Ready() && b.Ready()
      modifies a.Repr(), b.Repr()
      ensures Separate() && a.Valid() && b.Valid() && a.Ready() && b.Ready()
      ensures a.Repr() == old(a.Repr()) && b.Repr() == old(b.Repr())
      ensures a.Got() == old(a.Got()) + [results.0] && b.Got() == old(b.Got()) + [results.1]
      ensures a.Seen() == old(a.Seen()) && b.Seen() == old(b.Seen())
      ensures a.Bids() == old(a.Bids()) && b.Bids() == old(b.Bids())
    {
      a.OnResult(results.0);
      b.OnResult(results.1);
    }

    /** Builds the two observations of round t, hands A the first and B the
        second, and returns their bids. The engine's fields do not change. */
    method Ask(t: int) returns (bidA: Value, bidB: Value)
      requires Playing(t)
      modifies a.Repr(), b.Repr()
      ensures Accounted() && Separate()
      ensures a.Valid() && b.Valid() && a.Ready() && b.Ready()
      ensures a.Repr() == old(a.Repr()) && b.Repr() == old(b.Repr())
      ensures var current := RoundObservations(cfg, a.Name(), b.Name(), t, aActions, bActions);
        a.Seen() == old(a.Seen()) + [current.0] && b.Seen() == old(b.Seen()) + [current.1]
      ensures a.Bids() == old(a.Bids()) + [bidA] && b.Bids() == old(b.Bids()) + [bidB]
      ensures a.Got() == old(a.Got()) && b.Got() == old(b.Got())
      ensures a.G2Player? && cfg.n >= 1 ==> ValidateAction(bidA, cfg.n) == Pass
      ensures b.G2Player? && cfg.n >= 1 ==> ValidateAction(bidB, cfg.n) == Pass
    {
      var obs := RoundObservations(cfg, a.Name(), b.Name(), t, aActions, bActions);
      BookkeptObserve(cfg, a.Name(), b.Name(), aActions, bActions, scoreA, scoreB,
                      a.Seen(), b.Seen(), a.Got(), b.Got());
      bidA := a.Act(obs.0);
      bidB := b.Act(obs.1);
    }

    /** The state after round t has been paid and recorded and before its
        results are handed out: the bookkeeping holds once each strategy has
        received its result, and every returned bid is recorded. */
    ghost predicate Delivering(t: int, results: (MatchResult, MatchResult))
      reads this, a.Handle(), b.Handle(), a.Repr(), b.Repr()
    {
      Separate() && a.Valid() && b.Valid() && a.Ready() && b.Ready() &&
      |aActions| == t &&
      Bookkept(cfg, a.Name(), b.Name(), aActions, bActions, scoreA, scoreB,
               a.Seen(), b.Seen(), a.Got() + [results.0], b.Got() + [results.1]) &&
      a.Seen() == ObservationsFor(cfg, a.Name(), b.Name(), aActions, bActions) &&
      b.Seen() == ObservationsFor(cfg, b.Name(), a.Name(), bActions, aActions) &&
      a.Bids() == Ints(aActions) && b.Bids() == Ints(bActions)
    }

    /** Round t after its two bids x and y passed validation: pays and
        records it and builds the two results to hand out. */
    method Pay(t: int, x: int, y: int) returns (results: (MatchResult, MatchResult))
      requires Accounted() && Separate()
      requires a.Valid() && b.Valid() && a.Ready() && b.Ready()
      requires |aActions| == t - 1 && |a.Seen()| == t && Legal(x, cfg.n) && Legal(y, cfg.n)
      requires a.Bids() == Ints(aActions) + [Int(x)] && b.Bids() == Ints(bActions) + [Int(y)]
      modifies this
      ensures Delivering(t, results)
      ensures aActions == old(aActions) + [x] && bActions == old(bActions) + [y]
    {
      ghost var seenA, seenB, gotA, gotB := a.Seen(), b.Seen(), a.Got(), b.Got();
      BookkeptRound(cfg, a.Name(), b.Name(), aActions, bActions, scoreA, scoreB,
                    seenA, seenB, gotA, gotB, x, y);
      IntsAppend(aActions, x);
      IntsAppend(bActions, y);
      assert a.Handle() != this && b.Handle() != this;
      results := RecordRound(x, y);
      assert a.Seen() == seenA && b.Seen() == seenB && a.Got() == gotA && b.Got() == gotB;
    }

    /** Hands out the results of round t, which completes it. */
    method Deliver(t: int, results: (MatchResult, MatchResult))
      requires Delivering(t, results)
      modifies a.Repr(), b.Repr()
      ensures Playing(t + 1)
      ensures a.Repr() == old(a.Repr()) && b.Repr() == old(b.Repr())
    {
      Notify(results);
    }

    /** The rest of a round whose two bids x and y passed validation: pays
        and records it, then hands out the two results. */
    method Settle(t: int, x: int, y: int)
      requires Accounted() && Separate()
      requires a.Valid() && b.Valid() && a.Ready() && b.Ready()
      requires |aActions| == t - 1 && |a.Seen()| == t && Legal(x, cfg.n) && Legal(y, cfg.n)
      requires a.Bids() == Ints(aActions) + [Int(x)] && b.Bids() == Ints(bActions) + [Int(y)]
      modifies this, a.Repr(), b.Repr()
      ensures Playing(t + 1)
      ensures a.Repr() == old(a.Repr()) && b.Repr() == old(b.Repr())
      ensures aActions == old(aActions) + [x] && bActions == old(bActions) + [y]
    {
      var results := Pay(t, x, y);
      Deliver(t, results);
    }

    /** Round t of the loop: asks both strategies for a bid, validates A's
        bid and then B's and, when both are legal, pays and records the round
        and hands out the results. A failed validation returns the error
        before anything is paid or any result is handed out. */
    method PlayRound(t: int) returns (failure: Option<RunOutcome>, ghost bidA: Value, ghost bidB: Value)
      requires Playing(t)
      modifies this, a.Repr(), b.Repr()
      ensures Accounted() && Separate() && a.Valid() && b.Valid()
      ensures a.Repr() == old(a.Repr()) && b.Repr() == old(b.Repr())
      ensures a.Bids() == old(a.Bids()) + [bidA] && b.Bids() == old(b.Bids()) + [bidB]
      ensures failure == CheckBids(t, bidA, bidB, cfg.n)
      ensures failure.None? ==>
        Playing(t + 1) && aActions == old(aActions) + [bidA.i] && bActions == old(bActions) + [bidB.i]
      ensures failure.Some? ==>
        aActions == old(aActions) && bActions == old(bActions) &&
        scoreA == old(scoreA) && scoreB == old(scoreB) &&
        a.Got() == old(a.Got()) && b.Got() == old(b.Got()) &&
        failure.value.round == t && Stopped(t, failure.value)
      ensures a.G2Player? && b.G2Player? && cfg.n >= 1 ==> failure.None?
    {
      var actA, actB := Ask(t);
      bidA, bidB := actA, actB;
      failure := CheckBids(t, actA, actB, cfg.n);
      if failure.None? {
        Settle(t, actA.i, actB.i);
      }
    }

    /** Resets both strategies with n, plays the rounds 1..rounds in order
        and returns the final scores, or stops at the first illegal bid. */
    method Run() returns (outcome: RunOutcome)
      requires NotStarted() && Separate() && a.Valid() && b.Valid()
      modifies this, a.Repr(), b.Repr()
      ensures outcome.Finished? ==>
        outcome == Finished(scoreA, scoreB) && Playing(RoundCount(cfg) + 1)
      ensures outcome.Aborted? ==>
        outcome.round <= RoundCount(cfg) && Stopped(outcome.round, outcome)
      ensures a.G2Player? && b.G2Player? && cfg.n >= 1 ==> outcome.Finished?
    {
      a.Reset(cfg.n);
      b.Reset(cfg.n);
      outcome := PlayRounds();
    }

    /** The loop of `run` over the rounds 1..rounds, from freshly reset
        strategies. */
    method PlayRounds() returns (outcome: RunOutcome)
      requires Playing(1)
      modifies this, a.Repr(), b.Repr()
      ensures outcome.Finished? ==>
        outcome == Finished(scoreA, scoreB) && Playing(RoundCount(cfg) + 1)
      ensures outcome.Aborted? ==>
        outcome.round <= RoundCount(cfg) && Stopped(outcome.round, outcome)
      ensures a.G2Player? && b.G2Player? && cfg.n >= 1 ==> outcome.Finished?
    {
      ghost var reprA, reprB := a.Repr(), b.Repr();
      for t := 1 to RoundCount(cfg) + 1
        invariant Playing(t)
        invariant a.Repr() == reprA && b.Repr() == reprB
      {
        var failure, bidA, bidB := PlayRound(t);
        if failure.Some? {
          return failure.value;
        }
      }
      outcome := Finished(scoreA, scoreB);
    }
  }
}
