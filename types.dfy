/** The two immutable records a strategy receives: what it may see before it
    bids, and what it learns once the round is resolved. */
module Types {

  /** What a strategy sees BEFORE it bids in round t: the bid range 1..n and
      the two action histories of rounds 1..t-1, oldest first. */
  datatype Observation = Observation(
    n: int,
    t: int,
    selfName: string,
    opponentName: string,
    oppActionHistory: seq<int>,
    selfActionHistory: seq<int>)
  {
    /** The same round seen from the other side: the names and the
        histories change places, and an observation of past rounds only
        stays one. */
    function Mirrored(): (r: Observation)
      ensures r.selfName == opponentName && r.opponentName == selfName
      ensures r.PastOnly() <==> PastOnly()
    {
      Observation(n, t, opponentName, selfName, selfActionHistory, oppActionHistory)
    }

    /** Well formed for round t: one entry per past round in each history,
        and so nothing of round t itself. */
    predicate PastOnly() {
      t >= 1 && |oppActionHistory| == t - 1 && |selfActionHistory| == t - 1
    }
  }

  /** What a strategy learns AFTER round t: the two bids and the two payoffs
      of that round alone. */
  datatype MatchResult = MatchResult(
    n: int,
    t: int,
    selfName: string,
    opponentName: string,
    selfAction: int,
    oppAction: int,
    selfPayoff: int,
    oppPayoff: int)
  {
    /** The same round seen from the other side. */
    function Mirrored(): MatchResult
    {
      MatchResult(n, t, opponentName, selfName, oppAction, selfAction, oppPayoff, selfPayoff)
    }
  }

  /** Mirroring is its own inverse: seen from the other side twice, a record
      is the one it started as. */
  lemma MirroredTwice(o: Observation, m: MatchResult)
    ensures o.Mirrored().Mirrored() == o
    ensures m.Mirrored().Mirrored() == m
  {
  }
}
