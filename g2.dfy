/** Strategy G2: a two-mode state machine driven by the opponent's last
    three bids. In mode ZH it bids 1, 2 or 3 at random (clipped to n); once
    the opponent has bid at most 2 three times running it switches to ZD and
    always bids 1, until the opponent bids above 2 again. */
module TeamG2 {
  import opened Game
  import opened Types

  datatype Mode = ZH | ZD

  /** Capacity of the sliding window (the deque's maxlen). */
  const WindowSize: nat := 3

  /** Opponent bids up to this value count as low. */
  const LowBid: int := 2

  predicate AllLow(w: seq<int>) {
    forall k :: 0 <= k < |w| ==> w[k] <= LowBid
  }

  /** The value held by G2's memory record: the mode and the window of the
      opponent's most recent bids, oldest first. */
  datatype Memory = Memory(state: Mode, last3: seq<int>) {
    /** In mode ZD the window is full and holds only low bids. */
    ghost predicate Inv() {
      |last3| <= WindowSize &&
      (state == ZD ==> |last3| == WindowSize && AllLow(last3))
    }
  }

  /** Appending to a deque bounded to WindowSize entries: the oldest entry
      falls off the front once the window is full. */
  function Push(w: seq<int>, x: int): (r: seq<int>)
    requires |w| <= WindowSize
    ensures |r| == if |w| < WindowSize then |w| + 1 else WindowSize
    ensures r[|r| - 1] == x
  {
    if |w| < WindowSize then w + [x] else w[1..] + [x]
  }

  /** The entries kept beside the new one are the newest entries of the old
      window, in their order. */
  lemma PushKeepsNewest(w: seq<int>, x: int)
    requires |w| <= WindowSize
    ensures var r := Push(w, x); r[..|r| - 1] == w[|w| - (|r| - 1)..]
  {
  }

  /** How `on_result` changes the memory when the opponent bid `opp`. */
  function Step(m: Memory, opp: int): (r: Memory)
    requires |m.last3| <= WindowSize
    ensures 1 <= |r.last3| <= WindowSize && r.last3[|r.last3| - 1] == opp
    ensures m.Inv() ==> r.Inv()
  {
    var w := Push(m.last3, opp);
    match m.state
    case ZH => Memory(if |w| == WindowSize && AllLow(w) then ZD else ZH, w)
    case ZD => Memory(if opp > LowBid then ZH else ZD, w)
  }

  /** The window always takes the new bid, also when the mode reverts to ZH;
      ZH becomes ZD exactly when the window is then full of low bids, and ZD
      becomes ZH exactly when the new bid is high. */
  lemma StepTransitions(m: Memory, opp: int)
    requires |m.last3| <= WindowSize
    ensures Step(m, opp).last3 == Push(m.last3, opp)
    ensures m.state == ZH ==>
      (Step(m, opp).state == ZD <==> |Step(m, opp).last3| == WindowSize && AllLow(Step(m, opp).last3))
    ensures m.state == ZD ==> (Step(m, opp).state == ZH <==> opp > LowBid)
  {
  }

  /** After a high opponent bid, whatever the mode was, G2 is in ZH and stays
      there for the next two results; the third one takes it to ZD exactly
      when all three bids since the high one are low. The window is not
      cleared on reverting, so the high bid must first slide out of it. */
  lemma ReentryNeedsThreeLowBids(m: Memory, high: int, x: int, y: int, z: int,
                                 m1: Memory, m2: Memory, m3: Memory, m4: Memory)
    requires |m.last3| <= WindowSize && high > LowBid
    requires m1 == Step(m, high) && m2 == Step(m1, x) && m3 == Step(m2, y) && m4 == Step(m3, z)
    ensures m1.state == ZH && m2.state == ZH && m3.state == ZH
    ensures m4.last3 == [x, y, z]
    ensures m4.state == ZD <==> x <= LowBid && y <= LowBid && z <= LowBid
  {
    HighBidKeepsZH(m, high, |m1.last3| - 1);
    StepTransitions(m1, x);
    HighBidKeepsZH(m1, x, |m2.last3| - 2);
    StepTransitions(m2, y);
    assert m3.last3 == [high, x, y];
    HighBidKeepsZH(m2, y, 0);
    StepTransitions(m3, z);
    assert m4.last3 == [x, y, z];
    assert AllLow([x, y, z]) <==> x <= LowBid && y <= LowBid && z <= LowBid by {
      var w := [x, y, z];
      assert w[0] == x && w[1] == y && w[2] == z;
    }
  }

  /** From ZH, a high bid anywhere in the updated window keeps G2 in ZH. */
  lemma HighBidKeepsZH(m: Memory, opp: int, k: int)
    requires |m.last3| <= WindowSize
    requires 0 <= k < |Step(m, opp).last3| && Step(m, opp).last3[k] > LowBid
    requires m.state == ZH || opp > LowBid
    ensures Step(m, opp).state == ZH
  {
  }

  /** The memory after results carrying the opponent bids `opps`, oldest
      first, starting from the record `reset` installs: it keeps the ZD
      invariant, and its window ends with the newest bid. */
  function Replay(opps: seq<int>): (r: Memory)
    ensures r.Inv()
    ensures |r.last3| == if |opps| < WindowSize then |opps| else WindowSize
  {
    if opps == [] then Memory(ZH, [])
    else Step(Replay(opps[..|opps| - 1]), opps[|opps| - 1])
  }

  /** Pushing onto a window that holds the newest entries of `h` gives a
      window that holds the newest entries of `h + [x]`. */
  lemma PushSuffix(h: seq<int>, w: seq<int>, x: int)
    requires |w| <= WindowSize && |w| <= |h| && w == h[|h| - |w|..]
    ensures var r := Push(w, x); r == (h + [x])[|h| + 1 - |r|..]
  {
    var k := |h| - |w|;
    if |w| < WindowSize {
      assert (h + [x])[k..] == h[k..] + [x];
    } else {
      assert w[1..] == h[k + 1..];
      assert (h + [x])[k + 1..] == h[k + 1..] + [x];
    }
  }

  lemma LastSplit(s: seq<int>)
    requires s != []
    ensures s == s[..|s| - 1] + [s[|s| - 1]]
  {
  }

  /** The window holds exactly the newest bids, oldest first. */
  lemma {:induction false} ReplayWindow(opps: seq<int>)
    ensures var r := Replay(opps); r.last3 == opps[|opps| - |r.last3|..]
  {
    if opps != [] {
      var init, x := opps[..|opps| - 1], opps[|opps| - 1];
      var prev := Replay(init);
      ReplayWindow(init);
      PushSuffix(init, prev.last3, x);
      assert Replay(opps).last3 == Push(prev.last3, x);
      LastSplit(opps);
    }
  }

  /** G2 is in ZD exactly when the opponent's last three bids were all low,
      whatever came before them. */
  lemma {:induction false} ZDExactlyAfterThreeLowBids(opps: seq<int>)
    ensures Replay(opps).state == ZD <==>
      |opps| >= WindowSize && AllLow(opps[|opps| - WindowSize..])
  {
    ReplayWindow(opps);
    if |opps| >= WindowSize && AllLow(opps[|opps| - WindowSize..]) {
      var prev := Replay(opps[..|opps| - 1]);
      StepTransitions(prev, opps[|opps| - 1]);
      assert opps[|opps| - 1] in opps[|opps| - WindowSize..];
    }
  }

  /** The mutable `_Mem` record. */
  class Mem {
    var state: Mode
    var last3: seq<int>

    constructor ()
      ensures state == ZH && last3 == []
    {
      state := ZH;
      last3 := [];
    }

    function View(): Memory
      reads this
    {
      Memory(state, last3)
    }
  }

  class G2 {
    const name: string := "G2"
    var n: int
    var mem: Mem?
    ghost var Repr: set<object>

    /** What the engine has handed this strategy since `reset`, and what it
        returned: the observations, the bids and the results, in order. */
    ghost var seen: seq<Observation>
    ghost var bids: seq<Value>
    ghost var got: seq<MatchResult>

    ghost predicate Valid()
      reads this, Repr
    {
      this in Repr &&
      (mem != null ==> mem in Repr && mem.View().Inv())
    }

    constructor ()
      ensures Valid() && fresh(Repr)
      ensures n == 0 && mem == null
      ensures seen == [] && bids == [] && got == []
    {
      n := 0;
      mem := null;
      Repr := {this};
      seen, bids, got := [], [], [];
    }

    /** Records n and starts over in mode ZH with an empty window. */
    method Reset(n: int)
      requires Valid()
      modifies this
      ensures Valid() && fresh(Repr - old(Repr))
      ensures this.n == n && mem != null && fresh(mem)
      ensures mem.state == ZH && mem.last3 == []
      ensures seen == [] && bids == [] && got == []
    {
      this.n := n;
      mem := new Mem();
      Repr := {this, mem};
      seen, bids, got := [], [], [];
    }

    /** The bid: 1 in ZD; in ZH a random choice of 1, 2 or 3, clipped to the
        bound carried by the observation. The memory is only read. */
    method Act(obs: Observation) returns (bid: Value)
      requires mem != null
      modifies this
      ensures n == old(n) && mem == old(mem) && Repr == old(Repr)
      ensures seen == old(seen) + [obs] && bids == old(bids) + [bid] && got == old(got)
      ensures mem.state == ZD ==> bid == Int(1)
      ensures mem.state == ZH ==> bid.Int? && bid.i in {Min(1, obs.n), Min(2, obs.n), Min(3, obs.n)}
      ensures obs.n >= 1 ==> ValidateAction(bid, obs.n) == Pass
    {
      if mem.state == ZD {
        bid := Int(1);
      } else {
        var a :| a in {1, 2, 3};
        bid := Int(Min(a, obs.n));
      }
      seen, bids := seen + [obs], bids + [bid];
    }

    /** Slides the opponent's bid into the window, then switches mode. */
    method OnResult(result: MatchResult)
      requires Valid() && mem != null
      modifies this, mem
      ensures Valid()
      ensures n == old(n) && mem == old(mem) && Repr == old(Repr)
      ensures seen == old(seen) && bids == old(bids) && got == old(got) + [result]
      ensures mem.View() == Step(old(mem.View()), result.oppAction)
    {
      mem.last3 := Push(mem.last3, result.oppAction);
      if mem.state == ZH {
        if |mem.last3| == WindowSize && AllLow(mem.last3) {
          mem.state := ZD;
        }
      } else if result.oppAction > LowBid {
        mem.state := ZH;
      }
      got := got + [result];
    }
  }
}
