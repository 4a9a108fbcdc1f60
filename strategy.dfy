/** The strategy protocol the match engine calls: `reset`, `act` and
    `on_result`. A participant is one of the strategies in this model (G2) or
    an external one whose code is not modelled. The engine only calls these
    three operations and never looks inside.

    Every participant keeps a ghost record of what it was handed since its
    last `reset` and of what it returned, so that the engine's contracts can
    say what each side actually receives. */
module Strategy {
  import opened Game
  import opened Types
  import TeamG2

  /** A strategy whose code is not part of this model (RandomBid, or any
      other implementation of the protocol). Its bids are arbitrary values,
      integer or not, and nothing of its own state is visible. */
  class External {
    const name: string
    ghost var seen: seq<Observation>
    ghost var bids: seq<Value>
    ghost var got: seq<MatchResult>

    constructor (name: string)
      ensures this.name == name
      ensures seen == [] && bids == [] && got == []
    {
      this.name := name;
      seen, bids, got := [], [], [];
    }

    method Reset(n: int)
      modifies this
      ensures seen == [] && bids == [] && got == []
    {
      seen, bids, got := [], [], [];
    }

    method Act(obs: Observation) returns (bid: Value)
      modifies this
      ensures seen == old(seen) + [obs] && bids == old(bids) + [bid] && got == old(got)
    {
      bid :| true;
      seen, bids := seen + [obs], bids + [bid];
    }

    method OnResult(result: MatchResult)
      modifies this
      ensures seen == old(seen) && bids == old(bids) && got == old(got) + [result]
    {
      got := got + [result];
    }
  }

  datatype Player = G2Player(g2: TeamG2.G2) | ExternalPlayer(ext: External)
  {
    /** The display name carried in observations and results. */
    function Name(): string {
      match this
      case G2Player(g) => g.name
      case ExternalPlayer(e) => e.name
    }

    function Handle(): object {
      match this
      case G2Player(g) => g
      case ExternalPlayer(e) => e
    }

    /** The objects the strategy owns and may change. */
    ghost function Repr(): set<object>
      reads Handle()
    {
      match this
      case G2Player(g) => g.Repr
      case ExternalPlayer(e) => {e}
    }

    ghost predicate Valid()
      reads Handle(), Repr()
      ensures Valid() ==> Handle() in Repr()
    {
      match this
      case G2Player(g) => g.Valid()
      case ExternalPlayer(e) => true
    }

    /** `reset` has been called, so `act` and `on_result` may be. */
    ghost predicate Ready()
      reads Handle()
    {
      match this
      case G2Player(g) => g.mem != null
      case ExternalPlayer(e) => true
    }

    /** The observations handed to `act` since the last `reset`. */
    ghost function Seen(): seq<Observation>
      reads Handle()
    {
      match this
      case G2Player(g) => g.seen
      case ExternalPlayer(e) => e.seen
    }

    /** The bids `act` returned since the last `reset`. */
    ghost function Bids(): seq<Value>
      reads Handle()
    {
      match this
      case G2Player(g) => g.bids
      case ExternalPlayer(e) => e.bids
    }

    /** The results handed to `on_result` since the last `reset`. */
    ghost function Got(): seq<MatchResult>
      reads Handle()
    {
      match this
      case G2Player(g) => g.got
      case ExternalPlayer(e) => e.got
    }

    method Reset(n: int)
      requires Valid()
      modifies Repr()
      ensures Valid() && Ready() && fresh(Repr() - old(Repr()))
      ensures Seen() == [] && Bids() == [] && Got() == []
    {
      match this
      case G2Player(g) => g.Reset(n);
      case ExternalPlayer(e) => e.Reset(n);
    }

    /** The strategy is handed `obs` and its bid is recorded. G2 bids legally
        whenever the bound is at least 1, and its memory is only read. */
    method Act(obs: Observation) returns (bid: Value)
      requires Valid() && Ready()
      modifies Repr()
      ensures Valid() && Ready() && Repr() == old(Repr())
      ensures Seen() == old(Seen()) + [obs] && Bids() == old(Bids()) + [bid] && Got() == old(Got())
      ensures G2Player? ==> g2.mem.View() == old(g2.mem.View())
      ensures G2Player? && obs.n >= 1 ==> ValidateAction(bid, obs.n) == Pass
    {
      match this
      case G2Player(g) => bid := g.Act(obs);
      case ExternalPlayer(e) => bid := e.Act(obs);
    }

    /** The strategy is handed `result`; G2 moves its memory by `Step`. */
    method OnResult(result: MatchResult)
      requires Valid() && Ready()
      modifies Repr()
      ensures Valid() && Ready() && Repr() == old(Repr())
      ensures Seen() == old(Seen()) && Bids() == old(Bids()) && Got() == old(Got()) + [result]
      ensures G2Player? ==> g2.mem.View() == TeamG2.Step(old(g2.mem.View()), result.oppAction)
    {
      match this
      case G2Player(g) => g.OnResult(result);
      case ExternalPlayer(e) => e.OnResult(result);
    }
  }
}
