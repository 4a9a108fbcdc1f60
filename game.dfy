/** The rules of one round of the lowest-unique-bid game: the payoff rule
    and the guard that every bid passes before the payoff rule sees it. */
module Game {

  /** What a strategy hands back from `act`. Python does not type-check the
      return value, so the bid is either an integer or some other value, of
      which only the name of its type matters here. */
  datatype Value = Int(i: int) | NonInt(typeName: string)

  /** The two exceptions `validate_action` raises. */
  datatype ActionError =
    | TypeError(typeName: string)          // the bid is not an integer
    | RangeError(action: int, n: int)      // the bid lies outside 1..n

  /** `validate_action` returns nothing or raises. */
  datatype Outcome = Pass | Fail(error: ActionError)

  /** A legal bid when the bids run from 1 to n. */
  predicate Legal(a: int, n: int) {
    1 <= a <= n
  }

  function Min(x: int, y: int): int {
    if x <= y then x else y
  }

  /** Payoffs (self, opponent) of one round in which self bid i and the
      opponent bid j: only a strictly lower bid is paid, and it is paid its
      own value. */
  function Payoff(i: int, j: int): (r: (int, int))
    ensures r.0 != 0 ==> i < j && r.0 == i
    ensures r.1 != 0 ==> j < i && r.1 == j
    ensures r.0 == 0 || r.1 == 0
  {
    if i < j then (i, 0)
    else if i == j then (0, 0)
    else (0, j)
  }

  /** The three branches of the payoff rule. */
  lemma PayoffCases(i: int, j: int)
    ensures i < j ==> Payoff(i, j) == (i, 0)
    ensures Payoff(i, i) == (0, 0)
    ensures i > j ==> Payoff(i, j) == (0, j)
  {
  }

  /** Swapping the bidders swaps the payoffs. */
  lemma PayoffSwap(i: int, j: int)
    ensures Payoff(j, i) == (Payoff(i, j).1, Payoff(i, j).0)
  {
  }

  /** For legal bids both payoffs lie in 0..n, at most one is nonzero, and
      a nonzero payoff is the lower of the two bids. */
  lemma PayoffBounds(i: int, j: int, n: int)
    requires Legal(i, n) && Legal(j, n)
    ensures 0 <= Payoff(i, j).0 <= n && 0 <= Payoff(i, j).1 <= n
    ensures Payoff(i, j).0 == 0 || Payoff(i, j).1 == 0
    ensures Payoff(i, j).0 != 0 ==> Payoff(i, j).0 == Min(i, j)
    ensures Payoff(i, j).1 != 0 ==> Payoff(i, j).1 == Min(i, j)
    ensures Payoff(i, j).0 + Payoff(i, j).1 <= Min(i, j)
  {
  }

  /** `validate_action`: the type is checked first, then the range. */
  function ValidateAction(v: Value, n: int): (r: Outcome)
    ensures r == Pass <==> v.Int? && Legal(v.i, n)
    ensures v.NonInt? ==> r == Fail(TypeError(v.typeName))
    ensures v.Int? && !Legal(v.i, n) ==> r == Fail(RangeError(v.i, n))
  {
    match v
    case NonInt(name) => Fail(TypeError(name))
    case Int(a) => if a < 1 || a > n then Fail(RangeError(a, n)) else Pass
  }
}
