/**
 * The three enumerations of the engine: callback priority tiers, the policy for
 * messages nobody listens to, and where callbacks are invoked.
 */
module CrierTypes {

  /** Priority tier of a permanent or transport-event callback, in declaration order. */
  datatype CallbackPriority = FIRST | ASAP | NORMAL

  /** What happens to an arrived message that no callback consumed. */
  datatype UnhandledMessageBehaviour = Ignore | Enqueue

  /** Whether callbacks run on arrival or wait for the dispatch-queue pump. */
  datatype InboundDispatching = Immediate | DispatchQueue

  /** Position of a tier in the declaration order FIRST, ASAP, NORMAL. */
  function Rank(p: CallbackPriority): (r: nat)
    ensures r < 3
    ensures r == 0 <==> p == FIRST
    ensures r == 2 <==> p == NORMAL
  {
    match p
    case FIRST => 0
    case ASAP => 1
    case NORMAL => 2
  }

  /** Tiers are totally ordered by declaration position: FIRST < ASAP < NORMAL. */
  predicate TierBefore(a: CallbackPriority, b: CallbackPriority)
  {
    Rank(a) < Rank(b)
  }

  /** The tier at a given position of the declaration order. */
  function TierOfRank(n: nat): (p: CallbackPriority)
    requires n < 3
    ensures Rank(p) == n
  {
    if n == 0 then FIRST else if n == 1 then ASAP else NORMAL
  }

  /**
   * Exactly three tiers exist: every tier is the one at its rank, so rank
   * identifies it, and the declaration order is FIRST, ASAP, NORMAL.
   */
  lemma ExactlyThreeTiers()
    ensures forall p: CallbackPriority :: TierOfRank(Rank(p)) == p
    ensures forall p: CallbackPriority, q: CallbackPriority :: Rank(p) == Rank(q) ==> p == q
    ensures TierBefore(FIRST, ASAP) && TierBefore(ASAP, NORMAL)
  {
  }
}
