/** The deposit lifecycle: its states, its transition table and a rank that every transition lowers. */
module Lifecycle {

  datatype State =
    | Requested | Identified | Funded | Pledged | Released | Claimed
    | SettleProposed | Disputed | PartiallyReleased | Closed

  function ValidTransitions(from: State): seq<State>
  {
    match from
    case Requested => [Identified]
    case Identified => [Funded, Pledged]
    case Funded => [Pledged, SettleProposed]
    case Pledged => [Released, Claimed, SettleProposed, PartiallyReleased]
    case Claimed => [Released]
    case Released => [Closed]
    case PartiallyReleased => [SettleProposed, Closed]
    case SettleProposed => [Closed, Disputed]
    case Disputed => [Closed]
    case Closed => []
  }

  predicate CanTransition(from: State, to: State)
  {
    to in ValidTransitions(from)
  }

  /** The two self-steps that handlers record without a transition: a wallet presentation while
      PLEDGED and a counter-proposal while SETTLE_PROPOSED. */
  predicate Repeats(from: State, to: State)
  {
    from == to && (from == Pledged || from == SettleProposed)
  }

  predicate LegalStep(from: State, to: State)
  {
    CanTransition(from, to) || Repeats(from, to)
  }

  /** Length of the longest walk left in the table once FUNDED is out of the picture. */
  function Rank(s: State): nat
  {
    match s
    case Requested => 6
    case Identified => 5
    case Funded => 5
    case Pledged => 4
    case PartiallyReleased => 3
    case SettleProposed => 2
    case Claimed => 2
    case Released => 1
    case Disputed => 1
    case Closed => 0
  }

  /** The table read by target. */
  lemma TransitionsByTarget(from: State, to: State)
    ensures CanTransition(from, to) <==>
            match to
            case Requested => false
            case Identified => from == Requested
            case Funded => from == Identified
            case Pledged => from == Identified || from == Funded
            case Claimed => from == Pledged
            case PartiallyReleased => from == Pledged
            case Released => from == Pledged || from == Claimed
            case SettleProposed => from == Funded || from == Pledged || from == PartiallyReleased
            case Disputed => from == SettleProposed
            case Closed => from == Released || from == PartiallyReleased || from == SettleProposed || from == Disputed
  {
  }
}
