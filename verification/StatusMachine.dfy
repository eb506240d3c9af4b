/** Which status may move where, by which kind of actor. */
module StatusMachine {
  import opened Models

  function Allowed(from: Status, to: Status): set<ActorKind> {
    match (from, to)
    case (Pending, Pending) => {Human}
    case (Pending, Approved) => {Human}
    case (Pending, Rejected) => {Human}
    case (Pending, Deprecated) => {Human}
    case (Pending, Expired) => {System}
    case (Pending, Closed) => {Human}
    case (Approved, Deprecated) => {Human}
    case (Approved, Expired) => {System}
    case (Approved, Executing) => {Agent}
    case (Approved, Closed) => {Human}
    case (Executing, Closed) => {Agent}
    case (Executing, Failed) => {Agent}
    case _ => {}
  }

  predicate CanTransition(from: Status, to: Status, kind: ActorKind) {
    kind in Allowed(from, to)
  }

  /** The table read by actor: nobody moves a finished ticket; the system only lets
      waiting ones expire, the agent only starts approved ones and finishes what it
      started, and people decide on, close and replace what has not started. */
  lemma MovesByActor(from: Status, to: Status, kind: ActorKind)
    ensures CanTransition(from, to, kind) <==>
            from in {Pending, Approved, Executing}
            && match kind
               case System => to == Expired && from != Executing
               case Agent => if from == Executing then to in {Closed, Failed} else from == Approved && to == Executing
               case Human =>
                 from != Executing
                 && (to in {Closed, Deprecated} || (from == Pending && to in {Pending, Approved, Rejected}))
  {
  }

  function StatusAfterApproval(count: nat, required: nat): Status {
    if count >= required then Approved else Pending
  }
}
