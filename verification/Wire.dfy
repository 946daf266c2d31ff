// The unreliable path between an SDK card object and the message store: every
// io call is delivered and acknowledged, lost before it arrives, or applied
// but reported to the caller as a failure. A call is applied at most once.

module Wire {
  import opened Prelude
  import opened CardContent

  datatype Outcome = Delivered | Lost | Unacked

  /** A stored message; recall hides it but nothing else ever changes in it afterwards. */
  datatype Message = Message(card: Card, recalled: bool)

  datatype Fate = Applied | Rejected | NeverArrived

  /** One PATCH request as the card object issued it, and what became of it. */
  datatype Sent = Sent(target: Option<nat>, request: Request, fate: Fate)

  /**
   * messages[m] is the message with id m. faults scripts the outcomes of the
   * io calls still to come, first one first; once it is used up every call is
   * delivered. log records the PATCH requests issued so far.
   */
  datatype World = World(messages: seq<Message>, unread: nat, faults: seq<Outcome>, log: seq<Sent>)

  datatype Reply = Reply(w: World, ok: bool)

  function NewWorld(faults: seq<Outcome>): World {
    World([], 0, faults, [])
  }

  function NextOutcome(w: World): Outcome {
    if w.faults == [] then Delivered else w.faults[0]
  }

  function Tick(w: World): World {
    w.(faults := if w.faults == [] then [] else w.faults[1..])
  }

  predicate Live(w: World, target: Option<nat>) {
    target.Some? && target.value < |w.messages| && !w.messages[target.value].recalled
  }

  /** UpdateContent on the store: 404, the 400 of applyContentOp, or the update with its unread count. */
  function Stored(w: World, target: Option<nat>, r: Request): Option<World> {
    if !Live(w, target) then None
    else
      var m := w.messages[target.value];
      match ApplyRequest(m.card, r)
      case Refuse => None
      case Accept(after) =>
        Some(w.(messages := w.messages[target.value := m.(card := after)],
                unread := w.unread + if Flips(m.card, after) then 1 else 0))
  }

  /** io.patch and io.updateContent. */
  function Send(w: World, target: Option<nat>, r: Request): Reply {
    var out := NextOutcome(w);
    var w1 := Tick(w);
    if out.Lost? then Reply(w1.(log := w.log + [Sent(target, r, NeverArrived)]), false)
    else
      var stored := Stored(w1, target, r);
      if stored.None? then Reply(w1.(log := w.log + [Sent(target, r, Rejected)]), false)
      else Reply(stored.value.(log := w.log + [Sent(target, r, Applied)]), out.Delivered?)
  }

  function EmptyCard(segment: Option<string>): Card {
    Card([], "generating", segment, Some(true))
  }

  /** io.sendCard: the card is stored silent; an unacknowledged one is left behind as an orphan. */
  function SendCard(w: World, segment: Option<string>): Reply {
    var out := NextOutcome(w);
    var w1 := Tick(w);
    if out.Lost? then Reply(w1, false)
    else Reply(w1.(messages := w1.messages + [Message(EmptyCard(segment), false)]), out.Delivered?)
  }

  /** io.recall */
  function Recall(w: World, target: Option<nat>): Reply {
    var out := NextOutcome(w);
    var w1 := Tick(w);
    if out.Lost? || !Live(w1, target) then Reply(w1, false)
    else Reply(w1.(messages := w1.messages[target.value := w1.messages[target.value].(recalled := true)]), out.Delivered?)
  }
}
