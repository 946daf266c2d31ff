// The io object a card is built with, together with the message store behind it.

module Transport {
  import opened Prelude
  import opened CardContent
  import opened Wire
  import Handler = MessageHandler

  class CardIo {
    var messages: seq<Message>
    var unread: nat
    var faults: seq<Outcome>
    ghost var log: seq<Sent>

    ghost function View(): World
      reads this
    {
      World(messages, unread, faults, log)
    }

    constructor (faults: seq<Outcome>)
      ensures View() == NewWorld(faults)
    {
      this.messages := [];
      this.unread := 0;
      this.faults := faults;
      this.log := [];
    }

    method TakeOutcome() returns (out: Outcome)
      modifies this`faults
      ensures out == NextOutcome(old(View()))
      ensures View() == Tick(old(View()))
    {
      if faults == [] {
        out := Delivered;
      } else {
        out := faults[0];
        faults := faults[1..];
      }
    }

    /** The handler: look the message up, merge, store, then count a silent flip. */
    method UpdateContent(id: nat, req: Request) returns (ok: bool)
      modifies this`messages, this`unread
      ensures ok == Stored(old(View()), Some(id), req).Some?
      ensures View() == if ok then Stored(old(View()), Some(id), req).value else old(View())
    {
      if id >= |messages| || messages[id].recalled {
        return false;
      }
      var orig := messages[id].card;
      var merged := Handler.ApplyContentOp(orig, req);
      if merged.Refuse? {
        return false;
      }
      messages := messages[id := messages[id].(card := merged.card)];
      if IsSilent(orig) && IsLoud(merged.card) {
        unread := unread + 1;
      }
      return true;
    }

    method Send(target: Option<nat>, req: Request) returns (ok: bool)
      modifies this
      ensures Reply(View(), ok) == Wire.Send(old(View()), target, req)
    {
      var out := TakeOutcome();
      if out.Lost? {
        log := log + [Sent(target, req, NeverArrived)];
        return false;
      }
      var stored := false;
      if target.Some? {
        stored := UpdateContent(target.value, req);
      }
      log := log + [Sent(target, req, if stored then Applied else Rejected)];
      return stored && out.Delivered?;
    }

    method SendCard(segment: Option<string>) returns (id: Option<nat>)
      modifies this
      ensures Reply(View(), id.Some?) == Wire.SendCard(old(View()), segment)
      ensures id.Some? ==> id.value == |old(messages)|
    {
      var out := TakeOutcome();
      if out.Lost? {
        return None;
      }
      messages := messages + [Message(EmptyCard(segment), false)];
      return if out.Delivered? then Some(|messages| - 1) else None;
    }

    method Recall(target: Option<nat>) returns (ok: bool)
      modifies this
      ensures Reply(View(), ok) == Wire.Recall(old(View()), target)
    {
      var out := TakeOutcome();
      if out.Lost? || target.None? || target.value >= |messages| || messages[target.value].recalled {
        return false;
      }
      messages := messages[target.value := messages[target.value].(recalled := true)];
      return out.Delivered?;
    }
  }
}
