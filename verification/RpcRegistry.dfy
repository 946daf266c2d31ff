// The registry of in-flight RPC calls. Its finishers race: Resolve, Cancel,
// CancelAllForAgent and the timeout watcher each take the entry out of the
// pending map under the lock, then send on its channel and cancel its context
// outside the lock. The steps below are those lock sections and channel
// operations; any number of goroutines interleave.

module RpcRegistry {
  import opened Prelude

  type Id = nat

  datatype Response = Result(value: string) | TimeoutError | DisconnectedError

  /** A message on a channel, and the goroutine that sent it. */
  datatype Delivery = Delivery(sender: nat, resp: Response)

  datatype Phase = Idle | Sending(id: Id) | Cancelling(id: Id)

  /**
   * A goroutine finishing the ids one after the other: one id for all but
   * CancelAllForAgent. next is the id it turns to when it is idle; won says
   * that it found the entry of the last id it looked up.
   */
  datatype Worker = Worker(ids: seq<Id>, next: nat, resp: Response, phase: Phase, won: bool)

  /**
   * owner: the agent of every id ever registered. pending: ids in the map.
   * taker: who took an id out of it. channel: what is in the id's channel,
   * which has room for one. sent: all that was ever sent on it. done: contexts that are over, by deadline or cancel.
   * watchers: ids whose watcher goroutine still waits for its context.
   */
  datatype State = State(
    owner: map<Id, string>,
    pending: set<Id>,
    taker: map<Id, nat>,
    channel: map<Id, seq<Delivery>>,
    sent: map<Id, seq<Delivery>>,
    done: set<Id>,
    watchers: set<Id>,
    workers: seq<Worker>)

  const Init: State := State(map[], {}, map[], map[], map[], {}, {}, [])

  datatype Event =
    | Register(id: Id, agent: string)
    | CallResolve(id: Id, value: string)
    | CallCancel(id: Id)
    | CallCancelAll(agent: string, order: seq<Id>)
    | Expire(id: Id)
    | WatcherWakes(id: Id)
    | TakeEntry(w: nat)
    | SendReply(w: nat)
    | CancelContext(w: nat)
    | Receive(id: Id)

  // ------------------------------------------------------------------ steps

  /** Some goroutine has been asked about id. A new uuid is one nobody has named. */
  predicate Named(s: State, id: Id) {
    exists w :: 0 <= w < |s.workers| && id in s.workers[w].ids
  }

  /** The ids CancelAllForAgent collects under the lock, in the map's iteration order. */
  predicate IsSnapshot(s: State, agent: string, order: seq<Id>) {
    && (forall id <- order :: id in s.pending && id in s.owner && s.owner[id] == agent)
    && (forall id <- s.pending :: id in s.owner && s.owner[id] == agent ==> id in order)
  }

  function Spawn(s: State, ids: seq<Id>, resp: Response): State {
    s.(workers := s.workers + [Worker(ids, 0, resp, Idle, false)])
  }

  predicate Finished(x: Worker) {
    x.phase.Idle? && x.next >= |x.ids|
  }

  /** The lock section: look the id up and delete it; a loser has nothing left to do for it. */
  function OnTake(s: State, w: nat): Option<State> {
    if w >= |s.workers| || !s.workers[w].phase.Idle? || Finished(s.workers[w]) then None
    else
      var x := s.workers[w];
      var id := x.ids[x.next];
      var won := id in s.pending;
      var x' := x.(next := x.next + 1, won := won, phase := if won then Sending(id) else Idle);
      if won then Some(s.(pending := s.pending - {id}, taker := s.taker[id := w], workers := s.workers[w := x']))
      else Some(s.(workers := s.workers[w := x']))
  }

  /** The channel send; it blocks while the buffer of one is taken. */
  function OnSend(s: State, w: nat): Option<State> {
    if w >= |s.workers| || !s.workers[w].phase.Sending? then None
    else
      var x := s.workers[w];
      var id := x.phase.id;
      if id !in s.channel || id !in s.sent || |s.channel[id]| >= 1 then None
      else
        Some(s.(channel := s.channel[id := s.channel[id] + [Delivery(w, x.resp)]],
                sent := s.sent[id := s.sent[id] + [Delivery(w, x.resp)]],
                workers := s.workers[w := x.(phase := Cancelling(id))]))
  }

  function OnCancelContext(s: State, w: nat): Option<State> {
    if w >= |s.workers| || !s.workers[w].phase.Cancelling? then None
    else
      var x := s.workers[w];
      Some(s.(done := s.done + {x.phase.id}, workers := s.workers[w := x.(phase := Idle)]))
  }

  /** A new pending entry with its empty channel and its watcher. */
  function Added(s: State, id: Id, agent: string): State {
    s.(owner := s.owner[id := agent], pending := s.pending + {id},
       channel := s.channel[id := []], sent := s.sent[id := []], watchers := s.watchers + {id})
  }

  /** None when the event is not possible in s. */
  function Step(s: State, e: Event): Option<State> {
    match e
    case Register(id, agent) =>
      if id in s.owner || Named(s, id) then None
      else Some(Added(s, id, agent))
    case CallResolve(id, value) => Some(Spawn(s, [id], Result(value)))
    case CallCancel(id) => Some(Spawn(s, [id], TimeoutError))
    case CallCancelAll(agent, order) =>
      if IsSnapshot(s, agent, order) then Some(Spawn(s, order, DisconnectedError)) else None
    case Expire(id) => if id in s.owner then Some(s.(done := s.done + {id})) else None
    case WatcherWakes(id) =>
      if id in s.watchers && id in s.done then
        Some(Spawn(s.(watchers := s.watchers - {id}), [id], TimeoutError))
      else None
    case TakeEntry(w) => OnTake(s, w)
    case SendReply(w) => OnSend(s, w)
    case CancelContext(w) => OnCancelContext(s, w)
    case Receive(id) =>
      if id in s.channel && s.channel[id] != [] then Some(s.(channel := s.channel[id := s.channel[id][1..]])) else None
  }

  function Run(events: seq<Event>): Option<State> {
    if events == [] then Some(Init)
    else
      var before := Run(events[..|events| - 1]);
      if before.None? then None else Step(before.value, events[|events| - 1])
  }

  // -------------------------------------------------------------- invariant

  /** An id that was taken: its taker is about to answer it, or has. */
  ghost predicate Answered(s: State, id: Id)
    requires id in s.taker && id in s.sent
  {
    var w := s.taker[id];
    && w < |s.workers|
    && s.sent[id] == (if s.workers[w].phase == Sending(id) then [] else [Delivery(w, s.workers[w].resp)])
    && (id in s.done || s.workers[w].phase == Sending(id) || s.workers[w].phase == Cancelling(id))
  }

  ghost predicate WorkerOk(s: State, w: nat)
    requires w < |s.workers|
  {
    var x := s.workers[w];
    && x.next <= |x.ids|
    && (forall i :: 0 <= i < x.next ==> x.ids[i] !in s.pending)
    && (x.phase.Sending? ==> x.phase.id in s.taker && s.taker[x.phase.id] == w && x.won)
    && (x.phase.Cancelling? ==> x.won)
    && (|x.ids| == 1 && x.next == 1 ==>
          (x.won <==> x.ids[0] in s.taker && s.taker[x.ids[0]] == w)
          && (x.phase.Idle? || x.phase.id == x.ids[0]))
    && (x.next == 0 ==> x.phase.Idle? && forall id <- s.taker :: s.taker[id] != w)
  }

  ghost predicate Inv(s: State) {
    && s.channel.Keys == s.sent.Keys == s.owner.Keys && s.taker.Keys <= s.owner.Keys
    && (forall id <- s.owner :: id in s.pending <==> id !in s.taker)
    && s.pending <= s.owner.Keys
    && (forall id <- s.pending :: s.sent[id] == [])
    && (forall id <- s.owner :: s.channel[id] == [] || s.channel[id] == s.sent[id])
    && (forall id <- s.taker :: Answered(s, id))
    && (forall w :: 0 <= w < |s.workers| ==> WorkerOk(s, w))
    && (forall id <- s.owner :: id in s.watchers || id in s.done)
  }

  lemma SpawnKeeps(s: State, ids: seq<Id>, resp: Response)
    requires Inv(s)
    ensures Inv(Spawn(s, ids, resp))
  {
    var s' := Spawn(s, ids, resp);
    forall id | id in s'.taker ensures Answered(s', id) {
      assert Answered(s, id);
    }
    forall w | 0 <= w < |s'.workers| ensures WorkerOk(s', w) {
      assert w < |s.workers| ==> WorkerOk(s, w);
    }
  }

  lemma RegisterKeeps(s: State, id: Id, agent: string)
    requires Inv(s) && Step(s, Register(id, agent)).Some?
    ensures Inv(Step(s, Register(id, agent)).value)
  {
    var s' := Step(s, Register(id, agent)).value;
    forall x | x in s'.taker ensures Answered(s', x) {
      assert Answered(s, x);
    }
    forall w | 0 <= w < |s'.workers| ensures WorkerOk(s', w) {
      assert WorkerOk(s, w);
    }
  }

  lemma TakeKeeps(s: State, w: nat)
    requires Inv(s) && OnTake(s, w).Some?
    ensures Inv(OnTake(s, w).value)
  {
    var s' := OnTake(s, w).value;
    TakeAnswers(s, w);
    TakeWorkers(s, w);
    hide Answered, WorkerOk;
  }

  lemma TakeAnswers(s: State, w: nat)
    requires Inv(s) && OnTake(s, w).Some?
    ensures var s' := OnTake(s, w).value;
            s'.taker.Keys <= s'.sent.Keys && forall id <- s'.taker :: Answered(s', id)
  {
    var s' := OnTake(s, w).value;
    assert WorkerOk(s, w);
    hide WorkerOk;
    forall id | id in s'.taker ensures Answered(s', id) {
      assert id in s.taker ==> Answered(s, id);
    }
  }

  lemma TakeWorkers(s: State, w: nat)
    requires Inv(s) && OnTake(s, w).Some?
    ensures var s' := OnTake(s, w).value;
            forall v :: 0 <= v < |s'.workers| ==> WorkerOk(s', v)
  {
    hide Answered;
    var s' := OnTake(s, w).value;
    assert WorkerOk(s, w);
    forall v | 0 <= v < |s'.workers| ensures WorkerOk(s', v) {
      assert WorkerOk(s, v);
    }
  }

  lemma SendKeeps(s: State, w: nat)
    requires Inv(s) && OnSend(s, w).Some?
    ensures Inv(OnSend(s, w).value)
  {
    SendAnswers(s, w);
    SendWorkers(s, w);
    hide Answered, WorkerOk;
  }

  lemma SendAnswers(s: State, w: nat)
    requires Inv(s) && OnSend(s, w).Some?
    ensures var s' := OnSend(s, w).value;
            && s.workers[w].phase.id in s.taker
            && s'.taker.Keys <= s'.sent.Keys && (forall id <- s'.taker :: Answered(s', id))
            && (forall id <- s'.channel :: s'.channel[id] == [] || s'.channel[id] == s'.sent[id])
  {
    var s' := OnSend(s, w).value;
    assert WorkerOk(s, w);
    hide WorkerOk;
    assert Answered(s, s.workers[w].phase.id);
    forall id | id in s'.taker ensures Answered(s', id) {
      assert Answered(s, id);
    }
  }

  lemma SendWorkers(s: State, w: nat)
    requires Inv(s) && OnSend(s, w).Some?
    ensures var s' := OnSend(s, w).value;
            forall v :: 0 <= v < |s'.workers| ==> WorkerOk(s', v)
  {
    hide Answered;
    var s' := OnSend(s, w).value;
    assert WorkerOk(s, w);
    forall v | 0 <= v < |s'.workers| ensures WorkerOk(s', v) {
      assert WorkerOk(s, v);
    }
  }

  lemma SendStep(s: State, w: nat)
    ensures Step(s, SendReply(w)) == OnSend(s, w)
  {
  }

  lemma SendReady(s: State, w: nat)
    requires Inv(s) && w < |s.workers| && s.workers[w].phase.Sending?
    ensures OnSend(s, w).Some? && Inv(OnSend(s, w).value) && Step(s, SendReply(w)) == OnSend(s, w)
  {
    SendFree(s, w);
    SendKeeps(s, w);
    SendStep(s, w);
    hide Inv, Step, OnSend;
  }

  lemma RegisterStep(s: State, id: Id, agent: string)
    requires id !in s.owner && !Named(s, id)
    ensures Step(s, Register(id, agent)) == Some(Added(s, id, agent))
  {
  }

  /** A goroutine that holds an entry finds nothing in its channel. */
  lemma SendFree(s: State, w: nat)
    requires Inv(s) && w < |s.workers| && s.workers[w].phase.Sending?
    ensures var id := s.workers[w].phase.id;
            id in s.channel && id in s.sent && s.channel[id] == [] && OnSend(s, w).Some?
  {
    assert WorkerOk(s, w);
    assert Answered(s, s.workers[w].phase.id);
  }

  lemma CancelKeeps(s: State, w: nat)
    requires Inv(s) && OnCancelContext(s, w).Some?
    ensures Inv(OnCancelContext(s, w).value)
  {
    var s' := OnCancelContext(s, w).value;
    assert WorkerOk(s, w);
    forall id | id in s'.taker ensures Answered(s', id) {
      assert Answered(s, id);
    }
    forall v | 0 <= v < |s'.workers| ensures WorkerOk(s', v) {
      assert WorkerOk(s, v);
    }
  }

  lemma ReceiveKeeps(s: State, id: Id)
    requires Inv(s) && Step(s, Receive(id)).Some?
    ensures Inv(Step(s, Receive(id)).value)
  {
    var s' := Step(s, Receive(id)).value;
    forall x | x in s'.taker ensures Answered(s', x) {
      assert Answered(s, x);
    }
    forall v | 0 <= v < |s'.workers| ensures WorkerOk(s', v) {
      assert WorkerOk(s, v);
    }
  }

  lemma StepKeeps(s: State, e: Event)
    requires Inv(s) && Step(s, e).Some?
    ensures Inv(Step(s, e).value)
  {
    match e
    case Register(id, agent) => RegisterKeeps(s, id, agent);
    case CallResolve(id, value) => SpawnKeeps(s, [id], Result(value));
    case CallCancel(id) => SpawnKeeps(s, [id], TimeoutError);
    case CallCancelAll(agent, order) => SpawnKeeps(s, order, DisconnectedError);
    case WatcherWakes(id) =>
      WatcherKeeps(s, id);
      SpawnKeeps(s.(watchers := s.watchers - {id}), [id], TimeoutError);
    case TakeEntry(w) => TakeKeeps(s, w);
    case SendReply(w) => SendKeeps(s, w);
    case CancelContext(w) => CancelKeeps(s, w);
    case Expire(id) => ExpireKeeps(s, id);
    case Receive(id) => ReceiveKeeps(s, id);
  }

  lemma WatcherKeeps(s: State, id: Id)
    requires Inv(s) && id in s.done
    ensures Inv(s.(watchers := s.watchers - {id}))
  {
    var s' := s.(watchers := s.watchers - {id});
    forall x | x in s'.taker ensures Answered(s', x) {
      assert Answered(s, x);
    }
    forall v | 0 <= v < |s'.workers| ensures WorkerOk(s', v) {
      assert WorkerOk(s, v);
    }
  }

  lemma ExpireKeeps(s: State, id: Id)
    requires Inv(s)
    ensures Inv(s.(done := s.done + {id}))
  {
    var s' := s.(done := s.done + {id});
    forall x | x in s'.taker ensures Answered(s', x) {
      assert Answered(s, x);
    }
    forall v | 0 <= v < |s'.workers| ensures WorkerOk(s', v) {
      assert WorkerOk(s, v);
    }
  }

  lemma SentOnce(s: State, id: Id)
    requires Inv(s) && id in s.channel && s.channel[id] != []
    ensures s.channel[id] == s.sent[id] && |s.sent[id]| == 1
  {
    assert id in s.taker && Answered(s, id);
  }

  lemma {:induction false} RunKeeps(events: seq<Event>)
    requires Run(events).Some?
    ensures Inv(Run(events).value)
  {
    hide Step, Inv;
    if events == [] {
      InitInv();
    } else {
      RunKeeps(events[..|events| - 1]);
      StepKeeps(Run(events[..|events| - 1]).value, events[|events| - 1]);
    }
  }

  lemma InitInv()
    ensures Inv(Init)
  {
  }

  // ----------------------------------------------------------- main results

  /** On every id's channel at most one message is ever sent, read or unread, and only by the goroutine that took it out of the map. */
  lemma AtMostOneDelivery(events: seq<Event>, id: Id)
    requires Run(events).Some? && id in Run(events).value.owner
    ensures var s := Run(events).value;
            && id in s.sent && |s.sent[id]| <= 1
            && (s.sent[id] != [] ==> id in s.taker && id !in s.pending && s.sent[id][0].sender == s.taker[id])
  {
    RunKeeps(events);
    var s := Run(events).value;
    if id in s.taker {
      assert Answered(s, id);
    }
  }

  /** A goroutine that holds an entry can always send: the buffer of one is still free. */
  lemma SendNeverBlocks(events: seq<Event>, w: nat)
    requires Run(events).Some?
    requires w < |Run(events).value.workers| && Run(events).value.workers[w].phase.Sending?
    ensures Step(Run(events).value, SendReply(w)).Some?
  {
    RunKeeps(events);
    var s := Run(events).value;
    assert WorkerOk(s, w);
    assert Answered(s, s.workers[w].phase.id);
  }

  /** No goroutine is ever stuck: unless it is finished it has a step. */
  lemma NoGoroutineStuck(events: seq<Event>, w: nat)
    requires Run(events).Some?
    requires w < |Run(events).value.workers| && !Finished(Run(events).value.workers[w])
    ensures exists e <- [TakeEntry(w), SendReply(w), CancelContext(w)] :: Step(Run(events).value, e).Some?
  {
    var s := Run(events).value;
    if s.workers[w].phase.Sending? {
      SendNeverBlocks(events, w);
    }
    var es := [TakeEntry(w), SendReply(w), CancelContext(w)];
    assert es[0] in es && es[1] in es && es[2] in es;
    assert s.workers[w].phase.Idle? ==> Step(s, TakeEntry(w)).Some?;
    assert s.workers[w].phase.Cancelling? ==> Step(s, CancelContext(w)).Some?;
  }

  /** A finished one-id call (Resolve, Cancel, a watcher) won exactly if what the channel got is its own response. */
  lemma WinnerIsDelivered(events: seq<Event>, w: nat)
    requires Run(events).Some? && w < |Run(events).value.workers|
    requires var x := Run(events).value.workers[w]; |x.ids| == 1 && Finished(x)
    ensures var s := Run(events).value;
            var x := s.workers[w];
            x.won <==> x.ids[0] in s.sent && s.sent[x.ids[0]] == [Delivery(w, x.resp)]
  {
    RunKeeps(events);
    var s := Run(events).value;
    var x := s.workers[w];
    assert WorkerOk(s, w);
    if x.ids[0] in s.taker {
      assert Answered(s, x.ids[0]);
    }
  }

  /** When CancelAllForAgent returns, every id of its snapshot is out of the map and has been, or is being, answered. */
  lemma CancelAllClearsSnapshot(events: seq<Event>, w: nat, id: Id)
    requires Run(events).Some? && w < |Run(events).value.workers|
    requires Finished(Run(events).value.workers[w]) && id in Run(events).value.workers[w].ids
    ensures var s := Run(events).value;
            && id !in s.pending
            && (id in s.owner ==>
                  id in s.taker && id in s.sent && s.taker[id] < |s.workers|
                  && (s.sent[id] != [] || s.workers[s.taker[id]].phase == Sending(id)))
  {
    RunKeeps(events);
    var s := Run(events).value;
    assert WorkerOk(s, w);
    if id in s.owner {
      assert Answered(s, id);
    }
  }

  /** No watcher outlives its id: once the answer has been sent and the context cancelled it can exit. */
  lemma WatcherCanExit(events: seq<Event>, id: Id)
    requires Run(events).Some?
    requires var s := Run(events).value;
             && id in s.watchers && id in s.taker
             && s.taker[id] < |s.workers| && Finished(s.workers[s.taker[id]])
    ensures Step(Run(events).value, WatcherWakes(id)).Some?
  {
    RunKeeps(events);
    assert Answered(Run(events).value, id);
  }

  // ------------------------------------------------------------ the registry

  /**
   * The object behind the steps. pending and the lock sections are the
   * source's; the channels, the contexts and the goroutines stand for the
   * runtime. Each method is one step, whatever ran before it.
   */
  class RPCRegistry {
    var pending: map<Id, string>
    var channel: map<Id, seq<Delivery>>
    var done: set<Id>
    var watchers: set<Id>
    var workers: seq<Worker>
    ghost var owner: map<Id, string>
    ghost var sent: map<Id, seq<Delivery>>
    ghost var taker: map<Id, nat>

    ghost function View(): State
      reads this
    {
      State(owner, pending.Keys, taker, channel, sent, done, watchers, workers)
    }

    ghost predicate Valid()
      reads this
    {
      Inv(View()) && forall id <- pending :: id in owner && owner[id] == pending[id]
    }

    constructor ()
      ensures Valid() && View() == Init
    {
      pending, channel, done, watchers, workers := map[], map[], {}, {}, [];
      owner, taker, sent := map[], map[], map[];
    }

    /** A pending entry under a new id, its channel of one, and its watcher. */
    method Register(id: Id, agent: string)
      requires Valid() && id !in owner && !Named(View(), id)
      modifies this
      ensures Valid() && Some(View()) == Step(old(View()), Event.Register(id, agent))
    {
      RegisterKeeps(View(), id, agent);
      RegisterStep(View(), id, agent);
      hide Inv, Step, Named;
      AddEntry(id, agent);
    }

    method AddEntry(id: Id, agent: string)
      modifies this`pending, this`channel, this`watchers, this`owner, this`sent
      ensures View() == Added(old(View()), id, agent) && pending == old(pending)[id := agent] && owner == old(owner)[id := agent]
    {
      pending, channel, watchers := pending[id := agent], channel[id := []], watchers + {id};
      owner, sent := owner[id := agent], sent[id := []];
      assert pending.Keys == old(pending.Keys) + {id};
    }

    /** A goroutine enters Resolve, Cancel or cancelOne. */
    method Enter(ids: seq<Id>, resp: Response)
      requires Valid()
      modifies this`workers
      ensures Valid() && View() == Spawn(old(View()), ids, resp)
    {
      SpawnKeeps(View(), ids, resp);
      hide Inv;
      workers := workers + [Worker(ids, 0, resp, Idle, false)];
    }

    method Resolve(id: Id, value: string)
      requires Valid()
      modifies this`workers
      ensures Valid() && Some(View()) == Step(old(View()), CallResolve(id, value))
    {
      Enter([id], Result(value));
    }

    method Cancel(id: Id)
      requires Valid()
      modifies this`workers
      ensures Valid() && Some(View()) == Step(old(View()), CallCancel(id))
    {
      Enter([id], TimeoutError);
    }

    /** Collects the agent's ids under the lock; they are finished one by one afterwards. */
    method CancelAllForAgent(agent: string) returns (ids: seq<Id>)
      requires Valid()
      modifies this`workers
      ensures Valid() && Some(View()) == Step(old(View()), CallCancelAll(agent, ids))
      ensures Distinct(ids)
    {
      ids := Collect(agent);
      assert IsSnapshot(View(), agent, ids);
      Enter(ids, DisconnectedError);
    }

    method Collect(agent: string) returns (ids: seq<Id>)
      ensures Distinct(ids) && forall id :: id in ids <==> id in pending && pending[id] == agent
    {
      ids := [];
      var todo := pending.Keys;
      while todo != {}
        invariant todo <= pending.Keys && Distinct(ids)
        invariant forall id :: id in ids <==> id in pending && id !in todo && pending[id] == agent
      {
        var id :| id in todo;
        todo := todo - {id};
        if pending[id] == agent {
          ids := ids + [id];
        }
      }
    }

    /** The lock section of goroutine w: the entry if it is still there. */
    method TakeEntry(w: nat) returns (won: bool)
      requires Valid() && OnTake(View(), w).Some?
      modifies this
      ensures Valid() && Some(View()) == Step(old(View()), Event.TakeEntry(w)) && won == workers[w].won
    {
      TakeKeeps(View(), w);
      hide Inv;
      var x := workers[w];
      var id := x.ids[x.next];
      won := id in pending;
      workers := workers[w := x.(next := x.next + 1, won := won, phase := if won then Sending(id) else Idle)];
      if won {
        pending := pending - {id};
        taker := taker[id := w];
      }
    }

    /** The channel send: a goroutine that took the entry finds the one place free. */
    method SendReply(w: nat)
      requires Valid() && w < |workers| && workers[w].phase.Sending?
      modifies this
      ensures Valid() && Some(View()) == Step(old(View()), Event.SendReply(w))
    {
      SendReady(View(), w);
      hide Inv, Step, OnSend;
      PutInChannel(w);
    }

    method PutInChannel(w: nat)
      requires OnSend(View(), w).Some?
      modifies this`channel, this`sent, this`workers
      ensures Some(View()) == OnSend(old(View()), w) && pending == old(pending) && owner == old(owner)
    {
      var x := workers[w];
      var id := x.phase.id;
      channel := channel[id := channel[id] + [Delivery(w, x.resp)]];
      sent := sent[id := sent[id] + [Delivery(w, x.resp)]];
      workers := workers[w := x.(phase := Cancelling(id))];
    }

    /** The caller that waits on the channel takes what is there. */
    method Receive(id: Id) returns (d: Delivery)
      requires Valid() && id in channel && channel[id] != []
      modifies this`channel
      ensures Valid() && Some(View()) == Step(old(View()), Event.Receive(id))
      ensures sent[id] == [d]
    {
      ReceiveKeeps(View(), id);
      SentOnce(View(), id);
      hide Inv;
      d := channel[id][0];
      channel := channel[id := channel[id][1..]];
    }

    method CancelContext(w: nat)
      requires Valid() && OnCancelContext(View(), w).Some?
      modifies this
      ensures Valid() && Some(View()) == Step(old(View()), Event.CancelContext(w))
    {
      CancelKeeps(View(), w);
      hide Inv;
      var x := workers[w];
      done := done + {x.phase.id};
      workers := workers[w := x.(phase := Idle)];
    }

    /** The watcher goroutine wakes once its context is over, and turns to cancelOne. */
    method WatcherWakes(id: Id)
      requires Valid() && id in watchers && id in done
      modifies this
      ensures Valid() && Some(View()) == Step(old(View()), Event.WatcherWakes(id))
    {
      StepKeeps(View(), Event.WatcherWakes(id));
      hide Inv;
      watchers := watchers - {id};
      workers := workers + [Worker([id], 0, TimeoutError, Idle, false)];
    }
  }
}
