// What the messages on the channels say: each is the value some Resolve call
// was given for that id, a timeout, or the disconnect of the id's agent.

module RpcReplies {
  import opened Prelude
  import opened RpcRegistry

  // ---------------------------------------------------------- runs, step by step

  lemma {:induction false} RunBefore(events: seq<Event>, k: nat)
    requires Run(events).Some? && k <= |events|
    ensures Run(events[..k]).Some?
    ensures k < |events| ==> Run(events[..k + 1]).Some? && Run(events[..k + 1]) == Step(Run(events[..k]).value, events[k])
  {
    hide Step;
    if k < |events| {
      var n := |events| - 1;
      assert events[..k + 1][..k] == events[..k] && events[..k + 1][k] == events[k];
      if k < n {
        RunBefore(events[..n], k);
        assert events[..n][..k] == events[..k] && events[..n][..k + 1] == events[..k + 1];
      } else {
        assert events[..k + 1] == events;
      }
    } else {
      assert events[..k] == events;
    }
  }

  /** What a step leaves alone: whom a goroutine answers and with what, and the agent of an id. */
  ghost predicate Continues(s: State, s': State) {
    && |s.workers| <= |s'.workers|
    && (forall w :: 0 <= w < |s.workers| ==> s'.workers[w].ids == s.workers[w].ids && s'.workers[w].resp == s.workers[w].resp)
    && (forall id <- s.owner :: id in s'.owner && s'.owner[id] == s.owner[id])
  }

  lemma StepContinues(s: State, e: Event)
    requires Step(s, e).Some?
    ensures Continues(s, Step(s, e).value)
  {
    hide IsSnapshot, Named;
  }

  lemma {:induction false} RunContinues(events: seq<Event>, k: nat)
    requires Run(events).Some? && k <= |events|
    ensures Run(events[..k]).Some? && Continues(Run(events[..k]).value, Run(events).value)
  {
    hide Step;
    RunBefore(events, k);
    if k < |events| {
      var n := |events| - 1;
      RunBefore(events, n);
      RunContinues(events[..n], k);
      assert events[..n][..k] == events[..k];
      StepContinues(Run(events[..n]).value, events[n]);
    } else {
      assert events[..k] == events;
    }
  }

  // ----------------------------------------------------------- from call to reply

  lemma StepSpawns(s: State, e: Event)
    requires Step(s, e).Some?
    ensures var s' := Step(s, e).value;
            var w := |s.workers|;
            && (|s'.workers| == w + 1 <==> e.CallResolve? || e.CallCancel? || e.WatcherWakes? || e.CallCancelAll?)
            && (|s'.workers| == w || |s'.workers| == w + 1)
            && (e.CallResolve? ==> s'.workers[w].ids == [e.id] && s'.workers[w].resp == Result(e.value))
            && (e.CallCancel? || e.WatcherWakes? ==> s'.workers[w].ids == [e.id] && s'.workers[w].resp == TimeoutError)
            && (e.CallCancelAll? ==> s'.workers[w].ids == e.order && s'.workers[w].resp == DisconnectedError)
            && (e.CallCancelAll? ==> forall id <- e.order :: id in s'.owner && s'.owner[id] == e.agent)
  {
    hide Named;
  }

  /**
   * The goroutine a call starts speaks for its caller ever after: a Resolve
   * for the value it was given, a Cancel or a watcher for a timeout, a
   * CancelAllForAgent for a disconnect.
   */
  lemma WorkerSpeaksForCaller(events: seq<Event>, k: nat)
    requires Run(events).Some? && k < |events|
    ensures Run(events[..k]).Some?
    ensures var e := events[k];
            var w := |Run(events[..k]).value.workers|;
            var workers := Run(events).value.workers;
            && (e.CallResolve? ==> w < |workers| && workers[w].ids == [e.id] && workers[w].resp == Result(e.value))
            && (e.CallCancel? || e.WatcherWakes? ==> w < |workers| && workers[w].ids == [e.id] && workers[w].resp == TimeoutError)
            && (e.CallCancelAll? ==> w < |workers| && workers[w].ids == e.order && workers[w].resp == DisconnectedError)
  {
    hide Step, Run;
    RunBefore(events, k);
    StepSpawns(Run(events[..k]).value, events[k]);
    RunContinues(events, k + 1);
  }

  /** A Resolve that has returned won exactly if the one message on the channel is the value it was given. */
  lemma ResolveDeliversItsValue(events: seq<Event>, k: nat)
    requires Run(events).Some? && k < |events| && events[k].CallResolve?
    requires Run(events[..k]).Some?
    requires var w := |Run(events[..k]).value.workers|;
             w < |Run(events).value.workers| && Finished(Run(events).value.workers[w])
    ensures var s := Run(events).value;
            var w := |Run(events[..k]).value.workers|;
            var id := events[k].id;
            s.workers[w].won <==> id in s.sent && s.sent[id] == [Delivery(w, Result(events[k].value))]
  {
    hide Step, Run;
    WorkerSpeaksForCaller(events, k);
    WinnerIsDelivered(events, |Run(events[..k]).value.workers|);
  }

  /** Every call of the agent that is pending when CancelAllForAgent looks is answered, or being answered, when it returns. */
  lemma DisconnectReachesEveryCall(events: seq<Event>, k: nat, id: Id)
    requires Run(events).Some? && k < |events| && events[k].CallCancelAll? && Run(events[..k]).Some?
    requires var s := Run(events[..k]).value; id in s.pending && id in s.owner && s.owner[id] == events[k].agent
    requires var w := |Run(events[..k]).value.workers|;
             w < |Run(events).value.workers| && Finished(Run(events).value.workers[w])
    ensures var s := Run(events).value;
            && id !in s.pending && id in s.taker && id in s.sent && s.taker[id] < |s.workers|
            && (s.sent[id] != [] || s.workers[s.taker[id]].phase == Sending(id))
  {
    RunBefore(events, k);
    SnapshotHolds(Run(events[..k]).value, events[k], id);
    hide Step, Run;
    WorkerSpeaksForCaller(events, k);
    RunContinues(events, k);
    CancelAllClearsSnapshot(events, |Run(events[..k]).value.workers|, id);
  }

  lemma SnapshotHolds(s: State, e: Event, id: Id)
    requires e.CallCancelAll? && Step(s, e).Some? && id in s.pending && id in s.owner && s.owner[id] == e.agent
    ensures id in e.order
  {
  }

  // ----------------------------------------------------------- from reply to call

  lemma {:induction false} WorkerOrigin(events: seq<Event>, w: nat) returns (k: nat)
    requires Run(events).Some? && w < |Run(events).value.workers|
    ensures k < |events| && Run(events[..k]).Some? && |Run(events[..k]).value.workers| == w
    ensures events[k].CallResolve? || events[k].CallCancel? || events[k].WatcherWakes? || events[k].CallCancelAll?
  {
    hide Step;
    var n := |events| - 1;
    RunBefore(events, n);
    StepSpawns(Run(events[..n]).value, events[n]);
    if w < |Run(events[..n]).value.workers| {
      k := WorkerOrigin(events[..n], w);
      assert events[..n][..k] == events[..k];
    } else {
      k := n;
    }
  }

  /** An id is taken only by a goroutine that was asked about it. */
  ghost predicate TakersAsked(s: State) {
    forall id <- s.taker :: s.taker[id] < |s.workers| && id in s.workers[s.taker[id]].ids
  }

  lemma StepAsked(s: State, e: Event)
    requires TakersAsked(s) && Step(s, e).Some?
    ensures TakersAsked(Step(s, e).value)
  {
    hide IsSnapshot, Named;
  }

  lemma {:induction false} RunAsked(events: seq<Event>)
    requires Run(events).Some?
    ensures TakersAsked(Run(events).value)
  {
    hide Step;
    if events != [] {
      var n := |events| - 1;
      RunAsked(events[..n]);
      StepAsked(Run(events[..n]).value, events[n]);
    }
  }

  lemma SentByTaker(s: State, id: Id)
    requires Inv(s) && id in s.sent && s.sent[id] != [] && id in s.owner
    ensures id in s.taker
    ensures var w := s.taker[id]; w < |s.workers| && s.sent[id] == [Delivery(w, s.workers[w].resp)]
  {
    assert id in s.taker;
    assert Answered(s, id);
  }

  /**
   * Whatever is on a channel was said by a call about that id, made earlier in
   * the run: the value is that of a Resolve of the id, a timeout comes from a
   * Cancel of it or from its watcher, a disconnect from a CancelAllForAgent of
   * the agent it was registered for.
   */
  lemma EveryReplyHasItsCall(events: seq<Event>, id: Id) returns (k: nat)
    requires Run(events).Some? && id in Run(events).value.sent && Run(events).value.sent[id] != []
    requires id in Run(events).value.owner
    ensures k < |events| && Run(events[..k]).Some?
    ensures var d := Run(events).value.sent[id][0];
            && d.sender == |Run(events[..k]).value.workers|
            && match d.resp
               case Result(value) => events[k] == CallResolve(id, value)
               case TimeoutError => events[k] == CallCancel(id) || events[k] == WatcherWakes(id)
               case DisconnectedError =>
                 events[k].CallCancelAll? && id in events[k].order && events[k].agent == Run(events).value.owner[id]
  {
    RunKeeps(events);
    RunAsked(events);
    hide Step, Run, Inv;
    var s := Run(events).value;
    SentByTaker(s, id);
    k := WorkerOrigin(events, s.taker[id]);
    WorkerSpeaksForCaller(events, k);
    if events[k].CallCancelAll? {
      RunBefore(events, k);
      StepSpawns(Run(events[..k]).value, events[k]);
      RunContinues(events, k + 1);
    }
  }
}
