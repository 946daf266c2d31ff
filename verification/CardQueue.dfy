// Concurrent append and update callers of one round: the promise chain behind
// the queue, the shared card creation, and the splits, as a state machine
// whose steps are the stretches of code between two awaits. A ready reaction
// may run before an older one, so that nothing rests on how the event loop
// orders them. Card creation succeeds; patches may fail. No call overlaps a
// finish.

module CardQueue {
  import opened Prelude

  const MAX_ELEMENTS := 20

  /** What a queued job is for. */
  datatype Job = Create | Append(id: string) | Update

  /** Where the running job is suspended. */
  datatype Await =
    | SealState      // set_state done of the card being left
    | SealSegment    // set_segment of the card being left
    | Left           // the card is left, the job has not gone on yet
    | Creating       // sendCard
    | Patching(more: bool)

  datatype Status = Waiting | Running(at: Await) | Settled(ok: bool)

  datatype Settlement = Open | Fulfilled | Rejected

  /** What a settled promise triggers: a queued job, or the promise that swallows its outcome. */
  datatype Reaction = StartJob(job: nat) | Fulfil(promise: nat)

  datatype Promise = Promise(state: Settlement, reactions: seq<Reaction>)

  /** An append call: let through ensureCard, or waiting for creation job j, or past its enqueue. */
  datatype Caller = Passing(id: string) | Pending(job: nat, id: string) | Enqueued | Thrown

  /**
   * patchQueue is the tail of the chain. Enqueuing a job makes two promises:
   * the one its caller gets, and the tail after it. ready: reactions whose
   * promise has settled and that have not run yet.
   */
  datatype State = State(
    promises: seq<Promise>,
    patchQueue: nat,
    ready: seq<Reaction>,
    jobs: seq<Job>,
    status: seq<Status>,
    started: seq<nat>,
    callers: seq<Caller>,
    messageId: Option<nat>,
    inflight: Option<nat>,
    mirror: seq<string>,
    segmentIndex: nat,
    sends: nat)

  const Init: State := State([Promise(Fulfilled, [])], 0, [], [], [], [], [], None, None, [], 0, 0)

  datatype Event =
    | CallAppend(id: string)
    | CallUpdate
    | Resume(caller: nat)
    | React(i: nat)
    | Advance(job: nat, ok: bool, more: bool)

  // ------------------------------------------------------------------ steps

  /** then with the same handler for both outcomes. */
  function Then(s: State, p: nat, r: Reaction): State
    requires p < |s.promises|
  {
    var promise := s.promises[p];
    if promise.state.Open? then s.(promises := s.promises[p := promise.(reactions := promise.reactions + [r])])
    else s.(ready := s.ready + [r])
  }

  function Settle(s: State, p: nat, outcome: Settlement): State {
    if p >= |s.promises| || !s.promises[p].state.Open? then s
    else s.(promises := s.promises[p := Promise(outcome, [])], ready := s.ready + s.promises[p].reactions)
  }

  /** The promise the caller of job j gets, and the tail after it. */
  function NextOf(j: nat): nat {
    2 * j + 1
  }

  function TailOf(j: nat): nat {
    2 * j + 2
  }

  /** enqueue: the job reacts to the tail, a new tail swallows the job's outcome. */
  function Enqueue(s: State, job: Job): State {
    var next := |s.promises|;
    var s1 := s.(jobs := s.jobs + [job], status := s.status + [Waiting],
                 promises := s.promises + [Promise(Open, []), Promise(Open, [])]);
    if s.patchQueue >= |s.promises| then s1
    else Then(Then(s1, s.patchQueue, StartJob(|s.jobs|)), next, Fulfil(next + 1)).(patchQueue := next + 1)
  }

  /** Job j has returned or thrown. */
  function End(s: State, j: nat, ok: bool): State
    requires j < |s.status|
  {
    Settle(s.(status := s.status[j := Settled(ok)]), NextOf(j), if ok then Fulfilled else Rejected)
  }

  /** The synchronous part of append: ensureCard up to its await. */
  function OnCallAppend(s: State, id: string): State {
    if s.messageId.Some? then s.(callers := s.callers + [Passing(id)])
    else if s.inflight.Some? then s.(callers := s.callers + [Pending(s.inflight.value, id)])
    else
      var j := |s.jobs|;
      Enqueue(s, Create).(inflight := Some(j), callers := s.callers + [Pending(j, id)])
  }

  /** ensureCard has settled: the append job is enqueued, or the call throws. */
  function OnResume(s: State, k: nat): Option<State> {
    if k >= |s.callers| then None
    else match s.callers[k] {
      case Passing(id) => Some(Enqueue(s, Append(id)).(callers := s.callers[k := Enqueued]))
      case Pending(j, id) =>
        if NextOf(j) >= |s.promises| || s.promises[NextOf(j)].state.Open? then None
        else if s.promises[NextOf(j)].state.Rejected? then Some(s.(callers := s.callers[k := Thrown]))
        else Some(Enqueue(s, Append(id)).(callers := s.callers[k := Enqueued]))
      case _ => None
    }
  }

  function Park(s: State, j: nat, at: Await): State
    requires j < |s.status|
  {
    s.(status := s.status[j := Running(at)])
  }

  /** messageId is empty: issue sendCard. */
  function Sending(s: State, j: nat): State
    requires j < |s.status|
  {
    Park(s, j, Creating).(sends := s.sends + 1)
  }

  /** The element enters the mirror and its PATCH goes out. */
  function Mirrored(s: State, j: nat, id: string): State
    requires j < |s.status|
  {
    Park(s, j, Patching(true)).(mirror := if id in s.mirror then s.mirror else s.mirror + [id])
  }

  /** A job's function begins. */
  function OnStart(s: State, j: nat): State
    requires j < |s.status| && j < |s.jobs|
  {
    var s1 := s.(started := s.started + [j]);
    match s.jobs[j]
    case Create => if s.messageId.None? then Sending(s1, j) else End(s1, j, true)
    case Append(id) =>
      if id !in s.mirror && |s.mirror| >= MAX_ELEMENTS then
        if s.messageId.None? then Park(s1, j, Left) else Park(s1, j, SealState)
      else if s.messageId.None? then Sending(s1, j)
      else Mirrored(s1, j, id)
    case Update => Park(s1, j, Patching(false))
  }

  /** One ready reaction runs. */
  function OnReact(s: State, i: nat): Option<State> {
    if i >= |s.ready| then None
    else
      var s1 := s.(ready := s.ready[..i] + s.ready[i + 1..]);
      match s.ready[i]
      case StartJob(j) => if j < |s.status| && j < |s.jobs| then Some(OnStart(s1, j)) else None
      case Fulfil(p) => Some(Settle(s1, p, Fulfilled))
  }

  /** The job suspended at `at` goes on. */
  function OnAdvance(s: State, j: nat, at: Await, ok: bool, more: bool): State
    requires j < |s.status| && j < |s.jobs|
  {
    match at
    case SealState => if ok then Park(s, j, SealSegment) else End(s, j, false)
    case SealSegment =>
      if ok then Park(s, j, Left).(messageId := None, inflight := None, mirror := [])
      else End(s, j, false)
    case Left =>
      var s1 := s.(segmentIndex := s.segmentIndex + 1);
      if s.messageId.None? then Sending(s1, j)
      else if s.jobs[j].Append? then Mirrored(s1, j, s.jobs[j].id)
      else s1
    case Creating =>
      var s1 := s.(messageId := Some(s.sends));
      if s.jobs[j].Append? then Mirrored(s1, j, s.jobs[j].id) else End(s1, j, true)
    case Patching(first) =>
      if ok && first && more then Park(s, j, Patching(false)) else End(s, j, ok)
  }

  predicate IsRunning(s: State, j: nat) {
    j < |s.status| && s.status[j].Running?
  }

  /** None when the event is not possible in s. */
  function Step(s: State, e: Event): Option<State> {
    match e
    case CallAppend(id) => Some(OnCallAppend(s, id))
    case CallUpdate => Some(Enqueue(s, Update))
    case Resume(k) => OnResume(s, k)
    case React(i) => OnReact(s, i)
    case Advance(j, ok, more) =>
      if IsRunning(s, j) && j < |s.jobs| then Some(OnAdvance(s, j, s.status[j].at, ok, more)) else None
  }

  /** The state after a schedule, or None when one of its events was not possible. */
  function Run(events: seq<Event>): Option<State> {
    if events == [] then Some(Init)
    else
      var before := Run(events[..|events| - 1]);
      if before.None? then None else Step(before.value, events[|events| - 1])
  }

  // -------------------------------------------------------------- invariant

  /** The reactions that are ready: the start of a job behind a settled tail, the tail behind an ended job. */
  predicate IsReady(s: State, r: Reaction)
    requires |s.status| == |s.jobs| && |s.promises| == 2 * |s.jobs| + 1
  {
    match r
    case StartJob(j) => j < |s.jobs| && s.status[j].Waiting? && s.promises[2 * j].state.Fulfilled?
    case Fulfil(p) => p >= 2 && p % 2 == 0 && p < |s.promises| && s.status[p / 2 - 1].Settled? && s.promises[p].state.Open?
  }

  function NextPromise(s: State, j: nat): Promise
    requires j < |s.status|
  {
    if s.status[j].Settled? then Promise(if s.status[j].ok then Fulfilled else Rejected, [])
    else Promise(Open, [Fulfil(TailOf(j))])
  }

  /** The chain of promises: each job behind the tail before it, each tail behind its job, nothing ready twice. */
  ghost predicate Chained(s: State) {
    && |s.status| == |s.jobs| && |s.promises| == 2 * |s.jobs| + 1 && s.patchQueue == 2 * |s.jobs|
    && s.promises[0].state.Fulfilled?
    && (forall j: nat :: j < |s.jobs| ==> s.promises[NextOf(j)] == NextPromise(s, j))
    && (forall j: nat :: j < |s.jobs| ==>
          var tail := s.promises[TailOf(j)];
          if tail.state.Open? then tail.reactions == if j + 1 < |s.jobs| then [StartJob(j + 1)] else []
          else tail.state.Fulfilled? && s.status[j].Settled?)
    && (forall j :: 0 <= j < |s.jobs| && !s.status[j].Waiting? ==> s.promises[2 * j].state.Fulfilled?)
    && Distinct(s.ready) && (forall r :: r in s.ready <==> IsReady(s, r))
  }

  lemma EnqueueChained(s: State, job: Job)
    requires Chained(s)
    ensures Chained(Enqueue(s, job))
  {
    var n := |s.jobs|;
    var s' := Enqueue(s, job);
    assert s.promises[2 * n].state.Open? ==> s.promises[2 * n] == s.promises[TailOf(n - 1)];
    assert s'.promises[NextOf(n)] == Promise(Open, [Fulfil(TailOf(n))]);
    assert s'.promises[TailOf(n)] == Promise(Open, []);
    forall j: nat | j < n ensures s'.promises[NextOf(j)] == s.promises[NextOf(j)] {
    }
    forall r ensures r in s'.ready <==> IsReady(s', r) {
      assert r in s.ready <==> IsReady(s, r);
    }
    assert !IsReady(s, StartJob(n));
  }

  /** A running job that ends settles its promise, and so readies the tail behind it. */
  lemma EndChained(s: State, j: nat, ok: bool)
    requires Chained(s) && j < |s.jobs| && s.status[j].Running?
    ensures Chained(End(s, j, ok))
  {
    var s' := End(s, j, ok);
    assert s'.ready == s.ready + [Fulfil(TailOf(j))];
    assert s.promises[TailOf(j)].state.Open?;
    assert !IsReady(s, Fulfil(TailOf(j)));
    forall r ensures r in s'.ready <==> IsReady(s', r) {
      assert r in s.ready <==> IsReady(s, r);
    }
  }

  lemma RemovedOne(rs: seq<Reaction>, i: nat)
    requires i < |rs| && Distinct(rs)
    ensures var rest := rs[..i] + rs[i + 1..];
            Distinct(rest) && forall r :: r in rest <==> r in rs && r != rs[i]
  {
    var rest := rs[..i] + rs[i + 1..];
    forall r | r in rs && r != rs[i] ensures r in rest {
      var k :| 0 <= k < |rs| && rs[k] == r;
      assert rest[if k < i then k else k - 1] == r;
    }
    assert forall k :: 0 <= k < |rest| ==> rest[k] == if k < i then rs[k] else rs[k + 1];
  }

  /** A job that starts leaves the ready reactions. */
  lemma StartChained(s: State, i: nat, at: Await)
    requires Chained(s) && i < |s.ready| && s.ready[i].StartJob?
    ensures var j := s.ready[i].job;
            j < |s.jobs| && Chained(s.(ready := s.ready[..i] + s.ready[i + 1..], status := s.status[j := Running(at)]))
  {
    var j := s.ready[i].job;
    assert s.ready[i] in s.ready && IsReady(s, s.ready[i]);
    RemovedOne(s.ready, i);
    var s' := s.(ready := s.ready[..i] + s.ready[i + 1..], status := s.status[j := Running(at)]);
    forall r ensures r in s'.ready <==> IsReady(s', r) {
      assert r in s.ready <==> IsReady(s, r);
    }
  }

  /** A tail that swallows its job's outcome readies the next job, however the first one ended. */
  lemma FulfilChained(s: State, i: nat)
    requires Chained(s) && i < |s.ready| && s.ready[i].Fulfil?
    ensures OnReact(s, i).Some? && Chained(OnReact(s, i).value)
    ensures var p := s.ready[i].promise;
            p >= 2 && p % 2 == 0 && p < |s.promises| && OnReact(s, i).value ==
            s.(promises := s.promises[p := Promise(Fulfilled, [])],
               ready := s.ready[..i] + s.ready[i + 1..] + if p / 2 < |s.jobs| then [StartJob(p / 2)] else [])
  {
    var p := s.ready[i].promise;
    assert s.ready[i] in s.ready && IsReady(s, s.ready[i]);
    RemovedOne(s.ready, i);
    var j := p / 2 - 1;
    assert p == TailOf(j);
    var s' := OnReact(s, i).value;
    assert s.promises[p].reactions == if j + 1 < |s.jobs| then [StartJob(j + 1)] else [];
    assert j + 1 < |s.jobs| ==> s.status[j + 1].Waiting? by {
      assert 2 * (j + 1) == p;
    }
    assert !IsReady(s, StartJob(j + 1));
    forall r ensures r in s'.ready <==> IsReady(s', r) {
      assert r in s.ready <==> IsReady(s, r);
    }
  }

  /** Jobs have started one after the other in enqueue order, and only the last started one can be running. */
  ghost predicate Serial(s: State) {
    && |s.jobs| == |s.status|
    && |s.started| <= |s.status|
    && (forall i :: 0 <= i < |s.started| ==> s.started[i] == i)
    && (forall i :: 0 <= i < |s.started| - 1 ==> s.status[i].Settled?)
    && (forall i :: 0 <= i < |s.started| ==> !s.status[i].Waiting?)
    && (forall i :: |s.started| <= i < |s.status| ==> s.status[i].Waiting?)
  }

  function Current(s: State): Status
    requires Serial(s)
  {
    if s.started == [] then Settled(true) else s.status[|s.started| - 1]
  }

  /** sendCard has been called once more than the round was split, from the first call on. */
  ghost predicate Accounted(s: State)
    requires Serial(s)
  {
    var now := Current(s);
    && (s.messageId.None? ==> s.mirror == [])
    && (now.Running? && now.at in {SealState, SealSegment} ==> s.messageId.Some? && s.jobs[|s.started| - 1].Append?)
    && (now.Running? && now.at in {Left, Creating} ==> s.messageId.None?)
    && (now.Running? && now.at == Left ==> s.jobs[|s.started| - 1].Append?)
    && (s.messageId.Some? || (now.Running? && now.at in {Left, Creating})
        ==> s.sends == s.segmentIndex + 1)
    && (s.messageId.None? && !(now.Running? && now.at in {Left, Creating})
        ==> s.sends == 0 && s.segmentIndex == 0)
    && (s.sends == 0 ==> forall i :: 0 <= i < |s.started| ==> s.jobs[i].Update?)
  }

  ghost predicate Inv(s: State) {
    Chained(s) && Serial(s) && Accounted(s)
  }

  /** The chain alone decides which job starts: the first that has not, once the one before it has ended. */
  lemma StartsNext(s: State, i: nat)
    requires Chained(s) && Serial(s) && i < |s.ready| && s.ready[i].StartJob?
    ensures s.ready[i].job == |s.started| < |s.jobs|
    ensures |s.started| > 0 ==> s.status[|s.started| - 1].Settled?
  {
    var j := s.ready[i].job;
    assert s.ready[i] in s.ready && IsReady(s, s.ready[i]);
    if j > 0 {
      assert 2 * j == TailOf(j - 1);
      assert s.status[j - 1].Settled?;
    }
  }

  lemma StartKeeps(s: State, i: nat)
    requires Inv(s) && i < |s.ready| && s.ready[i].StartJob?
    ensures OnReact(s, i).Some? && Inv(OnReact(s, i).value)
  {
    var j := s.ready[i].job;
    StartsNext(s, i);
    StartKeepsChained(s, i);
    hide Chained, OnStart;
    StartKeepsSerial(s.(ready := s.ready[..i] + s.ready[i + 1..]), j);
  }

  lemma StartKeepsSerial(s: State, j: nat)
    requires Serial(s) && Accounted(s) && j == |s.started| < |s.jobs|
    requires j > 0 ==> s.status[j - 1].Settled?
    ensures Serial(OnStart(s, j)) && Accounted(OnStart(s, j))
  {
    EndOnlyStatus(s.(started := s.started + [j]), j, true);
    hide End;
    var s' := OnStart(s, j);
    assert s'.started == s.started + [j] && s'.jobs == s.jobs && |s'.status| == |s.status|;
    assert forall k :: 0 <= k < |s.status| && k != j ==> s'.status[k] == s.status[k];
    assert !s'.status[j].Waiting?;
  }

  lemma StartKeepsChained(s: State, i: nat)
    requires Chained(s) && Serial(s) && i < |s.ready| && s.ready[i].StartJob?
    ensures OnReact(s, i).Some? && Chained(OnReact(s, i).value)
  {
    var j := s.ready[i].job;
    StartsNext(s, i);
    var s1 := s.(ready := s.ready[..i] + s.ready[i + 1..], started := s.started + [j]);
    var s' := OnReact(s, i).value;
    if s.jobs[j].Create? && s.messageId.Some? {
      StartChained(s, i, Creating);
      var p := s1.(status := s.status[j := Running(Creating)]);
      ChainedIgnores(s.(ready := s1.ready, status := p.status), p);
      EndChained(p, j, true);
      assert End(p, j, true) == End(s1, j, true);
    } else {
      var at := s'.status[j].at;
      StartChained(s, i, at);
      ChainedIgnores(s.(ready := s1.ready, status := s.status[j := Running(at)]), s');
    }
  }

  lemma ChainedIgnores(s: State, s': State)
    requires Chained(s)
    requires s'.promises == s.promises && s'.patchQueue == s.patchQueue && s'.ready == s.ready && s'.jobs == s.jobs && s'.status == s.status
    ensures Chained(s')
  {
    forall r ensures r in s'.ready <==> IsReady(s', r) {
      assert r in s.ready <==> IsReady(s, r);
    }
  }

  /** Of what the accounting reads, ending a job changes its status only. */
  lemma EndOnlyStatus(s: State, j: nat, ok: bool)
    requires j < |s.status|
    ensures var s' := End(s, j, ok);
            s' == s.(promises := s'.promises, ready := s'.ready, status := s.status[j := Settled(ok)])
  {
  }

  /** Two jobs never run at once, so the one that advances is the last that started. */
  lemma AdvancesLast(s: State, j: nat)
    requires Serial(s) && IsRunning(s, j)
    ensures j == |s.started| - 1
  {
  }

  lemma AdvanceKeeps(s: State, j: nat, ok: bool, more: bool)
    requires Inv(s) && Step(s, Advance(j, ok, more)).Some?
    ensures Inv(Step(s, Advance(j, ok, more)).value)
  {
    AdvancesLast(s, j);
    var at := s.status[j].at;
    AdvanceKeepsChained(s, j, at, ok, more);
    SerialAdvance(s, j, at, ok, more);
    hide Serial, Chained;
    AccountedAdvance(s, j, at, ok, more);
  }

  lemma AdvanceKeepsChained(s: State, j: nat, at: Await, ok: bool, more: bool)
    requires Chained(s) && j < |s.jobs| && s.status[j] == Running(at)
    ensures Chained(OnAdvance(s, j, at, ok, more))
  {
    var s' := OnAdvance(s, j, at, ok, more);
    if s'.status[j].Settled? {
      var s1 := if at.Creating? then s.(messageId := Some(s.sends)) else s;
      ChainedIgnores(s, s1);
      EndChained(s1, j, s'.status[j].ok);
    } else {
      ReparkChained(s, j, s'.status[j].at);
      ChainedIgnores(s.(status := s.status[j := s'.status[j]]), s');
    }
  }

  lemma ReparkChained(s: State, j: nat, at: Await)
    requires Chained(s) && j < |s.jobs| && s.status[j].Running?
    ensures Chained(s.(status := s.status[j := Running(at)]))
  {
    var s' := s.(status := s.status[j := Running(at)]);
    forall r ensures r in s'.ready <==> IsReady(s', r) {
      assert r in s.ready <==> IsReady(s, r);
    }
  }

  lemma SerialAdvance(s: State, j: nat, at: Await, ok: bool, more: bool)
    requires Serial(s) && j == |s.started| - 1 && s.status[j] == Running(at)
    ensures Serial(OnAdvance(s, j, at, ok, more))
    ensures s.started[j] == j
  {
    EndOnlyStatus(s, j, ok);
    EndOnlyStatus(s, j, false);
    EndOnlyStatus(s.(messageId := Some(s.sends)), j, true);
    hide End;
  }

  lemma AccountedAdvance(s: State, j: nat, at: Await, ok: bool, more: bool)
    requires Inv(s) && j == |s.started| - 1 && s.status[j] == Running(at)
    requires Serial(OnAdvance(s, j, at, ok, more))
    ensures Accounted(OnAdvance(s, j, at, ok, more))
  {
    EndOnlyStatus(s, j, ok);
    EndOnlyStatus(s, j, false);
    EndOnlyStatus(s.(messageId := Some(s.sends)), j, true);
    hide End;
    var s' := OnAdvance(s, j, at, ok, more);
    assert s'.started == s.started && s'.jobs == s.jobs && Current(s') == s'.status[j];
    hide Serial, Chained;
  }

  lemma EnqueueKeeps(s: State, job: Job)
    requires Inv(s)
    ensures Inv(Enqueue(s, job))
  {
    EnqueueChained(s, job);
    var s' := Enqueue(s, job);
    assert s'.jobs == s.jobs + [job] && s'.status == s.status + [Waiting] && s'.started == s.started
           && s'.messageId == s.messageId && s'.mirror == s.mirror && s'.sends == s.sends && s'.segmentIndex == s.segmentIndex;
    hide Chained, Enqueue;
  }

  lemma InvIgnores(s: State, s': State)
    requires Inv(s) && s' == s.(inflight := s'.inflight, callers := s'.callers)
    ensures Inv(s')
  {
    ChainedIgnores(s, s');
    hide Chained;
  }

  lemma FulfilKeeps(s: State, i: nat)
    requires Inv(s) && i < |s.ready| && s.ready[i].Fulfil?
    ensures OnReact(s, i).Some? && Inv(OnReact(s, i).value)
  {
    FulfilChained(s, i);
    hide Chained, OnReact;
  }

  lemma StepKeeps(s: State, e: Event)
    requires Inv(s) && Step(s, e).Some?
    ensures Inv(Step(s, e).value)
  {
    hide Inv, Enqueue, OnReact, OnAdvance;
    match e
    case CallAppend(_) =>
      EnqueueKeeps(s, Create);
      InvIgnores(s, s.(callers := OnCallAppend(s, e.id).callers));
      InvIgnores(Enqueue(s, Create), Enqueue(s, Create).(inflight := Some(|s.jobs|), callers := OnCallAppend(s, e.id).callers));
    case CallUpdate => EnqueueKeeps(s, Update);
    case Resume(k) =>
      var s' := Step(s, e).value;
      var id := s.callers[k].id;
      EnqueueKeeps(s, Append(id));
      InvIgnores(s, s.(callers := s'.callers));
      InvIgnores(Enqueue(s, Append(id)), Enqueue(s, Append(id)).(callers := s'.callers));
    case React(i) =>
      ReactCase(s, i);
      if s.ready[i].StartJob? {
        StartKeeps(s, i);
      } else {
        FulfilKeeps(s, i);
      }
    case Advance(j, ok, more) => AdvanceKeeps(s, j, ok, more);
  }

  lemma ReactCase(s: State, i: nat)
    requires OnReact(s, i).Some?
    ensures i < |s.ready|
  {
  }

  lemma {:induction false} RunKeeps(events: seq<Event>)
    requires Run(events).Some?
    ensures Inv(Run(events).value)
  {
    hide Step, Inv;
    if events == [] {
      InitInv();
    } else {
      RunKeeps(events[..|events| - 1]);
      StepKeeps(Run(events[..|events| - 1]).value, events[|events| - 1]);
    }
  }

  lemma InitInv()
    ensures Inv(Init)
  {
    assert forall r :: !IsReady(Init, r);
  }

  // ----------------------------------------------------------- main results

  /** In every interleaving: one job at a time, started in the order in which they were enqueued. */
  lemma OneAtATimeInOrder(events: seq<Event>)
    requires Run(events).Some?
    ensures var s := Run(events).value;
            && (forall i :: 0 <= i < |s.started| ==> s.started[i] == i)
            && (forall i, j :: 0 <= i < j < |s.status| && !s.status[j].Waiting? ==> s.status[i].Settled?)
  {
    RunKeeps(events);
  }

  /** The caller of a job learns how it ended, and only the caller: no tail is ever rejected. */
  lemma OutcomeGoesToCaller(events: seq<Event>, j: nat)
    requires Run(events).Some? && j < |Run(events).value.status|
    ensures var s := Run(events).value;
            && NextOf(j) < TailOf(j) < |s.promises| && !s.promises[TailOf(j)].state.Rejected?
            && s.promises[NextOf(j)].state ==
               (if !s.status[j].Settled? then Open else if s.status[j].ok then Fulfilled else Rejected)
  {
    RunKeeps(events);
    hide Step, Serial, Accounted;
  }

  /**
   * A failed job does not hold up the queue: whenever jobs wait and none is
   * running, the first of them starts within two reactions, however the job
   * before it ended.
   */
  lemma FailureDoesNotBlock(events: seq<Event>) returns (more: seq<Event>)
    requires Run(events).Some?
    requires var s := Run(events).value;
             |s.started| < |s.status| && forall i :: 0 <= i < |s.status| ==> !s.status[i].Running?
    ensures 1 <= |more| <= 2 && forall e <- more :: e.React?
    ensures Run(events + more).Some? && Run(events + more).value.started == Run(events).value.started + [|Run(events).value.started|]
  {
    RunKeeps(events);
    hide Step, Accounted;
    var s := Run(events).value;
    var j := |s.started|;
    if IsReady(s, StartJob(j)) {
      var i := StartFromReady(s);
      more := [React(i)];
      RunOne(events, React(i));
    } else {
      var i, i2 := StartFromTail(s);
      more := [React(i), React(i2)];
      RunOne(events, React(i));
      RunOne(events + [React(i)], React(i2));
      assert events + more == events + [React(i)] + [React(i2)];
    }
  }

  lemma RunOne(events: seq<Event>, e: Event)
    requires Run(events).Some?
    ensures Run(events + [e]) == Step(Run(events).value, e)
  {
    assert (events + [e])[..|events|] == events;
  }

  lemma StartFromReady(s: State) returns (i: nat)
    requires Chained(s) && Serial(s) && |s.started| < |s.status| && IsReady(s, StartJob(|s.started|))
    ensures Step(s, React(i)).Some? && Step(s, React(i)).value.started == s.started + [|s.started|]
  {
    var j := |s.started|;
    assert StartJob(j) in s.ready;
    i :| 0 <= i < |s.ready| && s.ready[i] == StartJob(j);
    EndOnlyStatus(s.(ready := s.ready[..i] + s.ready[i + 1..], started := s.started + [j]), j, true);
    hide End, Chained;
  }

  lemma StartFromTail(s: State) returns (i: nat, i2: nat)
    requires Chained(s) && Serial(s) && |s.started| < |s.status| && !IsReady(s, StartJob(|s.started|))
    requires forall k :: 0 <= k < |s.status| ==> !s.status[k].Running?
    ensures Step(s, React(i)).Some?
    ensures var s1 := Step(s, React(i)).value;
            Step(s1, React(i2)).Some? && Step(s1, React(i2)).value.started == s.started + [|s.started|]
  {
    var j := |s.started|;
    assert j > 0;
    var p := TailOf(j - 1);
    assert p == 2 * j;
    assert IsReady(s, Fulfil(p));
    assert Fulfil(p) in s.ready;
    i :| 0 <= i < |s.ready| && s.ready[i] == Fulfil(p);
    FulfilChained(s, i);
    var s1 := OnReact(s, i).value;
    assert IsReady(s1, StartJob(j));
    i2 := StartFromReady(s1);
  }

  /** Whenever nothing is running and a create or append job has run: one sendCard more than splits. */
  lemma SendsAreSplitsPlusOne(events: seq<Event>)
    requires Run(events).Some?
    ensures var s := Run(events).value;
            && |s.jobs| == |s.status|
            && s.sends <= s.segmentIndex + 1
            && (s.messageId.Some? ==> s.sends == s.segmentIndex + 1)
            && ((forall i :: 0 <= i < |s.status| ==> !s.status[i].Running?)
                && (exists i :: 0 <= i < |s.status| && s.status[i].Settled? && !s.jobs[i].Update?)
                ==> s.messageId.Some? && s.sends == s.segmentIndex + 1)
  {
    RunKeeps(events);
    var s := Run(events).value;
    if (forall i :: 0 <= i < |s.status| ==> !s.status[i].Running?)
       && (exists i :: 0 <= i < |s.status| && s.status[i].Settled? && !s.jobs[i].Update?) {
      var i :| 0 <= i < |s.status| && s.status[i].Settled? && !s.jobs[i].Update?;
      assert i < |s.started|;
    }
  }
}
