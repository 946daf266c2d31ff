// What several connections under one client key do to its replay buffer: every
// dispatch enters once per connection, and a resume replays what it finds.

module HubReplay {
  import opened Prelude
  import opened DispatchBuffer

  /** A dispatch to one key, and how many connections the key had then. */
  datatype Dispatch = Dispatch(msg: Msg, connections: nat)

  /** All that was pushed: one copy per connection. */
  function Pushes(ds: seq<Dispatch>): seq<Msg> {
    if ds == [] then [] else Pushes(ds[..|ds| - 1]) + Copies(ds[|ds| - 1].msg, ds[|ds| - 1].connections)
  }

  /** The key's buffer after these dispatches, each as SendTo leaves it. */
  function BufferAfter(ds: seq<Dispatch>): seq<Msg> {
    if ds == [] then []
    else LastOf(BufferAfter(ds[..|ds| - 1]) + Copies(ds[|ds| - 1].msg, ds[|ds| - 1].connections), BUFFER_SIZE)
  }

  lemma {:induction false} BufferIsLastPushes(ds: seq<Dispatch>)
    ensures BufferAfter(ds) == LastOf(Pushes(ds), 1000)
  {
    if ds != [] {
      var n := |ds| - 1;
      BufferIsLastPushes(ds[..n]);
      LastOfLast(Pushes(ds[..n]), Copies(ds[n].msg, ds[n].connections));
    }
  }

  /** The messages a resume after seq a replays. */
  function Replayed(ms: seq<Msg>, a: int): (r: seq<Msg>)
    ensures forall m :: m in r <==> m in ms && m.seqNo > a
  {
    if ms == [] then []
    else
      var rest := Replayed(ms[..|ms| - 1], a);
      if ms[|ms| - 1].seqNo > a then rest + [ms[|ms| - 1]] else rest
  }

  lemma {:induction false} ReplayedIsAfter(ms: seq<Msg>, a: int)
    ensures Data(Replayed(ms, a)) == After(ms, a)
  {
    if ms != [] {
      ReplayedIsAfter(ms[..|ms| - 1], a);
    }
  }

  /** No dispatch, that is no seq, comes twice. */
  ghost predicate OncePerSeq(ms: seq<Msg>) {
    forall x, y :: 0 <= x < y < |ms| ==> ms[x].seqNo != ms[y].seqNo
  }

  /** The same of the messages above a only. */
  ghost predicate OnceAbove(ms: seq<Msg>, a: int) {
    forall x, y :: 0 <= x < y < |ms| && ms[x].seqNo > a ==> ms[x].seqNo != ms[y].seqNo
  }

  lemma OnceSnoc(ms: seq<Msg>, m: Msg)
    ensures OncePerSeq(ms + [m]) <==> OncePerSeq(ms) && forall x <- ms :: x.seqNo != m.seqNo
  {
    var all := ms + [m];
    if OncePerSeq(all) {
      forall x | x in ms ensures x.seqNo != m.seqNo {
        var k :| 0 <= k < |ms| && ms[k] == x;
        assert all[k].seqNo != all[|ms|].seqNo;
      }
      forall x, y | 0 <= x < y < |ms| ensures ms[x].seqNo != ms[y].seqNo {
        assert all[x].seqNo != all[y].seqNo;
      }
    }
  }

  lemma AboveSnoc(ms: seq<Msg>, m: Msg, a: int)
    ensures OnceAbove(ms + [m], a) <==> OnceAbove(ms, a) && forall x <- ms :: x.seqNo > a ==> x.seqNo != m.seqNo
  {
    var all := ms + [m];
    if OnceAbove(all, a) {
      forall x | x in ms && x.seqNo > a ensures x.seqNo != m.seqNo {
        var k :| 0 <= k < |ms| && ms[k] == x;
        assert all[k].seqNo != all[|ms|].seqNo;
      }
      forall x, y | 0 <= x < y < |ms| && ms[x].seqNo > a ensures ms[x].seqNo != ms[y].seqNo {
        assert all[x].seqNo != all[y].seqNo;
      }
    }
  }

  lemma {:induction false} ReplayedOnce(ms: seq<Msg>, a: int)
    ensures OncePerSeq(Replayed(ms, a)) <==> OnceAbove(ms, a)
  {
    if ms != [] {
      var n := |ms| - 1;
      assert ms == ms[..n] + [ms[n]];
      var rest := Replayed(ms[..n], a);
      ReplayedOnce(ms[..n], a);
      AboveSnoc(ms[..n], ms[n], a);
      OnceSnoc(rest, ms[n]);
      hide OncePerSeq, OnceAbove;
      assert Replayed(ms, a) == if ms[n].seqNo > a then rest + [ms[n]] else rest;
      hide Replayed;
      assert forall x :: x in rest <==> x in ms[..n] && x.seqNo > a;
    }
  }

  // ------------------------------------------------------------- where copies are

  lemma {:induction false} PushesConcat(ds: seq<Dispatch>, es: seq<Dispatch>)
    ensures Pushes(ds + es) == Pushes(ds) + Pushes(es)
  {
    if es == [] {
      assert ds + es == ds;
    } else {
      var n := |es| - 1;
      assert (ds + es)[..|ds| + n] == ds + es[..n];
      PushesConcat(ds, es[..n]);
    }
  }

  lemma PushesSnoc(ds: seq<Dispatch>, d: Dispatch)
    ensures Pushes(ds + [d]) == Pushes(ds) + Copies(d.msg, d.connections)
  {
    assert (ds + [d])[..|ds|] == ds;
  }

  lemma PushesAround(ds: seq<Dispatch>, i: nat)
    requires i < |ds|
    ensures Pushes(ds) == Pushes(ds[..i]) + Copies(ds[i].msg, ds[i].connections) + Pushes(ds[i + 1..])
  {
    PushesSnoc(ds[..i], ds[i]);
    hide Pushes;
    assert ds[..i + 1] == ds[..i] + [ds[i]];
    assert ds == ds[..i + 1] + ds[i + 1..];
    PushesConcat(ds[..i + 1], ds[i + 1..]);
  }

  /** The dispatch that copy x belongs to. */
  lemma {:induction false} Locate(ds: seq<Dispatch>, x: nat) returns (i: nat)
    requires x < |Pushes(ds)|
    ensures i < |ds| && |Pushes(ds[..i])| <= x < |Pushes(ds[..i])| + ds[i].connections && Pushes(ds)[x] == ds[i].msg
  {
    var n := |ds| - 1;
    if x < |Pushes(ds[..n])| {
      i := Locate(ds[..n], x);
      assert ds[..n][..i] == ds[..i];
    } else {
      i := n;
    }
  }

  ghost predicate Rising(ds: seq<Dispatch>) {
    forall i, j :: 0 <= i < j < |ds| ==> ds[i].msg.seqNo < ds[j].msg.seqNo
  }

  /** At least two copies of dispatch i are still in the buffer. */
  predicate KeptTwice(ds: seq<Dispatch>, i: nat)
    requires i < |ds|
  {
    ds[i].connections >= 2 && |Pushes(ds[i + 1..])| + 2 <= 1000
  }

  /**
   * A resume replays every dispatch at most once exactly if no dispatch above
   * its seq went to two or more connections and has two copies retained, that
   * is fewer than 999 pushes after it.
   */
  lemma ResumeOnceIff(ds: seq<Dispatch>, a: int)
    requires Rising(ds)
    ensures OncePerSeq(Replayed(BufferAfter(ds), a)) <==>
            forall i: nat :: i < |ds| && ds[i].msg.seqNo > a ==> !KeptTwice(ds, i)
  {
    BufferIsLastPushes(ds);
    hide BufferAfter, Replayed, KeptTwice, OncePerSeq, OnceAbove;
    ReplayedOnce(BufferAfter(ds), a);
    if i: nat :| i < |ds| && ds[i].msg.seqNo > a && KeptTwice(ds, i) {
      TwiceShows(ds, i, a);
    }
    if !OnceAbove(LastOf(Pushes(ds), BUFFER_SIZE), a) {
      var i := TwiceFound(ds, a);
    }
  }

  lemma TwiceShows(ds: seq<Dispatch>, i: nat, a: int)
    requires i < |ds| && ds[i].msg.seqNo > a && KeptTwice(ds, i)
    ensures !OnceAbove(LastOf(Pushes(ds), BUFFER_SIZE), a)
  {
    hide Pushes;
    var all := Pushes(ds);
    var kept := LastOf(all, BUFFER_SIZE);
    var cut := |all| - |kept|;
    PushesAround(ds, i);
    var y := |Pushes(ds[..i])| + ds[i].connections - 1;
    assert all[y] == all[y - 1] == ds[i].msg;
    assert kept[y - 1 - cut] == kept[y - cut] == ds[i].msg;
  }

  lemma SameSeqSameDispatch(ds: seq<Dispatch>, i: nat, j: nat)
    requires Rising(ds) && i < |ds| && j < |ds| && ds[i].msg.seqNo == ds[j].msg.seqNo
    ensures i == j
  {
  }

  lemma TwiceFound(ds: seq<Dispatch>, a: int) returns (i: nat)
    requires Rising(ds) && !OnceAbove(LastOf(Pushes(ds), BUFFER_SIZE), a)
    ensures i < |ds| && ds[i].msg.seqNo > a && KeptTwice(ds, i)
  {
    hide Pushes;
    var all := Pushes(ds);
    var kept := LastOf(all, BUFFER_SIZE);
    var cut := |all| - |kept|;
    var x, y :| 0 <= x < y < |kept| && kept[x].seqNo > a && kept[x].seqNo == kept[y].seqNo;
    assert kept[x] == all[cut + x] && kept[y] == all[cut + y];
    i := Locate(ds, cut + x);
    var j := Locate(ds, cut + y);
    SameSeqSameDispatch(ds, i, j);
    PushesAround(ds, i);
  }

  /** With one connection at a time nothing is ever replayed twice. */
  lemma OneConnectionReplaysOnce(ds: seq<Dispatch>, a: int)
    requires Rising(ds) && forall d <- ds :: d.connections <= 1
    ensures OncePerSeq(Replayed(BufferAfter(ds), a))
  {
    ResumeOnceIff(ds, a);
  }
}
