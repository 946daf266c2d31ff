// Updates may overtake the append of their element: on an open card with room
// the final data is the same wherever the append falls among them.

module CardConfluence {
  import opened Prelude
  import opened CardContent
  import opened Wire
  import opened CardSpec
  import opened CardFaults
  import opened CardSync
  import opened CardFaultFree
  import ElementIds

  /** d with the updates merged over it, first one first. */
  function Fold(d: Data, us: seq<Data>): Data {
    if us == [] then d else Fold(d, us[..|us| - 1]) + us[|us| - 1]
  }

  function Updates(id: string, us: seq<Data>): (calls: seq<Call>)
    ensures |calls| == |us|
    ensures forall i :: 0 <= i < |us| ==> calls[i] == UpdateOf(id, us[i])
  {
    seq(|us|, i requires 0 <= i < |us| => UpdateOf(id, us[i]))
  }

  lemma {:induction false} FoldConcat(d: Data, us: seq<Data>, vs: seq<Data>)
    ensures Fold(d, us + vs) == Fold(Fold(d, us), vs)
  {
    if vs == [] {
      assert us + vs == us;
    } else {
      var n := |vs| - 1;
      assert (us + vs)[..|us| + n] == us + vs[..n];
      FoldConcat(d, us, vs[..n]);
    }
  }

  lemma {:induction false} FoldOver(d: Data, us: seq<Data>)
    ensures d + Fold(map[], us) == Fold(d, us)
  {
    if us != [] {
      FoldOver(d, us[..|us| - 1]);
    }
  }

  lemma {:induction false} RunConcat(o: Options, s: Sys, a: seq<Call>, b: seq<Call>)
    ensures RunAll(o, s, a + b) == RunAll(o, RunAll(o, s, a), b)
  {
    hide Perform;
    if b == [] {
      assert a + b == a;
    } else {
      var n := |b| - 1;
      assert (a + b)[..|a| + n] == a + b[..n];
      RunConcat(o, s, a, b[..n]);
    }
  }

  /** Before the element exists its updates only gather in the buffer. */
  lemma {:induction false} EarlyUpdates(o: Options, s: Sys, id: string, us: seq<Data>)
    requires !s.c.isSealed && !HasId(s.c.mirror, id) && id !in s.c.cardIds && id !in s.c.pending
    ensures RunAll(o, s, Updates(id, us)) ==
            if us == [] then s else s.(c := s.c.(pending := s.c.pending[id := Fold(map[], us)]))
  {
    hide Perform;
    if us != [] {
      var n := |us| - 1;
      assert Updates(id, us)[..n] == Updates(id, us[..n]);
      EarlyUpdates(o, s, id, us[..n]);
      OneEarlyUpdate(o, RunAll(o, s, Updates(id, us[..n])), id, us[n]);
    }
  }

  lemma OneEarlyUpdate(o: Options, s: Sys, id: string, u: Data)
    requires !s.c.isSealed && !HasId(s.c.mirror, id) && id !in s.c.cardIds
    ensures Perform(o, s, UpdateOf(id, u)).s == s.(c := s.c.(pending := s.c.pending[id := PendingOr(s.c, id) + u]))
  {
  }

  /** After it exists each of them is merged over its data. */
  lemma {:induction false} LateUpdates(o: Options, s: Sys, id: string, us: seq<Data>)
    requires Clean(s) && !s.c.isSealed && id != "" && HasId(s.c.mirror, id)
    ensures var k := IndexOf(s.c.mirror, id);
            var r := RunAll(o, s, Updates(id, us));
            && Clean(r) && !r.c.isSealed
            && r.c.mirror == s.c.mirror[k := s.c.mirror[k].(data := Fold(s.c.mirror[k].data, us))]
  {
    hide Sound, InSync, Calm;
    var k := IndexOf(s.c.mirror, id);
    if us != [] {
      var n := |us| - 1;
      assert Updates(id, us)[..n] == Updates(id, us[..n]);
      LateUpdates(o, s, id, us[..n]);
      OneLateUpdate(o, RunAll(o, s, Updates(id, us[..n])), id, k, us[n]);
    }
  }

  lemma OneLateUpdate(o: Options, s: Sys, id: string, k: nat, u: Data)
    requires Clean(s) && !s.c.isSealed && id != "" && k < |s.c.mirror| && s.c.mirror[k].id == id
    ensures var r := Perform(o, s, UpdateOf(id, u)).s;
            && Clean(r) && !r.c.isSealed
            && r.c.mirror == s.c.mirror[k := s.c.mirror[k].(data := s.c.mirror[k].data + u)]
  {
    CallRefines(o, s, UpdateOf(id, u));
    HasIdAt(s.c.mirror, k);
    var merged := s.c.mirror[k].data + u;
    SetDataIsMirrorData(s.c.mirror, id, merged);
    assert SetData(s.c.mirror, id, merged) == MirrorData(s.c.mirror, id, merged);
    hide Send, Sound, InSync, Calm;
  }

  /** The append itself: what is buffered for its id is merged over its data. */
  lemma AppendFlushes(o: Options, s: Sys, elem: Elem)
    requires Clean(s) && !s.c.isSealed && s.c.messageId.Some? && |s.c.mirror| < MAX_ELEMENTS
    requires !HasId(s.c.mirror, elem.id) && elem.id != ""
    ensures var r := AppendJob(o, s, elem).s.c;
            && !r.isSealed
            && r.mirror == s.c.mirror + [elem.(data := elem.data + PendingOr(s.c, elem.id))]
  {
    hide TryPatch;
    var m := s.c.messageId.value;
    var c1 := Shadow(s.c, elem, false, m);
    PatchCalm(o, s.(c := c1), Append(Some(elem)), s.c.cardIds);
    var sent := TryPatch(o, s.(c := c1), Append(Some(elem))).s;
    assert elem.data + map[] == elem.data;
    if elem.id in s.c.pending {
      var merged := elem.data + s.c.pending[elem.id];
      var c := sent.c.(pending := sent.c.pending - {elem.id}, mirror := MirrorData(sent.c.mirror, elem.id, merged));
      AppendHasId(s.w.messages[m].card, elem, Append(Some(elem)));
      PatchCalm(o, sent.(c := c), Update(elem.id, Some(merged)), s.c.cardIds);
      assert IndexOf(s.c.mirror, elem.id) == |s.c.mirror|;
      assert MirrorData(sent.c.mirror, elem.id, merged) == s.c.mirror + [elem.(data := merged)];
    }
  }

  lemma AppendCallFlushes(o: Options, s: Sys, kind: string, data: Data, id: string)
    requires Clean(s) && !s.c.isSealed && |s.c.mirror| < MAX_ELEMENTS
    requires ExplicitId(data) == Some(id) && id != "" && !ElementIds.IsFooterId(id) && !HasId(s.c.mirror, id)
    ensures var r := Perform(o, s, AppendOf(kind, data)).s;
            && Clean(r) && !r.c.isSealed
            && r.c.mirror == s.c.mirror + [Elem(kind, id, (data - ENVELOPE_KEYS) + PendingOr(s.c, id))]
  {
    hide AppendJob, Sound, InSync, Calm;
    EnsureClean(s);
    EnsureKeepsShadow(s);
    var ensured := EnsureCard(s).s;
    assert Guard(s, AppendOf(kind, data));
    CallRefines(o, s, AppendOf(kind, data));
    AppendFlushes(o, ensured, Elem(kind, id, data - ENVELOPE_KEYS));
  }

  lemma EnsureKeepsShadow(s: Sys)
    requires !s.c.isSealed
    ensures var c := EnsureCard(s).s.c; c.mirror == s.c.mirror && c.pending == s.c.pending
  {
  }

  /** The calls: i updates, the append, the remaining updates. */
  function Interleaved(kind: string, data: Data, id: string, us: seq<Data>, i: nat): seq<Call>
    requires i <= |us|
  {
    Updates(id, us[..i]) + ([AppendOf(kind, data)] + Updates(id, us[i..]))
  }

  lemma BufferedClean(s: Sys, id: string, pending: Data)
    requires Clean(s)
    ensures Clean(s.(c := s.c.(pending := s.c.pending[id := pending])))
  {
  }

  /** The updates before the append, and the append. */
  lemma UpToAppend(o: Options, s: Sys, kind: string, data: Data, id: string, us: seq<Data>)
    requires Clean(s) && !s.c.isSealed && |s.c.mirror| < MAX_ELEMENTS
    requires ExplicitId(data) == Some(id) && id != "" && !ElementIds.IsFooterId(id)
    requires !HasId(s.c.mirror, id) && id !in s.c.cardIds && id !in s.c.pending
    ensures var r := RunAll(o, RunAll(o, s, Updates(id, us)), [AppendOf(kind, data)]);
            && Clean(r) && !r.c.isSealed
            && r.c.mirror == s.c.mirror + [Elem(kind, id, Fold(data - ENVELOPE_KEYS, us))]
  {
    hide Perform, Clean;
    EarlyUpdates(o, s, id, us);
    var s1 := RunAll(o, s, Updates(id, us));
    if us == [] {
      assert Fold(map[], us) == map[];
    } else {
      BufferedClean(s, id, Fold(map[], us));
    }
    AppendCallFlushes(o, s1, kind, data, id);
    assert [AppendOf(kind, data)][..0] == [];
    FoldOver(data - ENVELOPE_KEYS, us);
  }

  /**
   * Wherever the append falls among the updates, shadow and server end up with
   * the element holding data merged with every update in order.
   */
  lemma EarlyUpdateConfluence(o: Options, s: Sys, kind: string, data: Data, id: string, us: seq<Data>, i: nat)
    requires Clean(s) && !s.c.isSealed && |s.c.mirror| < MAX_ELEMENTS
    requires ExplicitId(data) == Some(id) && id != "" && !ElementIds.IsFooterId(id)
    requires !HasId(s.c.mirror, id) && id !in s.c.cardIds && id !in s.c.pending
    requires i <= |us|
    ensures var r := RunAll(o, s, Interleaved(kind, data, id, us, i));
            var elem := Elem(kind, id, Fold(data - ENVELOPE_KEYS, us));
            && r.c.mirror == s.c.mirror + [elem]
            && Live(r.w, r.c.messageId)
            && r.w.messages[r.c.messageId.value].card.elements == s.c.mirror + [elem]
  {
    hide Perform, Fold, Clean;
    var early, late := Updates(id, us[..i]), Updates(id, us[i..]);
    var append := AppendOf(kind, data);
    RunConcat(o, s, early, [append] + late);
    var s1 := RunAll(o, s, early);
    RunConcat(o, s1, [append], late);
    UpToAppend(o, s, kind, data, id, us[..i]);
    var s2 := RunAll(o, s1, [append]);
    var k := |s.c.mirror|;
    UniqueIndex(s2, k, id);
    LateUpdates(o, s2, id, us[i..]);
    FoldConcat(data - ENVELOPE_KEYS, us[..i], us[i..]);
    assert us[..i] + us[i..] == us;
    var r := RunAll(o, s2, late);
    assert r.c.mirror == s.c.mirror + [Elem(kind, id, Fold(data - ENVELOPE_KEYS, us))];
    CleanServer(r);
  }

  lemma CleanServer(s: Sys)
    requires Clean(s) && !s.c.isSealed && s.c.mirror != []
    ensures Live(s.w, s.c.messageId) && s.w.messages[s.c.messageId.value].card.elements == s.c.mirror
  {
  }

  lemma UniqueIndex(s: Sys, k: nat, id: string)
    requires Clean(s) && k < |s.c.mirror| && s.c.mirror[k].id == id
    ensures IndexOf(s.c.mirror, id) == k && HasId(s.c.mirror, id)
  {
    HasIdAt(s.c.mirror, k);
  }
}
