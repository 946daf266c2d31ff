// The replay buffer of a client key: a ring of fixed size that denotes the last
// pushes, and the promise a resuming client gets from it.

module DispatchBuffer {
  import opened Prelude

  const BUFFER_SIZE := 1000

  datatype Msg = Msg(seqNo: int, data: seq<int>)

  // ------------------------------------------------------------- reference

  /** The last n of ms. */
  function LastOf(ms: seq<Msg>, n: nat): seq<Msg> {
    if |ms| <= n then ms else ms[|ms| - n..]
  }

  function Copies(m: Msg, n: nat): (ms: seq<Msg>)
    ensures |ms| == n && forall i :: 0 <= i < n ==> ms[i] == m
  {
    seq(n, _ => m)
  }

  /** Cutting to the last ones early makes no difference. */
  lemma LastOfLast(ms: seq<Msg>, more: seq<Msg>)
    ensures LastOf(LastOf(ms, BUFFER_SIZE) + more, BUFFER_SIZE) == LastOf(ms + more, BUFFER_SIZE)
  {
  }

  /** The data of the messages with a seq above afterSeq, in order. */
  function After(ms: seq<Msg>, afterSeq: int): seq<seq<int>> {
    if ms == [] then []
    else
      var rest := After(ms[..|ms| - 1], afterSeq);
      if ms[|ms| - 1].seqNo > afterSeq then rest + [ms[|ms| - 1].data] else rest
  }

  // ------------------------------------------------------------------ ring

  /** The cell i places after head, wrapped around. */
  function Slot(head: nat, i: nat): (k: nat)
    ensures k < BUFFER_SIZE
  {
    (head + i) % BUFFER_SIZE
  }

  /** The count oldest entries, the oldest at head. */
  function Read(cells: seq<Msg>, head: nat, count: nat): (ms: seq<Msg>)
    requires |cells| == BUFFER_SIZE
    ensures |ms| == count
  {
    seq(count, i requires 0 <= i < count => cells[Slot(head, i)])
  }

  lemma ReadWithRoom(cells: seq<Msg>, head: nat, count: nat, m: Msg)
    requires |cells| == BUFFER_SIZE && head < BUFFER_SIZE && count < BUFFER_SIZE
    ensures Read(cells[Slot(head, count) := m], head, count + 1) == Read(cells, head, count) + [m]
  {
    forall i: nat | i < count ensures Slot(head, i) != Slot(head, count) {
    }
  }

  lemma SlotShift(head: nat, i: nat)
    requires head < BUFFER_SIZE && i < BUFFER_SIZE
    ensures Slot(Slot(head, 1), i) == Slot(head, i + 1)
    ensures i < BUFFER_SIZE - 1 <==> Slot(head, i + 1) != head
  {
  }

  lemma ReadWhenFull(cells: seq<Msg>, head: nat, m: Msg)
    requires |cells| == BUFFER_SIZE && head < BUFFER_SIZE
    ensures Read(cells[head := m], Slot(head, 1), BUFFER_SIZE) == Read(cells, head, BUFFER_SIZE)[1..] + [m]
  {
    var shifted := Read(cells[head := m], Slot(head, 1), BUFFER_SIZE);
    var expected := Read(cells, head, BUFFER_SIZE)[1..] + [m];
    forall i | 0 <= i < BUFFER_SIZE ensures shifted[i] == expected[i] {
      SlotShift(head, i);
    }
  }

  class Ring {
    const msgs: array<Msg>
    var head: nat
    var count: nat

    ghost predicate Valid()
      reads this
    {
      msgs.Length == BUFFER_SIZE && head < BUFFER_SIZE && count <= BUFFER_SIZE
    }

    ghost function Contents(): (ms: seq<Msg>)
      requires Valid()
      reads this, msgs
      ensures |ms| == count
    {
      Read(msgs[..], head, count)
    }

    constructor ()
      ensures Valid() && Contents() == [] && fresh(msgs)
    {
      msgs := new Msg[BUFFER_SIZE](_ => Msg(0, []));
      head := 0;
      count := 0;
    }

    method Push(seqNo: int, data: seq<int>)
      requires Valid()
      modifies this, msgs
      ensures Valid()
      ensures Contents() == LastOf(old(Contents()) + [Msg(seqNo, data)], BUFFER_SIZE)
    {
      hide Read;
      ghost var cells := msgs[..];
      var m := Msg(seqNo, data);
      var idx := (head + count) % BUFFER_SIZE;
      msgs[idx] := m;
      assert msgs[..] == cells[idx := m];
      if count < BUFFER_SIZE {
        ReadWithRoom(cells, head, count, m);
        count := count + 1;
      } else {
        ReadWhenFull(cells, head, m);
        head := (head + 1) % BUFFER_SIZE;
      }
    }

    method GetAfter(afterSeq: int) returns (result: seq<seq<int>>)
      requires Valid()
      ensures result == After(Contents(), afterSeq)
    {
      result := [];
      for i := 0 to count
        invariant result == After(Contents()[..i], afterSeq)
      {
        assert Contents()[..i + 1][..i] == Contents()[..i];
        var idx := (head + i) % BUFFER_SIZE;
        if msgs[idx].seqNo > afterSeq {
          result := result + [msgs[idx].data];
        }
      }
      assert Contents()[..count] == Contents();
    }
  }

  // ----------------------------------------------------- any number of pushes

  /** What the buffer denotes after these pushes, by the contract of Push. */
  function Pushed(ms: seq<Msg>): seq<Msg> {
    if ms == [] then [] else LastOf(Pushed(ms[..|ms| - 1]) + [ms[|ms| - 1]], BUFFER_SIZE)
  }

  lemma {:induction false} PushedIsLast(ms: seq<Msg>)
    ensures Pushed(ms) == LastOf(ms, 1000)
  {
    if ms != [] {
      PushedIsLast(ms[..|ms| - 1]);
      assert ms == ms[..|ms| - 1] + [ms[|ms| - 1]];
    }
  }

  // ------------------------------------------------------------------ replay

  function Data(ms: seq<Msg>): (d: seq<seq<int>>)
    ensures |d| == |ms|
  {
    seq(|ms|, i requires 0 <= i < |ms| => ms[i].data)
  }

  /** The client's running maximum of the seqs it has received. */
  function LastSeq(received: seq<Msg>, start: int): int {
    if received == [] then start
    else
      var before := LastSeq(received[..|received| - 1], start);
      if received[|received| - 1].seqNo > before then received[|received| - 1].seqNo else before
  }

  ghost predicate Nondecreasing(ms: seq<Msg>) {
    forall i, j :: 0 <= i < j < |ms| ==> ms[i].seqNo <= ms[j].seqNo
  }

  lemma {:induction false} AfterConcat(a: seq<Msg>, b: seq<Msg>, afterSeq: int)
    ensures After(a + b, afterSeq) == After(a, afterSeq) + After(b, afterSeq)
  {
    if b == [] {
      assert a + b == a;
    } else {
      assert (a + b)[..|a| + |b| - 1] == a + b[..|b| - 1];
      AfterConcat(a, b[..|b| - 1], afterSeq);
    }
  }

  lemma {:induction false} AfterAll(ms: seq<Msg>, afterSeq: int)
    requires forall i :: 0 <= i < |ms| ==> ms[i].seqNo > afterSeq
    ensures After(ms, afterSeq) == Data(ms)
  {
    if ms != [] {
      AfterAll(ms[..|ms| - 1], afterSeq);
      assert Data(ms) == Data(ms[..|ms| - 1]) + [ms[|ms| - 1].data];
    }
  }

  lemma {:induction false} AfterNone(ms: seq<Msg>, afterSeq: int)
    requires forall i :: 0 <= i < |ms| ==> ms[i].seqNo <= afterSeq
    ensures After(ms, afterSeq) == []
  {
    if ms != [] {
      AfterNone(ms[..|ms| - 1], afterSeq);
    }
  }

  lemma {:induction false} LastSeqBounds(received: seq<Msg>, start: int)
    ensures start <= LastSeq(received, start)
    ensures forall i :: 0 <= i < |received| ==> received[i].seqNo <= LastSeq(received, start)
  {
    if received != [] {
      LastSeqBounds(received[..|received| - 1], start);
    }
  }

  /**
   * A client that has received the first k of the pushed messages and resumes
   * with its running maximum gets exactly the others, in order.
   */
  lemma ResumeIsExact(ms: seq<Msg>, k: nat, start: int)
    requires Nondecreasing(ms) && k <= |ms|
    requires k < |ms| ==> LastSeq(ms[..k], start) < ms[k].seqNo
    requires |ms| - k <= 1000
    ensures Data(ms[..k]) + After(Pushed(ms), LastSeq(ms[..k], start)) == Data(ms)
  {
    var last := LastSeq(ms[..k], start);
    PushedIsLast(ms);
    LastSeqBounds(ms[..k], start);
    forall i | 0 <= i < k ensures ms[i].seqNo <= last {
      assert ms[..k][i] == ms[i];
    }
    AfterTail(ms, k, if |ms| <= BUFFER_SIZE then 0 else |ms| - BUFFER_SIZE, last);
    hide After, Pushed, LastSeq, Data;
    DataSplit(ms, k);
  }

  /** Of a window that reaches back to cut or further, what is above last starts at k. */
  lemma AfterTail(ms: seq<Msg>, k: nat, cut: nat, last: int)
    requires cut <= k <= |ms|
    requires forall i :: 0 <= i < k ==> ms[i].seqNo <= last
    requires forall i :: k <= i < |ms| ==> ms[i].seqNo > last
    ensures After(ms[cut..], last) == Data(ms[k..])
  {
    hide After, Data;
    assert ms[cut..] == ms[cut..k] + ms[k..];
    AfterConcat(ms[cut..k], ms[k..], last);
    AfterNone(ms[cut..k], last);
    AfterAll(ms[k..], last);
    assert [] + Data(ms[k..]) == Data(ms[k..]);
  }

  lemma DataSplit(ms: seq<Msg>, k: nat)
    requires k <= |ms|
    ensures Data(ms) == Data(ms[..k]) + Data(ms[k..])
  {
  }

  /** Exactly when a resume is complete, for seqs that rise strictly: nothing missing has been pushed out. */
  lemma ResumeIsExactIff(ms: seq<Msg>, k: nat, start: int)
    requires k <= |ms| && forall i, j :: 0 <= i < j < |ms| ==> ms[i].seqNo < ms[j].seqNo
    requires forall i :: 0 <= i < |ms| ==> ms[i].seqNo > start
    ensures Data(ms[..k]) + After(Pushed(ms), LastSeq(ms[..k], start)) == Data(ms) <==> |ms| - k <= 1000
  {
    LastSeqAtMost(ms[..k], start, if k == 0 then start else ms[k - 1].seqNo);
    if |ms| - k <= BUFFER_SIZE {
      ResumeIsExact(ms, k, start);
    } else {
      PushedIsLast(ms);
      AfterLength(Pushed(ms), LastSeq(ms[..k], start));
    }
  }

  lemma {:induction false} LastSeqAtMost(received: seq<Msg>, start: int, bound: int)
    requires start <= bound && forall i :: 0 <= i < |received| ==> received[i].seqNo <= bound
    ensures LastSeq(received, start) <= bound
  {
    if received != [] {
      LastSeqAtMost(received[..|received| - 1], start, bound);
    }
  }

  lemma {:induction false} AfterLength(ms: seq<Msg>, afterSeq: int)
    ensures |After(ms, afterSeq)| <= |ms|
  {
    if ms != [] {
      AfterLength(ms[..|ms| - 1], afterSeq);
    }
  }
}
