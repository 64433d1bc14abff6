/** Two bounded message buffers.

    The bridge's is circular: a new message overwrites the oldest in place. The
    connector's shifts its elements down to make room at the end. Both keep the
    last messages in order. */
module Buffers {
  import opened Seqs

  /** The messages a ring holds, oldest first. */
  function RingView<T>(cells: seq<T>, head: nat, size: nat): seq<T>
    requires head < |cells| && size <= |cells|
  {
    if size < |cells| then cells[..size] else cells[head..] + cells[..head]
  }

  predicate RingOk<T>(cells: seq<T>, head: nat, size: nat) {
    head < |cells| && size <= |cells| && (size < |cells| ==> head == size)
  }

  function NextHead(head: nat, cap: nat): (r: nat)
    requires head < cap
    ensures r == (head + 1) % cap
  {
    if head + 1 == cap then 0 else head + 1
  }

  lemma RingPush<T>(cells: seq<T>, head: nat, size: nat, m: T)
    requires RingOk(cells, head, size)
    ensures
      var cells' := cells[head := m];
      var size' := if size < |cells| then size + 1 else size;
      var head' := NextHead(head, |cells|);
      && RingOk(cells', head', size')
      && RingView(cells', head', size') == LastN(RingView(cells, head, size) + [m], |cells|)
  {
    var cells' := cells[head := m];
    var before := RingView(cells, head, size);
    if size < |cells| {
      assert cells'[..size + 1] == before + [m];
      if size + 1 == |cells| {
        assert cells'[0..] + cells'[..0] == before + [m];
      }
    } else if head + 1 < |cells| {
      assert (before + [m])[1..] == cells[head + 1..] + cells[..head] + [m];
      assert cells'[head + 1..] + cells'[..head + 1] == cells[head + 1..] + (cells[..head] + [m]);
    } else {
      assert (before + [m])[1..] == cells[..head] + [m];
      assert cells'[0..] + cells'[..0] == cells[..head] + [m];
    }
  }

  class RingBuf<T(0)> {
    var msgs: array<T>
    var head: nat
    var size: nat

    ghost predicate Valid()
      reads this, msgs
    {
      RingOk(msgs[..], head, size)
    }

    ghost function Contents(): seq<T>
      requires Valid()
      reads this, msgs
    {
      RingView(msgs[..], head, size)
    }

    constructor (cap: nat)
      requires cap > 0
      ensures Valid() && fresh(msgs) && msgs.Length == cap && Contents() == []
    {
      msgs := new T[cap];
      head, size := 0, 0;
    }

    method Push(m: T)
      requires Valid()
      modifies this, msgs
      ensures Valid() && msgs == old(msgs)
      ensures Contents() == LastN(old(Contents()) + [m], msgs.Length)
    {
      RingPush(msgs[..], head, size, m);
      hide RingView, RingOk, LastN;
      ghost var cells := msgs[..];
      msgs[head] := m;
      assert msgs[..] == cells[head := m];
      head := (head + 1) % msgs.Length;
      if size < msgs.Length {
        size := size + 1;
      }
    }

    method Snapshot() returns (out: seq<T>)
      requires Valid()
      ensures out == Contents()
    {
      if size == 0 {
        return [];
      }
      var copied := new T[size];
      if size < msgs.Length {
        forall k | 0 <= k < size {
          copied[k] := msgs[k];
        }
      } else {
        var n := msgs.Length - head;
        forall k | 0 <= k < n {
          copied[k] := msgs[head + k];
        }
        forall k | 0 <= k < head {
          copied[n + k] := msgs[k];
        }
      }
      out := copied[..];
    }
  }

  class ShiftBuf<T(0)> {
    const data: array<T>
    var len: nat

    ghost predicate Valid()
      reads this
    {
      0 < data.Length && len <= data.Length
    }

    ghost function Contents(): seq<T>
      requires Valid()
      reads this, data
    {
      data[..len]
    }

    constructor (cap: nat)
      requires cap > 0
      ensures Valid() && fresh(data) && data.Length == cap && Contents() == []
    {
      data := new T[cap];
      len := 0;
    }

    /** Every message one place down; the first is gone. */
    method ShiftDown()
      requires data.Length > 0
      modifies data
      ensures forall k | 0 <= k < data.Length - 1 :: data[k] == old(data[k + 1])
    {
      for i := 1 to data.Length
        invariant forall k | 0 <= k < i - 1 :: data[k] == old(data[k + 1])
        invariant forall k | i - 1 <= k < data.Length :: data[k] == old(data[k])
      {
        data[i - 1] := data[i];
      }
    }

    /** appendMessage: when full, shift everything down by one first. */
    method Append(m: T)
      requires Valid()
      modifies this, data
      ensures Valid()
      ensures Contents() == LastN(old(Contents()) + [m], data.Length)
    {
      ghost var before := Contents();
      if len == data.Length {
        ShiftDown();
        len := len - 1;
        assert data[..len] == before[1..];
      }
      assert data[..len] + [m] == LastN(before + [m], data.Length);
      data[len] := m;
      len := len + 1;
      assert data[..len] == data[..len - 1] + [m];
    }
  }

  /** What pushing a whole history, one message at a time, leaves in a buffer whose
      every push keeps the last cap of what it held and the new message. */
  function PushAll<T>(history: seq<T>, cap: nat): seq<T> {
    if history == [] then []
    else LastN(PushAll(history[..|history| - 1], cap) + [history[|history| - 1]], cap)
  }

  /** It is the last cap messages of the history, in order. */
  lemma {:induction false} PushAllKeepsLast<T>(history: seq<T>, cap: nat)
    ensures PushAll(history, cap) == LastN(history, cap)
  {
    if history != [] {
      var init := history[..|history| - 1];
      PushAllKeepsLast(init, cap);
      LastNAppend(init, history[|history| - 1], cap);
      assert history == init + [history[|history| - 1]];
    }
  }

  /** One history through both buffers, and what they then hold. */
  method PushBoth<T(0)>(history: seq<T>, cap: nat) returns (ringed: seq<T>, shifted: seq<T>)
    requires cap > 0
    ensures ringed == LastN(history, cap) && shifted == ringed
  {
    var ring := new RingBuf(cap);
    var shift := new ShiftBuf(cap);
    for i := 0 to |history|
      invariant ring.Valid() && shift.Valid() && fresh(ring) && fresh(shift) && fresh(ring.msgs) && fresh(shift.data)
      invariant ring.msgs != shift.data && ring.msgs.Length == shift.data.Length == cap
      invariant ring.Contents() == shift.Contents() == PushAll(history[..i], cap)
    {
      assert history[..i + 1][..i] == history[..i];
      ring.Push(history[i]);
      shift.Append(history[i]);
    }
    assert history[..|history|] == history;
    PushAllKeepsLast(history, cap);
    ringed := ring.Snapshot();
    shifted := shift.data[..shift.len];
  }
}
