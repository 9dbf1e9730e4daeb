/** internal/utils/commit_queue.go: slots are reserved in input order, completed in any
  * order and written in reservation order.
  *
  * The definition is a plain list indexed by token, without queue, head or compaction.
  */
module CommitQueues {

  datatype Slot<T> = Slot(value: T, ready: bool)

  // ---- the definition ----

  datatype Op<T> =
    | Reserve
    | ReserveWith(value: T)
    | PushReady(value: T)
    | Commit(token: nat, value: T)
    | Drain

  /** A token can be committed once, and only if it was given out. */
  predicate Accepts<T>(slots: seq<Slot<T>>, token: nat) {
    token < |slots| && !slots[token].ready
  }

  function Applied<T>(slots: seq<Slot<T>>, op: Op<T>, zero: T): seq<Slot<T>> {
    match op
    case Reserve => slots + [Slot(zero, false)]
    case ReserveWith(v) => slots + [Slot(v, false)]
    case PushReady(v) => slots + [Slot(v, true)]
    case Commit(token, v) => if Accepts(slots, token) then slots[token := Slot(v, true)] else slots
    case Drain => slots
  }

  function AllApplied<T>(slots: seq<Slot<T>>, ops: seq<Op<T>>, zero: T): seq<Slot<T>>
    decreases |ops|
  {
    if ops == [] then slots else Applied(AllApplied(slots, ops[..|ops| - 1], zero), ops[|ops| - 1], zero)
  }

  function Values<T>(slots: seq<Slot<T>>): (r: seq<T>)
    ensures |r| == |slots|
  {
    seq(|slots|, i requires 0 <= i < |slots| => slots[i].value)
  }

  /** How many slots at the front are complete. */
  function ReadyPrefix<T>(slots: seq<Slot<T>>): (n: nat)
    ensures n <= |slots|
    ensures forall i :: 0 <= i < n ==> slots[i].ready
    ensures n < |slots| ==> !slots[n].ready
  {
    if slots == [] || !slots[0].ready then 0 else 1 + ReadyPrefix(slots[1..])
  }

  lemma ReadyPrefixIs<T>(slots: seq<Slot<T>>, n: nat)
    requires n <= |slots| && (forall i :: 0 <= i < n ==> slots[i].ready)
    ensures n <= ReadyPrefix(slots)
    ensures n == |slots| || !slots[n].ready ==> ReadyPrefix(slots) == n
  {
  }

  /** What is complete stays as it is. */
  ghost predicate Grows<T>(before: seq<Slot<T>>, after: seq<Slot<T>>) {
    && |before| <= |after|
    && forall t {:trigger before[t]} {:trigger after[t]} :: 0 <= t < |before| && before[t].ready ==>
      after[t] == before[t]
  }

  lemma AppliedGrows<T>(slots: seq<Slot<T>>, op: Op<T>, zero: T)
    ensures Grows(slots, Applied(slots, op, zero))
  {
  }

  /** What a run writes when every write succeeds grows with the run and never changes. */
  lemma {:induction false} OutputGrows<T>(slots: seq<Slot<T>>, ops: seq<Op<T>>, zero: T)
    ensures Grows(slots, AllApplied(slots, ops, zero))
    decreases |ops|
  {
    if ops != [] {
      var n := |ops| - 1;
      var middle, last := AllApplied(slots, ops[..n], zero), AllApplied(slots, ops, zero);
      OutputGrows(slots, ops[..n], zero);
      AppliedGrows(middle, ops[n], zero);
      forall t | 0 <= t < |slots| && slots[t].ready ensures last[t] == slots[t] {
        assert middle[t] == slots[t];
      }
    }
  }

  /** Commits of different tokens may come in either order. */
  lemma CommitsCommute<T>(slots: seq<Slot<T>>, s: nat, v: T, t: nat, w: T, zero: T)
    requires s != t
    ensures Applied(Applied(slots, Commit(s, v), zero), Commit(t, w), zero)
      == Applied(Applied(slots, Commit(t, w), zero), Commit(s, v), zero)
  {
  }

  lemma ValuesSnoc<T>(slots: seq<Slot<T>>, i: nat, j: nat)
    requires i <= j < |slots|
    ensures Values(slots[i..j + 1]) == Values(slots[i..j]) + [slots[j].value]
  {
  }

  lemma ValuesJoin<T>(before: seq<Slot<T>>, after: seq<Slot<T>>, i: nat, j: nat)
    requires Grows(before, after) && i <= j <= |after| && i <= |before|
    requires forall t :: 0 <= t < i ==> before[t].ready
    ensures Values(before[..i]) + Values(after[i..j]) == Values(after[..j])
  {
  }

  // ---- a sink whose writes may fail ----

  class Writer<T> {
    const fails: nat -> bool
    var attempts: nat
    var out: seq<T>

    constructor (fails: nat -> bool)
      ensures out == [] && attempts == 0 && this.fails == fails
    {
      this.fails := fails;
      attempts, out := 0, [];
    }

    method Write(value: T) returns (ok: bool)
      modifies this
      ensures ok == !fails(old(attempts)) && attempts == old(attempts) + 1
      ensures out == if ok then old(out) + [value] else old(out)
    {
      ok := !fails(attempts);
      attempts := attempts + 1;
      if ok {
        out := out + [value];
      }
    }
  }

  // ---- the queue ----

  class CommitQueue<T> {
    const zero: T
    var slots: seq<Slot<T>>
    var head: nat
    var first: nat
    var next: nat

    /** Every slot ever reserved, by token; elements moved by compact so far. */
    ghost var all: seq<Slot<T>>
    ghost var copied: nat

    ghost predicate Tied()
      reads this
    {
      && head <= |slots| && first <= |all| == next && next - first == |slots| - head
      && slots[head..] == all[first..]
      && (forall t :: 0 <= t < first ==> all[t].ready)
      && copied <= first - head
    }

    /** At the boundaries of methods at most half of the slots is dead space. */
    ghost predicate Valid()
      reads this
    {
      Tied() && |slots| <= 2 * (|slots| - head) && head <= first
    }

    constructor (zero: T)
      ensures Valid() && all == [] && first == 0 && copied == 0 && this.zero == zero
    {
      this.zero := zero;
      slots, head, first, next := [], 0, 0, 0;
      all, copied := [], 0;
    }

    method Reserve() returns (token: nat)
      requires Valid()
      modifies this`slots, this`next, this`all
      ensures Valid() && token == |old(all)| && all == Applied(old(all), Op.Reserve, zero)
    {
      token := ReserveWith(zero);
    }

    method ReserveWith(value: T) returns (token: nat)
      requires Valid()
      modifies this`slots, this`next, this`all
      ensures Valid() && token == |old(all)| && all == Applied(old(all), Op.ReserveWith(value), zero)
    {
      token := next;
      next := next + 1;
      slots := slots + [Slot(value, false)];
      all := all + [Slot(value, false)];
    }

    method PushReady(value: T) returns (token: nat)
      requires Valid()
      modifies this`slots, this`next, this`all
      ensures Valid() && token == |old(all)| && all == Applied(old(all), Op.PushReady(value), zero)
    {
      token := Reserve();
      slots := slots[|slots| - 1 := Slot(value, true)];
      all := all[|all| - 1 := Slot(value, true)];
    }

    /** The value of a slot that is neither complete nor gone. */
    method Peek(token: nat) returns (ok: bool, value: T)
      requires Valid()
      ensures ok == Accepts(all, token)
      ensures value == if ok then all[token].value else zero
    {
      if token < first || token >= next {
        return false, zero;
      }
      var slot := slots[head + (token - first)];
      assert slot == slots[head..][token - first];
      if slot.ready {
        return false, zero;
      }
      return true, slot.value;
    }

    /** A stale, unknown or repeated token is refused and nothing changes. */
    method Commit(token: nat, value: T) returns (ok: bool)
      requires Valid()
      modifies this`slots, this`all
      ensures Valid() && ok == Accepts(old(all), token)
      ensures all == Applied(old(all), Op.Commit(token, value), zero)
      ensures !ok ==> slots == old(slots)
    {
      if token < first || token >= next {
        return false;
      }
      var i := head + (token - first);
      assert slots[i] == slots[head..][token - first];
      if slots[i].ready {
        return false;
      }
      slots := slots[i := Slot(value, true)];
      all := all[token := Slot(value, true)];
      return true;
    }

    /** Write the longest complete prefix, or stop at the first write that fails; what
      * failed stays in place for a retry. */
    method Drain(w: Writer<T>) returns (ok: bool)
      requires Valid()
      modifies this`slots, this`head, this`first, this`copied, w
      ensures Valid() && all == old(all)
      ensures old(first) <= first && w.out == old(w.out) + Values(all[old(first)..first])
      ensures ok ==> first == ReadyPrefix(all)
      ensures !ok ==> first < ReadyPrefix(all) && 0 < w.attempts && w.fails(w.attempts - 1)
    {
      assert all[first..first] == [];
      while head < |slots| && slots[head].ready
        invariant Tied() && head <= first
        invariant old(first) <= first && w.out == old(w.out) + Values(all[old(first)..first])
        decreases |slots| - head
      {
        assert slots[head] == slots[head..][0];
        ok := w.Write(slots[head].value);
        if !ok {
          ReadyPrefixIs(all, first + 1);
          Compact();
          return false;
        }
        ValuesSnoc(all, old(first), first);
        Drop();
      }
      assert head < |slots| ==> slots[head] == slots[head..][0];
      ReadyPrefixIs(all, first);
      Compact();
      return true;
    }

    /** The slot at the head has been written. */
    method Drop()
      requires Tied() && head <= first && head < |slots| && slots[head].ready
      modifies this`slots, this`head, this`first
      ensures Tied() && |slots| == old(|slots|) && head == old(head) + 1 && first == old(first) + 1
    {
      assert slots[head] == slots[head..][0];
      slots := slots[head := Slot(zero, true)];
      head, first := head + 1, first + 1;
    }

    method Len() returns (n: nat)
      requires Valid()
      ensures n == |all| - first
    {
      n := |slots| - head;
    }

    /** Each element that is moved has a drained one to pay for it. */
    method Compact()
      requires Tied() && head <= first
      modifies this`slots, this`head, this`copied
      ensures Valid()
    {
      if head == 0 {
        return;
      }
      if head == |slots| {
        slots, head := [], 0;
        return;
      }
      if head * 2 < |slots| {
        return;
      }
      copied := copied + (|slots| - head);
      slots, head := slots[head..], 0;
    }
  }

  // ---- whole runs ----

  /** What was written is the slots that have left the queue. */
  ghost predicate Follows<T>(q: CommitQueue<T>, w: Writer<T>)
    reads q, w
  {
    q.Valid() && w.out == Values(q.all[..q.first])
  }

  predicate Done<T>(op: Op<T>, ok: bool) {
    op.Drain? && ok
  }

  method Perform<T>(q: CommitQueue<T>, w: Writer<T>, op: Op<T>) returns (ok: bool)
    requires Follows(q, w)
    modifies q, w
    ensures Follows(q, w) && q.all == Applied(old(q.all), op, q.zero) && old(q.first) <= q.first
    ensures Done(op, ok) ==> q.first == ReadyPrefix(q.all)
    ensures op.Commit? ==> ok == Accepts(old(q.all), op.token)
    ensures op.Drain? && !ok ==> q.first < ReadyPrefix(q.all) && 0 < w.attempts && w.fails(w.attempts - 1)
  {
    ok := true;
    AppliedGrows(q.all, op, q.zero);
    ghost var before, i := q.all, q.first;
    match op {
      case Reserve => var _ := q.Reserve();
      case ReserveWith(v) => var _ := q.ReserveWith(v);
      case PushReady(v) => var _ := q.PushReady(v);
      case Commit(token, v) => ok := q.Commit(token, v);
      case Drain => ok := q.Drain(w);
    }
    ValuesJoin(before, q.all, i, q.first);
    assert q.all[i..i] == [];
  }

  ghost predicate NeverFails(fails: nat -> bool) {
    forall n :: !fails(n)
  }

  /** Any order of calls, with any writes failing: the slots are those of the plain list, and
    * what was written is a prefix of the complete ones in reservation order, each once. When
    * the run ends with a drain that succeeds it is all of them. */
  method RunAll<T>(zero: T, fails: nat -> bool, ops: seq<Op<T>>) returns (out: seq<T>, drained: bool, ghost moved: nat)
    ensures var all := AllApplied([], ops, zero);
      && |out| <= ReadyPrefix(all) && out == Values(all[..|out|])
      && (drained ==> |out| == ReadyPrefix(all))
      && moved <= |out|
    ensures ops != [] && ops[|ops| - 1].Drain? && NeverFails(fails) ==> drained
  {
    var q := new CommitQueue<T>(zero);
    var w := new Writer<T>(fails);
    drained := false;
    for i := 0 to |ops|
      invariant Follows(q, w) && q.zero == zero && fresh(q) && fresh(w) && w.fails == fails
      invariant q.all == AllApplied([], ops[..i], zero)
      invariant drained ==> q.first == ReadyPrefix(q.all)
      invariant i > 0 && ops[i - 1].Drain? && NeverFails(fails) ==> drained
    {
      assert ops[..i + 1][..i] == ops[..i];
      var ok := Perform(q, w, ops[i]);
      drained := ok && ops[i].Drain?;
    }
    assert ops[..|ops|] == ops;
    out, moved := w.out, q.copied;
    ReadyPrefixIs(q.all, q.first);
  }
}
