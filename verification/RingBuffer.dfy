/** The fixed ring buffer of a channel, a first-in first-out queue of bounded length. */
module RingBuffers {
  import opened Common

  /** The slot of the i-th buffered value. */
  function Slot(head: nat, i: nat, size: nat): nat
    requires head < size && i <= size
  {
    if head + i < size then head + i else head + i - size
  }

  lemma DivOne(a: nat, n: nat)
    requires n > 0 && n <= a < 2 * n
    ensures a / n == 1
  {
    var q := a / n;
    assert n * q <= a < n * q + n;
    assert q >= 2 ==> n * q >= n * 2;
  }

  lemma SlotIsModulo(head: nat, i: nat, size: nat)
    requires head < size && i <= size
    ensures (head + i) % size == Slot(head, i, size)
  {
    if head + i >= size { DivOne(head + i, size); }
  }

  class Ring<V(0)> {
    var buf: array<V>
    var head: nat
    var count: nat

    ghost predicate Valid()
      reads this
    {
      count <= buf.Length && (buf.Length > 0 ==> head < buf.Length)
    }

    ghost function Contents(): seq<V>
      reads this, buf
      requires Valid()
    {
      seq(count, i requires 0 <= i < count && Valid() reads this, buf => buf[Slot(head, i, buf.Length)])
    }

    constructor (size: nat)
      ensures Valid() && Contents() == [] && buf.Length == size && fresh(buf)
    {
      buf := new V[size];
      head, count := 0, 0;
    }

    /** chan_put_to_buffer: fails exactly when the buffer is full (always, when unbuffered). */
    method Put(v: V) returns (ok: bool)
      requires Valid()
      modifies this`count, buf
      ensures Valid() && ok == (|old(Contents())| < buf.Length)
      ensures Contents() == if ok then old(Contents()) + [v] else old(Contents())
    {
      if count >= buf.Length { return false; }
      SlotIsModulo(head, count, buf.Length);
      var tail := (head + count) % buf.Length;
      buf[tail] := v;
      count := count + 1;
      ok := true;
      assert Contents() == old(Contents()) + [v];
    }

    /** chan_take_from_buffer: the oldest value, if any. */
    method Take() returns (r: Option<V>)
      requires Valid()
      modifies this`head, this`count
      ensures Valid()
      ensures old(Contents()) == [] ==> r == None && Contents() == []
      ensures old(Contents()) != [] ==> r == Some(old(Contents())[0]) && Contents() == old(Contents())[1..]
    {
      if count == 0 { return None; }
      r := Some(buf[head]);
      SlotIsModulo(head, 1, buf.Length);
      head := (head + 1) % buf.Length;
      count := count - 1;
      assert Contents() == old(Contents())[1..];
    }
  }
}
