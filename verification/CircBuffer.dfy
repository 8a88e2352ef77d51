/**
 The growable ring buffer of libpurple/circbuffer.c.

 `inptr` and `outptr` are kept as offsets from `buffer`, so a buffer that was never allocated (all three pointers
 NULL) is the zero-length array with both offsets 0. The consumer copies bytes out at `outptr` itself, then calls
 `MarkRead`.
*/
module CircBuffer {

  newtype byte = b: int | 0 <= b < 0x100

  const DEFAULT_BUF_SIZE: nat := 256

  // ---------------------------------------------------------------- offsets

  /** The part of a ring that decides where bytes go: everything but the bytes. */
  datatype Offsets = Offsets(inOff: nat, outOff: nat, used: nat, buflen: nat)

  /** in = out + used modulo buflen, with both offsets inside the allocation. */
  predicate Congruent(o: Offsets) {
    && o.used <= o.buflen
    && o.inOff <= o.buflen
    && (o.outOff < o.buflen || o.outOff == o.buflen == 0)
    && (o.inOff == o.outOff + o.used
        || o.inOff + o.buflen == o.outOff + o.used
        || Stale(o))
  }

  /** Filled up to exactly the last byte and then drained: `outptr` wrapped, `inptr` did not. */
  predicate Stale(o: Offsets) {
    o.inOff == o.buflen > 0 && o.outOff == 0 && o.used == 0
  }

  predicate Grows(o: Offsets, len: nat)
    requires o.used <= o.buflen
  {
    o.buflen - o.used < len
  }

  /** `n` is `from` plus some number of `growsize` steps. */
  predicate Steps(from: nat, growsize: nat, n: nat)
    requires growsize > 0
    decreases n
  {
    n == from || (n >= from + growsize && Steps(from, growsize, n - growsize))
  }

  /** The buffer length after an append of `len` bytes has made room for itself. */
  function NewLength(o: Offsets, len: nat, growsize: nat): (n: nat)
    requires o.used <= o.buflen && growsize > 0
    ensures n >= o.buflen && n - o.used >= len
    decreases len + o.used - o.buflen
  {
    if Grows(o, len) then NewLength(o.(buflen := o.buflen + growsize), len, growsize) else o.buflen
  }

  /** The new length has room, is reached in `growsize` steps, and one step fewer would not do. */
  lemma {:induction false} NewLengthIsLeast(o: Offsets, len: nat, growsize: nat)
    requires o.used <= o.buflen && growsize > 0
    ensures var n := NewLength(o, len, growsize);
            && Steps(o.buflen, growsize, n)
            && (Grows(o, len) ==> n - growsize - o.used < len)
    ensures forall m: nat :: Steps(o.buflen, growsize, m) && m - o.used >= len ==> m >= NewLength(o, len, growsize)
    decreases len + o.used - o.buflen
  {
    if Grows(o, len) {
      var o' := o.(buflen := o.buflen + growsize);
      NewLengthIsLeast(o', len, growsize);
      StepsFromNext(o.buflen, growsize, NewLength(o, len, growsize));
      forall m: nat | Steps(o.buflen, growsize, m) && m - o.used >= len ensures m >= NewLength(o, len, growsize) {
        StepsFromNext(o.buflen, growsize, m);
      }
    } else {
      forall m: nat | Steps(o.buflen, growsize, m) ensures m >= o.buflen {
      }
    }
  }

  lemma {:induction false} StepsFromNext(from: nat, growsize: nat, n: nat)
    requires growsize > 0 && n != from
    ensures Steps(from, growsize, n) <==> Steps(from + growsize, growsize, n)
    decreases n
  {
    if n >= from + 2 * growsize {
      StepsFromNext(from, growsize, n - growsize);
    } else if n >= growsize && n - growsize > from {
      assert !Steps(from, growsize, n - growsize);
    }
  }

  function Min(a: nat, b: nat): nat { if a < b then a else b }

  /** Where `grow_circ_buffer` leaves the offsets once the buffer is `n` bytes long, if it runs at all. */
  function Regrown(o: Offsets, n: nat): Offsets
    requires o.buflen <= n
  {
    if n == o.buflen then o
    else if o.inOff < o.outOff || (o.inOff == o.outOff && o.used > 0) then
      var shift := Min(n - o.buflen, o.inOff);
      Offsets(if shift < o.inOff then o.inOff - shift else o.buflen + o.inOff, o.outOff, o.used, n)
    else
      o.(buflen := n)
  }

  /** How much of an append goes in before the buffer's end. */
  function FirstPart(o: Offsets, len: nat): nat
    requires o.inOff <= o.buflen
  {
    if o.inOff >= o.outOff then Min(len, o.buflen - o.inOff) else len
  }

  function Filled(o: Offsets, len: nat): Offsets
    requires o.inOff <= o.buflen
  {
    var stored := FirstPart(o, len);
    o.(inOff := if stored < len then len - stored else o.inOff + stored, used := o.used + len)
  }

  function MaxRead(o: Offsets): nat
    requires o.outOff <= o.buflen
  {
    if o.used == 0 then 0
    else if o.outOff >= o.inOff then o.buflen - o.outOff
    else o.inOff - o.outOff
  }

  function Taken(o: Offsets, len: nat): Offsets
    requires len <= o.used
  {
    var out := o.outOff + len;
    o.(outOff := if out == o.buflen then 0 else out, used := o.used - len)
  }

  /**
   Appending `len` bytes keeps in = out + used modulo buflen if and only if it is not a growing append from the stale
   state.
  */
  lemma AppendKeepsCongruenceExactly(o: Offsets, len: nat, growsize: nat, n: nat)
    requires growsize > 0 && Congruent(o) && n == NewLength(o, len, growsize)
    ensures Congruent(Filled(Regrown(o, n), len)) <==> !(Stale(o) && Grows(o, len))
  {
    var g := Regrown(o, n);
    if Stale(o) && Grows(o, len) {
      assert g == o.(buflen := n);
      assert n > o.buflen;
    }
  }

  /** Filling 4 of 4 bytes and draining them is stale; appending 5 more then puts `inptr` at 1, not at 5. */
  lemma StaleGrowthExample()
    ensures Filled(Regrown(Offsets(0, 0, 0, 0), 4), 4) == Offsets(4, 0, 4, 4)
    ensures Taken(Offsets(4, 0, 4, 4), 4) == Offsets(4, 0, 0, 4)
    ensures Congruent(Offsets(4, 0, 0, 4)) && Stale(Offsets(4, 0, 0, 4))
    ensures Filled(Regrown(Offsets(4, 0, 0, 4), 8), 5) == Offsets(1, 0, 5, 8)
    ensures !Congruent(Offsets(1, 0, 5, 8))
  {
  }

  /**
   Every non-empty buffer offers at least one and at most `used` contiguous bytes, and reading the maximum twice
   empties it.
  */
  lemma TwoReadsDrain(o: Offsets)
    requires Congruent(o) && o.used > 0
    ensures 1 <= MaxRead(o) <= o.used
    ensures Congruent(Taken(o, MaxRead(o)))
    ensures var o1 := Taken(o, MaxRead(o));
            MaxRead(o1) == o1.used && Taken(o1, MaxRead(o1)).used == 0
  {
  }

  // ------------------------------------------------------------------ bytes

  /** The index in memory of the i-th unread byte. */
  function Slot(outOff: nat, buflen: nat, i: nat): int {
    if outOff + i < buflen then outOff + i else outOff + i - buflen
  }

  /** The unread bytes of a memory, oldest first. */
  ghost function Unread(mem: seq<byte>, o: Offsets): (s: seq<byte>)
    requires Congruent(o) && |mem| == o.buflen
    ensures |s| == o.used
    ensures forall i :: 0 <= i < o.used ==> s[i] == mem[Slot(o.outOff, o.buflen, i)]
  {
    if o.outOff + o.used <= o.buflen then mem[o.outOff..o.outOff + o.used]
    else mem[o.outOff..] + mem[..o.outOff + o.used - o.buflen]
  }

  /** `grown` is what the realloc, the memcpy and the memmove of a growing buffer make of `mem`. */
  ghost predicate Moved(mem: seq<byte>, grown: seq<byte>, o: Offsets)
    requires |mem| == o.buflen <= |grown| && o.inOff <= o.buflen
  {
    if o.inOff < o.outOff || (o.inOff == o.outOff && o.used > 0) then
      var shift := Min(|grown| - o.buflen, o.inOff);
      && (forall j :: o.buflen <= j < o.buflen + shift ==> grown[j] == mem[j - o.buflen])
      && (forall i :: 0 <= i < o.inOff - shift ==> grown[i] == mem[shift + i])
      && (forall i :: o.inOff <= i < o.buflen ==> grown[i] == mem[i])
    else
      forall i :: 0 <= i < o.buflen ==> grown[i] == mem[i]
  }

  lemma ShiftedMoves(mem: seq<byte>, grown: seq<byte>, o: Offsets, shift: nat)
    requires o.inOff <= o.buflen == |mem| <= |grown| && shift == Min(|grown| - o.buflen, o.inOff)
    requires o.inOff < o.outOff || (o.inOff == o.outOff && o.used > 0)
    requires forall j :: 0 <= j < o.inOff - shift ==> grown[j] == mem[shift + j]
    requires forall j :: o.inOff <= j < o.buflen ==> grown[j] == mem[j]
    requires forall j :: o.buflen <= j < o.buflen + shift ==> grown[j] == mem[j - o.buflen]
    ensures Moved(mem, grown, o)
  {
  }

  lemma MovedAt(mem: seq<byte>, grown: seq<byte>, o: Offsets, i: nat)
    requires Congruent(o) && |mem| == o.buflen <= |grown| && i < o.used
    requires Moved(mem, grown, o) && o.buflen < |grown| && !Stale(o)
    ensures Congruent(Regrown(o, |grown|))
    ensures grown[Slot(o.outOff, |grown|, i)] == mem[Slot(o.outOff, o.buflen, i)]
  {
    var p, shift := Slot(o.outOff, o.buflen, i), Min(|grown| - o.buflen, o.inOff);
    if o.outOff + i < o.buflen {
    } else if p < shift {
      assert grown[o.buflen + p] == mem[p];
    } else {
      assert grown[p - shift] == mem[shift + (p - shift)];
    }
  }

  lemma MovedKeepsUnread(mem: seq<byte>, grown: seq<byte>, o: Offsets)
    requires Congruent(o) && |mem| == o.buflen <= |grown|
    requires Moved(mem, grown, o) && o.buflen < |grown| && !Stale(o)
    ensures Congruent(Regrown(o, |grown|))
    ensures Unread(grown, Regrown(o, |grown|)) == Unread(mem, o)
  {
    var g := Regrown(o, |grown|);
    assert Congruent(g);
    var a, b := Unread(mem, o), Unread(grown, g);
    forall i | 0 <= i < o.used ensures a[i] == b[i] {
      MovedAt(mem, grown, o, i);
    }
  }

  /** `next` is `mem` with `src` copied in at `inptr`, the rest of it at the front. */
  ghost predicate Stored(mem: seq<byte>, next: seq<byte>, o: Offsets, src: seq<byte>)
    requires |mem| == |next| == o.buflen && o.inOff <= o.buflen
    requires |src| <= o.buflen - o.used && o.used <= o.buflen
    requires o.inOff < o.outOff ==> o.inOff + |src| <= o.buflen
  {
    var first := FirstPart(o, |src|);
    && (forall j :: o.inOff <= j < o.inOff + first ==> next[j] == src[j - o.inOff])
    && (forall j :: 0 <= j < |src| - first ==> next[j] == src[first + j])
    && (forall i :: 0 <= i < o.buflen && !(o.inOff <= i < o.inOff + first) && !(i < |src| - first)
          ==> next[i] == mem[i])
  }

  lemma StoredAt(mem: seq<byte>, next: seq<byte>, o: Offsets, src: seq<byte>, i: nat)
    requires Congruent(o) && |mem| == |next| == o.buflen
    requires |src| <= o.buflen - o.used && i < o.used + |src|
    requires Stored(mem, next, o, src)
    ensures var q := Slot(o.outOff, o.buflen, i);
            next[q] == if i < o.used then mem[q] else src[i - o.used]
  {
    var q := Slot(o.outOff, o.buflen, i);
    var first := FirstPart(o, |src|);
    if i < o.used {
      assert !(o.inOff <= q < o.inOff + first) && !(q < |src| - first);
    } else if i - o.used < first {
      assert q == o.inOff + (i - o.used);
    } else {
      assert q == i - o.used - first;
    }
  }

  lemma StoredAppends(mem: seq<byte>, next: seq<byte>, o: Offsets, src: seq<byte>)
    requires Congruent(o) && |mem| == |next| == o.buflen
    requires |src| <= o.buflen - o.used
    requires Stored(mem, next, o, src)
    ensures Congruent(Filled(o, |src|))
    ensures Unread(next, Filled(o, |src|)) == Unread(mem, o) + src
  {
    var f := Filled(o, |src|);
    assert Congruent(f);
    var a, b := Unread(mem, o) + src, Unread(next, f);
    forall i | 0 <= i < f.used ensures a[i] == b[i] {
      StoredAt(mem, next, o, src, i);
    }
  }

  lemma TakenDrops(mem: seq<byte>, o: Offsets, len: nat)
    requires Congruent(o) && |mem| == o.buflen && len <= MaxRead(o)
    ensures len <= o.used && Congruent(Taken(o, len))
    ensures Unread(mem, Taken(o, len)) == Unread(mem, o)[len..]
    ensures Unread(mem, o)[..len] + Unread(mem, Taken(o, len)) == Unread(mem, o)
    ensures o.outOff + len <= o.buflen && mem[o.outOff..o.outOff + len] == Unread(mem, o)[..len]
  {
    var t := Taken(o, len);
    var a, b := Unread(mem, o)[len..], Unread(mem, t);
    forall i | 0 <= i < t.used ensures a[i] == b[i] {
      assert Slot(t.outOff, t.buflen, i) == Slot(o.outOff, o.buflen, i + len);
    }
  }

  function Patched(mem: seq<byte>, to: nat, bytes: seq<byte>): (s: seq<byte>)
    requires to + |bytes| <= |mem|
    ensures |s| == |mem|
    ensures forall j :: 0 <= j < |mem| ==> s[j] == if to <= j < to + |bytes| then bytes[j - to] else mem[j]
  {
    mem[..to] + bytes + mem[to + |bytes|..]
  }

  /** memcpy: `bytes` is the source region. */
  method MemCopy(a: array<byte>, to: nat, bytes: seq<byte>)
    requires to + |bytes| <= a.Length
    modifies a
    ensures a[..] == Patched(old(a[..]), to, bytes)
  {
    forall i | 0 <= i < |bytes| { a[to + i] := bytes[i]; }
  }

  /** memcpy and memmove inside one allocation. */
  method MemMove(a: array<byte>, to: nat, from: nat, n: nat)
    requires to + n <= a.Length && from + n <= a.Length
    modifies a
    ensures forall j :: 0 <= j < a.Length ==> a[j] == old(a[if to <= j < to + n then j - to + from else j])
  {
    forall i | 0 <= i < n { a[to + i] := a[from + i]; }
  }

  // ------------------------------------------------------------- the buffer

  class CircBuffer {
    var buffer: array<byte>
    const growsize: nat
    var bufused: nat
    var inptr: nat
    var outptr: nat

    ghost function State(): Offsets
      reads this
    {
      Offsets(inptr, outptr, bufused, buffer.Length)
    }

    ghost predicate Valid()
      reads this
    {
      growsize > 0 && Congruent(State())
    }

    /** The unread bytes, oldest first. */
    ghost function Contents(): (s: seq<byte>)
      reads this, buffer
      requires Valid()
    {
      Unread(buffer[..], State())
    }

    constructor (size: nat)
      ensures Valid() && Contents() == [] && State() == Offsets(0, 0, 0, 0)
      ensures growsize == if size != 0 then size else DEFAULT_BUF_SIZE
      ensures fresh(buffer)
    {
      growsize := if size != 0 then size else DEFAULT_BUF_SIZE;
      buffer := new byte[0];
      bufused, inptr, outptr := 0, 0, 0;
    }

    method FindLength(len: nat) returns (n: nat)
      requires Valid()
      ensures n == NewLength(State(), len, growsize) && n >= buffer.Length
    {
      n := buffer.Length;
      while n - bufused < len
        invariant n >= buffer.Length
        invariant NewLength(State().(buflen := n), len, growsize) == NewLength(State(), len, growsize)
        decreases len + bufused - n
      {
        n := n + growsize;
      }
    }

    /** Growing keeps the unread bytes and their order in every layout but the stale one. */
    method Grow(len: nat)
      requires Valid() && Grows(State(), len)
      modifies this
      ensures growsize > 0 && fresh(buffer)
      ensures buffer.Length == NewLength(old(State()), len, growsize)
      ensures State() == Regrown(old(State()), buffer.Length)
      ensures !Stale(old(State())) ==> Valid() && Contents() == old(Contents())
    {
      hide Unread, Slot, Moved;
      ghost var o := State();
      ghost var mem := buffer[..];
      var n := FindLength(len);
      var grown := Moving(n);
      var start := buffer.Length;
      if inptr < outptr || (inptr == outptr && bufused > 0) {
        var shift := Min(n - start, inptr);
        inptr := if shift < inptr then inptr - shift else start + inptr;
      }
      buffer := grown;
      if !Stale(o) {
        MovedKeepsUnread(mem, buffer[..], o);
      }
    }

    /** The realloc, and the memcpy and memmove that shift a wrapped fill region. */
    method Moving(n: nat) returns (grown: array<byte>)
      requires inptr <= buffer.Length < n
      ensures fresh(grown) && grown.Length == n
      ensures Moved(buffer[..], grown[..], State())
    {
      grown := new byte[n];
      MemCopy(grown, 0, buffer[..]);
      assert forall j :: 0 <= j < buffer.Length ==> grown[j] == buffer[..][j];
      if inptr < outptr || (inptr == outptr && bufused > 0) {
        Shift(grown, Offsets(inptr, outptr, bufused, buffer.Length), buffer[..]);
      }
    }

    /** A wrapped fill region moves up behind the old end, what does not fit there to the front. */
    static method Shift(grown: array<byte>, o: Offsets, ghost mem: seq<byte>)
      requires o.inOff <= o.buflen == |mem| <= grown.Length
      requires o.inOff < o.outOff || (o.inOff == o.outOff && o.used > 0)
      requires forall j :: 0 <= j < o.buflen ==> grown[j] == mem[j]
      modifies grown
      ensures Moved(mem, grown[..], o)
    {
      var shift := Min(grown.Length - o.buflen, o.inOff);
      MemMove(grown, o.buflen, 0, shift);
      assert forall j :: o.buflen <= j < o.buflen + shift ==> grown[j] == mem[j - o.buflen];
      assert forall j :: 0 <= j < o.buflen ==> grown[j] == mem[j];
      ShiftDown(grown, o, shift, mem);
      ShiftedMoves(mem, grown[..], o, shift);
    }

    static method ShiftDown(grown: array<byte>, o: Offsets, shift: nat, ghost mem: seq<byte>)
      requires shift <= o.inOff <= o.buflen == |mem| && o.buflen + shift <= grown.Length
      requires forall j :: 0 <= j < o.buflen ==> grown[j] == mem[j]
      requires forall j :: o.buflen <= j < o.buflen + shift ==> grown[j] == mem[j - o.buflen]
      modifies grown
      ensures forall j :: 0 <= j < o.inOff - shift ==> grown[j] == mem[shift + j]
      ensures forall j :: o.inOff <= j < o.buflen ==> grown[j] == mem[j]
      ensures forall j :: o.buflen <= j < o.buflen + shift ==> grown[j] == mem[j - o.buflen]
    {
      if shift < o.inOff {
        MemMove(grown, 0, shift, o.inOff - shift);
      }
    }

    method MakeRoom(len: nat)
      requires Valid()
      modifies this
      ensures growsize > 0 && (buffer == old(buffer) || fresh(buffer))
      ensures buffer.Length == NewLength(old(State()), len, growsize)
      ensures State() == Regrown(old(State()), buffer.Length) && len <= buffer.Length - bufused
      ensures inptr <= buffer.Length && (inptr < outptr ==> inptr + len <= buffer.Length)
      ensures !(Stale(old(State())) && Grows(old(State()), len)) ==> Valid() && Contents() == old(Contents())
      ensures Congruent(Filled(State(), len)) <==> !(Stale(old(State())) && Grows(old(State()), len))
    {
      ghost var was := State();
      if buffer.Length - bufused < len {
        Grow(len);
      }
      AppendKeepsCongruenceExactly(was, len, growsize, buffer.Length);
    }

    /** The bytes of `src` join the queue unless the append grows a stale buffer. */
    method Append(src: seq<byte>)
      requires Valid()
      modifies this, buffer
      ensures growsize > 0 && (buffer == old(buffer) || fresh(buffer))
      ensures buffer.Length == NewLength(old(State()), |src|, growsize)
      ensures State() == Filled(Regrown(old(State()), buffer.Length), |src|)
      ensures Valid() <==> !(Stale(old(State())) && Grows(old(State()), |src|))
      ensures Valid() ==> Contents() == old(Contents()) + src
    {
      MakeRoom(|src|);
      Fill(src);
    }

    /** The second half of an append, once there is room. */
    method Fill(src: seq<byte>)
      requires inptr <= buffer.Length && bufused <= buffer.Length && |src| <= buffer.Length - bufused
      requires growsize > 0 && (inptr < outptr ==> inptr + |src| <= buffer.Length)
      modifies `inptr, `bufused, buffer
      ensures State() == Filled(old(State()), |src|)
      ensures old(Valid()) ==> Valid() && Contents() == old(Contents()) + src
    {
      hide Unread, Slot, Stored;
      var len := |src|;
      ghost var o, mem := State(), buffer[..];
      var stored := if inptr >= outptr then Min(len, buffer.Length - inptr) else len;
      Store(src);
      inptr := if stored < len then len - stored else inptr + stored;
      bufused := bufused + len;
      if Congruent(o) {
        StoredAppends(mem, buffer[..], o, src);
      }
    }

    /** The two memcpy calls of an append. */
    method Store(src: seq<byte>)
      requires inptr <= buffer.Length && bufused <= buffer.Length && |src| <= buffer.Length - bufused
      requires inptr < outptr ==> inptr + |src| <= buffer.Length
      modifies buffer
      ensures Stored(old(buffer[..]), buffer[..], State(), src)
    {
      hide Congruent, Patched;
      var len := |src|;
      var stored := if inptr >= outptr then Min(len, buffer.Length - inptr) else len;
      MemCopy(buffer, inptr, src[..stored]);
      if stored < len {
        MemCopy(buffer, 0, src[stored..]);
      }
    }

    method GetMaxRead() returns (n: nat)
      requires Valid()
      ensures n == MaxRead(State()) && n <= bufused
      ensures outptr + n <= buffer.Length && buffer[outptr..outptr + n] == Contents()[..n]
    {
      if bufused == 0 {
        n := 0;
      } else if outptr >= inptr {
        n := buffer.Length - outptr;
      } else {
        n := inptr - outptr;
      }
      TakenDrops(buffer[..], State(), n);
      assert buffer[..][outptr..outptr + n] == buffer[outptr..outptr + n];
    }

    method MarkRead(len: nat) returns (ok: bool)
      requires Valid()
      modifies `outptr, `bufused
      ensures Valid()
      ensures ok <==> len <= MaxRead(old(State()))
      ensures ok ==> len <= old(bufused) && State() == Taken(old(State()), len) && Contents() == old(Contents())[len..]
      ensures !ok ==> State() == old(State())
    {
      hide Unread, Slot;
      var most := GetMaxRead();
      if most < len {
        return false;
      }
      TakenDrops(buffer[..], State(), len);
      outptr := outptr + len;
      bufused := bufused - len;
      if outptr == buffer.Length {
        outptr := 0;
      }
      return true;
    }
  }

  // ------------------------------------------------------------------- runs

  datatype Step = Put(bytes: seq<byte>) | Take(len: nat)

  function Bytes(step: Step): seq<byte> { if step.Put? then step.bytes else [] }

  function Appended(steps: seq<Step>): seq<byte> {
    if steps == [] then []
    else Appended(steps[..|steps| - 1]) + (Bytes(steps[|steps| - 1]))
  }

  /** The producer's check before a step. */
  predicate Safe(o: Offsets, step: Step)
    requires o.used <= o.buflen
  {
    step.Put? ==> !(Stale(o) && Grows(o, |step.bytes|))
  }

  /** The offsets after a safe step; a read of more than can be read at once changes nothing. */
  function Advance(o: Offsets, growsize: nat, step: Step): (r: Offsets)
    requires growsize > 0 && Congruent(o) && Safe(o, step)
    ensures Congruent(r)
  {
    match step
    case Put(bytes) =>
      var n := NewLength(o, |bytes|, growsize);
      AppendKeepsCongruenceExactly(o, |bytes|, growsize, n);
      Filled(Regrown(o, n), |bytes|)
    case Take(len) => if len <= MaxRead(o) then Taken(o, len) else o
  }

  /** How many steps come before the first growing append from the stale state, and the offsets there. */
  function SafeRun(o: Offsets, growsize: nat, steps: seq<Step>): (r: (nat, Offsets))
    requires growsize > 0 && Congruent(o)
    ensures r.0 <= |steps| && Congruent(r.1)
    ensures r.0 < |steps| ==> !Safe(r.1, steps[r.0])
    decreases steps
  {
    if steps == [] || !Safe(o, steps[0]) then (0, o)
    else
      var r := SafeRun(Advance(o, growsize, steps[0]), growsize, steps[1..]);
      (r.0 + 1, r.1)
  }

  /**
   Runs appends and reads against a new buffer, copying out what each accepted read covers, up to the first growing
   append from the stale state. What was delivered followed by what is still buffered is exactly what was appended,
   and the buffer holds as many bytes as the offsets say.
  */
  method Run(size: nat, steps: seq<Step>) returns (delivered: seq<byte>, done: nat, unread: seq<byte>)
    ensures var growsize := if size != 0 then size else DEFAULT_BUF_SIZE;
            var run := SafeRun(Offsets(0, 0, 0, 0), growsize, steps);
            && done == run.0
            && delivered + unread == Appended(steps[..done])
            && |unread| == run.1.used
  {
    var ring := new CircBuffer(size);
    delivered, done := Feed(ring, steps);
    unread := Drain(ring);
  }

  method Feed(ring: CircBuffer, steps: seq<Step>) returns (delivered: seq<byte>, done: nat)
    requires ring.Valid() && ring.Contents() == []
    modifies ring, ring.buffer
    ensures ring.Valid() && (done, ring.State()) == SafeRun(old(ring.State()), ring.growsize, steps)
    ensures delivered + ring.Contents() == Appended(steps[..done])
  {
    hide Filled, Regrown, NewLength, Taken, MaxRead, Unread, Stale, Grows, Advance;
    delivered, done := [], 0;
    ghost var run := SafeRun(ring.State(), ring.growsize, steps);
    assert steps[..0] == [] && steps[0..] == steps;
    while done < |steps| && Safe(Offsets(ring.inptr, ring.outptr, ring.bufused, ring.buffer.Length), steps[done])
      invariant ring.Valid() && (ring.buffer == old(ring.buffer) || fresh(ring.buffer))
      invariant done <= |steps|
      invariant var rest := SafeRun(ring.State(), ring.growsize, steps[done..]); run == (done + rest.0, rest.1)
      invariant delivered + ring.Contents() == Appended(steps[..done])
    {
      NextStep(steps, done);
      ghost var before := ring.Contents();
      var got := Do(ring, steps[done]);
      Regroup(delivered, got, ring.Contents(), before, Bytes(steps[done]));
      delivered := delivered + got;
      done := done + 1;
    }
  }

  lemma NextStep(steps: seq<Step>, done: nat)
    requires done < |steps|
    ensures Appended(steps[..done + 1]) == Appended(steps[..done]) + Bytes(steps[done])
    ensures steps[done..][0] == steps[done] && steps[done..][1..] == steps[done + 1..]
  {
    assert steps[..done + 1][..done] == steps[..done];
  }

  lemma Regroup(delivered: seq<byte>, got: seq<byte>, after: seq<byte>, before: seq<byte>, put: seq<byte>)
    requires got + after == before + put
    ensures (delivered + got) + after == (delivered + before) + put
  {
    assert (delivered + got) + after == delivered + (got + after);
    assert delivered + (before + put) == (delivered + before) + put;
  }

  /** One append, or one read of `len` bytes if that many can be read at once. */
  method Do(ring: CircBuffer, step: Step) returns (got: seq<byte>)
    requires ring.Valid() && Safe(ring.State(), step)
    modifies ring, ring.buffer
    ensures ring.Valid() && (ring.buffer == old(ring.buffer) || fresh(ring.buffer))
    ensures ring.State() == Advance(old(ring.State()), ring.growsize, step)
    ensures got + ring.Contents() == old(ring.Contents()) + Bytes(step)
  {
    match step {
      case Put(bytes) =>
        got := [];
        ring.Append(bytes);
        assert [] + ring.Contents() == ring.Contents();
      case Take(len) =>
        got := Read(ring, len);
        assert got + ring.Contents() == old(ring.Contents()) + [];
    }
  }

  /** A consumer's read: copy `len` bytes from `outptr` and mark them read, if they can be read at once. */
  method Read(ring: CircBuffer, len: nat) returns (got: seq<byte>)
    requires ring.Valid()
    modifies ring`outptr, ring`bufused
    ensures ring.Valid()
    ensures len <= MaxRead(old(ring.State())) ==> ring.State() == Taken(old(ring.State()), len)
    ensures len > MaxRead(old(ring.State())) ==> ring.State() == old(ring.State())
    ensures |got| == old(ring.bufused) - ring.bufused
    ensures got + ring.Contents() == old(ring.Contents())
  {
    var most := ring.GetMaxRead();
    ghost var mem, o, queue := ring.buffer[..], ring.State(), ring.Contents();
    if most < len {
      got := [];
      assert got + queue == queue;
    } else {
      TakenDrops(mem, o, len);
      got := ring.buffer[ring.outptr..ring.outptr + len];
      assert got == mem[o.outOff..o.outOff + len];
      assert got + Unread(mem, Taken(o, len)) == queue;
    }
    var _ := ring.MarkRead(len);
    assert ring.buffer[..] == mem;
  }

  /** Two maximal reads deliver everything that is buffered. */
  method Drain(ring: CircBuffer) returns (bytes: seq<byte>)
    requires ring.Valid()
    modifies ring
    ensures ring.Valid() && ring.bufused == 0 && bytes == old(ring.Contents())
  {
    hide Unread, Slot;
    var n := ring.GetMaxRead();
    bytes := ring.buffer[ring.outptr..ring.outptr + n];
    if ring.bufused > 0 {
      TwoReadsDrain(ring.State());
    }
    var _ := ring.MarkRead(n);
    n := ring.GetMaxRead();
    bytes := bytes + ring.buffer[ring.outptr..ring.outptr + n];
    var _ := ring.MarkRead(n);
  }
}
