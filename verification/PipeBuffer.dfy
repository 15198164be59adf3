/**
 * The pipe of src/ipc.c:17-22 with its byte buffer: reads shift what is left to the front in place, writes
 * grow the buffer by doubling. The buffer behaves as the Pipe object of the kernel state.
 */
module PipeBuffer {
  import opened Common
  import KernelState
  import opened KernelSteps

  /** The overlapping memcpy of n bytes from a + off to a: it runs upwards, so each byte is read before it is overwritten. */
  method ShiftDown(a: array<Byte>, off: nat, n: nat)
    requires off + n <= a.Length
    modifies a
    ensures a[..n] == old(a[off..off + n])
  {
    var i := 0;
    while i < n
      invariant 0 <= i <= n
      invariant a[..i] == old(a[off..off + i])
      invariant forall j :: off + i <= j < off + n ==> a[j] == old(a[j])
    {
      a[i] := a[off + i];
      i := i + 1;
    }
  }

  lemma BehindWritten(taken: seq<Byte>, buf: seq<Byte>, data: seq<Byte>)
    ensures taken + (buf + data) == (taken + buf) + data
  {
  }

  lemma FitsStays(cap: Positive, needed: nat)
    ensures needed <= cap ==> GrownCap(cap, needed) == cap
  {
  }

  class PipeState {
    var buf: array<Byte>
    var len: nat
    ghost var written: seq<Byte>
    ghost var taken: seq<Byte>
    /** The number of bytes all growths of this buffer have copied. */
    ghost var copied: nat

    ghost predicate Valid()
      reads this, buf
    {
      && len <= buf.Length && 0 < buf.Length
      && taken + buf[..len] == written
      && copied < buf.Length
    }

    /** The pipe as the state machine sees it. */
    ghost function View(): KernelState.Object
      reads this, buf
      requires Valid()
    {
      KernelState.Pipe(buf[..len], buf.Length, written, taken)
    }

    /** The part of SysPipeInit that has memory. */
    constructor ()
      ensures Valid() && fresh(buf) && View() == KernelState.Pipe([], PIPE_BUFFER_LEN, [], []) && copied == 0
    {
      buf := new Byte[PIPE_BUFFER_LEN](_ => 0);
      len := 0;
      written, taken, copied := [], [], 0;
    }

    /** PipeEnsureCapacity; `oom` is a failing malloc. */
    method EnsureCapacity(needed: nat, oom: bool) returns (ok: bool)
      requires Valid()
      modifies this`buf, this`copied
      ensures Valid() && buf[..len] == old(buf[..len])
      ensures ok <==> needed <= old(buf.Length) || !oom
      ensures ok ==> buf.Length == if needed <= old(buf.Length) then old(buf.Length) else GrownCap(old(buf.Length), needed)
      ensures !ok || needed <= old(buf.Length) ==> buf == old(buf) && copied == old(copied)
      ensures buf == old(buf) || fresh(buf)
    {
      if needed <= buf.Length {
        return true;
      }
      var newCap: Positive := buf.Length;
      while newCap < needed
        invariant GrownCap(newCap, needed) == GrownCap(buf.Length, needed)
        invariant newCap == buf.Length || newCap >= 2 * buf.Length
        decreases needed - newCap
        modifies {}
      {
        newCap := newCap * 2;
      }
      if oom {
        return false;
      }
      var newBuf := new Byte[newCap](_ => 0);
      CopyIn(newBuf, 0, buf[..len]);
      assert newBuf[..len] == buf[..len];
      buf := newBuf;
      copied := copied + len;
      ok := true;
    }

    /** SysPipeWrite past its checks: the caller's bytes go behind those already there. */
    method Write(data: seq<Byte>, oom: bool) returns (ok: bool)
      requires Valid() && data != []
      modifies this, buf
      ensures Valid() && (buf == old(buf) || fresh(buf))
      ensures (ok <==> len != old(len)) && (ok <==> !oom || old(len) + |data| <= old(buf.Length))
      ensures ok ==> View() == Appended(old(View()), data)
      ensures !ok ==> View() == old(View())
    {
      hide GrownCap;
      FitsStays(buf.Length, len + |data|);
      ok := EnsureCapacity(len + |data|, oom);
      if !ok {
        return;
      }
      CopyIn(buf, len, data);
      assert buf[..len + |data|] == old(buf[..len]) + data;
      BehindWritten(taken, old(buf[..len]), data);
      len := len + |data|;
      written := written + data;
    }

    /** SysPipeRead once there are bytes: the overlapping copy to the front runs upwards, byte by byte. */
    method Read(dst: array<Byte>, max: Positive) returns (count: nat)
      requires Valid() && len > 0 && dst != buf && max <= dst.Length
      modifies this, buf, dst
      ensures Valid() && buf == old(buf) && copied == old(copied)
      ensures count == Min(old(len), max) && dst[..count] == old(buf[..len])[..count]
      ensures dst[count..] == old(dst[count..])
      ensures var pipe := old(View());
        View() == pipe.(buf := pipe.buf[count..], taken := pipe.taken + pipe.buf[..count])
    {
      count := len;
      if count > max {
        count := max;
      }
      ghost var was := buf[..len];
      CopyIn(dst, 0, buf[..count]);
      len := len - count;
      if len > 0 {
        ShiftDown(buf, count, len);
      }
      assert buf[..len] == was[count..];
      taken := taken + was[..count];
      assert was == was[..count] + was[count..];
      assert taken + was[count..] == old(taken) + was;
    }
  }

  // ---------- growth ----------

  function Pow2(k: nat): (p: Positive) {
    if k == 0 then 1 else 2 * Pow2(k - 1)
  }

  lemma {:induction false} Pow2Grows(j: nat, k: nat)
    requires j < k
    ensures 2 * Pow2(j) <= Pow2(k)
    decreases k
  {
    if j < k - 1 {
      Pow2Grows(j, k - 1);
    }
  }

  /** Starting from a power of two, doubling ends at the least power of two that is enough. */
  lemma {:induction false} GrownIsPow2(k: nat, needed: nat) returns (m: nat)
    ensures m >= k && GrownCap(Pow2(k), needed) == Pow2(m)
    ensures m > k ==> Pow2(m - 1) < needed
    decreases needed - Pow2(k)
  {
    if Pow2(k) < needed {
      m := GrownIsPow2(k + 1, needed);
    } else {
      m := k;
    }
  }

  /** The least factor: half of the capacity a growth ends with was not enough. */
  lemma GrowthIsTight(cap: Positive, needed: nat)
    requires cap < needed
    ensures needed <= GrownCap(cap, needed) < 2 * needed
    ensures needed <= Pow2(30) ==> GrownCap(cap, needed) < Pow2(31)
  {
  }

  /** The doubling of a capacity that is a power of two stays inside 32-bit signed integers exactly when no more than 2^30 bytes are needed. */
  lemma GrowthFitsIff(k: nat, needed: nat)
    requires k <= 30
    ensures GrownCap(Pow2(k), needed) < Pow2(31) <==> needed <= Pow2(30)
  {
    var m := GrownIsPow2(k, needed);
    if k < 30 {
      Pow2Grows(k, 30);
    }
    if m > 30 && m > 31 {
      Pow2Grows(31, m);
    }
    if m < 30 {
      Pow2Grows(m, 30);
    }
    if m > 31 {
      Pow2Grows(30, m - 1);
    }
  }
}
