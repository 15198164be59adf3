/** Types, limits and small sequence facts shared by the kernel's components. */
module Common {

  datatype Option<+T> = None | Some(value: T)

  type Positive = n: int | 0 < n witness 1
  type Byte = b: int | 0 <= b < 256

  // The sizes come from framework headers that are not part of this model, so
  // every result holds for any positive value of them.
  const MAX_PROCS: Positive
  const NUM_TERMINALS: Positive
  const TERMINAL_MAX_LINE: Positive
  const PIPE_BUFFER_LEN: Positive
  const IPC_MAX_OBJECTS := 128

  const SUCCESS := 0
  const ERROR := -1

  ghost predicate Unique<T>(s: seq<T>) {
    forall i, j :: 0 <= i < j < |s| ==> s[i] != s[j]
  }

  /** The sequence with the element at index i deleted. */
  function RemoveAt<T>(s: seq<T>, i: nat): seq<T>
    requires i < |s|
  {
    s[..i] + s[i + 1..]
  }

  /** The sequence with the first occurrence of x deleted. */
  function Without<T(==)>(s: seq<T>, x: T): seq<T> {
    if s == [] then []
    else if s[0] == x then s[1..]
    else [s[0]] + Without(s[1..], x)
  }

  lemma {:induction false} WithoutMembers<T>(s: seq<T>, x: T)
    requires Unique(s)
    ensures Unique(Without(s, x))
    ensures forall y :: y in Without(s, x) <==> y in s && y != x
  {
    if s != [] {
      var rest := s[1..];
      assert forall y :: y in s <==> y == s[0] || y in rest;
      assert s[0] !in rest;
      assert Unique(rest) by {
        assert forall i :: 0 <= i < |rest| ==> rest[i] == s[i + 1];
      }
      WithoutMembers(rest, x);
      UniqueCons(s[0], Without(rest, x));
    }
  }

  lemma UniqueCons<T>(x: T, s: seq<T>)
    requires Unique(s) && x !in s
    ensures Unique([x] + s)
  {
    assert forall i :: 0 < i < |s| + 1 ==> ([x] + s)[i] == s[i - 1];
  }

  lemma UniqueSnoc<T>(s: seq<T>, x: T)
    requires Unique(s) && x !in s
    ensures Unique(s + [x])
  {
  }

  lemma UniqueTail<T>(s: seq<T>)
    requires Unique(s) && s != []
    ensures s[0] !in s[1..]
    ensures forall x :: x in s <==> x == s[0] || x in s[1..]
  {
  }

  lemma HeadIn<T>(s: seq<T>)
    ensures s != [] ==> s[0] in s
  {
  }

  lemma WithoutAbsent<T>(s: seq<T>, x: T)
    requires x !in s
    ensures Without(s, x) == s
  {
  }

  lemma {:induction false} WithoutAt<T>(s: seq<T>, i: nat)
    requires Unique(s) && i < |s|
    ensures Without(s, s[i]) == RemoveAt(s, i)
  {
    if i != 0 {
      assert s[0] != s[i];
      assert Unique(s[1..]) by {
        assert forall j :: 0 <= j < |s| - 1 ==> s[1..][j] == s[j + 1];
      }
      WithoutAt(s[1..], i - 1);
      assert [s[0]] + RemoveAt(s[1..], i - 1) == RemoveAt(s, i);
    }
  }

  /** q' is what a first-in first-out queue q becomes after n removals and any additions. */
  ghost predicate Shifted<T>(q: seq<T>, n: nat, q': seq<T>) {
    n <= |q| ==> q[n..] <= q'
  }

  lemma ShiftedTrans<T>(q: seq<T>, n: nat, q': seq<T>, m: nat, q'': seq<T>)
    requires Shifted(q, n, q') && Shifted(q', m, q'')
    ensures Shifted(q, n + m, q'')
  {
    if n + m <= |q| {
      assert q[n..][m..] == q[n + m..];
      assert q[n..][m..] <= q'[m..];
    }
  }

  /** The bytes m with `data` copied over those from offset `at` on. */
  function Put<T>(m: seq<T>, at: nat, data: seq<T>): (r: seq<T>)
    requires at + |data| <= |m|
    ensures |r| == |m|
    ensures forall k :: 0 <= k < |m| ==> r[k] == if at <= k < at + |data| then data[k - at] else m[k]
  {
    m[..at] + data + m[at + |data|..]
  }

  /** memcpy of `data` to dst + at. */
  method CopyIn(dst: array<Byte>, at: nat, data: seq<Byte>)
    requires at + |data| <= dst.Length
    modifies dst
    ensures dst[..] == Put(old(dst[..]), at, data)
  {
    var i := 0;
    while i < |data|
      invariant 0 <= i <= |data|
      invariant forall k :: 0 <= k < dst.Length ==> dst[k] == if at <= k < at + i then data[k - at] else old(dst[k])
    {
      dst[at + i] := data[i];
      i := i + 1;
    }
  }

  lemma MulMono(a: int, b: int, m: Positive)
    requires a <= b
    ensures a * m <= b * m
  {
  }

  lemma DivStep(x: int, k: int, m: Positive)
    requires k * m <= x < (k + 1) * m
    ensures x / m == k
  {
    var q := x / m;
    assert q * m <= x < (q + 1) * m;
    if q < k {
      MulMono(q + 1, k, m);
    } else if q > k {
      MulMono(k + 1, q, m);
    }
  }

  lemma DivLess(x: int, k: int, m: Positive)
    requires x < k * m
    ensures x / m < k
  {
    if x / m >= k {
      MulMono(k, x / m, m);
    }
  }

  lemma DivMono(a: int, b: int, m: Positive)
    requires a <= b
    ensures a / m <= b / m
  {
    if a / m > b / m {
      assert b < (b / m + 1) * m;
      MulMono(b / m + 1, a / m, m);
    }
  }

  function Flatten<T>(ss: seq<seq<T>>): seq<T> {
    if ss == [] then [] else ss[0] + Flatten(ss[1..])
  }

  lemma {:induction false} FlattenAppend<T>(ss: seq<seq<T>>, x: seq<T>)
    ensures Flatten(ss + [x]) == Flatten(ss) + x
  {
    if ss == [] {
      assert ss + [x] == [x];
    } else {
      FlattenAppend(ss[1..], x);
      assert (ss + [x])[1..] == ss[1..] + [x];
      assert (ss + [x])[0] == ss[0];
    }
  }
}
