/**
 * The arguments of Exec: CopyExecArgs of src/syscalls.c, and the block LoadProgram of src/template.c builds at
 * the top of the new stack. Pointers are four bytes, lowest byte first.
 */
module ExecArgs {
  import opened Common
  import opened PageTables
  import opened AddressSpaces
  import opened ProgramImage

  // Space the framework's start-up code wants; its header is not part of this model.
  const POST_ARGV_NULL_SPACE: nat
  const INITIAL_STACK_FRAME_SIZE: nat

  const MAX_ARGS := 64
  const WORD := 4
  const ADDRESSES := 0x1_0000_0000

  type Character = b: int | 0 < b < 256 witness 1

  /** A C string, without its terminator. */
  type Str = seq<Character>

  // ---------- CopyExecArgs ----------

  /** A copy of the caller's name and argument vector, if Exec is to go on. */
  datatype Copy = NoCopy | Copy(name: Str, args: seq<Str>)

  /** The arguments Exec passes on: the caller's vector, or the file name alone. */
  function ArgsFor(filename: Str, argvec: Option<seq<Str>>): seq<Str> {
    match argvec case None => [filename] case Some(v) => v
  }

  /**
   * The vector is the pointers before its null. `mallocs` is how many allocations succeed: one for the name, one
   * for the row of pointers and one for each string.
   */
  method CopyExecArgs(filename: Option<Str>, argvec: Option<seq<Str>>, mallocs: nat) returns (r: Copy)
    ensures r.Copy? <==>
      filename.Some? && |ArgsFor(filename.value, argvec)| < MAX_ARGS && 2 + |ArgsFor(filename.value, argvec)| <= mallocs
    ensures r.Copy? ==> r == Copy(filename.value, ArgsFor(filename.value, argvec))
  {
    if filename.None? || mallocs == 0 {
      return NoCopy;
    }
    var left := mallocs - 1;
    if argvec.None? {
      if left < 2 {
        return NoCopy;
      }
      return Copy(filename.value, [filename.value]);
    }
    var v := argvec.value;
    var argc := 0;
    while argc < |v| && argc < MAX_ARGS
      invariant 0 <= argc <= MAX_ARGS && argc <= |v|
    {
      argc := argc + 1;
    }
    if argc == MAX_ARGS || left == 0 {
      return NoCopy;
    }
    left := left - 1;
    var args: seq<Str> := [];
    while |args| < argc
      invariant |args| <= argc && args == v[..|args|]
      invariant left == mallocs - 2 - |args| >= 0
      decreases argc - |args|
    {
      if left == 0 {
        return NoCopy;
      }
      args, left := args + [v[|args|]], left - 1;
    }
    assert v[..|v|] == v;
    r := Copy(filename.value, args);
  }

  // ---------- bytes ----------

  function Bytes(w: nat): (b: seq<Byte>)
    requires w < ADDRESSES
    ensures |b| == WORD
  {
    [w % 256, w / 256 % 256, w / 65536 % 256, w / 16777216]
  }

  function WordAt(m: seq<Byte>, at: nat): nat
    requires at + WORD <= |m|
  {
    (m[at] as int) + 256 * (m[at + 1] as int) + 65536 * (m[at + 2] as int) + 16777216 * (m[at + 3] as int)
  }

  lemma BytesAreWord(w: nat)
    requires w < ADDRESSES
    ensures WordAt(Bytes(w), 0) == w
  {
    assert w == 256 * (w / 256) + w % 256;
    assert w / 65536 == w / 256 / 256 && w / 16777216 == w / 256 / 256 / 256;
  }

  lemma PutWord(m: seq<Byte>, at: nat, w: nat)
    requires at + WORD <= |m| && w < ADDRESSES
    ensures WordAt(Put(m, at, Bytes(w)), at) == w
  {
    BytesAreWord(w);
    var r, b := Put(m, at, Bytes(w)), Bytes(w);
    assert r[at] == b[0] && r[at + 1] == b[1] && r[at + 2] == b[2] && r[at + 3] == b[3];
  }

  lemma WordKept(m: seq<Byte>, at: nat, data: seq<Byte>, other: nat)
    requires at + |data| <= |m| && other + WORD <= |m| && (other + WORD <= at || at + |data| <= other)
    ensures WordAt(Put(m, at, data), other) == WordAt(m, other)
  {
  }

  /** The string as it lies in memory. */
  function Terminated(s: Str): (b: seq<Byte>)
    ensures |b| == |s| + 1
  {
    var bytes: seq<Byte> := s;
    bytes + [0]
  }

  /** The string that starts at offset `at`: the bytes up to the first zero. */
  function StringAt(m: seq<Byte>, at: nat): (s: Str)
    decreases |m| - at
  {
    if at >= |m| || m[at] == 0 then [] else [m[at]] + StringAt(m, at + 1)
  }

  lemma {:induction false} StringThere(m: seq<Byte>, at: nat, s: Str)
    requires at + |s| < |m| && m[at..at + |s|] == s && m[at + |s|] == 0
    ensures StringAt(m, at) == s
    decreases |s|
  {
    if s != [] {
      assert m[at] == s[0] && m[at + 1..at + |s|] == s[1..];
      StringThere(m, at + 1, s[1..]);
    }
  }

  // ---------- the string area ----------

  /** The strings one after the other, each with its terminator. */
  function Strings(args: seq<Str>): seq<Byte> {
    if args == [] then [] else Strings(args[..|args| - 1]) + Terminated(args[|args| - 1])
  }

  lemma StringsSnoc(args: seq<Str>, i: nat)
    requires i < |args|
    ensures Strings(args[..i + 1]) == Strings(args[..i]) + Terminated(args[i])
  {
    assert args[..i + 1][..i] == args[..i];
  }

  lemma {:induction false} StringsPrefix(args: seq<Str>, i: nat, j: nat)
    requires i <= j <= |args|
    ensures |Strings(args[..i])| <= |Strings(args[..j])|
    ensures Strings(args[..j])[..|Strings(args[..i])|] == Strings(args[..i])
    decreases j
  {
    if i < j {
      StringsPrefix(args, i, j - 1);
      StringsSnoc(args, j - 1);
    }
  }

  /** argsize: the first loop of LoadProgram. */
  method SizeOfArgs(args: seq<Str>) returns (size: nat)
    ensures size == |Strings(args)|
  {
    size := 0;
    var i := 0;
    while i < |args|
      invariant 0 <= i <= |args| && size == |Strings(args[..i])|
    {
      StringsSnoc(args, i);
      size := size + |args[i]| + 1;
      i := i + 1;
    }
    assert args[..|args|] == args;
  }

  /** The copy of the strings in the kernel, made while the old program's memory is still there. */
  method FillBuffer(buf: array<Byte>, args: seq<Str>)
    requires buf.Length == |Strings(args)|
    modifies buf
    ensures buf[..] == Strings(args)
  {
    var i, at := 0, 0;
    while i < |args|
      invariant 0 <= i <= |args| && at == |Strings(args[..i])| <= buf.Length && buf[..at] == Strings(args[..i])
    {
      StringsSnoc(args, i);
      StringsPrefix(args, i + 1, |args|);
      assert args[..|args|] == args;
      CopyIn(buf, at, Terminated(args[i]));
      at := at + |args[i]| + 1;
      i := i + 1;
    }
    assert args[..|args|] == args;
  }

  // ---------- where things go ----------

  /** Where the block of pointers starts, the stack pointer, and the page the stack starts on. */
  datatype Places = Places(strings: int, pointers: int, sp: int, stackPage: int)

  /** The address arithmetic of src/template.c:56-63. */
  function PlacesFor(argc: nat, argSize: nat): Places {
    var strings := VMEM_1_LIMIT - argSize;
    var low := strings - (argc + 3 + POST_ARGV_NULL_SPACE) * WORD;
    var pointers := low - low % 8;
    var sp := pointers - INITIAL_STACK_FRAME_SIZE;
    Places(strings, pointers, sp, DownPage(sp))
  }

  /**
   * The pointers are at the highest 8-aligned place that lets them end before the strings begin, the stack pointer is
   * the initial frame below them and on the stack's first page, and everything from the stack pointer up lies
   * on the pages from the stack's first to the last of Region 1.
   */
  lemma BlockPlaced(argc: nat, argSize: nat)
    requires PlacesFor(argc, argSize).stackPage >= 0
    ensures var p := PlacesFor(argc, argSize);
      && p.pointers % 8 == 0 && p.sp + INITIAL_STACK_FRAME_SIZE == p.pointers && OnPage(p.sp, p.stackPage)
      && (forall q :: q % 8 == 0 && q + (argc + 3 + POST_ARGV_NULL_SPACE) * WORD <= p.strings ==> q <= p.pointers)
      && p.pointers + (argc + 3 + POST_ARGV_NULL_SPACE) * WORD <= p.strings && p.strings + argSize == VMEM_1_LIMIT
      && VMEM_1_BASE <= PageStart(p.stackPage) <= p.sp <= p.pointers && p.stackPage < MAX_PT_LEN
      && forall a :: p.sp <= a < VMEM_1_LIMIT ==> p.stackPage <= DownPage(a) < MAX_PT_LEN
  {
    hide DownPage, PageStart;
    var p := PlacesFor(argc, argSize);
    var low := p.strings - (argc + 3 + POST_ARGV_NULL_SPACE) * WORD;
    AlignedDown(low);
    Rounded(p.sp);
    OnStackPages(p.sp, p.sp);
    forall a | p.sp <= a < VMEM_1_LIMIT ensures p.stackPage <= DownPage(a) < MAX_PT_LEN {
      OnStackPages(p.sp, a);
    }
  }

  lemma OnStackPages(sp: int, a: int)
    requires DownPage(sp) >= 0 && sp <= a && sp <= VMEM_1_LIMIT
    ensures VMEM_1_BASE <= PageStart(DownPage(sp)) <= sp && DownPage(sp) <= MAX_PT_LEN && DownPage(sp) <= DownPage(a)
    ensures a < VMEM_1_LIMIT ==> DownPage(a) < MAX_PT_LEN
  {
    MulMono(0, DownPage(sp), PAGESIZE);
    UpPageMono(sp, a);
    UpPageMono(sp, VMEM_1_LIMIT);
    PageOfStart(MAX_PT_LEN);
    if a < VMEM_1_LIMIT {
      DivLess(a - VMEM_1_BASE, MAX_PT_LEN, PAGESIZE);
    }
  }

  /**
   * LoadProgram maps the stack where the arguments are to go: on the new image's page table every address from the
   * stack pointer to the end of Region 1 is on a mapped page, and on a writable one unless the text overlaps it.
   */
  lemma BlockIsMapped(argc: nat, argSize: nat, li: LoadInfo, table: seq<Pte>)
    requires Fits(li) && li.stackBase == PlacesFor(argc, argSize).stackPage && ImageMapped(table, li)
    ensures forall a :: PlacesFor(argc, argSize).sp <= a < VMEM_1_LIMIT ==>
      && 0 <= DownPage(a) < |table| && table[DownPage(a)].valid
      && (table[DownPage(a)].prot == ReadWrite <==> !InText(li, DownPage(a)))
  {
    hide DownPage, PageStart, PlacesFor;
    BlockPlaced(argc, argSize);
    forall a | PlacesFor(argc, argSize).sp <= a < VMEM_1_LIMIT
      ensures 0 <= DownPage(a) < |table| && table[DownPage(a)].valid
      ensures table[DownPage(a)].prot == ReadWrite <==> !InText(li, DownPage(a))
    {
      assert InStack(li, DownPage(a));
    }
  }

  lemma AlignedDown(x: int)
    ensures (x - x % 8) % 8 == 0 && x - 8 < x - x % 8 <= x && forall q :: q % 8 == 0 && q <= x ==> q <= x - x % 8
  {
  }

  // ---------- the block ----------

  /** The address string i is to have, the strings starting at address `strings`. */
  function PointerTo(args: seq<Str>, i: nat, strings: nat): nat
    requires i <= |args|
  {
    strings + |Strings(args[..i])|
  }

  /**
   * Memory from the block of pointers on, once the first i arguments are in place: the count, their pointers, and
   * at offset `area` their strings. Everything else is zero, the null pointers after the last among it.
   */
  ghost predicate Filled(m: seq<Byte>, args: seq<Str>, i: nat, strings: nat, area: nat) {
    && i <= |args| && |m| == area + |Strings(args)| && (|args| + 3) * WORD <= area
    && WordAt(m, 0) == |args|
    && (forall j :: 0 <= j < i ==> WordAt(m, WORD + j * WORD) == PointerTo(args, j, strings))
    && |Strings(args[..i])| <= |Strings(args)| && m[area..area + |Strings(args[..i])|] == Strings(args[..i])
    && (forall k :: WORD + i * WORD <= k < area ==> m[k] == 0)
    && (forall k :: area + |Strings(args[..i])| <= k < |m| ==> m[k] == 0)
  }

  lemma FilledStart(m: seq<Byte>, args: seq<Str>, strings: nat, area: nat)
    requires |m| == area + |Strings(args)| && (|args| + 3) * WORD <= area && |args| < ADDRESSES
    requires forall k :: 0 <= k < |m| ==> m[k] == 0
    ensures Filled(Put(m, 0, Bytes(|args|)), args, 0, strings, area)
  {
    PutWord(m, 0, |args|);
    assert args[..0] == [];
  }

  /** One pointer into the row, and its string behind the others. */
  lemma FilledNext(m: seq<Byte>, args: seq<Str>, i: nat, strings: nat, area: nat)
    requires Filled(m, args, i, strings, area) && i < |args| && strings + |Strings(args)| <= ADDRESSES
    ensures var cpp, cp := WORD + i * WORD, area + |Strings(args[..i])|;
      && cpp + WORD <= area <= |m| && cp + |args[i]| + 1 <= |m| && PointerTo(args, i, strings) < ADDRESSES
      && Filled(Put(Put(m, cpp, Bytes(PointerTo(args, i, strings))), cp, Terminated(args[i])), args, i + 1, strings, area)
  {
    hide Strings, Terminated, Bytes, WordAt, Put;
    StringsSnoc(args, i);
    StringsPrefix(args, i + 1, |args|);
    assert args[..|args|] == args;
    var cpp, cp, p := WORD + i * WORD, area + |Strings(args[..i])|, PointerTo(args, i, strings);
    var m1 := Put(m, cpp, Bytes(p));
    var m2 := Put(m1, cp, Terminated(args[i]));
    WordsNext(m, args, i, strings, area);
    assert m2[cp..cp + |args[i]| + 1] == Terminated(args[i]);
    StringsAfter(m, m2, args, i, area);
  }

  lemma WordsNext(m: seq<Byte>, args: seq<Str>, i: nat, strings: nat, area: nat)
    requires i < |args| && |m| == area + |Strings(args)| && (|args| + 3) * WORD <= area
    requires |Strings(args[..i])| + |args[i]| + 1 <= |Strings(args)| && strings + |Strings(args)| <= ADDRESSES
    requires WordAt(m, 0) == |args| && forall j :: 0 <= j < i ==> WordAt(m, WORD + j * WORD) == PointerTo(args, j, strings)
    ensures var cpp, cp, p := WORD + i * WORD, area + |Strings(args[..i])|, PointerTo(args, i, strings);
      var m2 := Put(Put(m, cpp, Bytes(p)), cp, Terminated(args[i]));
      && WordAt(m2, 0) == |args|
      && forall j :: 0 <= j < i + 1 ==> WordAt(m2, WORD + j * WORD) == PointerTo(args, j, strings)
  {
    hide Strings, Terminated, Bytes, WordAt, Put, PointerTo;
    assert PointerTo(args, i, strings) < ADDRESSES by { PointerFits(args, i, strings); }
    var cpp, cp, p := WORD + i * WORD, area + |Strings(args[..i])|, PointerTo(args, i, strings);
    var m1 := Put(m, cpp, Bytes(p));
    var m2 := Put(m1, cp, Terminated(args[i]));
    PutWord(m, cpp, p);
    WordKept(m, cpp, Bytes(p), 0);
    WordKept(m1, cp, Terminated(args[i]), 0);
    forall j | 0 <= j < i + 1 ensures WordAt(m2, WORD + j * WORD) == PointerTo(args, j, strings) {
      WordKept(m1, cp, Terminated(args[i]), WORD + j * WORD);
      if j < i {
        WordKept(m, cpp, Bytes(p), WORD + j * WORD);
      }
    }
  }

  lemma PointerFits(args: seq<Str>, i: nat, strings: nat)
    requires i < |args| && |Strings(args[..i])| + |args[i]| + 1 <= |Strings(args)| && strings + |Strings(args)| <= ADDRESSES
    ensures PointerTo(args, i, strings) < ADDRESSES
  {
  }

  lemma StringsAfter(m: seq<Byte>, m2: seq<Byte>, args: seq<Str>, i: nat, area: nat)
    requires i < |args| && |m2| == |m| && area + |Strings(args[..i + 1])| <= |m|
    requires Strings(args[..i + 1]) == Strings(args[..i]) + Terminated(args[i])
    requires m[area..area + |Strings(args[..i])|] == Strings(args[..i])
    requires forall k :: area <= k < area + |Strings(args[..i])| ==> m2[k] == m[k]
    requires var cp := area + |Strings(args[..i])|; m2[cp..cp + |args[i]| + 1] == Terminated(args[i])
    ensures m2[area..area + |Strings(args[..i + 1])|] == Strings(args[..i + 1])
  {
    var cp := area + |Strings(args[..i])|;
    assert m2[area..cp] == m[area..cp];
    assert m2[area..cp + |args[i]| + 1] == m2[area..cp] + m2[cp..cp + |args[i]| + 1];
  }

  /**
   * The part of LoadProgram that fills the new stack: `a` is the memory from address `pointers` up to the end of
   * Region 1, `buf` the kernel's copy of the strings.
   */
  method WriteBlock(a: array<Byte>, buf: array<Byte>, args: seq<Str>, pointers: nat, strings: nat)
    requires a != buf && |args| < ADDRESSES && strings + |Strings(args)| <= ADDRESSES
    requires pointers + (|args| + 3) * WORD <= strings && a.Length == strings + |Strings(args)| - pointers
    requires buf[..] == Strings(args)
    modifies a
    ensures Filled(a[..], args, |args|, strings, strings - pointers)
  {
    hide Filled, Strings, StringAt, Terminated, Bytes, Put;
    ghost var area := strings - pointers;
    Clear(a);
    FilledStart(a[..], args, strings, area);
    CopyIn(a, 0, Bytes(|args|));
    assert args[..0] == [];
    NoStrings();
    var i, cpp, cp, cp2 := 0, WORD, strings, 0;
    while i < |args|
      invariant 0 <= i <= |args| && cpp == WORD + i * WORD
      invariant cp == PointerTo(args, i, strings) && cp2 == |Strings(args[..i])|
      invariant Filled(a[..], args, i, strings, area)
    {
      var len := PlaceArgument(a, buf, args, i, pointers, strings, cpp, cp, cp2);
      cp, cp2 := cp + len + 1, cp2 + len + 1;
      cpp := cpp + WORD;
      i := i + 1;
    }
    NullsThere(a[..], args, strings, area);
    CopyIn(a, cpp, Bytes(0));
    CopyIn(a, cpp + WORD, Bytes(0));
  }

  /** memset of the whole block */
  method Clear(a: array<Byte>)
    modifies a
    ensures forall k :: 0 <= k < a.Length ==> a[k] == 0
  {
    var z := 0;
    while z < a.Length
      invariant 0 <= z <= a.Length && forall k :: 0 <= k < z ==> a[k] == 0
    {
      a[z] := 0;
      z := z + 1;
    }
  }

  lemma NextPlaces(args: seq<Str>, i: nat, strings: nat)
    requires i < |args|
    ensures |Strings(args[..i + 1])| == |Strings(args[..i])| + |args[i]| + 1
    ensures PointerTo(args, i, strings) == strings + |Strings(args[..i])|
    ensures PointerTo(args, i + 1, strings) == strings + |Strings(args[..i + 1])|
  {
    StringsSnoc(args, i);
  }

  /** One round of the loop of LoadProgram over the arguments, at its three cursors. */
  method PlaceArgument(a: array<Byte>, buf: array<Byte>, ghost args: seq<Str>, ghost i: nat, pointers: nat, ghost strings: nat,
                       cpp: nat, cp: nat, cp2: nat)
    returns (len: nat)
    requires a != buf && i < |args| && strings + |Strings(args)| <= ADDRESSES && pointers <= strings && buf[..] == Strings(args)
    requires cpp == WORD + i * WORD && cp == PointerTo(args, i, strings) && cp2 == |Strings(args[..i])|
    requires Filled(a[..], args, i, strings, strings - pointers)
    modifies a
    ensures len == |args[i]| && |Strings(args[..i + 1])| == cp2 + len + 1 && PointerTo(args, i + 1, strings) == cp + len + 1
    ensures Filled(a[..], args, i + 1, strings, strings - pointers)
  {
    hide Filled, Strings, StringAt, Terminated, Bytes, Put, PointerTo;
    ghost var m := a[..];
    FilledNext(m, args, i, strings, strings - pointers);
    InBuffer(args, i);
    StringThere(buf[..], cp2, args[i]);
    NextPlaces(args, i, strings);
    var s := StringAt(buf[..], cp2);
    CopyIn(a, cpp, Bytes(cp));
    CopyIn(a, cp - pointers, Terminated(s));
    len := |s|;
  }

  lemma NoStrings()
    ensures Strings([]) == []
  {
  }

  /** The two null words are written over zeros. */
  lemma NullsThere(m: seq<Byte>, args: seq<Str>, strings: nat, area: nat)
    requires Filled(m, args, |args|, strings, area)
    ensures var cpp := WORD + |args| * WORD; cpp + 2 * WORD <= |m| && Put(m, cpp, Bytes(0)) == m && Put(m, cpp + WORD, Bytes(0)) == m
  {
    var cpp := WORD + |args| * WORD;
    assert Bytes(0) == [0, 0, 0, 0];
    assert forall k :: cpp <= k < cpp + 2 * WORD ==> m[k] == 0;
  }

  /** String i of the kernel's copy, with its terminator. */
  lemma InBuffer(args: seq<Str>, i: nat)
    requires i < |args|
    ensures var m, at := Strings(args), |Strings(args[..i])|;
      at + |args[i]| < |m| && m[at..at + |args[i]|] == args[i] && m[at + |args[i]|] == 0
  {
    var m, at := Strings(args), |Strings(args[..i])|;
    assert args[..|args|] == args;
    StringsSnoc(args, i);
    StringsPrefix(args, i + 1, |args|);
    var upTo := Strings(args[..i + 1]);
    assert m[..|upTo|] == upTo;
    assert upTo[at..at + |args[i]|] == args[i] && upTo[at + |args[i]|] == 0;
    assert m[at..at + |args[i]|] == m[..|upTo|][at..at + |args[i]|];
    assert m[at + |args[i]|] == m[..|upTo|][at + |args[i]|];
  }

  // ---------- what the new program reads ----------

  /** The argument vector a program finds at its stack: `m` is memory from address `pointers` on. */
  function Decode(m: seq<Byte>, pointers: nat): Option<seq<Str>> {
    if |m| < WORD || |m| < WORD + WordAt(m, 0) * WORD then None
    else Some(seq(WordAt(m, 0), i requires 0 <= i < WordAt(m, 0) => StringFrom(m, pointers, WordAt(m, WORD + i * WORD))))
  }

  function StringFrom(m: seq<Byte>, pointers: nat, address: nat): Str {
    if address < pointers then [] else StringAt(m, address - pointers)
  }

  lemma NullWords(m: seq<Byte>, args: seq<Str>, strings: nat, area: nat)
    requires Filled(m, args, |args|, strings, area)
    ensures WORD + (|args| + 2) * WORD <= |m| && WordAt(m, WORD + |args| * WORD) == 0 && WordAt(m, 2 * WORD + |args| * WORD) == 0
  {
    hide Strings;
    var cpp := WORD + |args| * WORD;
    assert forall k :: cpp <= k < cpp + 2 * WORD ==> m[k] == 0;
  }

  /** Exec's arguments arrive: the new program reads exactly the caller's vector, with null pointers behind it. */
  lemma ArgumentsArrive(m: seq<Byte>, args: seq<Str>, pointers: nat, strings: nat)
    requires pointers <= strings && Filled(m, args, |args|, strings, strings - pointers)
    ensures Decode(m, pointers) == Some(args)
    ensures WordAt(m, WORD + |args| * WORD) == 0 && WordAt(m, 2 * WORD + |args| * WORD) == 0
  {
    hide Strings, WordAt, StringAt;
    NullWords(m, args, strings, strings - pointers);
    var area := strings - pointers;
    assert args[..|args|] == args;
    forall i | 0 <= i < |args| ensures StringFrom(m, pointers, WordAt(m, WORD + i * WORD)) == args[i] {
      InBuffer(args, i);
      var at := |Strings(args[..i])|;
      assert WordAt(m, WORD + i * WORD) == PointerTo(args, i, strings) == pointers + area + at;
      StringIn(m, area, Strings(args), at, args[i]);
    }
    assert Decode(m, pointers).value == args;
  }

  lemma SubSlice<T>(m: seq<T>, a: nat, n: nat, c: nat, k: nat)
    requires a + n <= |m| && c + k <= n
    ensures m[a..a + n][c..c + k] == m[a + c..a + c + k]
  {
    var l, r := m[a..a + n][c..c + k], m[a + c..a + c + k];
    forall j | 0 <= j < k ensures l[j] == r[j] {
      assert l[j] == m[a..a + n][c + j];
    }
  }

  /** A string of the area is a string of memory. */
  lemma StringIn(m: seq<Byte>, area: nat, strings: seq<Byte>, at: nat, s: Str)
    requires area + |strings| <= |m| && m[area..area + |strings|] == strings
    requires at + |s| < |strings| && strings[at..at + |s|] == s && strings[at + |s|] == 0
    ensures StringAt(m, area + at) == s
  {
    SubSlice(m, area, |strings|, at, |s|);
    assert m[area + at + |s|] == m[area..area + |strings|][at + |s|];
    StringThere(m, area + at, s);
  }

  /**
   * The argument part of LoadProgram from end to end: `a` is the new stack's memory from where the pointers go, and
   * what the new program reads there is the vector CopyExecArgs copied.
   */
  method PassArguments(a: array<Byte>, args: seq<Str>) returns (places: Places)
    requires |args| < MAX_ARGS && VMEM_1_LIMIT <= ADDRESSES
    requires PlacesFor(|args|, |Strings(args)|).stackPage >= 0
    requires a.Length == VMEM_1_LIMIT - PlacesFor(|args|, |Strings(args)|).pointers
    modifies a
    ensures places == PlacesFor(|args|, |Strings(args)|) && places.pointers >= 0
    ensures Decode(a[..], places.pointers) == Some(args)
  {
    hide Filled, Strings, Decode, DownPage, PageStart;
    var size := SizeOfArgs(args);
    BlockPlaced(|args|, size);
    places := PlacesFor(|args|, size);
    var buf := new Byte[size](_ => 0);
    FillBuffer(buf, args);
    WriteBlock(a, buf, args, places.pointers, places.strings);
    ArgumentsArrive(a[..], args, places.pointers, places.strings);
  }
}
