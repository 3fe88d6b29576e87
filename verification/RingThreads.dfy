/**
 The ring buffer shared by one reading and one writing thread, interleaved at every
 pointer load, every byte copied and every pointer publication (sequentially consistent
 memory).
 */
module RingThreads {
  import opened Bits
  import opened Collections
  import opened RingBuffer

  /** Outside a call, or copying one contiguous part: `done` of `n` bytes from position
      `from`, with `rest` bytes to follow from the start of the buffer. */
  datatype Pc = Out | Part(from: nat, done: nat, n: nat, rest: nat)

  datatype State = State(
    buf: seq<byte>,
    readPtr: nat,
    writePtr: nat,
    reader: Pc,
    writer: Pc,
    source: seq<byte>,   // what the writer's call has still to copy
    sent: seq<byte>,     // history: every byte copied into the buffer
    got: seq<byte>,      // history: every byte copied out of it
    given: nat,          // history: how many bytes the write pointer has passed
    taken: nat)          // history: how many bytes the read pointer has passed

  datatype Action =
    | BeginRead(cnt: nat) | CopyOut | PublishRead
    | BeginWrite(data: seq<byte>) | CopyIn | PublishWrite

  /** The space computations, on the pointers as loaded. */
  function ReadSpace(r: nat, w: nat, size: nat): int
    requires size > 0
  {
    if w > r then w - r else And(Nat(w - r + size), size - 1)
  }

  function WriteSpace(r: nat, w: nat, size: nat): int
    requires size > 0
  {
    if w > r then And(Nat(r - w + size), size - 1) - 1
    else if w < r then r - w - 1
    else size - 1
  }

  function Nat(x: int): nat {
    if x < 0 then 0 else x
  }

  /** The start of a transfer of n bytes from pointer p. */
  function StartPart(p: nat, n: nat, size: nat): Pc
    requires size > 0
  {
    if p + n > size && p <= size then Part(p, 0, size - p, And(p + n, size - 1)) else Part(p, 0, n, 0)
  }

  /** What a publication leaves to do. */
  function NextPart(pc: Pc, p: nat): Pc
    requires pc.Part?
  {
    if pc.rest > 0 then Part(p, 0, pc.rest, 0) else Out
  }

  predicate Enabled(s: State, a: Action) {
    |s.buf| > 0 &&
    match a
    case BeginRead(cnt) => s.reader.Out?
    case CopyOut => s.reader.Part? && s.reader.done < s.reader.n && s.reader.from + s.reader.done < |s.buf|
    case PublishRead => s.reader.Part? && s.reader.done == s.reader.n
    case BeginWrite(data) => s.writer.Out?
    case CopyIn => s.writer.Part? && s.writer.done < s.writer.n && s.writer.from + s.writer.done < |s.buf| && s.source != []
    case PublishWrite => s.writer.Part? && s.writer.done == s.writer.n
  }

  function Apply(s: State, a: Action): State
    requires Enabled(s, a)
  {
    var size := |s.buf|;
    match a
    case BeginRead(cnt) =>
      var free := ReadSpace(s.readPtr, s.writePtr, size);
      if free <= 0 then s else s.(reader := StartPart(s.readPtr, Min(cnt, free), size))
    case CopyOut =>
      s.(got := s.got + [s.buf[s.reader.from + s.reader.done]], reader := s.reader.(done := s.reader.done + 1))
    case PublishRead =>
      var p := And(s.readPtr + s.reader.n, size - 1);
      s.(readPtr := p, reader := NextPart(s.reader, p), taken := s.taken + s.reader.n)
    case BeginWrite(data) =>
      var free := WriteSpace(s.readPtr, s.writePtr, size);
      if free <= 0 then s
      else s.(writer := StartPart(s.writePtr, Min(|data|, free), size), source := data[..Min(|data|, free)])
    case CopyIn =>
      s.(buf := s.buf[s.writer.from + s.writer.done := s.source[0]],
         sent := s.sent + [s.source[0]], source := s.source[1..],
         writer := s.writer.(done := s.writer.done + 1))
    case PublishWrite =>
      var p := And(s.writePtr + s.writer.n, size - 1);
      s.(writePtr := p, writer := NextPart(s.writer, p), given := s.given + s.writer.n)
  }

  ghost predicate Initial(s: State) {
    && (exists k: nat :: k >= 1 && |s.buf| == Pow2(k))
    && s == State(s.buf, 0, 0, Out, Out, [], [], [], 0, 0)
  }

  ghost predicate IsRun(run: seq<State>, actions: seq<Action>) {
    && |run| == |actions| + 1 && Initial(run[0])
    && forall i :: 0 <= i < |actions| ==> Enabled(run[i], actions[i]) && run[i + 1] == Apply(run[i], actions[i])
  }

  /** The bytes read are a prefix of the bytes whose writing has been published, and
      every byte not yet released by the reader is still in its cell. */
  ghost predicate Safe(s: State) {
    && |s.buf| > 0 && s.taken <= |s.got| <= s.given <= |s.sent|
    && s.got == s.sent[..|s.got|]
    && forall j :: s.taken <= j < |s.sent| ==> s.buf[j % |s.buf|] == s.sent[j]
  }

  // ----- The invariant

  /** The part being copied starts at the pointer and stays inside the buffer; a second
      part follows only when the first reaches the end. */
  ghost predicate PartOk(pc: Pc, p: nat, size: nat) {
    pc.Part? ==> pc.from == p && pc.done <= pc.n && p + pc.n <= size && (pc.rest > 0 ==> p + pc.n == size)
  }

  /** Bytes copied of the current part, and bytes still claimed by the current call. */
  ghost function Done(pc: Pc): nat { if pc.Part? then pc.done else 0 }
  ghost function Claim(pc: Pc): nat { if pc.Part? then pc.n + pc.rest else 0 }

  ghost predicate Inv(s: State, k: nat) {
    var size := |s.buf|;
    && k >= 1 && size == Pow2(k)
    && s.readPtr == s.taken % size && s.writePtr == s.given % size
    && PartOk(s.reader, s.readPtr, size) && PartOk(s.writer, s.writePtr, size)
    && s.taken + Claim(s.reader) <= s.given
    && s.given + Claim(s.writer) - s.taken <= size - 1
    && |s.source| == Claim(s.writer) - Done(s.writer)
    && |s.sent| == s.given + Done(s.writer) && |s.got| == s.taken + Done(s.reader)
    && s.got == s.sent[..|s.got|]
    && Kept(s.buf, s.sent, s.taken)
  }

  ghost predicate Kept(buf: seq<byte>, sent: seq<byte>, taken: nat) {
    |buf| > 0 && forall j :: taken <= j < |sent| ==> buf[j % |buf|] == sent[j]
  }

  lemma InvIsSafe(s: State, k: nat)
    requires Inv(s, k)
    ensures Safe(s)
  {
  }

  /** What the space computations mean in terms of the totals. */
  lemma SpaceMeans(taken: nat, given: nat, k: nat)
    requires taken <= given <= taken + Pow2(k) - 1
    ensures var size := Pow2(k);
            && taken % size < size && given % size < size
            && ReadSpace(taken % size, given % size, size) == given - taken
            && WriteSpace(taken % size, given % size, size) == size - 1 - (given - taken)
  {
    var size := Pow2(k);
    var r, w, d := taken % size, given % size, given - taken;
    DistanceMod(taken, d, size);
    if w <= r { MaskWraps(w - r + size, k); }
    if w > r { MaskWraps(r - w + size, k); }
  }

  lemma DistanceMod(x: nat, d: nat, size: nat)
    requires d < size
    ensures x % size < size
    ensures (x + d) % size == if x % size + d < size then x % size + d else x % size + d - size
  {
    var q := x / size;
    assert x == q * size + x % size;
    if x % size + d < size { ModUnique(x + d, size, q, x % size + d); }
    else {
      assert x + d == (q + 1) * size + (x % size + d - size);
      ModUnique(x + d, size, q + 1, x % size + d - size);
    }
  }

  lemma StartOk(p: nat, n: nat, k: nat)
    requires p < Pow2(k) && n < Pow2(k)
    ensures PartOk(StartPart(p, n, Pow2(k)), p, Pow2(k))
    ensures Claim(StartPart(p, n, Pow2(k))) == n && Done(StartPart(p, n, Pow2(k))) == 0
  {
    if p + n > Pow2(k) { MaskWraps(p + n, k); }
  }

  /** A published pointer, and what is left to do, are consistent again. */
  lemma PublishOk(pc: Pc, total: nat, k: nat)
    requires pc.Part? && PartOk(pc, total % Pow2(k), Pow2(k)) && pc.rest < Pow2(k)
    ensures var p := And(total % Pow2(k) + pc.n, Pow2(k) - 1);
            && p == (total + pc.n) % Pow2(k)
            && PartOk(NextPart(pc, p), p, Pow2(k))
            && Claim(NextPart(pc, p)) == pc.rest && Done(NextPart(pc, p)) == 0
  {
    var size := Pow2(k);
    ModShift(total, pc.n, size);
    MaskWraps(total % size + pc.n, k);
  }

  // ----- Each action keeps the invariant

  lemma BeginReadKeeps(s: State, k: nat, cnt: nat)
    requires Inv(s, k) && s.reader.Out?
    ensures Enabled(s, BeginRead(cnt)) && Inv(Apply(s, BeginRead(cnt)), k)
  {
    hide ReadSpace, WriteSpace, StartPart, And, Pow2, Kept;
    SpaceMeans(s.taken, s.given, k);
    var free := s.given - s.taken;
    if free > 0 { StartOk(s.readPtr, Min(cnt, free), k); }
  }

  lemma BeginWriteKeeps(s: State, k: nat, data: seq<byte>)
    requires Inv(s, k) && s.writer.Out?
    ensures Enabled(s, BeginWrite(data)) && Inv(Apply(s, BeginWrite(data)), k)
  {
    hide ReadSpace, WriteSpace, StartPart, And, Pow2, Kept;
    SpaceMeans(s.taken, s.given, k);
    var free := |s.buf| - 1 - (s.given - s.taken);
    if free > 0 { StartOk(s.writePtr, Min(|data|, free), k); }
  }

  lemma CopyOutKeeps(s: State, k: nat)
    requires Inv(s, k) && Enabled(s, CopyOut)
    ensures Inv(Apply(s, CopyOut), k)
  {
    hide And, Pow2;
    ModShift(s.taken, s.reader.done, |s.buf|);
    var j := |s.got|;
    assert s.buf[j % |s.buf|] == s.sent[j];
    assert s.sent[..j + 1] == s.sent[..j] + [s.sent[j]];
  }

  lemma CopyInKeeps(s: State, k: nat)
    requires Inv(s, k) && Enabled(s, CopyIn)
    ensures Inv(Apply(s, CopyIn), k)
  {
    hide And, Pow2;
    var size, cell, x := |s.buf|, s.writer.from + s.writer.done, s.source[0];
    ModShift(s.given, s.writer.done, size);
    KeptByCopy(s.buf, s.sent, s.taken, cell, x);
    assert (s.sent + [x])[..|s.got|] == s.sent[..|s.got|];
  }

  /** The cell written lies outside the bytes that are still to be read. */
  lemma KeptByCopy(buf: seq<byte>, sent: seq<byte>, taken: nat, cell: nat, x: byte)
    requires Kept(buf, sent, taken) && |sent| - taken < |buf| && taken <= |sent|
    requires cell < |buf| && cell == |sent| % |buf|
    ensures Kept(buf[cell := x], sent + [x], taken)
  {
    forall j | taken <= j < |sent| + 1
      ensures buf[cell := x][j % |buf|] == (sent + [x])[j]
    {
      if j < |sent| && j % |buf| == cell { ModClose(j, |sent|, |buf|); }
    }
  }

  lemma PublishReadKeeps(s: State, k: nat)
    requires Inv(s, k) && Enabled(s, PublishRead)
    ensures Inv(Apply(s, PublishRead), k)
  {
    hide And, Pow2, NextPart;
    PublishOk(s.reader, s.taken, k);
  }

  lemma PublishWriteKeeps(s: State, k: nat)
    requires Inv(s, k) && Enabled(s, PublishWrite)
    ensures Inv(Apply(s, PublishWrite), k)
  {
    hide And, Pow2, NextPart, Kept;
    PublishOk(s.writer, s.given, k);
  }

  /** A thread inside a call can always take its next step, inside the buffer. */
  lemma NeverStuck(s: State, k: nat)
    requires Inv(s, k)
    ensures s.reader.Part? ==> Enabled(s, CopyOut) || Enabled(s, PublishRead)
    ensures s.writer.Part? ==> Enabled(s, CopyIn) || Enabled(s, PublishWrite)
  {
    hide Kept;
    assert s.writer.Part? && s.writer.done < s.writer.n ==> |s.source| > 0;
  }

  lemma StepKeeps(s: State, k: nat, a: Action)
    requires Inv(s, k) && Enabled(s, a)
    ensures Inv(Apply(s, a), k)
  {
    hide Inv;
    match a
    case BeginRead(cnt) => BeginReadKeeps(s, k, cnt);
    case CopyOut => CopyOutKeeps(s, k);
    case PublishRead => PublishReadKeeps(s, k);
    case BeginWrite(data) => BeginWriteKeeps(s, k, data);
    case CopyIn => CopyInKeeps(s, k);
    case PublishWrite => PublishWriteKeeps(s, k);
  }

  lemma {:induction false} RunKeepsInv(run: seq<State>, actions: seq<Action>, n: nat) returns (k: nat)
    requires IsRun(run, actions) && n <= |actions|
    ensures Inv(run[n], k)
    decreases n
  {
    if n == 0 {
      k :| k >= 1 && |run[0].buf| == Pow2(k);
      ModUnique(0, Pow2(k), 0, 0);
    } else {
      k := RunKeepsInv(run, actions, n - 1);
      assert Enabled(run[n - 1], actions[n - 1]) && run[n - 1 + 1] == Apply(run[n - 1], actions[n - 1]);
      hide Inv, Apply;
      StepKeeps(run[n - 1], k, actions[n - 1]);
    }
  }

  /** Safe for one reader and one writer: in every state of every interleaving. */
  lemma EveryRunIsSafe(run: seq<State>, actions: seq<Action>)
    requires IsRun(run, actions)
    ensures forall n :: 0 <= n < |run| ==> Safe(run[n])
  {
    forall n | 0 <= n < |run|
      ensures Safe(run[n])
    {
      var k := RunKeepsInv(run, actions, n);
      InvIsSafe(run[n], k);
    }
  }

  // ----- What the calls asked for

  /** The bytes a step lets in: of what a call offers, as much from its start as there is room
      for when the call begins. */
  ghost function LetIn(s: State, a: Action): seq<byte> {
    match a
    case BeginWrite(data) => data[..Min(|data|, Nat(|s.buf| - 1 - (s.given - s.taken)))]
    case _ => []
  }

  /** The number of bytes a step lets out: what the call asks for, or all there are. */
  ghost function LetOut(s: State, a: Action): nat {
    match a
    case BeginRead(cnt) => Min(cnt, Nat(s.given - s.taken))
    case _ => 0
  }

  ghost function Written(run: seq<State>, actions: seq<Action>, n: nat): seq<byte>
    requires n <= |actions| < |run|
  {
    if n == 0 then [] else Written(run, actions, n - 1) + LetIn(run[n - 1], actions[n - 1])
  }

  ghost function Promised(run: seq<State>, actions: seq<Action>, n: nat): nat
    requires n <= |actions| < |run|
  {
    if n == 0 then 0 else Promised(run, actions, n - 1) + LetOut(run[n - 1], actions[n - 1])
  }

  lemma StepLetsIn(s: State, k: nat, a: Action)
    requires Inv(s, k) && Enabled(s, a)
    ensures var t := Apply(s, a); t.sent + t.source == s.sent + s.source + LetIn(s, a)
  {
    hide Kept, PartOk, And, Pow2;
    match a
    case BeginWrite(data) =>
      SpaceMeans(s.taken, s.given, k);
      assert s.source == [];
    case CopyIn =>
      assert s.source == [s.source[0]] + s.source[1..];
    case _ =>
  }

  lemma StepLetsOut(s: State, k: nat, a: Action)
    requires Inv(s, k) && Enabled(s, a)
    ensures var t := Apply(s, a);
            |t.got| + Claim(t.reader) - Done(t.reader) == |s.got| + Claim(s.reader) - Done(s.reader) + LetOut(s, a)
  {
    hide Kept, And, Pow2, WriteSpace;
    match a
    case BeginRead(cnt) =>
      SpaceMeans(s.taken, s.given, k);
      StartOk(s.readPtr, LetOut(s, a), k);
    case _ =>
  }

  /** The bytes copied in, and those a write under way has still to copy, are what the calls
      offered, each cut to the room there was when it began. */
  lemma {:induction false} SentIsWritten(run: seq<State>, actions: seq<Action>, n: nat)
    requires IsRun(run, actions) && n <= |actions|
    ensures run[n].sent + run[n].source == Written(run, actions, n)
    decreases n
  {
    if n > 0 {
      SentIsWritten(run, actions, n - 1);
      var k := RunKeepsInv(run, actions, n - 1);
      assert Enabled(run[n - 1], actions[n - 1]) && run[n - 1 + 1] == Apply(run[n - 1], actions[n - 1]);
      hide Inv, Apply, LetIn;
      StepLetsIn(run[n - 1], k, actions[n - 1]);
    }
  }

  lemma {:induction false} GotIsPromised(run: seq<State>, actions: seq<Action>, n: nat)
    requires IsRun(run, actions) && n <= |actions|
    ensures |run[n].got| + Claim(run[n].reader) - Done(run[n].reader) == Promised(run, actions, n)
    decreases n
  {
    if n > 0 {
      GotIsPromised(run, actions, n - 1);
      var k := RunKeepsInv(run, actions, n - 1);
      assert Enabled(run[n - 1], actions[n - 1]) && run[n - 1 + 1] == Apply(run[n - 1], actions[n - 1]);
      hide Inv, Apply, LetOut;
      StepLetsOut(run[n - 1], k, actions[n - 1]);
    }
  }

  /** In every state of every interleaving the bytes read are a prefix of what the writes
      offered and there was room for, all of it sent between writes, and between reads
      exactly as many as the reads asked for and there were. */
  lemma EveryRunDelivers(run: seq<State>, actions: seq<Action>, n: nat)
    requires IsRun(run, actions) && n <= |actions|
    ensures run[n].got <= Written(run, actions, n)
    ensures run[n].writer.Out? ==> run[n].sent == Written(run, actions, n)
    ensures run[n].reader.Out? ==> |run[n].got| == Promised(run, actions, n)
  {
    var k := RunKeepsInv(run, actions, n);
    SentIsWritten(run, actions, n);
    GotIsPromised(run, actions, n);
    var s := run[n];
    assert s.got == (s.sent + s.source)[..|s.got|];
    hide Kept, PartOk, Written, Promised;
    assert s.writer.Out? ==> s.source == [];
  }
}
