/**
 The layout of a MIDI port buffer: an event table that grows upward after the header
 and event data that grows downward from the end, in one array of bytes.
 */
module MidiLayout {
  import opened Collections

  const HEADER: nat := 20
  const ENTRY: nat := 8
  const INLINE_MAX: nat := 4

  /** An event as handed to the buffer. */
  datatype Event = Event(time: nat, data: seq<byte>)

  // ----- Numbers in the table, least significant byte first

  function U16(b: seq<byte>, o: nat): nat
    requires o + 2 <= |b|
  {
    b[o] as int + 256 * b[o + 1] as int
  }

  function U32(b: seq<byte>, o: nat): nat
    requires o + 4 <= |b|
  {
    b[o] as int + 256 * b[o + 1] as int + 65536 * b[o + 2] as int + 16777216 * b[o + 3] as int
  }

  function Byte(x: nat, k: nat): byte
    requires k < 4
  {
    if k == 0 then x % 256
    else if k == 1 then (x / 256) % 256
    else if k == 2 then (x / 65536) % 256
    else (x / 16777216) % 256
  }

  function Put16(b: seq<byte>, o: nat, x: nat): seq<byte>
    requires o + 2 <= |b|
  {
    b[o := Byte(x, 0)][o + 1 := Byte(x, 1)]
  }

  function Put32(b: seq<byte>, o: nat, x: nat): seq<byte>
    requires o + 4 <= |b|
  {
    b[o := Byte(x, 0)][o + 1 := Byte(x, 1)][o + 2 := Byte(x, 2)][o + 3 := Byte(x, 3)]
  }

  lemma Digits16(x: nat)
    requires x < 65536
    ensures Byte(x, 0) as int + 256 * Byte(x, 1) as int == x
  {
  }

  lemma Digits32(x: nat)
    requires x < 0x1_0000_0000
    ensures Byte(x, 0) as int + 256 * Byte(x, 1) as int + 65536 * Byte(x, 2) as int + 16777216 * Byte(x, 3) as int == x
  {
    var low, high := x % 65536, x / 65536;
    Digits16(low);
    Digits16(high);
    assert Byte(x, 2) == Byte(high, 0) && Byte(x, 3) == Byte(high, 1);
    LowBytes(x);
    hide Byte;
  }

  lemma LowBytes(x: nat)
    ensures Byte(x, 0) == Byte(x % 65536, 0) && Byte(x, 1) == Byte(x % 65536, 1)
  {
    var high, low := x / 65536, x % 65536;
    assert x == 65536 * high + low;
    assert x / 256 == 256 * high + low / 256;
  }

  /** data copied to position o. */
  function Splice(b: seq<byte>, o: nat, data: seq<byte>): seq<byte>
    requires o + |data| <= |b|
  {
    b[..o] + data + b[o + |data|..]
  }

  // ----- Positions

  function At(i: nat): nat {
    HEADER + ENTRY * i
  }

  /** How far the data area reaches down after the first n events. */
  ghost function Reach(log: seq<Event>, n: nat): nat
    requires n <= |log|
  {
    if n == 0 then 0
    else Reach(log, n - 1) + (if |log[n - 1].data| <= INLINE_MAX then 0 else |log[n - 1].data|)
  }

  /** Where event i is kept. The data area ends one byte before the end of the buffer. */
  ghost function Place(size: nat, log: seq<Event>, i: nat): int
    requires i < |log|
  {
    if |log[i].data| <= INLINE_MAX then At(i) + 4 else size - 1 - Reach(log, i + 1)
  }

  /** Table and data fit: the space test ignores the spare byte at the end. */
  ghost predicate Fits(size: nat, log: seq<Event>) {
    At(|log|) + Reach(log, |log|) <= size
  }

  /** The same with the spare byte counted. */
  ghost predicate Roomy(size: nat, log: seq<Event>) {
    At(|log|) + Reach(log, |log|) < size
  }

  lemma {:induction false} ReachMonotone(log: seq<Event>, i: nat, j: nat)
    requires i <= j <= |log|
    ensures Reach(log, i) <= Reach(log, j)
    decreases j - i
  {
    if i < j { ReachMonotone(log, i, j - 1); }
  }

  lemma {:induction false} ReachPrefix(log: seq<Event>, e: Event, n: nat)
    requires n <= |log|
    ensures Reach(log + [e], n) == Reach(log, n)
    decreases n
  {
    if n > 0 { ReachPrefix(log, e, n - 1); }
  }

  /** Out-of-line data lies inside the buffer, above the table but for one byte, and
      regions of different events are disjoint. */
  lemma RegionsApart(size: nat, log: seq<Event>, i: nat, j: nat)
    requires Fits(size, log) && i < |log| && |log[i].data| > INLINE_MAX
    ensures At(|log|) - 1 <= Place(size, log, i) && Place(size, log, i) + |log[i].data| <= size - 1
    ensures Roomy(size, log) ==> At(|log|) <= Place(size, log, i)
    ensures i < j < |log| && |log[j].data| > INLINE_MAX ==>
              Place(size, log, j) + |log[j].data| <= Place(size, log, i)
  {
    ReachMonotone(log, i + 1, |log|);
    if i < j < |log| { ReachMonotone(log, i + 1, j); }
  }

  // ----- Reading an event back

  ghost predicate InBuffer(b: seq<byte>, i: nat) {
    At(i + 1) <= |b|
  }

  /** Event i of the log reads back: same time, same size, at the place it was given,
      with the same data. */
  ghost predicate Intact(b: seq<byte>, log: seq<Event>, i: nat)
    requires i < |log| && InBuffer(b, i)
  {
    var e, p := log[i], Place(|b|, log, i);
    && U16(b, At(i)) == e.time && U16(b, At(i) + 2) == |e.data|
    && (|e.data| > INLINE_MAX ==> U32(b, At(i) + 4) == p)
    && 0 <= p && p + |e.data| <= |b| && b[p..p + |e.data|] == e.data
  }

  /** The numbers of an event fit the 16-bit fields of its table entry. */
  predicate Small(e: Event) {
    e.time < 65536 && |e.data| < 65536
  }

  ghost predicate AllIntact(b: seq<byte>, log: seq<Event>) {
    forall i :: 0 <= i < |log| && Small(log[i]) ==> InBuffer(b, i) && Intact(b, log, i)
  }

  // ----- Writing an event

  /** The table entry for an event of the given time and size, kept at place p. */
  function Entered(b: seq<byte>, i: nat, time: nat, size: nat, p: nat): seq<byte>
    requires At(i + 1) <= |b|
  {
    var c := Put16(Put16(b, At(i), time % 65536), At(i) + 2, size % 65536);
    if size <= INLINE_MAX then c else Put32(c, At(i) + 4, p)
  }

  ghost predicate CanHold(size: nat, log: seq<Event>, e: Event) {
    |e.data| > 0 && Fits(size, log) && Fits(size, log + [e])
  }

  /** The whole buffer after event e is appended: reserve, then copy. */
  ghost function Appended(b: seq<byte>, log: seq<Event>, e: Event): (r: seq<byte>)
    requires CanHold(|b|, log, e)
    ensures |r| == |b|
  {
    var p := NewPlace(|b|, log, e);
    Splice(Entered(b, |log|, e.time, |e.data|, p), p, e.data)
  }

  ghost function NewPlace(size: nat, log: seq<Event>, e: Event): nat
    requires CanHold(size, log, e)
    ensures NewPlace(size, log, e) == Place(size, log + [e], |log|)
    ensures NewPlace(size, log, e) + |e.data| <= size && At(|log| + 1) <= size
    ensures |e.data| > INLINE_MAX ==> NewPlace(size, log, e) >= At(|log| + 1) - 1
  {
    ReachPrefix(log, e, |log|);
    Place(size, log + [e], |log|)
  }

  /** The byte at position x is neither in the new table entry nor in the new data. */
  ghost predicate Untouched(size: nat, log: seq<Event>, e: Event, x: nat)
    requires CanHold(size, log, e)
  {
    var p := NewPlace(size, log, e);
    && !(At(|log|) <= x < At(|log|) + (if |e.data| > INLINE_MAX then ENTRY else 4))
    && !(p <= x < p + |e.data|)
  }

  ghost predicate UntouchedRange(size: nat, log: seq<Event>, e: Event, from: int, n: nat)
    requires CanHold(size, log, e)
  {
    forall x: nat :: from <= x < from + n ==> Untouched(size, log, e, x)
  }

  lemma EnteredFrame(b: seq<byte>, i: nat, time: nat, size: nat, p: nat, x: nat)
    requires At(i + 1) <= |b| && x < |b|
    requires !(At(i) <= x < At(i) + (if size > INLINE_MAX then ENTRY else 4))
    ensures |Entered(b, i, time, size, p)| == |b| && Entered(b, i, time, size, p)[x] == b[x]
  {
  }

  lemma AppendFrame(b: seq<byte>, log: seq<Event>, e: Event, x: nat)
    requires CanHold(|b|, log, e) && x < |b| && Untouched(|b|, log, e, x)
    ensures Appended(b, log, e)[x] == b[x]
  {
    hide Entered;
    EnteredFrame(b, |log|, e.time, |e.data|, NewPlace(|b|, log, e), x);
  }

  lemma EnteredReads(b: seq<byte>, i: nat, time: nat, size: nat, p: nat)
    requires At(i + 1) <= |b| && time < 65536 && size < 65536 && p < 0x1_0000_0000
    ensures var r := Entered(b, i, time, size, p);
            && |r| == |b| && U16(r, At(i)) == time && U16(r, At(i) + 2) == size
            && (size > INLINE_MAX ==> U32(r, At(i) + 4) == p)
  {
    hide Byte;
    Digits16(time);
    Digits16(size);
    Digits32(p);
  }

  /** An earlier event survives if none of its bytes are touched. */
  lemma {:induction false} EarlierSurvives(b: seq<byte>, log: seq<Event>, e: Event, i: nat)
    requires CanHold(|b|, log, e) && i < |log| && InBuffer(b, i) && Intact(b, log, i)
    requires |log[i].data| > INLINE_MAX ==>
      UntouchedRange(|b|, log, e, Place(|b|, log, i), |log[i].data|)
    ensures Intact(Appended(b, log, e), log + [e], i)
  {
    hide Appended, Untouched, U16, U32;
    var r, p := Appended(b, log, e), Place(|b|, log, i);
    SamePlace(|b|, log, e, i);
    SameEntry(b, log, e, i);
    SameData(b, r, log, e, i, p);
  }

  lemma SamePlace(size: nat, log: seq<Event>, e: Event, i: nat)
    requires i < |log|
    ensures Place(size, log + [e], i) == Place(size, log, i) && (log + [e])[i] == log[i]
  {
    ReachPrefix(log, e, i + 1);
  }

  /** The table entry of an earlier event is not touched. */
  lemma SameEntry(b: seq<byte>, log: seq<Event>, e: Event, i: nat)
    requires CanHold(|b|, log, e) && i < |log| && InBuffer(b, i)
    requires |log[i].data| > INLINE_MAX ==> UntouchedRange(|b|, log, e, Place(|b|, log, i), |log[i].data|)
    ensures InBuffer(Appended(b, log, e), i)
    ensures var r := Appended(b, log, e);
            U16(r, At(i)) == U16(b, At(i)) && U16(r, At(i) + 2) == U16(b, At(i) + 2) && U32(r, At(i) + 4) == U32(b, At(i) + 4)
  {
    hide Appended;
    forall x | At(i) <= x < At(i + 1)
      ensures Appended(b, log, e)[x] == b[x]
    {
      AppendFrame(b, log, e, x);
    }
  }

  lemma SameData(b: seq<byte>, r: seq<byte>, log: seq<Event>, e: Event, i: nat, p: nat)
    requires CanHold(|b|, log, e) && r == Appended(b, log, e) && i < |log|
    requires p + |log[i].data| <= |b|
    requires |log[i].data| > INLINE_MAX ==> UntouchedRange(|b|, log, e, p, |log[i].data|)
    requires |log[i].data| <= INLINE_MAX ==> p == At(i) + 4
    ensures r[p..p + |log[i].data|] == b[p..p + |log[i].data|]
  {
    hide Appended;
    forall x | p <= x < p + |log[i].data|
      ensures r[x] == b[x]
    {
      AppendFrame(b, log, e, x);
    }
  }

  lemma AwayFromNew(size: nat, log: seq<Event>, e: Event, i: nat)
    requires CanHold(size, log, e) && i < |log|
    requires Roomy(size, log + [e]) || |e.data| > INLINE_MAX || |e.data| <= 3
    ensures |log[i].data| > INLINE_MAX ==> UntouchedRange(size, log, e, Place(size, log, i), |log[i].data|)
  {
    if |log[i].data| > INLINE_MAX {
      var all := log + [e];
      ReachPrefix(log, e, i + 1);
      assert Place(size, all, i) == Place(size, log, i);
      RegionsApart(size, all, i, |log|);
    }
  }

  lemma NewReads(b: seq<byte>, log: seq<Event>, e: Event)
    requires CanHold(|b|, log, e) && Small(e) && |b| < 0x8000_0000
    requires |e.data| > INLINE_MAX ==>
      (NewPlace(|b|, log, e) >= At(|log| + 1) || Byte(NewPlace(|b|, log, e), 3) == e.data[0])
    ensures Intact(Appended(b, log, e), log + [e], |log|)
  {
    var n, p := |log|, NewPlace(|b|, log, e);
    var c := Entered(b, n, e.time, |e.data|, p);
    EnteredReads(b, n, e.time, |e.data|, p);
    if |e.data| > INLINE_MAX { Byte3At(b, n, e.time, |e.data|, p); }
    hide Entered;
    var r := Splice(c, p, e.data);
    assert forall x :: 0 <= x < p ==> r[x] == c[x];
    assert r[p..p + |e.data|] == e.data;
    if |e.data| > INLINE_MAX && p == At(n + 1) - 1 { assert r[p] == e.data[0] == c[p]; }
  }

  lemma Byte3At(b: seq<byte>, i: nat, time: nat, size: nat, p: nat)
    requires At(i + 1) <= |b| && size > INLINE_MAX
    ensures |Entered(b, i, time, size, p)| == |b| && Entered(b, i, time, size, p)[At(i) + 7] == Byte(p, 3)
  {
    hide Byte;
  }

  // ----- At exact fill

  /** When the buffer is filled to the last counted byte, no further event is accepted. */
  lemma FullIsFinal(size: nat, log: seq<Event>, e: Event)
    requires Fits(size, log) && !Roomy(size, log)
    ensures !CanHold(size, log, e)
  {
    ReachPrefix(log, e, |log|);
  }

  /** A buffer of the size of the header and one entry takes one short event, and then no more. */
  lemma OneShortEvent(e: Event, f: Event)
    requires 0 < |e.data| <= INLINE_MAX
    ensures CanHold(HEADER + ENTRY, [], e) && !CanHold(HEADER + ENTRY, [e], f)
  {
    assert Reach([e], 1) == 0 && Reach([e, f], 1) == 0;
    assert [] + [e] == [e] && [e] + [f] == [e, f];
  }

  /** Sizes that lose nothing even when they fill the buffer exactly. */
  ghost predicate Harmless(log: seq<Event>, n: nat) {
    n <= 3 || (n == 4 && Reach(log, |log|) == 0)
  }

  /** The write leaves the spare byte, or is of a size that does not need it. */
  ghost predicate Sparing(size: nat, log: seq<Event>, e: Event) {
    Roomy(size, log + [e]) || Harmless(log, |e.data|)
  }

  lemma KeepsEarlier(b: seq<byte>, log: seq<Event>, e: Event, i: nat)
    requires CanHold(|b|, log, e) && Sparing(|b|, log, e) && i < |log| && InBuffer(b, i) && Intact(b, log, i)
    ensures InBuffer(Appended(b, log, e), i) && Intact(Appended(b, log, e), log + [e], i)
  {
    hide Appended, Intact;
    if Harmless(log, |e.data|) && |e.data| == 4 { ReachMonotone(log, i + 1, |log|); } else { AwayFromNew(|b|, log, e, i); }
    EarlierSurvives(b, log, e, i);
  }

  lemma KeepsNew(b: seq<byte>, log: seq<Event>, e: Event)
    requires CanHold(|b|, log, e) && Sparing(|b|, log, e) && Small(e) && |b| < 0x8000_0000
    ensures InBuffer(Appended(b, log, e), |log|) && Intact(Appended(b, log, e), log + [e], |log|)
  {
    hide Appended, Intact;
    NewReads(b, log, e);
  }

  /** Such a write keeps every event whose numbers fit their fields readable, the new one
      included. */
  lemma AppendKeeps(b: seq<byte>, log: seq<Event>, e: Event)
    requires CanHold(|b|, log, e) && Sparing(|b|, log, e) && AllIntact(b, log) && |b| < 0x8000_0000
    ensures AllIntact(Appended(b, log, e), log + [e])
  {
    hide Appended, Intact, CanHold, Sparing;
    var r, next := Appended(b, log, e), log + [e];
    forall i | 0 <= i < |next| && Small(next[i])
      ensures InBuffer(r, i) && Intact(r, next, i)
    {
      if i < |log| { KeepsEarlier(b, log, e, i); } else { KeepsNew(b, log, e); }
    }
  }

  /** A large event that fills exactly: its first byte lands on the last byte of its own
      table entry. */
  lemma LargeFillBreaks(b: seq<byte>, log: seq<Event>, e: Event)
    requires CanHold(|b|, log, e) && !Roomy(|b|, log + [e]) && |e.data| > INLINE_MAX && |b| < 0x8000_0000
    requires Small(e) && e.data[0] != Byte(NewPlace(|b|, log, e), 3)
    ensures !Intact(Appended(b, log, e), log + [e], |log|)
  {
    var n, p := |log|, NewPlace(|b|, log, e);
    var c := Entered(b, n, e.time, |e.data|, p);
    EnteredReads(b, n, e.time, |e.data|, p);
    Byte3At(b, n, e.time, |e.data|, p);
    hide Entered;
    var r := Appended(b, log, e);
    assert p == At(n) + 7;
    assert r == Splice(c, p, e.data);
    assert r[p] == e.data[0] && forall x :: 0 <= x < p ==> r[x] == c[x];
  }

  /** The most recent event with out-of-line data. */
  lemma {:induction false} LastLarge(log: seq<Event>, n: nat) returns (i: nat)
    requires n <= |log| && Reach(log, n) > 0
    ensures i < n && |log[i].data| > INLINE_MAX && Reach(log, i + 1) == Reach(log, n)
    decreases n
  {
    if |log[n - 1].data| > INLINE_MAX { i := n - 1; } else { i := LastLarge(log, n - 1); }
  }

  /** A four-byte event that fills exactly: its last byte lands on the first byte of the
      most recent out-of-line data. */
  lemma InlineFillBreaks(b: seq<byte>, log: seq<Event>, e: Event, i: nat)
    requires CanHold(|b|, log, e) && !Roomy(|b|, log + [e]) && |e.data| == 4
    requires i < |log| && |log[i].data| > INLINE_MAX && Reach(log, i + 1) == Reach(log, |log|)
    requires InBuffer(b, i) && e.data[3] != log[i].data[0]
    ensures InBuffer(b, i) && !Intact(Appended(b, log, e), log + [e], i)
  {
    var r, p := Appended(b, log, e), Place(|b|, log, i);
    ReachPrefix(log, e, |log|);
    ReachPrefix(log, e, i + 1);
    assert Place(|b|, log + [e], i) == p == At(|log|) + 7;
    var c := Entered(b, |log|, e.time, 4, At(|log|) + 4);
    hide Entered;
    RegionsApart(|b|, log + [e], i, i);
    assert r[p] == e.data[3] && r[p..p + |log[i].data|][0] == r[p];
  }

  /** Every event reads back, without exception. */
  ghost predicate EveryIntact(b: seq<byte>, log: seq<Event>) {
    forall i :: 0 <= i < |log| ==> InBuffer(b, i) && Intact(b, log, i)
  }

  /** An event whose numbers do not fit their 16-bit fields never reads back. */
  lemma IntactIsSmall(b: seq<byte>, log: seq<Event>, i: nat)
    requires i < |log| && InBuffer(b, i) && Intact(b, log, i)
    ensures Small(log[i])
  {
  }

  /** The exact condition for an accepted write to lose nothing, whatever its data: time and
      size fit their fields, and the write leaves the spare byte or is of a harmless size. */
  lemma WriteLosesNothingIff(b: seq<byte>, log: seq<Event>, time: nat, n: nat)
    requires |b| < 0x8000_0000 && EveryIntact(b, log) && CanHold(|b|, log, Event(time, Zeros(n)))
    ensures (forall data: seq<byte> :: |data| == n ==>
               CanHold(|b|, log, Event(time, data)) &&
               EveryIntact(Appended(b, log, Event(time, data)), log + [Event(time, data)]))
       <==> time < 65536 && n < 65536 && Sparing(|b|, log, Event(time, Zeros(n)))
  {
    var z := Event(time, Zeros(n));
    forall data: seq<byte> | |data| == n
      ensures CanHold(|b|, log, Event(time, data)) && (Sparing(|b|, log, Event(time, data)) <==> Sparing(|b|, log, z))
    {
      SameReach(log, z, Event(time, data));
    }
    hide Reach, Fits, Roomy, Sparing, CanHold, Appended;
    if Small(z) && Sparing(|b|, log, z) {
      forall data: seq<byte> | |data| == n
        ensures EveryIntact(Appended(b, log, Event(time, data)), log + [Event(time, data)])
      {
        SparingKeepsEvery(b, log, Event(time, data));
      }
    } else if Small(z) {
      var data := BreakingData(b, log, time, n);
      assert |data| == n;
    } else {
      TooLargeBreaks(b, log, z);
    }
  }

  lemma SparingKeepsEvery(b: seq<byte>, log: seq<Event>, e: Event)
    requires CanHold(|b|, log, e) && Sparing(|b|, log, e) && Small(e) && EveryIntact(b, log) && |b| < 0x8000_0000
    ensures EveryIntact(Appended(b, log, e), log + [e])
  {
    hide Appended, Intact, CanHold, Sparing;
    var r, next := Appended(b, log, e), log + [e];
    forall i | 0 <= i < |next|
      ensures InBuffer(r, i) && Intact(r, next, i)
    {
      if i < |log| { KeepsEarlier(b, log, e, i); } else { KeepsNew(b, log, e); }
    }
  }

  lemma TooLargeBreaks(b: seq<byte>, log: seq<Event>, e: Event)
    requires CanHold(|b|, log, e) && !Small(e)
    ensures !EveryIntact(Appended(b, log, e), log + [e])
  {
    hide Appended, Intact;
    var r, next := Appended(b, log, e), log + [e];
    if InBuffer(r, |log|) && Intact(r, next, |log|) { IntactIsSmall(r, next, |log|); }
    assert next[|log|] == e;
  }

  function Zeros(n: nat): seq<byte> {
    seq(n, _ => 0)
  }

  lemma SameReach(log: seq<Event>, d: Event, e: Event)
    requires |d.data| == |e.data|
    ensures Reach(log + [d], |log| + 1) == Reach(log + [e], |log| + 1)
  {
    ReachPrefix(log, d, |log|);
    ReachPrefix(log, e, |log|);
  }

  /** Data that gets lost, or makes other data get lost. */
  lemma BreakingData(b: seq<byte>, log: seq<Event>, time: nat, n: nat) returns (data: seq<byte>)
    requires |b| < 0x8000_0000 && time < 65536 && n < 65536 && EveryIntact(b, log)
    requires CanHold(|b|, log, Event(time, Zeros(n))) && !Sparing(|b|, log, Event(time, Zeros(n)))
    ensures |data| == n && CanHold(|b|, log, Event(time, data))
    ensures !EveryIntact(Appended(b, log, Event(time, data)), log + [Event(time, data)])
  {
    var z := Event(time, Zeros(n));
    if n > INLINE_MAX {
      var hi := Byte(NewPlace(|b|, log, z), 3);
      data := Zeros(n)[0 := if hi == 0 then 1 else 0];
      var e := Event(time, data);
      SameReach(log, z, e);
      assert NewPlace(|b|, log, e) == NewPlace(|b|, log, z);
      LargeFillBreaks(b, log, e);
    } else {
      var i := LastLarge(log, |log|);
      assert InBuffer(b, i);
      data := Zeros(4)[3 := if log[i].data[0] == 0 then 1 else 0];
      var e := Event(time, data);
      SameReach(log, z, e);
      InlineFillBreaks(b, log, e, i);
    }
  }
}
