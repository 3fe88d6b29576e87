/** A MIDI port buffer, changed in place by reserve, write and clear. */
module MidiBuffer {
  import opened Collections
  import opened MidiLayout

  /** What jack_midi_event_get fills in: time, size and the place of the data. */
  datatype Found = Found(time: nat, size: nat, place: nat)

  ghost predicate AllSmall(log: seq<Event>) {
    forall i :: 0 <= i < |log| ==> Small(log[i])
  }

  ghost predicate Sorted(log: seq<Event>) {
    forall i, j :: 0 <= i < j < |log| ==> log[i].time <= log[j].time
  }

  /** The size of the largest event that is still accepted. */
  function MaxSize(size: nat, count: nat, reach: nat): nat {
    var used := HEADER + reach + (count + 1) * ENTRY;
    if used > size then 0
    else if size - used < INLINE_MAX then INLINE_MAX
    else size - used
  }

  lemma MaxSizeMeans(size: nat, log: seq<Event>, e: Event)
    requires Fits(size, log) && |e.data| > 0
    ensures |e.data| <= MaxSize(size, |log|, Reach(log, |log|)) <==> CanHold(size, log, e)
  {
    ReachPrefix(log, e, |log|);
    assert Reach(log + [e], |log| + 1) == Reach(log, |log|) + (if |e.data| <= INLINE_MAX then 0 else |e.data|);
    hide Reach;
    assert |log + [e]| == |log| + 1;
  }

  /** A buffer with this log takes event e next. */
  ghost predicate Takes(size: nat, nframes: nat, log: seq<Event>, e: Event) {
    && e.time < nframes && (log != [] ==> log[|log| - 1].time <= e.time)
    && CanHold(size, log, e)
  }

  datatype Operation = Write(time: nat, data: seq<byte>) | Reserve(time: nat, size: nat) | Clear

  /** The events accepted and the number lost since the last clear. */
  datatype Account = Account(log: seq<Event>, lost: nat)

  /** One more event of the given time and size, or one more lost. */
  ghost predicate Counted(s: Account, t: Account, time: nat, size: nat) {
    || t == s.(lost := s.lost + 1)
    || (t.lost == s.lost && |t.log| == |s.log| + 1 && t.log[..|s.log|] == s.log
        && t.log[|s.log|].time == time && |t.log[|s.log|].data| == size)
  }

  ghost predicate Did(size: nat, nframes: nat, s: Account, t: Account, op: Operation) {
    match op
    case Write(time, data) =>
      && (t == s.(lost := s.lost + 1) || t == s.(log := s.log + [Event(time, data)]))
      && (AllSmall(s.log) ==> (t.lost == s.lost <==> Takes(size, nframes, s.log, Event(time, data))))
    case Reserve(time, n) =>
      && Counted(s, t, time, n)
      && (AllSmall(s.log) ==> (t.lost == s.lost <==> Takes(size, nframes, s.log, Event(time, Zeros(n)))))
    case Clear => t == Account([], 0)
  }

  lemma SameTaken(size: nat, nframes: nat, log: seq<Event>, time: nat, n: nat)
    ensures Takes(size, nframes, log, Event(time, Zeros(n))) ==> n > 0
  {
  }

  ghost predicate Large(e: Event) {
    |e.data| > INLINE_MAX
  }

  /** Two out-of-line regions lie in the buffer and apart, the later one below. */
  ghost predicate RegionsFit(size: nat, log: seq<Event>, i: nat, j: nat)
    requires i < j < |log|
  {
    && 0 <= Place(size, log, j) && Place(size, log, j) + |log[j].data| <= Place(size, log, i)
    && Place(size, log, i) + |log[i].data| < size
  }

  /** The spare byte is free, or the last event was of a size that did not need it. */
  ghost predicate Unharmed(size: nat, log: seq<Event>) {
    Roomy(size, log) || (log != [] && Harmless(log[..|log| - 1], |log[|log| - 1].data|))
  }

  lemma UnharmedBySparing(size: nat, log: seq<Event>, e: Event)
    ensures Unharmed(size, log + [e]) <==> Sparing(size, log, e)
  {
    assert (log + [e])[..|log|] == log;
  }

  class MidiBuffer {
    const bytes: array<byte>
    const nframes: nat
    var eventCount: nat
    var lastWriteLoc: nat
    var eventsLost: nat
    /** The events accepted since the last clear. */
    ghost var log: seq<Event>

    ghost predicate Valid()
      reads this, bytes
    {
      && HEADER <= bytes.Length < 0x8000_0000
      && eventCount == |log| && lastWriteLoc == Reach(log, |log|) && Fits(bytes.Length, log)
      && (forall i :: 0 <= i < |log| ==> log[i].time < nframes && |log[i].data| > 0)
      && (AllSmall(log) ==> Sorted(log))
      && (Unharmed(bytes.Length, log) ==> AllIntact(bytes[..], log))
    }

    /** jack_midi_buffer_init. */
    constructor (bytes: array<byte>, nframes: nat)
      requires HEADER <= bytes.Length < 0x8000_0000
      ensures Valid() && log == [] && eventsLost == 0 && this.bytes == bytes && this.nframes == nframes
    {
      this.bytes, this.nframes := bytes, nframes;
      eventCount, lastWriteLoc, eventsLost, log := 0, 0, 0, [];
    }

    /** jack_midi_clear_buffer. */
    method Clear()
      requires HEADER <= bytes.Length < 0x8000_0000
      modifies this
      ensures Valid() && log == [] && eventCount == 0 && eventsLost == 0
    {
      eventCount, lastWriteLoc, eventsLost := 0, 0, 0;
      log := [];
    }

    /** jack_midi_max_event_size. */
    method MaxEventSize() returns (n: nat)
      requires Valid()
      ensures forall e: Event :: |e.data| > 0 ==> (|e.data| <= n <==> CanHold(bytes.Length, log, e))
    {
      n := MaxSize(bytes.Length, eventCount, lastWriteLoc);
      forall e: Event | |e.data| > 0
        ensures |e.data| <= n <==> CanHold(bytes.Length, log, e)
      {
        MaxSizeMeans(bytes.Length, log, e);
      }
    }

    /** jack_midi_event_get: every event that is intact reads back, and all are as long as the
        buffer is unharmed. */
    method Get(i: nat) returns (r: Option<Found>)
      requires Valid()
      ensures r.None? <==> i >= eventCount
      ensures r.Some? ==> InBuffer(bytes[..], i)
      ensures r.Some? && Unharmed(bytes.Length, log) && Small(log[i]) ==> Intact(bytes[..], log, i)
      ensures r.Some? && Intact(bytes[..], log, i) ==>
        && r.value.time == log[i].time && r.value.size == |log[i].data|
        && r.value.place + r.value.size <= bytes.Length
        && bytes[r.value.place..r.value.place + r.value.size] == log[i].data
    {
      if i >= eventCount { return None; }
      EntryInside(bytes.Length, log, i);
      var time, size := U16(bytes[..], At(i)), U16(bytes[..], At(i) + 2);
      r := Some(Found(time, size, if size <= INLINE_MAX then At(i) + 4 else U32(bytes[..], At(i) + 4)));
    }

    /** The tests made before an event is accepted. */
    method Admits(time: nat, size: nat) returns (ok: bool)
      requires Valid()
      ensures ok ==> size > 0 && time < nframes && CanHold(bytes.Length, log, Event(time, Zeros(size)))
      ensures AllSmall(log) ==> (ok <==> size > 0 && Takes(bytes.Length, nframes, log, Event(time, Zeros(size))))
      ensures ok && AllSmall(log) && log != [] ==> log[|log| - 1].time <= time
    {
      hide CanHold, Intact;
      if time >= nframes { return false; }
      LastTime(bytes[..], log);
      if size == 0 { return false; }
      var max := MaxEventSize();
      assert size <= max <==> CanHold(bytes.Length, log, Event(time, Zeros(size)));
      if eventCount > 0 && time < U16(bytes[..], At(eventCount - 1)) {
        HeldMeansRoomy(bytes.Length, log, Event(time, Zeros(size)));
        return false;
      }
      HeldMeansRoomy(bytes.Length, log, Event(time, Zeros(size)));
      ok := size <= max;
    }

    /** jack_midi_event_reserve: on success the table entry is written and a place for
        the data returned; on failure the event is counted as lost. */
    method Reserve(time: nat, size: nat) returns (place: Option<nat>)
      requires Valid()
      modifies this, bytes
      ensures Valid()
      ensures place.Some? ==>
        && size > 0 && CanHold(bytes.Length, old(log), Event(time, Zeros(size)))
        && place.value == NewPlace(bytes.Length, old(log), Event(time, Zeros(size)))
        && bytes[..] == Entered(old(bytes[..]), |old(log)|, time, size, place.value)
        && log == old(log) + [Event(time, bytes[place.value..place.value + size])]
        && eventsLost == old(eventsLost) && (AllSmall(old(log)) && old(log) != [] ==> old(log)[|old(log)| - 1].time <= time)
        && time < nframes
      ensures place.None? ==>
        log == old(log) && bytes[..] == old(bytes[..]) && eventsLost == old(eventsLost) + 1
      ensures AllSmall(old(log)) ==>
        (place.Some? <==> size > 0 && Takes(bytes.Length, nframes, old(log), Event(time, Zeros(size))))
    {
      hide AllIntact, Entered, CanHold, Takes, Reach, Fits, Roomy, Unharmed;
      var ok := Admits(time, size);
      if !ok {
        eventsLost := eventsLost + 1;
        return None;
      }
      ghost var b, before := bytes[..], log;
      var n := eventCount;
      ghost var z := Event(time, Zeros(size));
      PlaceFacts(bytes.Length, log, z);
      if size > INLINE_MAX { lastWriteLoc := lastWriteLoc + size; }
      var p := if size <= INLINE_MAX then At(n) + 4 else bytes.Length - 1 - lastWriteLoc;
      Enter(n, time, size, p);
      eventCount := eventCount + 1;
      log := log + [Event(time, bytes[p..p + size])];
      place := Some(p);
      assert bytes[p..p + size] == bytes[..][p..p + size];
      ReservedValid(b, before, time, size, p);
      SortedMore(before, log[|before|]);
    }

    /** The table entry. */
    method Enter(i: nat, time: nat, size: nat, p: nat)
      requires At(i + 1) <= bytes.Length
      modifies bytes
      ensures bytes[..] == Entered(old(bytes[..]), i, time, size, p)
    {
      hide Byte;
      var o := At(i);
      bytes[o], bytes[o + 1] := Byte(time % 65536, 0), Byte(time % 65536, 1);
      bytes[o + 2], bytes[o + 3] := Byte(size % 65536, 0), Byte(size % 65536, 1);
      if size > INLINE_MAX {
        bytes[o + 4], bytes[o + 5], bytes[o + 6], bytes[o + 7] := Byte(p, 0), Byte(p, 1), Byte(p, 2), Byte(p, 3);
      }
    }

    /** jack_midi_event_write. */
    method Write(time: nat, data: seq<byte>) returns (ok: bool)
      requires Valid()
      modifies this, bytes
      ensures Valid()
      ensures ok ==>
        && CanHold(bytes.Length, old(log), Event(time, data)) && log == old(log) + [Event(time, data)]
        && bytes[..] == Appended(old(bytes[..]), old(log), Event(time, data)) && eventsLost == old(eventsLost)
      ensures !ok ==> log == old(log) && bytes[..] == old(bytes[..]) && eventsLost == old(eventsLost) + 1
      ensures AllSmall(old(log)) ==> (ok <==> Takes(bytes.Length, nframes, old(log), Event(time, data)))
    {
      hide AllIntact, Entered, CanHold, Reach, Fits, Roomy, Splice, Unharmed;
      ghost var b, before := bytes[..], log;
      var place := Reserve(time, |data|);
      SameHold(bytes.Length, before, time, data);
      if place.None? { return false; }
      SameReach(before, log[|before|], Event(time, data));
      CopyIn(place.value, data);
      log := log[..|before|] + [Event(time, data)];
      assert log == before + [Event(time, data)];
      ok := true;
      WrittenValid(b, before, time, data);
      SortedMore(before, Event(time, data));
    }

    ghost function View(): Account
      reads this
    {
      Account(log, eventsLost)
    }

    /** Any run of writes, reservations and clears. */
    method Run(ops: seq<Operation>) returns (ghost trace: seq<Account>)
      requires Valid()
      modifies this, bytes
      ensures Valid()
      ensures HEADER + ENTRY * eventCount + lastWriteLoc <= bytes.Length
      ensures forall i, j | 0 <= i < j < |log| && Large(log[i]) && Large(log[j]) :: RegionsFit(bytes.Length, log, i, j)
      ensures AllSmall(log) ==> forall i, j :: 0 <= i < j < |log| ==> log[i].time <= log[j].time < nframes
      ensures HEADER + ENTRY * eventCount + lastWriteLoc < bytes.Length ==> Unharmed(bytes.Length, log)
      ensures Unharmed(bytes.Length, log) ==>
        forall i :: 0 <= i < |log| && Small(log[i]) ==> InBuffer(bytes[..], i) && Intact(bytes[..], log, i)
      ensures |trace| == |ops| + 1 && trace[0] == old(View()) && trace[|ops|] == View()
      ensures forall i :: 0 <= i < |ops| ==> Did(bytes.Length, nframes, trace[i], trace[i + 1], ops[i])
    {
      trace := RunAll(ops);
      forall i, j | 0 <= i < j < |log| && Large(log[i]) && Large(log[j])
        ensures RegionsFit(bytes.Length, log, i, j)
      {
        RegionsApart(bytes.Length, log, i, j);
        RegionsApart(bytes.Length, log, j, j);
      }
    }

    method RunAll(ops: seq<Operation>) returns (ghost trace: seq<Account>)
      requires Valid()
      modifies this, bytes
      ensures Valid()
      ensures |trace| == |ops| + 1 && trace[0] == old(View()) && trace[|ops|] == View()
      ensures forall i :: 0 <= i < |ops| ==> Did(bytes.Length, nframes, trace[i], trace[i + 1], ops[i])
    {
      hide Valid, Did;
      trace := [View()];
      for k := 0 to |ops|
        invariant Valid() && |trace| == k + 1 && trace[0] == old(View()) && trace[k] == View()
        invariant forall i :: 0 <= i < k ==> Did(bytes.Length, nframes, trace[i], trace[i + 1], ops[i])
      {
        Do(ops[k]);
        trace := trace + [View()];
      }
    }

    method Do(op: Operation)
      requires Valid()
      modifies this, bytes
      ensures Valid() && Did(bytes.Length, nframes, old(View()), View(), op)
    {
      hide Valid, Takes, AllSmall, CanHold, Appended, Entered;
      match op
      case Write(time, data) => var ok := Write(time, data);
      case Reserve(time, size) =>
        var place := Reserve(time, size);
        SameTaken(bytes.Length, nframes, old(log), time, size);
      case Clear => ClearValid();
    }

    method ClearValid()
      requires Valid()
      modifies this
      ensures Valid() && log == [] && eventsLost == 0
    {
      Clear();
    }

    method CopyIn(p: nat, data: seq<byte>)
      requires p + |data| <= bytes.Length
      modifies bytes
      ensures bytes[..] == Splice(old(bytes[..]), p, data)
    {
      for i := 0 to |data|
        invariant bytes[p..p + i] == data[..i]
        invariant bytes[..p] == old(bytes[..p]) && bytes[p + i..] == old(bytes[p + i..])
      {
        bytes[p + i] := data[i];
      }
      assert bytes[..] == bytes[..p] + bytes[p..p + |data|] + bytes[p + |data|..];
      assert data[..|data|] == data;
    }
  }

  // ----- Facts used by the methods

  lemma EntryInside(size: nat, log: seq<Event>, i: nat)
    requires Fits(size, log) && i < |log|
    ensures At(i + 1) <= size
  {
  }

  /** If an event can still be held, the state before is roomy. */
  lemma HeldMeansRoomy(size: nat, log: seq<Event>, e: Event)
    ensures CanHold(size, log, e) ==> Roomy(size, log)
  {
    ReachPrefix(log, e, |log|);
  }

  /** The time in the last table entry is the time of the last event. */
  lemma LastTime(b: seq<byte>, log: seq<Event>)
    requires Fits(|b|, log) && (Roomy(|b|, log) ==> AllIntact(b, log))
    ensures log != [] ==> At(|log|) <= |b|
    ensures log != [] && Roomy(|b|, log) && AllSmall(log) ==> U16(b, At(|log| - 1)) == log[|log| - 1].time
  {
    if log != [] && Roomy(|b|, log) && AllSmall(log) {
      assert Small(log[|log| - 1]);
      assert Intact(b, log, |log| - 1);
    }
  }

  lemma PlaceFacts(size: nat, log: seq<Event>, e: Event)
    requires CanHold(size, log, e)
    ensures Roomy(size, log) && At(|log| + 1) <= size
    ensures Reach(log + [e], |log| + 1) == Reach(log, |log|) + (if |e.data| > INLINE_MAX then |e.data| else 0)
    ensures NewPlace(size, log, e)
         == if |e.data| <= INLINE_MAX then At(|log|) + 4 else size - 1 - (Reach(log, |log|) + |e.data|)
    ensures NewPlace(size, log, e) + |e.data| <= size
  {
    ReachPrefix(log, e, |log|);
  }

  lemma SameHold(size: nat, log: seq<Event>, time: nat, data: seq<byte>)
    ensures |data| > 0 ==> (CanHold(size, log, Event(time, Zeros(|data|))) <==> CanHold(size, log, Event(time, data)))
    ensures CanHold(size, log, Event(time, data)) ==>
      NewPlace(size, log, Event(time, data)) == NewPlace(size, log, Event(time, Zeros(|data|)))
    ensures |data| == 0 ==> !CanHold(size, log, Event(time, data))
  {
    if |data| > 0 { SameReach(log, Event(time, Zeros(|data|)), Event(time, data)); }
  }

  lemma AppendedValid(b: seq<byte>, log: seq<Event>, e: Event)
    requires CanHold(|b|, log, e) && |b| < 0x8000_0000 && (Unharmed(|b|, log) ==> AllIntact(b, log))
    ensures Fits(|b|, log + [e])
    ensures Reach(log + [e], |log| + 1) == Reach(log, |log|) + (if |e.data| > INLINE_MAX then |e.data| else 0)
    ensures Unharmed(|b|, log + [e]) ==> AllIntact(Appended(b, log, e), log + [e])
  {
    hide AllIntact, Appended;
    PlaceFacts(|b|, log, e);
    UnharmedBySparing(|b|, log, e);
    if Sparing(|b|, log, e) { AppendKeeps(b, log, e); }
  }

  /** After reserve the bytes already at the place count as the event's data. */
  lemma ReservedValid(b: seq<byte>, log: seq<Event>, time: nat, size: nat, p: nat)
    requires CanHold(|b|, log, Event(time, Zeros(size))) && |b| < 0x8000_0000
    requires Unharmed(|b|, log) ==> AllIntact(b, log)
    requires At(|log| + 1) <= |b| && p == NewPlace(|b|, log, Event(time, Zeros(size))) && p + size <= |b|
    ensures var r := Entered(b, |log|, time, size, p);
            && |r| == |b|
            && var next := log + [Event(time, r[p..p + size])];
               && Fits(|b|, next)
               && Reach(next, |log| + 1) == Reach(log, |log|) + (if size > INLINE_MAX then size else 0)
               && (Unharmed(|b|, next) ==> AllIntact(r, next))
  {
    hide Entered, CanHold, AllIntact, Reach, Fits, Roomy, Appended, Unharmed;
    EnteredLength(b, |log|, time, size, p);
    var r := Entered(b, |log|, time, size, p);
    var e := Event(time, r[p..p + size]);
    SameHold(|b|, log, time, e.data);
    AppendedAsIs(b, log, e, p);
    AppendedValid(b, log, e);
  }

  lemma EnteredLength(b: seq<byte>, i: nat, time: nat, size: nat, p: nat)
    requires At(i + 1) <= |b|
    ensures |Entered(b, i, time, size, p)| == |b|
  {
  }

  /** Copying data onto itself changes nothing. */
  lemma AppendedAsIs(b: seq<byte>, log: seq<Event>, e: Event, p: nat)
    requires CanHold(|b|, log, e) && p == NewPlace(|b|, log, e) && At(|log| + 1) <= |b| && p + |e.data| <= |b|
    requires |Entered(b, |log|, e.time, |e.data|, p)| == |b|
    requires e.data == Entered(b, |log|, e.time, |e.data|, p)[p..p + |e.data|]
    ensures Appended(b, log, e) == Entered(b, |log|, e.time, |e.data|, p)
  {
    hide Entered;
  }

  lemma WrittenValid(b: seq<byte>, log: seq<Event>, time: nat, data: seq<byte>)
    requires CanHold(|b|, log, Event(time, data)) && |b| < 0x8000_0000
    requires Unharmed(|b|, log) ==> AllIntact(b, log)
    ensures var next := log + [Event(time, data)];
            && Fits(|b|, next)
            && Reach(next, |log| + 1) == Reach(log, |log|) + (if |data| > INLINE_MAX then |data| else 0)
            && (Unharmed(|b|, next) ==> AllIntact(Appended(b, log, Event(time, data)), next))
  {
    AppendedValid(b, log, Event(time, data));
  }

  lemma SortedMore(log: seq<Event>, e: Event)
    requires AllSmall(log) ==> Sorted(log)
    requires AllSmall(log) && log != [] ==> log[|log| - 1].time <= e.time
    ensures AllSmall(log + [e]) ==> Sorted(log + [e])
    ensures AllSmall(log + [e]) ==> AllSmall(log)
  {
    if AllSmall(log + [e]) {
      forall i | 0 <= i < |log|
        ensures Small(log[i])
      {
        assert (log + [e])[i] == log[i];
      }
    }
  }
}
