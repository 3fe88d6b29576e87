/** Mixing the events of several MIDI buffers into one, in the order of their times. */
module MidiMixdown {
  import opened Collections
  import opened MidiLayout
  import opened MidiBuffer

  // ----- The table of an input buffer

  function PlaceAt(b: seq<byte>, i: nat): nat
    requires At(i + 1) <= |b|
  {
    if U16(b, At(i) + 2) <= INLINE_MAX then At(i) + 4 else U32(b, At(i) + 4)
  }

  ghost predicate ReadableAt(b: seq<byte>, i: nat) {
    At(i + 1) <= |b| && PlaceAt(b, i) + U16(b, At(i) + 2) <= |b|
  }

  /** The table has room for n entries and each leads to data inside the buffer. */
  ghost predicate Readable(b: seq<byte>, n: nat) {
    At(n) <= |b| && forall i :: 0 <= i < n ==> ReadableAt(b, i)
  }

  ghost function EventAt(b: seq<byte>, i: nat): Event
    requires ReadableAt(b, i)
  {
    Event(U16(b, At(i)), b[PlaceAt(b, i)..PlaceAt(b, i) + U16(b, At(i) + 2)])
  }

  ghost function Table(b: seq<byte>, n: nat): seq<Event>
    requires Readable(b, n)
  {
    seq(n, i requires 0 <= i < n => EventAt(b, i))
  }

  /** A roomy buffer of small events is readable, and its table is its log. */
  lemma IntactTable(b: seq<byte>, log: seq<Event>)
    requires Fits(|b|, log) && AllIntact(b, log) && AllSmall(log)
    ensures Readable(b, |log|) && Table(b, |log|) == log
  {
    forall i | 0 <= i < |log|
      ensures ReadableAt(b, i) && EventAt(b, i) == log[i]
    {
      assert Small(log[i]);
      assert InBuffer(b, i) && Intact(b, log, i);
    }
  }

  // ----- The merge

  datatype Tag = Tag(input: nat, pos: nat)

  ghost predicate Cursors(ins: seq<seq<Event>>, cur: seq<nat>) {
    |cur| == |ins| && forall k :: 0 <= k < |ins| ==> cur[k] <= |ins[k]|
  }

  ghost function Next(ins: seq<seq<Event>>, cur: seq<nat>, k: nat): nat
    requires Cursors(ins, cur) && k < |ins| && cur[k] < |ins[k]|
  {
    ins[k][cur[k]].time
  }

  /** The input whose next event is the earliest among the first n; -1 if all are read. */
  ghost function Earliest(ins: seq<seq<Event>>, cur: seq<nat>, n: nat): (e: int)
    requires Cursors(ins, cur) && n <= |ins|
    ensures -1 <= e < n && (e >= 0 ==> cur[e] < |ins[e]|)
  {
    if n == 0 then -1
    else
      var e := Earliest(ins, cur, n - 1);
      if cur[n - 1] < |ins[n - 1]| && (e == -1 || Next(ins, cur, n - 1) < Next(ins, cur, e)) then n - 1 else e
  }

  lemma {:induction false} EarliestIsLeast(ins: seq<seq<Event>>, cur: seq<nat>, n: nat, k: nat)
    requires Cursors(ins, cur) && k < n <= |ins| && cur[k] < |ins[k]|
    ensures var e := Earliest(ins, cur, n);
            && e >= 0 && Next(ins, cur, e) <= Next(ins, cur, k)
            && (k < e ==> Next(ins, cur, e) < Next(ins, cur, k))
    decreases n
  {
    if k < n - 1 { EarliestIsLeast(ins, cur, n - 1, k); }
  }

  /** Events still unread. */
  ghost function Left(ins: seq<seq<Event>>, cur: seq<nat>, n: nat): nat
    requires Cursors(ins, cur) && n <= |ins|
  {
    if n == 0 then 0 else Left(ins, cur, n - 1) + |ins[n - 1]| - cur[n - 1]
  }

  lemma {:induction false} LeftStep(ins: seq<seq<Event>>, cur: seq<nat>, e: nat, n: nat)
    requires Cursors(ins, cur) && e < |ins| && cur[e] < |ins[e]| && n <= |ins|
    ensures Cursors(ins, cur[e := cur[e] + 1])
    ensures Left(ins, cur[e := cur[e] + 1], n) == Left(ins, cur, n) - (if e < n then 1 else 0)
    decreases n
  {
    if n > 0 { LeftStep(ins, cur, e, n - 1); }
  }

  lemma {:induction false} NothingLeft(ins: seq<seq<Event>>, cur: seq<nat>, n: nat)
    requires Cursors(ins, cur) && n <= |ins| && Earliest(ins, cur, n) == -1
    ensures Left(ins, cur, n) == 0
    decreases n
  {
    if n > 0 { NothingLeft(ins, cur, n - 1); }
  }

  /** The order in which the events are taken. */
  ghost function MergeFrom(ins: seq<seq<Event>>, cur: seq<nat>): seq<Tag>
    requires Cursors(ins, cur)
    decreases Left(ins, cur, |ins|)
  {
    var e := Earliest(ins, cur, |ins|);
    if e == -1 then []
    else
      LeftStep(ins, cur, e, |ins|);
      [Tag(e, cur[e])] + MergeFrom(ins, cur[e := cur[e] + 1])
  }

  lemma {:induction false} MergeLength(ins: seq<seq<Event>>, cur: seq<nat>)
    requires Cursors(ins, cur)
    ensures |MergeFrom(ins, cur)| == Left(ins, cur, |ins|)
    decreases Left(ins, cur, |ins|)
  {
    var e := Earliest(ins, cur, |ins|);
    if e == -1 { NothingLeft(ins, cur, |ins|); }
    else {
      LeftStep(ins, cur, e, |ins|);
      MergeLength(ins, cur[e := cur[e] + 1]);
    }
  }

  // ----- The merge is the stable one

  ghost predicate Tagged(ins: seq<seq<Event>>, t: Tag) {
    t.input < |ins| && t.pos < |ins[t.input]|
  }

  ghost predicate Unread(ins: seq<seq<Event>>, cur: seq<nat>, t: Tag)
    requires Cursors(ins, cur)
  {
    Tagged(ins, t) && cur[t.input] <= t.pos
  }

  /** Earlier time first; at equal times the earlier connection; within one input the
      order of its table. */
  ghost predicate Precedes(ins: seq<seq<Event>>, s: Tag, t: Tag)
    requires Tagged(ins, s) && Tagged(ins, t)
  {
    var a, b := ins[s.input][s.pos].time, ins[t.input][t.pos].time;
    a < b || (a == b && (s.input < t.input || (s.input == t.input && s.pos < t.pos)))
  }

  ghost predicate AllSorted(ins: seq<seq<Event>>) {
    forall k :: 0 <= k < |ins| ==> Sorted(ins[k])
  }

  /** Exactly the unread events are taken. */
  lemma {:induction false} MergeTakesAll(ins: seq<seq<Event>>, cur: seq<nat>, t: Tag)
    requires Cursors(ins, cur)
    ensures t in MergeFrom(ins, cur) <==> Unread(ins, cur, t)
    decreases Left(ins, cur, |ins|)
  {
    var e := Earliest(ins, cur, |ins|);
    if e == -1 {
      if Unread(ins, cur, t) { EarliestIsLeast(ins, cur, |ins|, t.input); }
    } else {
      LeftStep(ins, cur, e, |ins|);
      MergeTakesAll(ins, cur[e := cur[e] + 1], t);
    }
  }

  lemma FirstPrecedes(ins: seq<seq<Event>>, cur: seq<nat>, e: nat, t: Tag)
    requires Cursors(ins, cur) && AllSorted(ins) && e == Earliest(ins, cur, |ins|)
    requires Unread(ins, cur, t) && t != Tag(e, cur[e])
    ensures Precedes(ins, Tag(e, cur[e]), t)
  {
    var k := t.input;
    EarliestIsLeast(ins, cur, |ins|, k);
    assert Sorted(ins[k]);
    assert cur[k] < t.pos ==> ins[k][cur[k]].time <= ins[k][t.pos].time;
  }

  /** Together with MergeTakesAll this determines the merge completely. */
  lemma {:induction false} MergeIsStable(ins: seq<seq<Event>>, cur: seq<nat>, i: nat, j: nat)
    requires Cursors(ins, cur) && AllSorted(ins) && i < j < |MergeFrom(ins, cur)|
    ensures var m := MergeFrom(ins, cur);
            Tagged(ins, m[i]) && Tagged(ins, m[j]) && Precedes(ins, m[i], m[j])
    decreases Left(ins, cur, |ins|)
  {
    var e := Earliest(ins, cur, |ins|);
    LeftStep(ins, cur, e, |ins|);
    var next := cur[e := cur[e] + 1];
    var rest := MergeFrom(ins, next);
    hide AllSorted, Precedes;
    if i > 0 {
      MergeIsStable(ins, next, i - 1, j - 1);
    } else {
      assert rest[j - 1] in rest;
      MergeTakesAll(ins, next, rest[j - 1]);
      FirstPrecedes(ins, cur, e, rest[j - 1]);
    }
  }

  // ----- What the output takes

  ghost predicate AllTagged(ins: seq<seq<Event>>, tags: seq<Tag>) {
    forall i :: 0 <= i < |tags| ==> Tagged(ins, tags[i])
  }

  ghost function Events(ins: seq<seq<Event>>, tags: seq<Tag>): seq<Event>
    requires AllTagged(ins, tags)
  {
    seq(|tags|, i requires 0 <= i < |tags| => ins[tags[i].input][tags[i].pos])
  }

  lemma MergeTagged(ins: seq<seq<Event>>, cur: seq<nat>)
    requires Cursors(ins, cur)
    ensures AllTagged(ins, MergeFrom(ins, cur))
  {
    var m := MergeFrom(ins, cur);
    forall i | 0 <= i < |m|
      ensures Tagged(ins, m[i])
    {
      assert m[i] in m;
      MergeTakesAll(ins, cur, m[i]);
    }
  }

  /** The merged events, all inputs read from the start. */
  ghost function Merged(ins: seq<seq<Event>>): seq<Event> {
    var zero := seq(|ins|, _ => 0);
    MergeTagged(ins, zero);
    Events(ins, MergeFrom(ins, zero))
  }

  /** How many events are taken, one after the other, before one is refused. */
  ghost function TakenCount(size: nat, nframes: nat, done: seq<Event>, events: seq<Event>): (n: nat)
    ensures n <= |events|
    decreases |events|
  {
    if events == [] || !Takes(size, nframes, done, events[0]) then 0
    else 1 + TakenCount(size, nframes, done + [events[0]], events[1..])
  }

  /** With inputs in time order, in range and not empty, only lack of space refuses an event. */
  lemma OnlySpaceRefuses(ins: seq<seq<Event>>, size: nat, nframes: nat, n: nat)
    requires AllSorted(ins) && n < |Merged(ins)|
    requires forall k, p :: 0 <= k < |ins| && 0 <= p < |ins[k]| ==> ins[k][p].time < nframes && |ins[k][p].data| > 0
    ensures Takes(size, nframes, Merged(ins)[..n], Merged(ins)[n]) <==> CanHold(size, Merged(ins)[..n], Merged(ins)[n])
  {
    var zero := seq(|ins|, _ => 0);
    MergeTagged(ins, zero);
    var m := MergeFrom(ins, zero);
    assert Tagged(ins, m[n]);
    if n > 0 { MergeIsStable(ins, zero, n - 1, n); }
  }

  ghost function Sum(xs: seq<nat>, n: nat): nat
    requires n <= |xs|
  {
    if n == 0 then 0 else Sum(xs, n - 1) + xs[n - 1]
  }

  ghost function Lengths(ins: seq<seq<Event>>): seq<nat> {
    seq(|ins|, k requires 0 <= k < |ins| => |ins[k]|)
  }

  lemma {:induction false} AllLeft(ins: seq<seq<Event>>, cur: seq<nat>, n: nat)
    requires Cursors(ins, cur) && n <= |ins| && forall k :: 0 <= k < |cur| ==> cur[k] == 0
    ensures Left(ins, cur, n) == Sum(Lengths(ins), n)
    decreases n
  {
    if n > 0 { AllLeft(ins, cur, n - 1); }
  }

  // ----- The buffers

  /** The tables of the inputs as they stand. */
  ghost predicate Tables(inputs: seq<MidiBuffer>, ins: seq<seq<Event>>)
    reads inputs`eventCount, set b | b in inputs :: b.bytes
  {
    && |ins| == |inputs|
    && forall k :: 0 <= k < |inputs| ==> TableIs(inputs[k], ins[k])
  }

  ghost predicate TableIs(b: MidiBuffer, events: seq<Event>)
    reads b`eventCount, b.bytes
  {
    Readable(b.bytes[..], b.eventCount) && events == Table(b.bytes[..], b.eventCount)
  }

  ghost predicate Losts(inputs: seq<MidiBuffer>, losts: seq<nat>)
    reads inputs`eventsLost
  {
    |losts| == |inputs| && forall k :: 0 <= k < |inputs| ==> inputs[k].eventsLost == losts[k]
  }

  /** The cursors, which live in the inputs' last_write_loc. */
  ghost predicate CursorsAre(inputs: seq<MidiBuffer>, cur: seq<nat>)
    reads inputs`lastWriteLoc
  {
    |cur| == |inputs| && forall k :: 0 <= k < |inputs| ==> inputs[k].lastWriteLoc == cur[k]
  }

  ghost predicate AllDifferent(inputs: seq<MidiBuffer>) {
    forall i, j :: 0 <= i < j < |inputs| ==> inputs[i] != inputs[j]
  }

  ghost predicate Separate(inputs: seq<MidiBuffer>, output: MidiBuffer) {
    forall b :: b in inputs ==> b != output && b.bytes != output.bytes
  }

  function Zero(n: nat): seq<nat> {
    seq(n, _ => 0)
  }

  /** Count the events and losses and reset the cursors. */
  method Begin(inputs: seq<MidiBuffer>, ghost ins: seq<seq<Event>>, ghost losts: seq<nat>) returns (events: nat, lost: nat)
    requires Tables(inputs, ins) && Losts(inputs, losts) && AllDifferent(inputs)
    modifies inputs`lastWriteLoc
    ensures Tables(inputs, ins) && Losts(inputs, losts) && CursorsAre(inputs, Zero(|inputs|))
    ensures events == Sum(Lengths(ins), |ins|) && lost == Sum(losts, |losts|)
  {
    hide Tables, Table, Readable;
    SameSize(inputs, ins);
    events, lost := 0, 0;
    for k := 0 to |inputs|
      invariant Tables(inputs, ins) && Losts(inputs, losts)
      invariant events == Sum(Lengths(ins), k) && lost == Sum(losts, k)
      invariant forall i :: 0 <= i < k ==> inputs[i].lastWriteLoc == 0
    {
      TableLength(inputs, ins, k);
      events := events + inputs[k].eventCount;
      lost := lost + inputs[k].eventsLost;
      inputs[k].lastWriteLoc := 0;
    }
  }

  lemma SameSize(inputs: seq<MidiBuffer>, ins: seq<seq<Event>>)
    requires Tables(inputs, ins)
    ensures |ins| == |inputs|
  {
  }

  lemma TableLength(inputs: seq<MidiBuffer>, ins: seq<seq<Event>>, k: nat)
    requires Tables(inputs, ins) && k < |inputs|
    ensures |ins| == |inputs| && |ins[k]| == inputs[k].eventCount
    ensures TableIs(inputs[k], ins[k])
  {
  }

  lemma TableEntry(b: MidiBuffer, events: seq<Event>, i: nat)
    requires TableIs(b, events) && i < |events|
    ensures ReadableAt(b.bytes[..], i) && events[i] == EventAt(b.bytes[..], i)
    ensures events[i].time == U16(b.bytes[..], At(i)) && Small(events[i])
  {
  }

  /** The inner loop: the earliest unread event, the first connection winning ties. */
  method FindEarliest(inputs: seq<MidiBuffer>, ghost ins: seq<seq<Event>>, ghost cur: seq<nat>) returns (e: int)
    requires Tables(inputs, ins) && Cursors(ins, cur) && CursorsAre(inputs, cur)
    ensures e == Earliest(ins, cur, |ins|)
  {
    hide Tables, TableIs, EventAt, U16;
    e := -1;
    for k := 0 to |inputs|
      invariant e == Earliest(ins, cur, k)
    {
      TableLength(inputs, ins, k);
      if inputs[k].eventCount > inputs[k].lastWriteLoc {
        TableEntry(inputs[k], ins[k], cur[k]);
        if e == -1 {
          e := k;
        } else {
          TableLength(inputs, ins, e);
          TableEntry(inputs[e], ins[e], cur[e]);
          var mine := U16(inputs[k].bytes[..], At(inputs[k].lastWriteLoc));
          var best := U16(inputs[e].bytes[..], At(inputs[e].lastWriteLoc));
          if mine < best { e := k; }
        }
      }
    }
  }

  /** jack_midi_port_mixdown: the output holds the longest prefix of the stable merge that
      it takes, and every event, mixed or lost, is accounted for. */
  method Mixdown(inputs: seq<MidiBuffer>, output: MidiBuffer, ghost ins: seq<seq<Event>>, ghost losts: seq<nat>)
    requires Tables(inputs, ins) && Losts(inputs, losts) && AllDifferent(inputs) && Separate(inputs, output)
    requires HEADER <= output.bytes.Length < 0x8000_0000
    modifies inputs`lastWriteLoc, output, output.bytes
    ensures output.Valid() && Tables(inputs, ins) && Losts(inputs, losts)
    ensures LongestTaken(ins, output.bytes.Length, output.nframes, output.log)
    ensures output.eventCount + output.eventsLost == Sum(Lengths(ins), |ins|) + Sum(losts, |losts|)
  {
    hide Tables, LongestTaken;
    output.Clear();
    var events, lost := Begin(inputs, ins, losts);
    MixAll(inputs, output, ins, events);
    output.eventsLost := output.eventsLost + lost;
  }

  /** The events still to come, by tag and by value. */
  lemma MergeView(ins: seq<seq<Event>>, cur: seq<nat>, i: nat)
    requires Cursors(ins, cur) && i < |Merged(ins)| && i <= |MergeFrom(ins, Zero(|ins|))|
    requires Cursors(ins, Zero(|ins|)) && MergeFrom(ins, cur) == MergeFrom(ins, Zero(|ins|))[i..]
    ensures var e := Earliest(ins, cur, |ins|);
            && e >= 0 && Cursors(ins, cur[e := cur[e] + 1])
            && Merged(ins)[i] == ins[e][cur[e]]
            && MergeFrom(ins, cur[e := cur[e] + 1]) == MergeFrom(ins, Zero(|ins|))[i + 1..]
  {
    var zero := Zero(|ins|);
    assert zero == seq(|ins|, _ => 0);
    var e := Earliest(ins, cur, |ins|);
    var tags := MergeFrom(ins, zero);
    MergeTagged(ins, zero);
    assert |Merged(ins)| == |tags|;
    assert tags[i..][0] == tags[i];
    LeftStep(ins, cur, e, |ins|);
    assert tags[i..][1..] == tags[i + 1..];
  }

  lemma MergedLength(ins: seq<seq<Event>>)
    ensures Cursors(ins, Zero(|ins|))
    ensures |Merged(ins)| == |MergeFrom(ins, Zero(|ins|))| == Sum(Lengths(ins), |ins|)
  {
    var zero := Zero(|ins|);
    assert zero == seq(|ins|, _ => 0);
    MergeLength(ins, zero);
    AllLeft(ins, zero, |ins|);
  }

  lemma TakenStep(size: nat, nframes: nat, all: seq<Event>, i: nat)
    requires i < |all|
    ensures var n := TakenCount(size, nframes, all[..i], all[i..]);
            if Takes(size, nframes, all[..i], all[i])
            then n == 1 + TakenCount(size, nframes, all[..i + 1], all[i + 1..]) else n == 0
  {
    assert all[i..][0] == all[i] && all[i..][1..] == all[i + 1..];
    assert all[..i] + [all[i]] == all[..i + 1];
  }

  /** The state of the outer loop before its round i: the log is what the merge gave so far,
      the cursors lead to the rest of it, and everything so far was taken. */
  ghost predicate Progress(ins: seq<seq<Event>>, cur: seq<nat>, i: nat, size: nat, nframes: nat, log: seq<Event>) {
    var all, zero := Merged(ins), Zero(|ins|);
    && Cursors(ins, cur) && Cursors(ins, zero) && i <= |all| == |MergeFrom(ins, zero)|
    && log == all[..i] && MergeFrom(ins, cur) == MergeFrom(ins, zero)[i..]
    && TakenCount(size, nframes, [], all) == i + TakenCount(size, nframes, all[..i], all[i..])
  }

  /** The log is the longest prefix of the merge that the buffer takes. */
  ghost predicate LongestTaken(ins: seq<seq<Event>>, size: nat, nframes: nat, log: seq<Event>) {
    log == Merged(ins)[..TakenCount(size, nframes, [], Merged(ins))]
  }

  lemma Start(ins: seq<seq<Event>>, size: nat, nframes: nat)
    ensures Progress(ins, Zero(|ins|), 0, size, nframes, [])
    ensures |Merged(ins)| == Sum(Lengths(ins), |ins|)
  {
    hide Earliest, TakenCount, Sum;
    MergedLength(ins);
    var all, tags := Merged(ins), MergeFrom(ins, Zero(|ins|));
    assert all[..0] == [] && all[0..] == all && tags[0..] == tags;
  }

  lemma Step(ins: seq<seq<Event>>, cur: seq<nat>, i: nat, size: nat, nframes: nat, log: seq<Event>)
    requires Progress(ins, cur, i, size, nframes, log) && i < |Merged(ins)|
    ensures Cursors(ins, cur)
    ensures var e := Earliest(ins, cur, |ins|);
            && e >= 0 && Cursors(ins, cur[e := cur[e] + 1])
            && if Takes(size, nframes, log, ins[e][cur[e]])
               then Progress(ins, cur[e := cur[e] + 1], i + 1, size, nframes, log + [ins[e][cur[e]]])
               else LongestTaken(ins, size, nframes, log) && i == |log|
  {
    hide Takes, Earliest, MergeFrom, Merged, TakenCount;
    MergeView(ins, cur, i);
    TakenStep(size, nframes, Merged(ins), i);
    var all := Merged(ins);
    assert all[..i + 1] == all[..i] + [all[i]];
  }

  lemma Finish(ins: seq<seq<Event>>, cur: seq<nat>, size: nat, nframes: nat, log: seq<Event>)
    requires Progress(ins, cur, |Merged(ins)|, size, nframes, log)
    ensures LongestTaken(ins, size, nframes, log) && |log| == |Merged(ins)|
  {
    hide Takes, Earliest, MergeFrom, Merged;
    var all := Merged(ins);
    assert all[..|all|] == all && all[|all|..] == [];
  }

  /** The outer loop. */
  method MixAll(inputs: seq<MidiBuffer>, output: MidiBuffer, ghost ins: seq<seq<Event>>, events: nat)
    requires Tables(inputs, ins) && AllDifferent(inputs) && Separate(inputs, output)
    requires output.Valid() && output.log == [] && output.eventsLost == 0
    requires CursorsAre(inputs, Zero(|inputs|)) && events == Sum(Lengths(ins), |ins|)
    modifies inputs`lastWriteLoc, output, output.bytes
    ensures output.Valid() && Tables(inputs, ins)
    ensures LongestTaken(ins, output.bytes.Length, output.nframes, output.log)
    ensures output.eventCount + output.eventsLost == events
  {
    hide Tables, Takes, Merged, Earliest, CanHold, Zero, Sum, Progress, LongestTaken, Reach, Fits, Roomy, AllIntact;
    ghost var cur := Zero(|ins|);
    ghost var size, nframes := output.bytes.Length, output.nframes;
    Start(ins, size, nframes);
    SameSize(inputs, ins);
    var i := 0;
    while i < events
      invariant i <= events && output.Valid() && AllSmall(output.log) && output.eventsLost == 0
      invariant Tables(inputs, ins) && CursorsAre(inputs, cur)
      invariant Progress(ins, cur, i, size, nframes, output.log)
    {
      Step(ins, cur, i, size, nframes, output.log);
      var e := FindEarliest(inputs, ins, cur);
      var ok := MixOne(inputs, output, e, ins, cur, ins[e][cur[e]]);
      cur := cur[e := cur[e] + 1];
      if !ok {
        output.eventsLost := events - i;
        return;
      }
      i := i + 1;
    }
    Finish(ins, cur, size, nframes, output.log);
  }

  /** Write the next event of input e to the output and move its cursor. */
  method MixOne(inputs: seq<MidiBuffer>, output: MidiBuffer, e: nat,
                ghost ins: seq<seq<Event>>, ghost cur: seq<nat>, ghost event: Event) returns (ok: bool)
    requires Tables(inputs, ins) && AllDifferent(inputs) && Separate(inputs, output)
    requires Cursors(ins, cur) && CursorsAre(inputs, cur) && e < |ins| && cur[e] < |ins[e]| && event == ins[e][cur[e]]
    requires output.Valid() && AllSmall(output.log)
    modifies inputs`lastWriteLoc, output, output.bytes
    ensures output.Valid() && AllSmall(output.log) && Tables(inputs, ins) && CursorsAre(inputs, cur[e := cur[e] + 1])
    ensures ok <==> Takes(output.bytes.Length, output.nframes, old(output.log), event)
    ensures ok ==> output.log == old(output.log) + [event] && output.eventsLost == old(output.eventsLost)
    ensures !ok ==> output.log == old(output.log)
  {
    hide Tables, TableIs, Takes, CanHold, Appended;
    TableLength(inputs, ins, e);
    var input := inputs[e];
    assert input in inputs;
    var i := input.lastWriteLoc;
    TableEntry(input, ins[e], i);
    var b := input.bytes[..];
    var size := U16(b, At(i) + 2);
    var place := PlaceAt(b, i);
    ok := output.Write(U16(b, At(i)), b[place..place + size]);
    input.lastWriteLoc := i + 1;
  }
}
