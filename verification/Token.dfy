/**
 The token protocol of a process cycle: the server and the client processes pass
 bytes through FIFOs and interleave in any way.
 */
module Token {
  import opened Chain

  /** A client process waits in poll, runs its callback, or has signalled the next
      process and still has to take its own byte out of its FIFO. */
  datatype Phase = Waiting | Running | Cleanup

  datatype Server = Idle | Walking(at: nat) | InInternal(at: nat) | Blocked(head: nat)

  datatype State = State(
    fifo: seq<nat>,         // bytes in each FIFO
    phase: seq<Phase>,      // of each client process
    server: Server,
    current: seq<nat>,      // clients run so far in this cycle
    past: seq<seq<nat>>)    // clients run in each finished cycle

  datatype Action =
    | StartCycle | Skip | EnterInternal | LeaveInternal | Trigger | Resume | EndCycle
    | Wake(client: nat) | Signal(client: nat) | Clean(client: nat)

  predicate Readable(fifo: seq<nat>, x: int) {
    0 <= x < |fifo| && fifo[x] > 0
  }

  function Put(fifo: seq<nat>, x: int): seq<nat> {
    if 0 <= x < |fifo| then fifo[x := fifo[x] + 1] else fifo
  }

  function Take(fifo: seq<nat>, x: int): seq<nat> {
    if Readable(fifo, x) then fifo[x := fifo[x] - 1] else fifo
  }

  ghost predicate Enabled(cl: seq<Client>, p: Plan, s: State, a: Action)
    requires Sized(p, |cl|)
  {
    match a
    case StartCycle => s.server.Idle?
    case Skip => s.server.Walking? && s.server.at < |cl| && !Processed(cl[s.server.at])
    case EnterInternal =>
      s.server.Walking? && s.server.at < |cl| && Processed(cl[s.server.at]) && cl[s.server.at].internal
    case LeaveInternal => s.server.InInternal?
    case Trigger =>
      s.server.Walking? && s.server.at < |cl| && Processed(cl[s.server.at]) && !cl[s.server.at].internal
    case Resume => s.server.Blocked? && s.server.head < |cl| && Readable(s.fifo, p.wait[s.server.head])
    case EndCycle => s.server.Walking? && s.server.at == |cl|
    case Wake(i) => Ext(cl, i) && i < |s.phase| && s.phase[i] == Waiting && Readable(s.fifo, p.listen[i])
    case Signal(i) => Ext(cl, i) && i < |s.phase| && s.phase[i] == Running
    case Clean(i) => Ext(cl, i) && i < |s.phase| && s.phase[i] == Cleanup
  }

  ghost function Apply(cl: seq<Client>, p: Plan, s: State, a: Action): State
    requires Sized(p, |cl|) && Enabled(cl, p, s, a)
  {
    match a
    case StartCycle => s.(server := Walking(0))
    case Skip => s.(server := Walking(s.server.at + 1))
    case EnterInternal => s.(server := InInternal(s.server.at), current := s.current + [s.server.at])
    case LeaveInternal => s.(server := Walking(s.server.at + 1))
    case Trigger => s.(server := Blocked(s.server.at), fifo := Put(s.fifo, p.start[s.server.at]))
    case Resume =>
      s.(server := Walking(NextInternal(cl, s.server.head)), fifo := Take(s.fifo, p.wait[s.server.head]))
    case EndCycle => s.(server := Idle, past := s.past + [s.current], current := [])
    case Wake(i) => s.(phase := s.phase[i := Running], current := s.current + [i])
    case Signal(i) => s.(phase := s.phase[i := Cleanup], fifo := Put(s.fifo, p.signal[i]))
    case Clean(i) => s.(phase := s.phase[i := Waiting], fifo := Take(s.fifo, p.listen[i]))
  }

  ghost function Init(cl: seq<Client>): State {
    State(seq(Fifo(cl, |cl|) + 1, _ => 0), seq(|cl|, _ => Waiting), Idle, [], [])
  }

  /** A finite run: any interleaving of the actions, over any number of cycles. */
  ghost predicate IsRun(cl: seq<Client>, p: Plan, run: seq<State>, actions: seq<Action>)
    requires Sized(p, |cl|)
  {
    && |run| == |actions| + 1 && run[0] == Init(cl)
    && forall i :: 0 <= i < |actions| ==>
         Enabled(cl, p, run[i], actions[i]) && run[i + 1] == Apply(cl, p, run[i], actions[i])
  }

  ghost predicate Reachable(cl: seq<Client>, p: Plan, s: State)
    requires Sized(p, |cl|)
  {
    exists run: seq<State>, actions: seq<Action> :: IsRun(cl, p, run, actions) && run[|actions|] == s
  }

  /** Nobody can move. */
  ghost predicate Stuck(cl: seq<Client>, p: Plan, s: State)
    requires Sized(p, |cl|)
  {
    forall a :: !Enabled(cl, p, s, a)
  }

  // ----- What is claimed of every state

  /** The clients that take part, in list order, among the first i. */
  ghost function Before(cl: seq<Client>, i: nat): seq<nat>
    requires i <= |cl|
  {
    if i == 0 then [] else Before(cl, i - 1) + (if Eligible(cl, i - 1) then [i - 1] else [])
  }

  ghost predicate OneRunner(s: State) {
    && (forall x, y | 0 <= x < |s.phase| && 0 <= y < |s.phase| ::
          s.phase[x] == Running && s.phase[y] == Running ==> x == y)
    && (s.server.InInternal? ==> forall x :: 0 <= x < |s.phase| ==> s.phase[x] != Running)
  }

  /** Every finished cycle ran every client that takes part exactly once, in list order;
      the current cycle has done so up to a point; nobody runs beside anybody else; and
      no FIFO ever holds more than two bytes. */
  ghost predicate Safe(cl: seq<Client>, s: State) {
    && (forall c :: c in s.past ==> c == Before(cl, |cl|))
    && s.current <= Before(cl, |cl|)
    && OneRunner(s)
    && forall x :: 0 <= x < |s.fifo| ==> s.fifo[x] <= 2
  }

  // ----- The invariant

  /** Bytes expected in the FIFO of position x: one that its client has still to take
      out, and the token if it is there. */
  ghost function Expect(cl: seq<Client>, phase: seq<Phase>, t: int, x: int): nat
    requires |phase| == |cl|
  {
    (if 0 <= x < |cl| && phase[x] == Cleanup then 1 else 0) + (if x == t then 1 else 0)
  }

  ghost predicate FifoOk(cl: seq<Client>, fifo: seq<nat>, phase: seq<Phase>, t: int) {
    && |phase| == |cl| && |fifo| == Fifo(cl, |cl|) + 1
    && (forall x :: Slot(cl, x) ==> Fifo(cl, x) < |fifo| && fifo[Fifo(cl, x)] == Expect(cl, phase, t, x))
    && (forall y :: 0 <= y < |fifo| ==> fifo[y] <= 2)
  }

  ghost predicate PhaseOk(cl: seq<Client>, phase: seq<Phase>, t: int) {
    && |phase| == |cl|
    && (forall x :: 0 <= x < |cl| && !Ext(cl, x) ==> phase[x] == Waiting)
    && (forall x :: 0 <= x < |cl| && phase[x] == Running ==> x == t)
  }

  /** Where the token is (-1: nowhere) and what has run, by where the server is. While the
      server is blocked on a subgraph the token is at its next member, or at the end. */
  ghost predicate PlaceOk(cl: seq<Client>, s: State, t: int) {
    |s.phase| == |cl| &&
    match s.server
    case Idle => t == -1 && s.current == []
    case Walking(i) =>
      t == -1 && i <= |cl| && s.current == Before(cl, i) && (Open(cl, i) ==> !Ext(cl, NextEligible(cl, i)))
    case InInternal(i) => t == -1 && Int(cl, i) && s.current == Before(cl, i) + [i]
    case Blocked(h) =>
      && Head(cl, h) && h <= t <= Close(cl, h) && t == NextEligible(cl, t)
      && s.current == Before(cl, t) + (if t < |cl| && s.phase[t] == Running then [t] else [])
  }

  ghost predicate Inv(cl: seq<Client>, s: State, t: int) {
    && FifoOk(cl, s.fifo, s.phase, t) && PhaseOk(cl, s.phase, t) && PlaceOk(cl, s, t)
    && forall c :: c in s.past ==> c == Before(cl, |cl|)
  }

  lemma InitInv(cl: seq<Client>)
    ensures Inv(cl, Init(cl), -1)
  {
    forall x | Slot(cl, x)
      ensures Fifo(cl, x) <= Fifo(cl, |cl|)
    {
      FifoMonotone(cl, x, |cl|);
    }
  }

  // ----- Facts about the list

  lemma {:induction false} BeforeIdle(cl: seq<Client>, i: nat, j: nat)
    requires i <= j <= |cl| && forall m :: i <= m < j ==> !Eligible(cl, m)
    ensures Before(cl, i) == Before(cl, j)
    decreases j - i
  {
    if i < j {
      BeforeIdle(cl, i, j - 1);
      assert !Eligible(cl, j - 1);
    }
  }

  lemma {:induction false} BeforePrefix(cl: seq<Client>, i: nat, j: nat)
    requires i <= j <= |cl|
    ensures Before(cl, i) <= Before(cl, j)
    decreases j - i
  {
    if i < j { BeforePrefix(cl, i, j - 1); }
  }

  lemma OtherSlot(cl: seq<Client>, x: int, y: int)
    requires Slot(cl, x) && Slot(cl, y) && x != y
    ensures Fifo(cl, x) != Fifo(cl, y)
  {
    if x < y { SlotsDistinct(cl, x, y); } else { SlotsDistinct(cl, y, x); }
  }

  /** The end of a subgraph, and every place the token can be, has a FIFO. */
  lemma TokenSlot(cl: seq<Client>, h: nat, t: nat)
    requires Head(cl, h) && h <= t <= Close(cl, h) && t == NextEligible(cl, t)
    ensures Slot(cl, t) && Slot(cl, Close(cl, h))
  {
    StaysOpen(cl, h, Close(cl, h));
    if h < t { StaysOpen(cl, h, t); }
  }

  // ----- Bytes put and taken

  /** A byte is put where one more is expected. */
  lemma PutOk(cl: seq<Client>, fifo: seq<nat>, phase: seq<Phase>, t: int, phase': seq<Phase>, t': int, x: int)
    requires FifoOk(cl, fifo, phase, t) && |phase'| == |cl| && Slot(cl, x)
    requires Expect(cl, phase', t', x) == Expect(cl, phase, t, x) + 1
    requires forall y :: Slot(cl, y) && y != x ==> Expect(cl, phase', t', y) == Expect(cl, phase, t, y)
    ensures FifoOk(cl, Put(fifo, Fifo(cl, x)), phase', t')
  {
    hide Expect;
    var next := Put(fifo, Fifo(cl, x));
    ExpectAtMostTwo(cl, phase', t', x);
    forall y | Slot(cl, y)
      ensures next[Fifo(cl, y)] == Expect(cl, phase', t', y)
    {
      if y != x { OtherSlot(cl, x, y); }
    }
  }

  /** A byte is taken where one less is expected. */
  lemma TakeOk(cl: seq<Client>, fifo: seq<nat>, phase: seq<Phase>, t: int, phase': seq<Phase>, t': int, x: int)
    requires FifoOk(cl, fifo, phase, t) && |phase'| == |cl| && Slot(cl, x)
    requires Expect(cl, phase, t, x) == Expect(cl, phase', t', x) + 1
    requires forall y :: Slot(cl, y) && y != x ==> Expect(cl, phase', t', y) == Expect(cl, phase, t, y)
    ensures FifoOk(cl, Take(fifo, Fifo(cl, x)), phase', t')
  {
    hide Expect;
    var next := Take(fifo, Fifo(cl, x));
    forall y | Slot(cl, y)
      ensures next[Fifo(cl, y)] == Expect(cl, phase', t', y)
    {
      if y != x { OtherSlot(cl, x, y); }
    }
  }

  lemma ExpectAtMostTwo(cl: seq<Client>, phase: seq<Phase>, t: int, x: int)
    requires |phase| == |cl|
    ensures Expect(cl, phase, t, x) <= 2
  {
  }

  // ----- Each action keeps the invariant

  /** The setting: a plan for this list, with no internal client stranded in a subgraph. */
  ghost predicate Setting(cl: seq<Client>, p: Plan, before: Plan) {
    Planned(cl, before, p) && NoneStranded(cl) && DeadAreInactive(cl)
  }

  lemma SkipKeeps(cl: seq<Client>, s: State, i: nat)
    requires Inv(cl, s, -1) && s.server == Walking(i) && i < |cl| && !Processed(cl[i]) && DeadAreInactive(cl)
    ensures Inv(cl, s.(server := Walking(i + 1)), -1)
  {
    assert !Eligible(cl, i);
    hide FifoOk, PhaseOk;
    BeforeIdle(cl, i, i + 1);
  }

  lemma EnterKeeps(cl: seq<Client>, s: State, i: nat)
    requires Inv(cl, s, -1) && s.server == Walking(i) && i < |cl| && Processed(cl[i]) && cl[i].internal
    ensures Inv(cl, s.(server := InInternal(i), current := s.current + [i]), -1)
  {
    hide FifoOk, PhaseOk;
  }

  lemma LeaveKeeps(cl: seq<Client>, s: State, i: nat)
    requires Inv(cl, s, -1) && s.server == InInternal(i)
    ensures Inv(cl, s.(server := Walking(i + 1)), -1)
  {
    hide FifoOk, PhaseOk;
  }

  lemma EndKeeps(cl: seq<Client>, s: State)
    requires Inv(cl, s, -1) && s.server == Walking(|cl|)
    ensures Inv(cl, s.(server := Idle, past := s.past + [s.current], current := []), -1)
  {
    hide FifoOk, PhaseOk;
  }

  lemma TriggerKeeps(cl: seq<Client>, p: Plan, before: Plan, s: State, i: nat)
    requires Setting(cl, p, before) && Inv(cl, s, -1) && s.server == Walking(i)
    requires i < |cl| && Processed(cl[i]) && !cl[i].internal
    ensures Head(cl, i) && p.start[i] == Fifo(cl, i)
    ensures Inv(cl, s.(server := Blocked(i), fifo := Put(s.fifo, p.start[i])), i)
  {
    assert Ext(cl, i) && NextEligible(cl, i) == i;
    assert Row(cl, before, p, i);
    PutOk(cl, s.fifo, s.phase, -1, s.phase, i, i);
    hide FifoOk;
  }

  lemma ResumeKeeps(cl: seq<Client>, p: Plan, before: Plan, s: State, t: int, h: nat)
    requires Setting(cl, p, before) && Inv(cl, s, t) && s.server == Blocked(h)
    requires h < |cl| && Readable(s.fifo, p.wait[h])
    ensures p.wait[h] == Fifo(cl, Close(cl, h)) && t == Close(cl, h)
    ensures Inv(cl, s.(server := Walking(NextInternal(cl, h)), fifo := Take(s.fifo, p.wait[h])), -1)
  {
    assert Row(cl, before, p, h);
    TokenSlot(cl, h, t);
    var c := Close(cl, h);
    assert Expect(cl, s.phase, t, c) > 0;
    assert t == c;
    TakeOk(cl, s.fifo, s.phase, t, s.phase, -1, c);
    hide FifoOk;
    var j := NextInternal(cl, h);
    NoMemberLeft(cl, h, j);
    ResumePlace(cl, h, j);
  }

  lemma ResumePlace(cl: seq<Client>, h: nat, j: nat)
    requires Head(cl, h) && j == NextInternal(cl, h) && !Ext(cl, NextEligible(cl, j))
    ensures j <= Close(cl, h) && Before(cl, j) == Before(cl, Close(cl, h))
  {
    var c := Close(cl, h);
    assert c < |cl| ==> cl[c].internal;
    assert j <= c;
    var e := NextEligible(cl, j);
    assert c == |cl| || Eligible(cl, c);
    assert e < c ==> !Int(cl, e);
    BeforeIdle(cl, j, c);
  }

  lemma WakeKeeps(cl: seq<Client>, p: Plan, before: Plan, s: State, t: int, i: nat)
    requires Setting(cl, p, before) && Inv(cl, s, t) && Ext(cl, i) && s.phase[i] == Waiting
    requires Readable(s.fifo, p.listen[i])
    ensures p.listen[i] == Fifo(cl, i) && t == i
    ensures Inv(cl, s.(phase := s.phase[i := Running], current := s.current + [i]), i)
  {
    assert Row(cl, before, p, i);
    assert Slot(cl, i) && Expect(cl, s.phase, t, i) > 0;
    assert t == i;
    var phase := s.phase[i := Running];
    forall x | Slot(cl, x)
      ensures Expect(cl, phase, i, x) == Expect(cl, s.phase, t, x)
    {
    }
    assert FifoOk(cl, s.fifo, phase, i);
    hide FifoOk;
  }

  lemma SignalKeeps(cl: seq<Client>, p: Plan, before: Plan, s: State, t: int, i: nat) returns (u: nat)
    requires Setting(cl, p, before) && Inv(cl, s, t) && Ext(cl, i) && s.phase[i] == Running
    ensures i < u <= |cl| && Inv(cl, s.(phase := s.phase[i := Cleanup], fifo := Put(s.fifo, p.signal[i])), u)
  {
    assert t == i && s.server.Blocked?;
    var h := s.server.head;
    assert Row(cl, before, p, i);
    u := NextEligible(cl, i + 1);
    NextFifo(cl, i, u);
    NextPlace(cl, h, i, u);
    TokenSlot(cl, h, u);
    var phase := s.phase[i := Cleanup];
    PutOk(cl, s.fifo, s.phase, i, phase, u, u);
    hide FifoOk;
    BeforeIdle(cl, i + 1, u);
  }

  lemma NextPlace(cl: seq<Client>, h: nat, i: nat, u: nat)
    requires Head(cl, h) && h <= i <= Close(cl, h) && Ext(cl, i) && u == NextEligible(cl, i + 1)
    ensures u <= Close(cl, h) && u == NextEligible(cl, u)
  {
    var c := Close(cl, h);
    assert i < c;
    assert c == |cl| || Eligible(cl, c);
  }

  lemma CleanKeeps(cl: seq<Client>, p: Plan, before: Plan, s: State, t: int, i: nat)
    requires Setting(cl, p, before) && Inv(cl, s, t) && Ext(cl, i) && s.phase[i] == Cleanup
    ensures p.listen[i] == Fifo(cl, i) && Readable(s.fifo, p.listen[i])
    ensures Inv(cl, s.(phase := s.phase[i := Waiting], fifo := Take(s.fifo, p.listen[i])), t)
  {
    assert Row(cl, before, p, i);
    assert Slot(cl, i);
    var phase := s.phase[i := Waiting];
    TakeOk(cl, s.fifo, s.phase, t, phase, t, i);
    hide FifoOk;
  }

  lemma StepKeeps(cl: seq<Client>, p: Plan, before: Plan, s: State, t: int, a: Action) returns (u: int)
    requires Setting(cl, p, before) && Inv(cl, s, t) && Enabled(cl, p, s, a)
    ensures Inv(cl, Apply(cl, p, s, a), u)
  {
    assert !s.server.Blocked? ==> t == -1;
    hide Inv, Setting, Slot, Fifo, Close, NextEligible, NextInternal;
    u := t;
    match a
    case StartCycle => StartKeeps(cl, s);
    case Skip => SettingParts(cl, p, before); SkipKeeps(cl, s, s.server.at);
    case EnterInternal => EnterKeeps(cl, s, s.server.at);
    case LeaveInternal => LeaveKeeps(cl, s, s.server.at);
    case Trigger => TriggerKeeps(cl, p, before, s, s.server.at); u := s.server.at;
    case Resume => ResumeKeeps(cl, p, before, s, t, s.server.head); u := -1;
    case EndCycle => EndKeeps(cl, s);
    case Wake(i) => WakeKeeps(cl, p, before, s, t, i); u := i;
    case Signal(i) => u := SignalKeeps(cl, p, before, s, t, i);
    case Clean(i) => CleanKeeps(cl, p, before, s, t, i);
  }

  lemma StartKeeps(cl: seq<Client>, s: State)
    requires Inv(cl, s, -1) && s.server == Idle
    ensures Inv(cl, s.(server := Walking(0)), -1)
  {
    hide FifoOk, PhaseOk;
  }

  lemma SettingParts(cl: seq<Client>, p: Plan, before: Plan)
    requires Setting(cl, p, before)
    ensures NoneStranded(cl) && DeadAreInactive(cl)
  {
  }

  // ----- Main results

  lemma InvIsSafe(cl: seq<Client>, s: State, t: int)
    requires Inv(cl, s, t)
    ensures Safe(cl, s)
  {
    match s.server
    case Idle =>
    case Walking(i) => BeforePrefix(cl, i, |cl|);
    case InInternal(i) => BeforePrefix(cl, i + 1, |cl|);
    case Blocked(h) =>
      BeforePrefix(cl, t, |cl|);
      if t < |cl| && s.phase[t] == Running {
        assert Ext(cl, t);
        BeforePrefix(cl, t + 1, |cl|);
      }
  }

  lemma {:induction false} RunKeepsInv(cl: seq<Client>, p: Plan, before: Plan, run: seq<State>, actions: seq<Action>, n: nat)
    returns (t: int)
    requires Setting(cl, p, before) && IsRun(cl, p, run, actions) && n <= |actions|
    ensures Inv(cl, run[n], t)
    decreases n
  {
    if n == 0 {
      InitInv(cl);
      t := -1;
    } else {
      t := RunKeepsInv(cl, p, before, run, actions, n - 1);
      assert Enabled(cl, p, run[n - 1], actions[n - 1]) && run[n - 1 + 1] == Apply(cl, p, run[n - 1], actions[n - 1]);
      hide Inv, Setting;
      t := StepKeeps(cl, p, before, run[n - 1], t, actions[n - 1]);
    }
  }

  /** For every list, chain length, interleaving and number of cycles, every state of
      every run is safe. */
  lemma EveryRunIsSafe(cl: seq<Client>, p: Plan, before: Plan, run: seq<State>, actions: seq<Action>)
    requires Setting(cl, p, before) && IsRun(cl, p, run, actions)
    ensures forall n :: 0 <= n < |run| ==> Safe(cl, run[n])
  {
    forall n | 0 <= n < |run|
      ensures Safe(cl, run[n])
    {
      var t := RunKeepsInv(cl, p, before, run, actions, n);
      InvIsSafe(cl, run[n], t);
    }
  }

  /** No run gets stuck in a cycle: some process can always go on. */
  lemma NeverStuck(cl: seq<Client>, p: Plan, before: Plan, s: State, t: int) returns (a: Action)
    requires Setting(cl, p, before) && Inv(cl, s, t)
    ensures Enabled(cl, p, s, a) && (a.StartCycle? ==> s.server.Idle?)
  {
    match s.server
    case Idle => a := StartCycle;
    case Walking(i) =>
      if i == |cl| { a := EndCycle; }
      else if !Processed(cl[i]) { a := Skip; }
      else if cl[i].internal { a := EnterInternal; }
      else { a := Trigger; }
    case InInternal(i) => a := LeaveInternal;
    case Blocked(h) =>
      TokenSlot(cl, h, t);
      if Ext(cl, t) {
        assert Row(cl, before, p, t);
        match s.phase[t]
        case Waiting => a := Wake(t);
        case Running => a := Signal(t);
        case Cleanup => a := Clean(t);
      } else {
        assert Row(cl, before, p, h);
        NotExtMeansEnd(cl, h, t);
        a := Resume;
      }
  }

  lemma NotExtMeansEnd(cl: seq<Client>, h: nat, t: nat)
    requires Head(cl, h) && h <= t <= Close(cl, h) && t == NextEligible(cl, t) && !Ext(cl, t)
    ensures t == Close(cl, h)
  {
    assert t < Close(cl, h) ==> !Int(cl, t);
  }

  // ----- Every cycle ends

  ghost function Work(phase: seq<Phase>): nat {
    if phase == [] then 0 else Work(phase[..|phase| - 1]) + Weight(phase[|phase| - 1])
  }

  ghost function Weight(v: Phase): nat {
    match v case Waiting => 0 case Cleanup => 1 case Running => 2
  }

  lemma {:induction false} WorkUpdate(phase: seq<Phase>, i: nat, v: Phase)
    requires i < |phase|
    ensures Work(phase[i := v]) - Weight(v) == Work(phase) - Weight(phase[i])
    decreases |phase|
  {
    var k := |phase| - 1;
    var next := phase[i := v];
    if i < k {
      WorkUpdate(phase[..k], i, v);
      assert next[..k] == phase[..k][i := v];
    } else {
      assert next[..k] == phase[..k];
    }
  }

  /** Clients still to run in this cycle. */
  ghost function ToRun(cl: seq<Client>, s: State): int {
    if s.server.Idle? then 0 else |Before(cl, |cl|)| - |s.current|
  }

  /** How far the server still has to walk. */
  ghost function ToWalk(cl: seq<Client>, s: State): int {
    match s.server
    case Idle => 0
    case Walking(i) => 2 * (|cl| - i) + 1
    case InInternal(i) => 2 * (|cl| - i)
    case Blocked(h) => 2 * (|cl| - h)
  }

  ghost predicate Less(cl: seq<Client>, after: State, before: State) {
    || 0 <= ToRun(cl, after) < ToRun(cl, before)
    || (ToRun(cl, after) == ToRun(cl, before) &&
        (|| 0 <= ToWalk(cl, after) < ToWalk(cl, before)
         || (ToWalk(cl, after) == ToWalk(cl, before) && Work(after.phase) < Work(before.phase))))
  }

  /** Every action other than starting a cycle brings its end closer, in a well-founded
      order. Together with NeverStuck: every cycle that is started ends. */
  lemma CyclesEnd(cl: seq<Client>, p: Plan, before: Plan, s: State, t: int, a: Action)
    requires Setting(cl, p, before) && Inv(cl, s, t) && Enabled(cl, p, s, a) && !a.StartCycle?
    ensures Less(cl, Apply(cl, p, s, a), s)
  {
    var u := StepKeeps(cl, p, before, s, t, a);
    var after := Apply(cl, p, s, a);
    InvIsSafe(cl, after, u);
    assert |after.current| <= |Before(cl, |cl|)|;
    match a
    case Skip =>
    case EnterInternal =>
    case LeaveInternal => assert Int(cl, s.server.at);
    case Trigger =>
    case Resume => assert NextInternal(cl, s.server.head) > s.server.head;
    case EndCycle => assert s.current == Before(cl, |cl|);
    case Wake(i) =>
      WakeKeeps(cl, p, before, s, t, i);
    case Signal(i) =>
      WorkUpdate(s.phase, i, Cleanup);
    case Clean(i) =>
      WorkUpdate(s.phase, i, Waiting);
  }

  /** The measure as one number: how many more steps the cycle can take. */
  ghost function StepsLeft(cl: seq<Client>, s: State): int {
    Weigh(|cl|, ToRun(cl, s), ToWalk(cl, s), Work(s.phase))
  }

  ghost function Weigh(n: nat, run: int, walk: int, work: int): int {
    (run * (2 * n + 2) + walk) * (2 * n + 1) + work
  }

  lemma MulFewer(a: int, b: int, c: nat)
    requires a < b
    ensures a * c + c <= b * c
  {
    assert b * c - a * c - c == (b - a - 1) * c;
  }

  lemma WeighFewer(n: nat, run: int, walk: int, work: int, run': int, walk': int, work': int)
    requires run' < run || (run' == run && (walk' < walk || (walk' == walk && work' < work)))
    requires 0 <= walk && 0 <= work && 0 <= walk' <= 2 * n + 1 && 0 <= work' <= 2 * n
    ensures Weigh(n, run', walk', work') < Weigh(n, run, walk, work)
  {
    var x, x' := run * (2 * n + 2) + walk, run' * (2 * n + 2) + walk';
    if run' < run { MulFewer(run', run, 2 * n + 2); }
    if x' < x { MulFewer(x', x, 2 * n + 1); }
  }

  lemma WeighBound(n: nat, run: int, walk: int, work: int)
    requires 0 <= run <= n && 0 <= walk <= 2 * n + 1 && 0 <= work <= 2 * n
    ensures 0 <= Weigh(n, run, walk, work) <= Weigh(n, n, 2 * n + 1, 2 * n)
  {
    var x, top := run * (2 * n + 2) + walk, n * (2 * n + 2) + 2 * n + 1;
    if run < n { MulFewer(run, n, 2 * n + 2); }
    if run > 0 { MulFewer(0, run, 2 * n + 2); }
    if x > 0 { MulFewer(0, x, 2 * n + 1); }
    if x < top { MulFewer(x, top, 2 * n + 1); }
  }

  lemma {:induction false} WorkBound(phase: seq<Phase>)
    ensures Work(phase) <= 2 * |phase|
    decreases |phase|
  {
    if phase != [] { WorkBound(phase[..|phase| - 1]); }
  }

  lemma {:induction false} BeforeBound(cl: seq<Client>, i: nat)
    requires i <= |cl|
    ensures |Before(cl, i)| <= i
    decreases i
  {
    if i > 0 { BeforeBound(cl, i - 1); }
  }

  lemma MeasureBounds(cl: seq<Client>, s: State, t: int)
    requires Inv(cl, s, t)
    ensures 0 <= ToRun(cl, s) <= |cl| && 0 <= ToWalk(cl, s) <= 2 * |cl| + 1 && 0 <= Work(s.phase) <= 2 * |cl|
  {
    InvIsSafe(cl, s, t);
    WorkBound(s.phase);
    BeforeBound(cl, |cl|);
  }

  /** Every cycle ends: between two starts there are at most so many steps, whatever the
      interleaving. */
  lemma {:induction false} CycleIsBounded(cl: seq<Client>, p: Plan, before: Plan, run: seq<State>, actions: seq<Action>, m: nat, n: nat)
    requires Setting(cl, p, before) && IsRun(cl, p, run, actions) && m <= n <= |actions|
    requires forall k :: m <= k < n ==> !actions[k].StartCycle?
    ensures 0 <= StepsLeft(cl, run[n]) && n - m + StepsLeft(cl, run[n]) <= StepsLeft(cl, run[m])
    ensures n - m <= Weigh(|cl|, |cl|, 2 * |cl| + 1, 2 * |cl|)
    decreases n
  {
    hide Inv, Setting, Weigh, StepsLeft;
    var t := RunKeepsInv(cl, p, before, run, actions, n);
    StepsBounded(cl, run[n], t);
    if m < n {
      CycleIsBounded(cl, p, before, run, actions, m, n - 1);
      StepIsFewer(cl, p, before, run, actions, n - 1);
      var u := RunKeepsInv(cl, p, before, run, actions, m);
      StepsBounded(cl, run[m], u);
    }
  }

  lemma StepsBounded(cl: seq<Client>, s: State, t: int)
    requires Inv(cl, s, t)
    ensures 0 <= StepsLeft(cl, s) <= Weigh(|cl|, |cl|, 2 * |cl| + 1, 2 * |cl|)
  {
    hide Inv, Weigh;
    MeasureBounds(cl, s, t);
    WeighBound(|cl|, ToRun(cl, s), ToWalk(cl, s), Work(s.phase));
  }

  lemma StepIsFewer(cl: seq<Client>, p: Plan, before: Plan, run: seq<State>, actions: seq<Action>, k: nat)
    requires Setting(cl, p, before) && IsRun(cl, p, run, actions) && k < |actions| && !actions[k].StartCycle?
    ensures StepsLeft(cl, run[k + 1]) < StepsLeft(cl, run[k])
  {
    var t := RunKeepsInv(cl, p, before, run, actions, k);
    var u := RunKeepsInv(cl, p, before, run, actions, k + 1);
    assert Enabled(cl, p, run[k], actions[k]) && run[k + 1] == Apply(cl, p, run[k], actions[k]);
    CyclesEnd(cl, p, before, run[k], t, actions[k]);
    MeasureBounds(cl, run[k], t);
    MeasureBounds(cl, run[k + 1], u);
    hide Inv, Setting, IsRun, Enabled, Apply, Weigh;
    WeighFewer(|cl|, ToRun(cl, run[k]), ToWalk(cl, run[k]), Work(run[k].phase),
               ToRun(cl, run[k + 1]), ToWalk(cl, run[k + 1]), Work(run[k + 1].phase));
  }
}
