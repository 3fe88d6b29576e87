/** What becomes of the token protocol when an internal client is stranded inside a
    subgraph: the server starts the subgraph a second time, in its middle. */
module TokenFailure {
  import opened Chain
  import opened Token

  /** Start and wait FIFO of a record are never the same: both are unset at first (-1), and
      a head waits on a later FIFO than it starts. */
  ghost predicate RecordsOk(p: Plan) {
    |p.start| == |p.wait| && forall i :: 0 <= i < |p.start| && p.start[i] == p.wait[i] ==> p.wait[i] < 0
  }

  /** Rechaining keeps it so. */
  lemma PlannedRecordsOk(cl: seq<Client>, before: Plan, p: Plan)
    requires Planned(cl, before, p) && RecordsOk(before)
    ensures RecordsOk(p)
  {
    forall i | 0 <= i < |cl| && p.start[i] == p.wait[i]
      ensures p.wait[i] < 0
    {
      assert Row(cl, before, p, i);
      if Head(cl, i) {
        StaysOpen(cl, i, Close(cl, i));
        SlotsDistinct(cl, i, Close(cl, i));
      }
    }
  }

  // ----- Runs, one step at a time

  lemma ReachStep(cl: seq<Client>, p: Plan, s: State, a: Action)
    requires Sized(p, |cl|) && Reachable(cl, p, s) && Enabled(cl, p, s, a)
    ensures Reachable(cl, p, Apply(cl, p, s, a))
  {
    hide Enabled, Apply, Init;
    var run: seq<State>, actions: seq<Action> :| IsRun(cl, p, run, actions) && run[|actions|] == s;
    var more, next := actions + [a], run + [Apply(cl, p, s, a)];
    forall i | 0 <= i < |more|
      ensures Enabled(cl, p, next[i], more[i]) && next[i + 1] == Apply(cl, p, next[i], more[i])
    {
      if i < |actions| {
        assert Enabled(cl, p, run[i], actions[i]) && run[i + 1] == Apply(cl, p, run[i], actions[i]);
      }
    }
    assert IsRun(cl, p, next, more) && next[|more|] == Apply(cl, p, s, a);
  }

  lemma InitReachable(cl: seq<Client>, p: Plan)
    requires Sized(p, |cl|)
    ensures Reachable(cl, p, Init(cl))
  {
    assert IsRun(cl, p, [Init(cl)], []);
  }

  // ----- States in which every client process is at rest

  ghost function Zeros(cl: seq<Client>): seq<nat> {
    seq(Fifo(cl, |cl|) + 1, _ => 0)
  }

  ghost function Rest(cl: seq<Client>, fifo: seq<nat>, server: Server, current: seq<nat>): State {
    State(fifo, seq(|cl|, _ => Waiting), server, current, [])
  }

  /** The server walks over clients that are not eligible. */
  lemma {:induction false} WalkOver(cl: seq<Client>, p: Plan, i: nat, j: nat, current: seq<nat>)
    requires Sized(p, |cl|) && i <= j <= |cl| && forall m :: i <= m < j ==> !Eligible(cl, m)
    requires Reachable(cl, p, Rest(cl, Zeros(cl), Walking(i), current))
    ensures Reachable(cl, p, Rest(cl, Zeros(cl), Walking(j), current))
    decreases j - i
  {
    hide Reachable, Zeros;
    if i < j {
      assert !Eligible(cl, i);
      ReachStep(cl, p, Rest(cl, Zeros(cl), Walking(i), current), Skip);
      WalkOver(cl, p, i + 1, j, current);
    }
  }

  /** An internal client of the chain is run by the server itself. */
  lemma WalkInternal(cl: seq<Client>, p: Plan, i: nat)
    requires Sized(p, |cl|) && Int(cl, i) && DeadAreInactive(cl)
    requires Reachable(cl, p, Rest(cl, Zeros(cl), Walking(i), Before(cl, i)))
    ensures Reachable(cl, p, Rest(cl, Zeros(cl), Walking(i + 1), Before(cl, i + 1)))
  {
    hide Reachable, Zeros;
    var s := Rest(cl, Zeros(cl), Walking(i), Before(cl, i));
    ReachStep(cl, p, s, EnterInternal);
    ReachStep(cl, p, Apply(cl, p, s, EnterInternal), LeaveInternal);
  }

  /** One byte, in the FIFO of position t. */
  ghost function OneAt(cl: seq<Client>, t: nat): seq<nat>
    requires t <= |cl|
  {
    Put(Zeros(cl), Fifo(cl, t))
  }

  /** The token is at member t of the subgraph with head h. */
  ghost function At(cl: seq<Client>, h: nat, t: nat): State
    requires t <= |cl|
  {
    Rest(cl, OneAt(cl, t), Blocked(h), Before(cl, t))
  }

  /** Member t in the given phase, everybody else at rest. */
  ghost function Busy(cl: seq<Client>, fifo: seq<nat>, h: nat, t: nat, phase: Phase): State
    requires t < |cl|
  {
    State(fifo, seq(|cl|, _ => Waiting)[t := phase], Blocked(h), Before(cl, t) + [t], [])
  }

  /** Member t wakes and runs. */
  lemma MemberWakes(cl: seq<Client>, p: Plan, before: Plan, h: nat, t: nat)
    requires Planned(cl, before, p) && Ext(cl, t) && Reachable(cl, p, At(cl, h, t))
    ensures Reachable(cl, p, Busy(cl, OneAt(cl, t), h, t, Running))
  {
    assert Row(cl, before, p, t);
    FifoMonotone(cl, t, |cl|);
    hide Reachable, Planned;
    ReachStep(cl, p, At(cl, h, t), Wake(t));
  }

  /** It passes the token on to position u, whose FIFO is the next one. */
  lemma MemberSignals(cl: seq<Client>, p: Plan, before: Plan, h: nat, t: nat, u: nat)
    requires Planned(cl, before, p) && Ext(cl, t) && u <= |cl| && Fifo(cl, u) == Fifo(cl, t) + 1
    requires Reachable(cl, p, Busy(cl, OneAt(cl, t), h, t, Running))
    ensures Reachable(cl, p, Busy(cl, Put(OneAt(cl, t), Fifo(cl, u)), h, t, Cleanup))
  {
    assert Row(cl, before, p, t);
    hide Reachable, Planned, OneAt;
    ReachStep(cl, p, Busy(cl, OneAt(cl, t), h, t, Running), Signal(t));
    var w := seq(|cl|, _ => Waiting);
    assert w[t := Running][t := Cleanup] == w[t := Cleanup];
  }

  /** It takes its own byte out. */
  lemma MemberCleans(cl: seq<Client>, p: Plan, before: Plan, h: nat, t: nat, u: nat)
    requires Planned(cl, before, p) && Ext(cl, t) && u <= |cl| && Fifo(cl, u) == Fifo(cl, t) + 1
    requires Before(cl, u) == Before(cl, t) + [t]
    requires Reachable(cl, p, Busy(cl, Put(OneAt(cl, t), Fifo(cl, u)), h, t, Cleanup))
    ensures Reachable(cl, p, At(cl, h, u))
  {
    assert Row(cl, before, p, t);
    var s := Busy(cl, Put(OneAt(cl, t), Fifo(cl, u)), h, t, Cleanup);
    FifoMonotone(cl, u, |cl|);
    assert Take(s.fifo, Fifo(cl, t)) == OneAt(cl, u);
    hide Reachable, Planned, OneAt, Take, Put;
    ReachStep(cl, p, s, Clean(t));
    var w := seq(|cl|, _ => Waiting);
    assert w[t := Cleanup][t := Waiting] == w;
  }

  lemma MemberRuns(cl: seq<Client>, p: Plan, before: Plan, h: nat, t: nat)
    requires Planned(cl, before, p) && Head(cl, h) && h <= t < Close(cl, h) && Ext(cl, t)
    requires Reachable(cl, p, At(cl, h, t))
    ensures NextEligible(cl, t + 1) <= Close(cl, h)
    ensures Reachable(cl, p, At(cl, h, NextEligible(cl, t + 1)))
  {
    var u := NextEligible(cl, t + 1);
    NextFifo(cl, t, u);
    NextPlace(cl, h, t, u);
    BeforeIdle(cl, t + 1, u);
    hide Reachable, Planned, Fifo, NextEligible, Close, Head;
    MemberWakes(cl, p, before, h, t);
    MemberSignals(cl, p, before, h, t, u);
    MemberCleans(cl, p, before, h, t, u);
  }

  lemma {:induction false} MembersRun(cl: seq<Client>, p: Plan, before: Plan, h: nat, t: nat)
    requires Planned(cl, before, p) && Head(cl, h) && h <= t <= Close(cl, h) && t == NextEligible(cl, t)
    requires Reachable(cl, p, At(cl, h, t))
    ensures Reachable(cl, p, At(cl, h, Close(cl, h)))
    decreases |cl| - t
  {
    hide Reachable, Planned;
    if Ext(cl, t) {
      NextPlace(cl, h, t, NextEligible(cl, t + 1));
      MemberRuns(cl, p, before, h, t);
      MembersRun(cl, p, before, h, NextEligible(cl, t + 1));
    } else {
      NotExtMeansEnd(cl, h, t);
    }
  }

  /** A whole subgraph runs, and the server goes on at the next internal client of any kind. */
  lemma SubgraphRuns(cl: seq<Client>, p: Plan, before: Plan, h: nat)
    requires Planned(cl, before, p) && Head(cl, h) && DeadAreInactive(cl)
    requires Reachable(cl, p, Rest(cl, Zeros(cl), Walking(h), Before(cl, h)))
    ensures Reachable(cl, p, Rest(cl, Zeros(cl), Walking(NextInternal(cl, h)), Before(cl, Close(cl, h))))
  {
    var c := Close(cl, h);
    assert Row(cl, before, p, h);
    var s := Rest(cl, Zeros(cl), Walking(h), Before(cl, h));
    assert Processed(cl[h]) && !cl[h].internal;
    FifoMonotone(cl, h, |cl|);
    FifoMonotone(cl, c, |cl|);
    ReachStep(cl, p, s, Trigger);
    assert Apply(cl, p, s, Trigger) == At(cl, h, h);
    MembersRun(cl, p, before, h, h);
    hide Reachable, Planned, Row, RowButWait;
    ReachStep(cl, p, At(cl, h, c), Resume);
    assert Take(OneAt(cl, c), Fifo(cl, c)) == Zeros(cl);
  }

  // ----- The second start of a subgraph

  ghost predicate Bad(cl: seq<Client>, p: Plan, s: State)
    requires Sized(p, |cl|)
  {
    Reachable(cl, p, s) && (!Safe(cl, s) || Stuck(cl, p, s))
  }

  /** After a whole subgraph has run, only the client that closes it may run next. */
  lemma OutOfTurn(cl: seq<Client>, c: nat, i: nat)
    requires c <= |cl| && (c < |cl| ==> Int(cl, c)) && Ext(cl, i)
    ensures !(Before(cl, c) + [i] <= Before(cl, |cl|))
  {
    var all, done := Before(cl, |cl|), Before(cl, c);
    if c < |cl| {
      BeforePrefix(cl, c + 1, |cl|);
      assert all[|done|] == Before(cl, c + 1)[|done|] == c;
      assert (done + [i])[|done|] == i;
    }
  }

  /** The server starts a member that is not a head: either a client runs out of turn, or
      nobody can move. */
  lemma SecondStart(cl: seq<Client>, p: Plan, before: Plan, e: nat, c: nat) returns (s: State)
    requires Planned(cl, before, p) && RecordsOk(before) && DeadAreInactive(cl)
    requires Ext(cl, e) && c <= |cl| && (c < |cl| ==> Int(cl, c))
    requires Reachable(cl, p, Rest(cl, Zeros(cl), Walking(e), Before(cl, c)))
    ensures Bad(cl, p, s)
  {
    var walking := Rest(cl, Zeros(cl), Walking(e), Before(cl, c));
    ReachStep(cl, p, walking, Trigger);
    s := Apply(cl, p, walking, Trigger);
    PlannedRecordsOk(cl, before, p);
    assert s == Rest(cl, Put(Zeros(cl), p.start[e]), Blocked(e), Before(cl, c));
    hide Reachable;
    if i: nat :| Ext(cl, i) && Readable(s.fifo, p.listen[i]) {
      ReachStep(cl, p, s, Wake(i));
      s := Apply(cl, p, s, Wake(i));
      OutOfTurn(cl, c, i);
    } else {
      NobodyMoves(cl, p, s, e);
    }
  }

  lemma NobodyMoves(cl: seq<Client>, p: Plan, s: State, e: nat)
    requires Sized(p, |cl|) && RecordsOk(p) && e < |cl|
    requires exists current :: s == Rest(cl, Put(Zeros(cl), p.start[e]), Blocked(e), current)
    requires forall i: nat :: Ext(cl, i) ==> !Readable(s.fifo, p.listen[i])
    ensures Stuck(cl, p, s)
  {
    assert !Readable(s.fifo, p.wait[e]);
  }

  /** Where the server resumes after the subgraph with head h: it meets another member, or the
      walk agrees with the plan again. */
  lemma AfterSubgraph(cl: seq<Client>, p: Plan, before: Plan, h: nat) returns (bad: bool, s: State)
    requires Planned(cl, before, p) && RecordsOk(before) && DeadAreInactive(cl) && Head(cl, h)
    requires Reachable(cl, p, Rest(cl, Zeros(cl), Walking(NextInternal(cl, h)), Before(cl, Close(cl, h))))
    ensures bad ==> Bad(cl, p, s)
    ensures !bad ==> !Ext(cl, NextEligible(cl, NextInternal(cl, h)))
    ensures !bad ==> Reachable(cl, p, Rest(cl, Zeros(cl), Walking(NextInternal(cl, h)), Before(cl, NextInternal(cl, h))))
  {
    hide Reachable, Planned, RecordsOk, Bad;
    var j, c := NextInternal(cl, h), Close(cl, h);
    var e := NextEligible(cl, j);
    bad, s := Ext(cl, e), Init(cl);
    if bad {
      PlannedSized(cl, before, p);
      WalkOver(cl, p, j, e, Before(cl, c));
      s := SecondStart(cl, p, before, e, c);
    } else {
      ResumePlace(cl, h, j);
    }
  }

  lemma PlannedSized(cl: seq<Client>, before: Plan, p: Plan)
    requires Planned(cl, before, p)
    ensures Sized(p, |cl|)
  {
  }

  /** A stranded client is still ahead when the walk agrees with the plan after a subgraph. */
  lemma StillAhead(cl: seq<Client>, h: nat, x: nat, y: nat, z: nat)
    requires Ext(cl, h) && h <= x && Stranded(cl, x, y, z) && !Ext(cl, NextEligible(cl, NextInternal(cl, h)))
    ensures NextInternal(cl, h) <= x
  {
    var j := NextInternal(cl, h);
    var e := NextEligible(cl, j);
    assert Eligible(cl, z) && (x < e < z ==> !Int(cl, e));
  }

  /** From a place where the walk agrees with the plan, a stranded client ahead leads to a
      bad state. */
  lemma {:induction false} BadAhead(cl: seq<Client>, p: Plan, before: Plan, i: nat, x: nat, y: nat, z: nat) returns (s: State)
    requires Planned(cl, before, p) && RecordsOk(before) && DeadAreInactive(cl)
    requires i <= x && Stranded(cl, x, y, z)
    requires Open(cl, i) ==> !Ext(cl, NextEligible(cl, i))
    requires Reachable(cl, p, Rest(cl, Zeros(cl), Walking(i), Before(cl, i)))
    ensures Bad(cl, p, s)
    decreases |cl| - i
  {
    PlannedSized(cl, before, p);
    hide Reachable, Planned, RecordsOk, Bad;
    if !Eligible(cl, i) {
      WalkOver(cl, p, i, i + 1, Before(cl, i));
      s := BadAhead(cl, p, before, i + 1, x, y, z);
    } else if Int(cl, i) {
      WalkInternal(cl, p, i);
      s := BadAhead(cl, p, before, i + 1, x, y, z);
    } else {
      assert NextEligible(cl, i) == i && Head(cl, i);
      SubgraphRuns(cl, p, before, i);
      var bad;
      bad, s := AfterSubgraph(cl, p, before, i);
      if !bad {
        StillAhead(cl, i, x, y, z);
        s := BadAhead(cl, p, before, NextInternal(cl, i), x, y, z);
      }
    }
  }

  lemma StrandedFails(cl: seq<Client>, p: Plan, before: Plan) returns (s: State)
    requires Planned(cl, before, p) && RecordsOk(before) && DeadAreInactive(cl) && !NoneStranded(cl)
    ensures Bad(cl, p, s)
  {
    var x: nat, y: nat, z: nat :| Stranded(cl, x, y, z);
    InitReachable(cl, p);
    ReachStep(cl, p, Init(cl), StartCycle);
    assert Apply(cl, p, Init(cl), StartCycle) == Rest(cl, Zeros(cl), Walking(0), Before(cl, 0));
    s := BadAhead(cl, p, before, 0, x, y, z);
  }

  /** The protocol works, every client running once per cycle in order, one at a time, and
      nobody waiting for good, if and only if no internal client is stranded. */
  lemma ProtocolHoldsIff(cl: seq<Client>, p: Plan, before: Plan)
    requires Planned(cl, before, p) && RecordsOk(before) && DeadAreInactive(cl)
    ensures NoneStranded(cl) <==> forall s :: Reachable(cl, p, s) ==> Safe(cl, s) && !Stuck(cl, p, s)
  {
    hide Safe, Stuck;
    if NoneStranded(cl) {
      forall s | Reachable(cl, p, s)
        ensures Safe(cl, s) && !Stuck(cl, p, s)
      {
        ReachableIsGood(cl, p, before, s);
      }
    } else {
      var s := StrandedFails(cl, p, before);
    }
  }

  lemma ReachableIsGood(cl: seq<Client>, p: Plan, before: Plan, s: State)
    requires Setting(cl, p, before) && Reachable(cl, p, s)
    ensures Safe(cl, s) && !Stuck(cl, p, s)
  {
    hide Safe, Inv, Enabled;
    var run: seq<State>, actions: seq<Action> :| IsRun(cl, p, run, actions) && run[|actions|] == s;
    var t := RunKeepsInv(cl, p, before, run, actions, |actions|);
    InvIsSafe(cl, s, t);
    var a := NeverStuck(cl, p, before, s, t);
  }

  // ----- A chain with a stranded client

  const EXTERNAL: Client := Client(false, true, true, false)

  /** Two external clients around an internal one. */
  function Around(active: bool): seq<Client> {
    [EXTERNAL, Client(true, active, true, false), EXTERNAL]
  }

  /** What is left in the records when the internal client goes inactive: the second external
      keeps the FIFOs it had as a head of its own. */
  lemma LeftoverPlan(first: Plan, before: Plan, p: Plan)
    requires Planned(Around(true), first, before) && Planned(Around(false), before, p)
    ensures Leftover(p) && Fifo(Around(false), 3) == 2
  {
    var was, cl := Around(true), Around(false);
    assert Fifo(was, 1) == 1 && Fifo(was, 2) == 2 && Fifo(was, 3) == 3;
    assert Fifo(cl, 1) == 1 && Fifo(cl, 2) == 1 && Fifo(cl, 3) == 2;
    assert Head(was, 2) && Close(was, 2) == 3 && Head(cl, 0) && Open(cl, 1) && Open(cl, 2);
    assert Close(cl, 2) == 3 && Close(cl, 1) == 3 && Close(cl, 0) == 3;
    assert Row(was, first, before, 2);
    assert Row(cl, before, p, 0) && Row(cl, before, p, 2);
  }

  ghost predicate Leftover(p: Plan) {
    && Sized(p, 3)
    && p.start[0] == 0 && p.wait[0] == 2 && p.listen[0] == 0 && p.signal[0] == 1
    && p.start[2] == 2 && p.wait[2] == 3 && p.listen[2] == 1 && p.signal[2] == 2
  }

  function WedgeActions(): seq<Action> {
    [StartCycle, Trigger, Wake(0), Signal(0), Clean(0), Wake(2), Signal(2), Clean(2), Resume, Skip, Trigger]
  }

  function WedgeStates(): seq<State> {
    var r, w, c := Running, Waiting, Cleanup;
    [
      State([0, 0, 0], [w, w, w], Idle, [], []),
      State([0, 0, 0], [w, w, w], Walking(0), [], []),
      State([1, 0, 0], [w, w, w], Blocked(0), [], []),
      State([1, 0, 0], [r, w, w], Blocked(0), [0], []),
      State([1, 1, 0], [c, w, w], Blocked(0), [0], []),
      State([0, 1, 0], [w, w, w], Blocked(0), [0], []),
      State([0, 1, 0], [w, w, r], Blocked(0), [0, 2], []),
      State([0, 1, 1], [w, w, c], Blocked(0), [0, 2], []),
      State([0, 0, 1], [w, w, w], Blocked(0), [0, 2], []),
      State([0, 0, 0], [w, w, w], Walking(1), [0, 2], []),
      State([0, 0, 0], [w, w, w], Walking(2), [0, 2], []),
      State([0, 0, 1], [w, w, w], Blocked(2), [0, 2], [])
    ]
  }

  lemma WedgeStep(p: Plan, i: nat)
    requires Leftover(p) && i < 11
    ensures var cl, s, a := Around(false), WedgeStates(), WedgeActions();
            Enabled(cl, p, s[i], a[i]) && s[i + 1] == Apply(cl, p, s[i], a[i])
  {
    assert NextInternal(Around(false), 1) == 1 && NextInternal(Around(false), 0) == 1;
    assert i in {0, 1, 2, 3, 4, 5, 6, 7, 8, 9, 10};
  }

  /** After an internal client between two externals is deactivated, a cycle comes to a state
      in which nobody can move: the server waits for a subgraph that no longer exists. */
  lemma StrandedWedgesServer(first: Plan, before: Plan, p: Plan) returns (run: seq<State>, actions: seq<Action>)
    requires Planned(Around(true), first, before) && Planned(Around(false), before, p)
    ensures IsRun(Around(false), p, run, actions)
    ensures Stuck(Around(false), p, run[|run| - 1])
  {
    LeftoverPlan(first, before, p);
    hide Planned, Fifo, Leftover;
    var cl := Around(false);
    run, actions := WedgeStates(), WedgeActions();
    assert run[0] == Init(cl);
    WedgedIsStuck(p);
    hide Stuck, WedgeStates, WedgeActions, Enabled, Apply;
    forall i | 0 <= i < |actions|
      ensures Enabled(cl, p, run[i], actions[i]) && run[i + 1] == Apply(cl, p, run[i], actions[i])
    {
      WedgeStep(p, i);
    }
  }

  lemma WedgedIsStuck(p: Plan)
    requires Leftover(p)
    ensures Stuck(Around(false), p, WedgeStates()[11])
  {
  }
}
