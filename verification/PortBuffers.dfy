/** Port slots and the per-type pools of port buffers of the server
    (jack_engine_place_port_buffers, jack_get_free_port, jack_port_assign_buffer,
    jack_port_release). */
module PortBuffers {
  import opened Collections

  /** A port slot: the shared record and the internal record side by side. */
  datatype Slot = Slot(inUse: bool, output: bool, ptype: nat, offset: nat, buffer: Option<nat>)

  /** The buffers of one port type: one_buffer, the offset of each, and the free list. */
  datatype Pool = Pool(one: nat, offsets: seq<nat>, free: seq<nat>)

  /** Slot i is a registered output of type t. */
  ghost predicate Output(ps: seq<Slot>, t: nat, i: int) {
    0 <= i < |ps| && ps[i].inUse && ps[i].output && ps[i].ptype == t
  }

  ghost predicate Holds(ps: seq<Slot>, t: nat, i: int, b: nat) {
    Output(ps, t, i) && ps[i].buffer == Some(b)
  }

  ghost function Outputs(ps: seq<Slot>, t: nat): set<int> {
    set i | 0 <= i < |ps| && Output(ps, t, i)
  }

  /** How many outputs of one type can be registered: all buffers but the zero buffer. */
  function Capacity(pool: Pool): nat {
    if pool.offsets == [] then 0 else |pool.offsets| - 1
  }

  /** Buffers lie one after the other. */
  ghost predicate Placed(pool: Pool) {
    (pool.offsets == [] || pool.one > 0) &&
    forall b :: 0 <= b < |pool.offsets| ==> pool.offsets[b] == b * pool.one
  }

  /** Every buffer but the zero buffer is either free, once, or held by exactly one output. */
  ghost predicate Partition(ps: seq<Slot>, t: nat, pool: Pool) {
    && Distinct(pool.free)
    && (forall b :: b in pool.free ==> 1 <= b <= Capacity(pool))
    && (forall i, b: nat :: b in pool.free ==> !Holds(ps, t, i, b))
    && (forall b | 1 <= b <= Capacity(pool) :: b in pool.free || exists i :: Holds(ps, t, i, b))
    && (forall i, j, b: nat :: Holds(ps, t, i, b) && Holds(ps, t, j, b) ==> i == j)
  }

  ghost predicate SlotOk(p: Slot, pools: seq<Pool>) {
    if !p.inUse then p.buffer.None?
    else if !p.output then p.buffer.None? && p.offset == 0
    else
      && p.ptype < |pools| && p.buffer.Some? && 1 <= p.buffer.value <= Capacity(pools[p.ptype])
      && p.offset == pools[p.ptype].offsets[p.buffer.value]
  }

  ghost predicate Consistent(ps: seq<Slot>, pools: seq<Pool>) {
    && (forall i :: 0 <= i < |ps| ==> SlotOk(ps[i], pools))
    && (forall t :: 0 <= t < |pools| ==> Placed(pools[t]) && Partition(ps, t, pools[t]))
  }

  // ----- What consistency means

  lemma MulGap(a: nat, b: nat, one: nat)
    requires a < b
    ensures a * one + one <= b * one
  {
    assert b * one - a * one == (b - a) * one;
    assert (b - a - 1) * one >= 0;
  }

  /** The region of slot i, an output of type t. */
  ghost predicate Inside(ps: seq<Slot>, pool: Pool, i: nat)
    requires i < |ps|
  {
    pool.one <= ps[i].offset && ps[i].offset + pool.one <= |pool.offsets| * pool.one
  }

  ghost predicate Apart(ps: seq<Slot>, pool: Pool, i: nat, j: nat)
    requires i < |ps| && j < |ps|
  {
    ps[i].offset + pool.one <= ps[j].offset || ps[j].offset + pool.one <= ps[i].offset
  }

  /** An output's buffer lies in the segment and clear of the zero buffer at offset 0, which
      unconnected inputs read. */
  lemma BufferInside(ps: seq<Slot>, pools: seq<Pool>, t: nat, i: nat)
    requires Consistent(ps, pools) && t < |pools| && Output(ps, t, i)
    ensures Inside(ps, pools[t], i)
  {
    var one, a := pools[t].one, ps[i].buffer.value;
    assert SlotOk(ps[i], pools);
    MulGap(0, a, one);
    MulGap(a, |pools[t].offsets|, one);
  }

  /** No two registered outputs of a type overlap. */
  lemma BuffersApart(ps: seq<Slot>, pools: seq<Pool>, t: nat, i: nat, j: nat)
    requires Consistent(ps, pools) && t < |pools| && i != j && Output(ps, t, i) && Output(ps, t, j)
    ensures Apart(ps, pools[t], i, j)
  {
    var one, a, b := pools[t].one, ps[i].buffer.value, ps[j].buffer.value;
    assert SlotOk(ps[i], pools) && SlotOk(ps[j], pools);
    assert Holds(ps, t, i, a) && Holds(ps, t, j, b);
    assert a != b;
    if a < b { MulGap(a, b, one); } else { MulGap(b, a, one); }
  }

  /** Which buffer each output of the type holds. */
  ghost function HeldBy(ps: seq<Slot>, t: nat): map<int, nat> {
    map i | 0 <= i < |ps| && Output(ps, t, i) && ps[i].buffer.Some? :: ps[i].buffer.value
  }

  lemma HeldKeys(ps: seq<Slot>, pools: seq<Pool>, t: nat)
    requires Consistent(ps, pools)
    ensures HeldBy(ps, t).Keys == Outputs(ps, t)
    ensures forall i :: i in HeldBy(ps, t) ==> 1 <= HeldBy(ps, t)[i] && t < |pools| && HeldBy(ps, t)[i] <= Capacity(pools[t])
  {
    hide Partition, Placed;
    forall i | 0 <= i < |ps| && Output(ps, t, i)
      ensures ps[i].buffer.Some? && t < |pools| && 1 <= ps[i].buffer.value <= Capacity(pools[t])
    {
      assert SlotOk(ps[i], pools);
    }
  }

  lemma HeldValues(ps: seq<Slot>, t: nat, pool: Pool)
    requires Partition(ps, t, pool)
    requires forall i :: i in HeldBy(ps, t) ==> 1 <= HeldBy(ps, t)[i] <= Capacity(pool)
    ensures HeldBy(ps, t).Values !! ToSet(pool.free)
    ensures HeldBy(ps, t).Values + ToSet(pool.free) == OneTo(Capacity(pool))
  {
    var held := HeldBy(ps, t);
    forall b | b in held.Values
      ensures b !in pool.free
    {
      var i :| i in held && held[i] == b;
      assert Holds(ps, t, i, b);
    }
    forall b | b in OneTo(Capacity(pool)) && b !in pool.free
      ensures b in held.Values
    {
      var i :| Holds(ps, t, i, b);
      assert held[i] == b;
    }
  }

  /** The free buffers and the outputs always add up. */
  lemma FreeAndHeld(ps: seq<Slot>, pools: seq<Pool>, t: nat)
    requires Consistent(ps, pools) && t < |pools|
    ensures |pools[t].free| + |Outputs(ps, t)| == Capacity(pools[t])
  {
    var held, free := HeldBy(ps, t), pools[t].free;
    assert Partition(ps, t, pools[t]);
    HeldKeys(ps, pools, t);
    HeldValues(ps, t, pools[t]);
    forall i, j | i in held && j in held && held[i] == held[j]
      ensures i == j
    {
      assert Holds(ps, t, i, held[i]) && Holds(ps, t, j, held[i]);
    }
    InjectiveSize(held);
    DistinctSetSize(free);
  }

  ghost function OneTo(n: nat): (all: set<nat>)
    ensures |all| == n && forall b :: b in all <==> 1 <= b <= n
  {
    if n == 0 then {} else OneTo(n - 1) + {n}
  }

  // ----- How the operations change slots and pools

  /** A slot without a buffer comes or goes: no partition changes. */
  lemma BufferlessKeeps(ps: seq<Slot>, pools: seq<Pool>, i: nat, p: Slot)
    requires Consistent(ps, pools) && i < |ps| && ps[i].buffer.None?
    requires SlotOk(p, pools) && p.buffer.None?
    ensures Consistent(ps[i := p], pools)
  {
    var qs := ps[i := p];
    forall t, j, b: nat
      ensures Holds(qs, t, j, b) <==> Holds(ps, t, j, b)
    {
    }
    forall t | 0 <= t < |pools|
      ensures Partition(qs, t, pools[t])
    {
      assert Partition(ps, t, pools[t]);
      SamePartition(ps, qs, t, pools[t]);
    }
  }

  lemma SamePartition(ps: seq<Slot>, qs: seq<Slot>, t: nat, pool: Pool)
    requires Partition(ps, t, pool)
    requires forall j, b: nat :: Holds(qs, t, j, b) <==> Holds(ps, t, j, b)
    ensures Partition(qs, t, pool)
  {
    hide Holds;
    forall b | 1 <= b <= Capacity(pool)
      ensures b in pool.free || exists i :: Holds(qs, t, i, b)
    {
      if b !in pool.free {
        var i :| Holds(ps, t, i, b);
        assert Holds(qs, t, i, b);
      }
    }
  }

  /** Slot i takes the head of the free list. */
  lemma TakeKeeps(ps: seq<Slot>, t: nat, pool: Pool, i: nat, p: Slot)
    requires Partition(ps, t, pool) && i < |ps| && ps[i].buffer.None? && pool.free != []
    requires p.inUse && p.output && p.ptype == t && p.buffer == Some(pool.free[0])
    ensures Partition(ps[i := p], t, pool.(free := pool.free[1..]))
  {
    var qs, next, head := ps[i := p], pool.(free := pool.free[1..]), pool.free[0];
    assert pool.free == [head] + next.free;
    forall j, b: nat
      ensures Holds(qs, t, j, b) <==> Holds(ps, t, j, b) || (j == i && b == head)
    {
    }
    HolderGained(ps, qs, t, pool, i);
  }

  lemma HolderGained(ps: seq<Slot>, qs: seq<Slot>, t: nat, pool: Pool, i: nat)
    requires Partition(ps, t, pool) && pool.free != []
    requires forall b: nat :: !Holds(ps, t, i, b)
    requires forall j, b: nat :: Holds(qs, t, j, b) <==> Holds(ps, t, j, b) || (j == i && b == pool.free[0])
    ensures Partition(qs, t, pool.(free := pool.free[1..]))
  {
    hide Holds;
    var next := pool.(free := pool.free[1..]);
    assert pool.free == [pool.free[0]] + next.free && pool.free[0] !in next.free;
    assert pool.free[0] in pool.free && forall b :: b in next.free ==> b in pool.free;
    forall b | 1 <= b <= Capacity(next)
      ensures b in next.free || exists j :: Holds(qs, t, j, b)
    {
      if b !in next.free {
        if b == pool.free[0] {
          assert Holds(qs, t, i, b);
        } else {
          assert b !in pool.free;
          var j :| Holds(ps, t, j, b);
          assert Holds(qs, t, j, b);
        }
      }
    }
  }

  /** Slot i gives its buffer back to the front of the free list. */
  lemma GiveKeeps(ps: seq<Slot>, t: nat, pool: Pool, i: nat, p: Slot)
    requires Partition(ps, t, pool) && Output(ps, t, i) && ps[i].buffer.Some?
    requires 1 <= ps[i].buffer.value <= Capacity(pool) && p.buffer.None?
    ensures Partition(ps[i := p], t, pool.(free := [ps[i].buffer.value] + pool.free))
  {
    var qs, mine := ps[i := p], ps[i].buffer.value;
    assert Holds(ps, t, i, mine);
    forall j, b: nat
      ensures Holds(qs, t, j, b) <==> Holds(ps, t, j, b) && j != i
    {
    }
    HolderLost(ps, qs, t, pool, i, mine);
  }

  lemma HolderLost(ps: seq<Slot>, qs: seq<Slot>, t: nat, pool: Pool, i: nat, mine: nat)
    requires Partition(ps, t, pool) && 1 <= mine <= Capacity(pool) && Holds(ps, t, i, mine)
    requires forall b: nat :: Holds(ps, t, i, b) ==> b == mine
    requires forall j, b: nat :: Holds(qs, t, j, b) <==> Holds(ps, t, j, b) && j != i
    ensures Partition(qs, t, pool.(free := [mine] + pool.free))
  {
    hide Holds;
    var next := pool.(free := [mine] + pool.free);
    forall b | 1 <= b <= Capacity(next)
      ensures b in next.free || exists j :: Holds(qs, t, j, b)
    {
      if b !in next.free {
        var j :| Holds(ps, t, j, b);
        assert Holds(qs, t, j, b);
      }
    }
  }

  /** A pool of another type does not notice slot i change between types it is not of. */
  lemma OtherType(ps: seq<Slot>, u: nat, pool: Pool, i: nat, p: Slot)
    requires Partition(ps, u, pool) && i < |ps| && !Output(ps, u, i)
    requires !(p.inUse && p.output && p.ptype == u)
    ensures Partition(ps[i := p], u, pool)
  {
    var qs := ps[i := p];
    forall j, b: nat
      ensures Holds(qs, u, j, b) <==> Holds(ps, u, j, b)
    {
    }
    SamePartition(ps, qs, u, pool);
  }

  /** The pools after slot i was released: a buffer it holds goes to the front of its free list. */
  function Returned(pools: seq<Pool>, p: Slot): seq<Pool>
    requires p.buffer.Some? ==> p.ptype < |pools|
  {
    if p.buffer.None? then pools
    else pools[p.ptype := pools[p.ptype].(free := [p.buffer.value] + pools[p.ptype].free)]
  }

  lemma SlotStaysOk(p: Slot, pools: seq<Pool>, t: nat, free: seq<nat>)
    requires SlotOk(p, pools) && t < |pools|
    ensures SlotOk(p, pools[t := pools[t].(free := free)])
  {
  }

  lemma TakeConsistent(ps: seq<Slot>, pools: seq<Pool>, t: nat, i: nat)
    requires Consistent(ps, pools) && t < |pools| && i < |ps| && !ps[i].inUse && pools[t].free != []
    ensures 1 <= pools[t].free[0] <= Capacity(pools[t])
    ensures var head := pools[t].free[0];
            Consistent(ps[i := Slot(true, true, t, pools[t].offsets[head], Some(head))],
                       pools[t := pools[t].(free := pools[t].free[1..])])
  {
    hide Partition, Placed;
    assert Partition(ps, t, pools[t]);
    FreeInRange(ps, t, pools[t]);
    var head, free := pools[t].free[0], pools[t].free[1..];
    var p := Slot(true, true, t, pools[t].offsets[head], Some(head));
    var qs, next := ps[i := p], pools[t := pools[t].(free := free)];
    forall j | 0 <= j < |qs|
      ensures SlotOk(qs[j], next)
    {
      if j != i { SlotStaysOk(ps[j], pools, t, free); }
    }
    assert SlotOk(ps[i], pools);
    TakeKeeps(ps, t, pools[t], i, p);
    forall u | 0 <= u < |next|
      ensures Placed(next[u]) && Partition(qs, u, next[u])
    {
      assert Placed(pools[u]) && Partition(ps, u, pools[u]);
      if u != t { OtherType(ps, u, pools[u], i, p); } else { SamePlaced(pools[u], free); }
    }
  }

  lemma FreeInRange(ps: seq<Slot>, t: nat, pool: Pool)
    requires Partition(ps, t, pool) && pool.free != []
    ensures 1 <= pool.free[0] <= Capacity(pool) < |pool.offsets|
  {
    assert pool.free[0] in pool.free;
  }

  lemma SamePlaced(pool: Pool, free: seq<nat>)
    requires Placed(pool)
    ensures Placed(pool.(free := free))
  {
  }

  lemma GiveConsistent(ps: seq<Slot>, pools: seq<Pool>, i: nat)
    requires Consistent(ps, pools) && i < |ps|
    ensures ps[i].buffer.Some? ==> ps[i].ptype < |pools|
    ensures Consistent(ps[i := ps[i].(inUse := false, buffer := None)], Returned(pools, ps[i]))
  {
    hide Partition, Placed;
    assert SlotOk(ps[i], pools);
    var p := ps[i].(inUse := false, buffer := None);
    if ps[i].buffer.None? {
      BufferlessKeeps(ps, pools, i, p);
    } else {
      var t, mine := ps[i].ptype, ps[i].buffer.value;
      var free := [mine] + pools[t].free;
      var qs, next := ps[i := p], pools[t := pools[t].(free := free)];
      forall j | 0 <= j < |qs|
        ensures SlotOk(qs[j], next)
      {
        if j != i { SlotStaysOk(ps[j], pools, t, free); }
      }
      GiveKeeps(ps, t, pools[t], i, p);
      forall u | 0 <= u < |next|
        ensures Placed(next[u]) && Partition(qs, u, next[u])
      {
        assert Placed(pools[u]) && Partition(ps, u, pools[u]);
        if u != t { OtherType(ps, u, pools[u], i, p); } else { SamePlaced(pools[u], free); }
      }
    }
  }

  /** Slot i after a resize: an output of the type moves with its buffer. */
  ghost predicate MovedTo(ps: seq<Slot>, t: nat, offsets: seq<nat>, i: int, q: Slot)
    requires 0 <= i < |ps|
  {
    if Output(ps, t, i) && ps[i].buffer.Some?
    then ps[i].buffer.value < |offsets| && q == ps[i].(offset := offsets[ps[i].buffer.value])
    else q == ps[i]
  }

  /** The free list and the holders are as before, the offsets are those of the new size. */
  lemma MovedConsistent(ps: seq<Slot>, pools: seq<Pool>, t: nat, qs: seq<Slot>, pool: Pool)
    requires Consistent(ps, pools) && t < |pools| && Placed(pool)
    requires pool.free == pools[t].free && |pool.offsets| == |pools[t].offsets|
    requires |qs| == |ps| && forall i :: 0 <= i < |ps| ==> MovedTo(ps, t, pool.offsets, i, qs[i])
    ensures Consistent(qs, pools[t := pool])
  {
    hide Partition, Placed;
    var next := pools[t := pool];
    forall i | 0 <= i < |qs|
      ensures SlotOk(qs[i], next)
    {
      assert SlotOk(ps[i], pools) && MovedTo(ps, t, pool.offsets, i, qs[i]);
    }
    forall u | 0 <= u < |next|
      ensures Placed(next[u]) && Partition(qs, u, next[u])
    {
      assert Placed(pools[u]) && Partition(ps, u, pools[u]);
      forall i, b: nat
        ensures Holds(qs, u, i, b) <==> Holds(ps, u, i, b)
      {
        assert 0 <= i < |ps| ==> MovedTo(ps, t, pool.offsets, i, qs[i]);
      }
      SamePartition(ps, qs, u, pools[u]);
      SameFree(qs, u, pools[u], next[u]);
    }
  }

  lemma SameFree(ps: seq<Slot>, t: nat, pool: Pool, next: Pool)
    requires Partition(ps, t, pool) && next.free == pool.free && Capacity(next) == Capacity(pool)
    ensures Partition(ps, t, next)
  {
  }

  /** A type placed for the first time has no outputs yet; all buffers but the first are free. */
  lemma FirstConsistent(ps: seq<Slot>, pools: seq<Pool>, t: nat, pool: Pool)
    requires Consistent(ps, pools) && t < |pools| && pools[t].offsets == []
    requires Placed(pool) && pool.free == UpTo(1, |pool.offsets|)
    ensures Consistent(ps, pools[t := pool])
    ensures forall i :: 0 <= i < |ps| ==> !Output(ps, t, i)
  {
    hide Placed;
    forall i | 0 <= i < |ps|
      ensures !Output(ps, t, i) && SlotOk(ps[i], pools[t := pool])
    {
      assert SlotOk(ps[i], pools);
    }
  }

  /** The numbers from lo up to n. */
  function UpTo(lo: nat, n: nat): (s: seq<nat>)
    ensures |s| == if lo < n then n - lo else 0
    ensures forall k :: 0 <= k < |s| ==> s[k] == lo + k
    ensures forall b :: b in s <==> lo <= b < n
    decreases n - lo
  {
    if lo < n then [lo] + UpTo(lo + 1, n) else []
  }

  class PortTable {
    const ports: array<Slot>
    var pools: seq<Pool>

    ghost predicate Valid()
      reads this, ports
    {
      && ports.Length > 0
      && Consistent(ports[..], pools)
      && forall t :: 0 <= t < |pools| ==> |pools[t].offsets| in {0, ports.Length}
    }

    /** Nothing registered, no segment placed. */
    constructor (portMax: nat, types: nat)
      requires portMax > 0
      ensures Valid() && fresh(ports) && ports.Length == portMax && |pools| == types
      ensures forall i :: 0 <= i < portMax ==> !ports[i].inUse
    {
      ports := new Slot[portMax](_ => Slot(false, false, 0, 0, None));
      pools := seq(types, _ => Pool(0, [], []));
    }

    /** jack_engine_place_port_buffers: a first placement chains every buffer but the zero
        buffer on the free list; a later one moves the buffers, and who holds what and the
        free list stay as they are. */
    method PlaceBuffers(t: nat, one: nat)
      requires Valid() && t < |pools| && one > 0
      modifies this`pools, ports
      ensures Valid() && |pools| == old(|pools|) && pools[t].one == one && |pools[t].offsets| == ports.Length
      ensures pools == old(pools)[t := pools[t]]
      ensures pools[t].free == if old(pools[t].offsets) == [] then UpTo(1, ports.Length) else old(pools[t].free)
      ensures forall i :: 0 <= i < ports.Length ==> MovedTo(old(ports[..]), t, pools[t].offsets, i, ports[i])
    {
      hide Consistent;
      ghost var was, wasPools := ports[..], pools;
      var offsets := PlaceOffsets(ports.Length, one);
      if pools[t].offsets == [] {
        var pool := Pool(one, offsets, UpTo(0, ports.Length));
        pool := pool.(free := pool.free[1..]);
        assert pool.free == UpTo(1, ports.Length);
        FirstConsistent(was, wasPools, t, pool);
        pools := pools[t := pool];
      } else {
        pools := pools[t := pools[t].(one := one, offsets := offsets)];
        MovePorts(t, wasPools);
        MovedConsistent(was, wasPools, t, ports[..], pools[t]);
      }
    }

    method MovePorts(t: nat, ghost was: seq<Pool>)
      requires t < |pools| && |was| == |pools| && Consistent(ports[..], was) && |pools[t].offsets| == |was[t].offsets|
      modifies ports
      ensures forall i :: 0 <= i < ports.Length ==> MovedTo(old(ports[..]), t, pools[t].offsets, i, ports[i])
    {
      hide Partition, Placed;
      for i := 0 to ports.Length
        invariant forall j :: 0 <= j < i ==> MovedTo(old(ports[..]), t, pools[t].offsets, j, ports[j])
        invariant forall j :: i <= j < ports.Length ==> ports[j] == old(ports[j])
      {
        assert SlotOk(old(ports[..])[i], was);
        var p := ports[i];
        if p.inUse && p.output && p.ptype == t && p.buffer.Some? {
          ports[i] := p.(offset := pools[t].offsets[p.buffer.value]);
        }
      }
    }

    /** jack_get_free_port: the first slot not in use. */
    method GetFreePort() returns (i: nat)
      modifies ports
      ensures i <= ports.Length
      ensures forall j :: 0 <= j < i ==> old(ports[j].inUse)
      ensures i == ports.Length ==> ports[..] == old(ports[..])
      ensures i < ports.Length ==> !old(ports[i].inUse) && ports[..] == old(ports[..])[i := old(ports[i]).(inUse := true)]
    {
      i := 0;
      while i < ports.Length
        invariant i <= ports.Length && ports[..] == old(ports[..])
        invariant forall j :: 0 <= j < i ==> old(ports[j].inUse)
      {
        if !ports[i].inUse {
          ports[i] := ports[i].(inUse := true);
          return;
        }
        i := i + 1;
      }
    }

    /** jack_port_assign_buffer. */
    method AssignBuffer(i: nat) returns (ok: bool)
      requires i < ports.Length && ports[i].ptype < |pools|
      requires pools[ports[i].ptype].free != [] ==> pools[ports[i].ptype].free[0] < |pools[ports[i].ptype].offsets|
      modifies this`pools, ports
      ensures var p, pool := old(ports[i]), old(pools[ports[i].ptype]);
              && (!p.output ==> ok && pools == old(pools) && ports[..] == old(ports[..])[i := p.(offset := 0)])
              && (p.output ==> (ok <==> pool.free != []))
              && (p.output && ok ==>
                    && ports[..] == old(ports[..])[i := p.(offset := pool.offsets[pool.free[0]], buffer := Some(pool.free[0]))]
                    && pools == old(pools)[p.ptype := pool.(free := pool.free[1..])])
      ensures !ok ==> pools == old(pools) && ports[..] == old(ports[..])
    {
      var p := ports[i];
      var pool := pools[p.ptype];
      if !p.output {
        ports[i] := p.(offset := 0);
        return true;
      }
      if pool.free == [] { return false; }
      var b := pool.free[0];
      pools := pools[p.ptype := pool.(free := RemoveFirst(pool.free, b))];
      ports[i] := p.(offset := pool.offsets[b], buffer := Some(b));
      return true;
    }

    /** jack_port_release. */
    method Release(i: nat)
      requires i < ports.Length && (ports[i].buffer.Some? ==> ports[i].ptype < |pools|)
      modifies this`pools, ports
      ensures ports[..] == old(ports[..])[i := old(ports[i]).(inUse := false, buffer := None)]
      ensures pools == Returned(old(pools), old(ports[i]))
      ensures old(Valid()) ==> Valid()
    {
      hide Consistent;
      ghost var was, wasPools, wasValid := ports[..], pools, Valid();
      var p := ports[i];
      ports[i] := ports[i].(inUse := false);
      if p.buffer.Some? {
        var pool := pools[p.ptype];
        pools := pools[p.ptype := pool.(free := [p.buffer.value] + pool.free)];
        ports[i] := ports[i].(buffer := None);
      }
      if wasValid { GiveConsistent(was, wasPools, i); }
    }

    /** jack_port_do_register, from the choice of a slot on.  It succeeds exactly when a slot is
        free and, for an output, fewer outputs of the type are registered than it has buffers. */
    method Register(t: nat, output: bool) returns (r: Option<nat>)
      requires Valid() && t < |pools|
      modifies this`pools, ports
      ensures Valid() && |pools| == old(|pools|)
      ensures forall u :: 0 <= u < |pools| ==> pools[u].offsets == old(pools[u].offsets) && pools[u].one == old(pools[u].one)
      ensures r.Some? <==>
              && (exists i :: 0 <= i < ports.Length && !old(ports[i].inUse))
              && (output ==> |Outputs(old(ports[..]), t)| < Capacity(old(pools[t])))
      ensures r.Some? ==>
                && r.value < ports.Length && !old(ports[r.value].inUse)
                && (forall j :: 0 <= j < r.value ==> old(ports[j].inUse))
                && ports[r.value].inUse && ports[r.value].output == output && ports[r.value].ptype == t
                && ports[..] == old(ports[..])[r.value := ports[r.value]]
      ensures r.None? ==>
                && pools == old(pools)
                && forall j :: 0 <= j < ports.Length ==> ports[j].inUse == old(ports[j].inUse) && (ports[j].inUse ==> ports[j] == old(ports[j]))
    {
      hide Consistent, Outputs;
      ghost var was, wasPools := ports[..], pools;
      FreeAndHeld(was, wasPools, t);
      HeadInRange(was, wasPools, t);
      var i := GetFreePort();
      if i == ports.Length { return None; }
      ports[i] := ports[i].(ptype := t, output := output, buffer := None);
      var ok := AssignBuffer(i);
      RegisteredConsistent(was, wasPools, i, t, ports[i]);
      assert ports[..] == was[i := ports[i]];
      if !ok {
        Release(i);
        RegisteredConsistent(was, wasPools, i, t, ports[i]);
        assert ports[..] == was[i := ports[i]];
        return None;
      }
      return Some(i);
    }

    ghost function View(): Table
      reads this, ports
    {
      Table(ports[..], pools)
    }

    /** Any run of placements, registrations and releases, double releases included. */
    method Run(ops: seq<Operation>) returns (ghost trace: seq<Table>)
      requires Valid()
      modifies this`pools, ports
      ensures Valid() && AllApart(ports[..], pools)
      ensures forall t: nat :: t < |pools| ==> |pools[t].free| + |Outputs(ports[..], t)| == Capacity(pools[t])
      ensures |trace| == |ops| + 1 && trace[0] == old(View()) && trace[|ops|] == View()
      ensures forall i :: 0 <= i < |ops| ==> Did(trace[i], trace[i + 1], ops[i])
    {
      hide Consistent, AllApart, Outputs, Did;
      trace := [View()];
      for k := 0 to |ops|
        invariant Valid() && |trace| == k + 1 && trace[0] == old(View()) && trace[k] == View()
        invariant forall i :: 0 <= i < k ==> Did(trace[i], trace[i + 1], ops[i])
      {
        Do(ops[k]);
        trace := trace + [View()];
      }
      ConsistentApart(ports[..], pools);
    }

    /** An operation that the server would not be asked for is passed over. */
    method Do(op: Operation)
      requires Valid()
      modifies this`pools, ports
      ensures Valid() && Did(old(View()), View(), op)
    {
      hide Consistent, Outputs, MovedTo;
      match op
      case Place(t, one) => if t < |pools| && one > 0 { PlaceBuffers(t, one); }
      case Add(t, output) => if t < |pools| { var r := Register(t, output); }
      case Drop(i) => if i < ports.Length { ReleasePort(i); }
    }

    method ReleasePort(i: nat)
      requires Valid() && i < ports.Length
      modifies this`pools, ports
      ensures Valid()
      ensures old(ports[i]).buffer.Some? ==> old(ports[i]).ptype < |old(pools)|
      ensures ports[..] == old(ports[..])[i := old(ports[i]).(inUse := false, buffer := None)]
      ensures pools == Returned(old(pools), old(ports[i]))
    {
      assert SlotOk(ports[..][i], pools);
      Release(i);
    }
  }

  /** The slots and the pools. */
  datatype Table = Table(ps: seq<Slot>, pools: seq<Pool>)

  ghost predicate Did(s: Table, t: Table, op: Operation) {
    && |t.ps| == |s.ps|
    && match op
       case Place(y, one) =>
         if y < |s.pools| && one > 0
         then && |t.pools| == |s.pools| && t.pools == s.pools[y := t.pools[y]] && t.pools[y].one == one
              && t.pools[y].free == (if s.pools[y].offsets == [] then UpTo(1, |s.ps|) else s.pools[y].free)
              && forall i :: 0 <= i < |s.ps| ==> MovedTo(s.ps, y, t.pools[y].offsets, i, t.ps[i])
         else t == s
       case Add(y, output) => if y < |s.pools| then Added(s, t, y, output) else t == s
       case Drop(i) =>
         if i < |s.ps|
         then && (s.ps[i].buffer.Some? ==> s.ps[i].ptype < |s.pools|)
              && t == Table(s.ps[i := s.ps[i].(inUse := false, buffer := None)], Returned(s.pools, s.ps[i]))
         else t == s
  }

  /** One slot more in use, the lowest that was free, as long as there is one and a buffer for it. */
  ghost predicate Added(s: Table, t: Table, y: nat, output: bool)
    requires y < |s.pools| && |t.ps| == |s.ps|
  {
    if (exists i :: 0 <= i < |s.ps| && !s.ps[i].inUse) && (output ==> |Outputs(s.ps, y)| < Capacity(s.pools[y]))
    then exists i :: && 0 <= i < |s.ps| && !s.ps[i].inUse && (forall j :: 0 <= j < i ==> s.ps[j].inUse)
                     && t.ps == s.ps[i := t.ps[i]] && t.ps[i].inUse && t.ps[i].output == output && t.ps[i].ptype == y
    else t.pools == s.pools && forall j :: 0 <= j < |s.ps| ==> t.ps[j].inUse == s.ps[j].inUse && (s.ps[j].inUse ==> t.ps[j] == s.ps[j])
  }

  datatype Operation = Place(t: nat, one: nat) | Add(t: nat, output: bool) | Drop(i: nat)

  /** The region of every output is clear of the zero buffer, in the segment, and its own. */
  ghost predicate AllApart(ps: seq<Slot>, pools: seq<Pool>) {
    forall t: nat, i: nat | t < |pools| && Output(ps, t, i) ::
      Inside(ps, pools[t], i) && forall j: nat | j != i && Output(ps, t, j) :: Apart(ps, pools[t], i, j)
  }

  lemma ConsistentApart(ps: seq<Slot>, pools: seq<Pool>)
    requires Consistent(ps, pools)
    ensures AllApart(ps, pools)
    ensures forall t: nat :: t < |pools| ==> |pools[t].free| + |Outputs(ps, t)| == Capacity(pools[t])
  {
    forall t: nat, i: nat | t < |pools| && Output(ps, t, i)
      ensures Inside(ps, pools[t], i) && forall j: nat | j != i && Output(ps, t, j) :: Apart(ps, pools[t], i, j)
    {
      BufferInside(ps, pools, t, i);
      forall j: nat | j != i && Output(ps, t, j)
        ensures Apart(ps, pools[t], i, j)
      {
        BuffersApart(ps, pools, t, i, j);
      }
    }
    forall t: nat | t < |pools|
      ensures |pools[t].free| + |Outputs(ps, t)| == Capacity(pools[t])
    {
      FreeAndHeld(ps, pools, t);
    }
  }

  /** The placing loop: offsets one buffer apart until the segment is full. */
  method PlaceOffsets(nports: nat, one: nat) returns (offsets: seq<nat>)
    requires one > 0
    ensures |offsets| == nports && forall b :: 0 <= b < nports ==> offsets[b] == b * one
  {
    var size, offset := nports * one, 0;
    offsets := [];
    while offset < size
      invariant offset == |offsets| * one && |offsets| <= nports
      invariant forall b :: 0 <= b < |offsets| ==> offsets[b] == b * one
      decreases nports - |offsets|
    {
      MulOrder(|offsets|, nports, one);
      offsets := offsets + [offset];
      offset := offset + one;
    }
    if |offsets| < nports { MulGap(|offsets|, nports, one); }
  }

  lemma MulOrder(a: nat, b: nat, one: nat)
    requires a * one < b * one
    ensures a < b
  {
    assert a * one - b * one == (a - b) * one;
  }

  lemma HeadInRange(ps: seq<Slot>, pools: seq<Pool>, t: nat)
    requires Consistent(ps, pools) && t < |pools|
    ensures pools[t].free != [] ==> pools[t].free[0] < |pools[t].offsets|
  {
    if pools[t].free != [] { FreeInRange(ps, t, pools[t]); }
  }

  lemma RegisteredConsistent(ps: seq<Slot>, pools: seq<Pool>, i: nat, t: nat, p: Slot)
    requires Consistent(ps, pools) && i < |ps| && t < |pools| && !ps[i].inUse
    ensures p.inUse && !p.output && p.offset == 0 && p.buffer.None? ==> Consistent(ps[i := p], pools)
    ensures !p.inUse && p.buffer.None? ==> Consistent(ps[i := p], pools)
    ensures pools[t].free != [] ==> pools[t].free[0] < |pools[t].offsets|
    ensures pools[t].free != [] && p == Slot(true, true, t, pools[t].offsets[pools[t].free[0]], Some(pools[t].free[0])) ==>
              Consistent(ps[i := p], pools[t := pools[t].(free := pools[t].free[1..])])
  {
    assert SlotOk(ps[i], pools);
    hide Partition, Placed;
    if p.buffer.None? && SlotOk(p, pools) { BufferlessKeeps(ps, pools, i, p); }
    if pools[t].free != [] { TakeConsistent(ps, pools, t, i); }
  }
}
