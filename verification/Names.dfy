/** Client names: unique name generation, reservations, and client creation
    (jack_generate_unique_name, jack_client_name_invalid, jack_client_create,
    jack_do_reserve_name). */
module Names {
  import opened Collections

  /** The longest name that fits JACK_CLIENT_NAME_SIZE bytes with its terminator. */
  const NAME_MAX: nat := 32

  /** The longest name that can still be extended. */
  const BASE_MAX: nat := 29

  type Name = s: string | |s| <= NAME_MAX witness ""

  datatype Reservation = Reservation(uuid: nat, name: Name)

  ghost predicate Reserved(reserved: seq<Reservation>, name: string) {
    exists i :: 0 <= i < |reserved| && reserved[i].name == name
  }

  ghost predicate Taken(clients: seq<Name>, reserved: seq<Reservation>, name: string) {
    name in clients || Reserved(reserved, name)
  }

  /** The k-th variant of a name: "-01" to "-99" appended. */
  function Variant(base: string, k: nat): string
    requires k <= 99
  {
    base + ['-', Digit(k / 10), Digit(k % 10)]
  }

  function Digit(d: nat): char
    requires d <= 9
  {
    '0' + d as char
  }

  /** Variants are told apart by their numbers. */
  lemma VariantsDiffer(base: string, j: nat, k: nat)
    requires j < k <= 99
    ensures Variant(base, j) != Variant(base, k)
  {
    var a, b := Variant(base, j), Variant(base, k);
    assert a[|base| + 1] == Digit(j / 10) && b[|base| + 1] == Digit(k / 10);
    assert a[|base| + 2] == Digit(j % 10) && b[|base| + 2] == Digit(k % 10);
  }

  /** Live names are distinct and none is reserved. */
  ghost predicate Sound(clients: seq<Name>, reserved: seq<Reservation>) {
    Distinct(clients) && forall n :: n in clients ==> !Reserved(reserved, n)
  }

  /** The first reservation made for uuid, or the end of the list; uuid 0 reserves nothing. */
  ghost function FirstFor(reserved: seq<Reservation>, uuid: nat): (i: nat)
    ensures i <= |reserved|
    ensures i < |reserved| ==> uuid != 0 && reserved[i].uuid == uuid
    ensures forall j :: 0 <= j < i && uuid != 0 ==> reserved[j].uuid != uuid
  {
    if uuid == 0 then |reserved|
    else if reserved == [] then 0
    else if reserved[0].uuid == uuid then 0
    else 1 + FirstFor(reserved[1..], uuid)
  }

  /** The name a new client starts from, and the reservations left. */
  ghost function Wanted(reserved: seq<Reservation>, uuid: nat, name: Name): Name {
    var i := FirstFor(reserved, uuid);
    if i < |reserved| then reserved[i].name else name
  }

  ghost function Without(reserved: seq<Reservation>, uuid: nat): seq<Reservation> {
    var i := FirstFor(reserved, uuid);
    if i < |reserved| then reserved[..i] + reserved[i + 1..] else reserved
  }

  /** What jack_client_name_invalid leaves as the name: the wanted one if it is free, else the
      first free variant, else nothing. */
  ghost predicate Chosen(clients: seq<Name>, reserved: seq<Reservation>, wanted: Name, exact: bool, r: Option<Name>) {
    if !Taken(clients, reserved, wanted) then r == Some(wanted)
    else if exact || |wanted| > BASE_MAX then r.None?
    else match r
      case None => forall k :: 1 <= k <= 99 ==> Taken(clients, reserved, Variant(wanted, k))
      case Some(n) => !Taken(clients, reserved, n) && exists k :: FirstFree(clients, reserved, wanted, k) && n == Variant(wanted, k)
  }

  ghost predicate FirstFree(clients: seq<Name>, reserved: seq<Reservation>, base: string, k: int) {
    && 1 <= k <= 99 && !Taken(clients, reserved, Variant(base, k))
    && forall j :: 1 <= j < k ==> Taken(clients, reserved, Variant(base, j))
  }

  /** A free name is given as wanted; the name given is free and fits; nothing is given only
      when the name is taken; and who asks for exactly this name gets no other. */
  lemma ChosenMeans(clients: seq<Name>, reserved: seq<Reservation>, wanted: Name, exact: bool, r: Option<Name>)
    requires Chosen(clients, reserved, wanted, exact, r)
    ensures r == Some(wanted) <==> !Taken(clients, reserved, wanted)
    ensures r.Some? ==> !Taken(clients, reserved, r.value) && |r.value| <= NAME_MAX && (exact ==> r.value == wanted)
    ensures r.Some? ==> wanted <= r.value && |r.value| <= |wanted| + 3
    ensures r.None? && !exact ==> |wanted| > BASE_MAX || forall k :: 1 <= k <= 99 ==> Taken(clients, reserved, Variant(wanted, k))
  {
  }

  // ----- Reservations and creation together

  lemma WithoutKeeps(reserved: seq<Reservation>, uuid: nat, name: string)
    ensures Reserved(Without(reserved, uuid), name) ==> Reserved(reserved, name)
  {
    var i, rest := FirstFor(reserved, uuid), Without(reserved, uuid);
    if Reserved(rest, name) && i < |reserved| {
      var j :| 0 <= j < |rest| && rest[j].name == name;
      assert rest[j] == if j < i then reserved[j] else reserved[j + 1];
    }
  }

  /** A client created with the uuid of a reservation gets the name reserved for it exactly when
      that name was reserved once; nobody else can have taken it in between. */
  lemma ReservationHonouredIff(clients: seq<Name>, reserved: seq<Reservation>, uuid: nat, name: Name, exact: bool, r: Option<Name>)
    requires Sound(clients, reserved)
    requires FirstFor(reserved, uuid) < |reserved|
    requires Chosen(clients, Without(reserved, uuid), Wanted(reserved, uuid, name), exact, r)
    ensures r == Some(reserved[FirstFor(reserved, uuid)].name) <==>
            forall j :: 0 <= j < |reserved| && j != FirstFor(reserved, uuid) ==> reserved[j].name != reserved[FirstFor(reserved, uuid)].name
  {
    var i, rest := FirstFor(reserved, uuid), Without(reserved, uuid);
    var wanted := reserved[i].name;
    assert Reserved(reserved, wanted);
    assert wanted !in clients;
    if j :| 0 <= j < |reserved| && j != i && reserved[j].name == wanted {
      assert rest[if j < i then j else j - 1] == reserved[j];
      assert Taken(clients, rest, wanted);
    } else {
      WithoutSingle(reserved, uuid);
    }
  }

  lemma WithoutSingle(reserved: seq<Reservation>, uuid: nat)
    requires var i := FirstFor(reserved, uuid);
             i < |reserved| && forall j :: 0 <= j < |reserved| && j != i ==> reserved[j].name != reserved[i].name
    ensures !Reserved(Without(reserved, uuid), reserved[FirstFor(reserved, uuid)].name)
  {
    var i, rest := FirstFor(reserved, uuid), Without(reserved, uuid);
    forall j | 0 <= j < |rest|
      ensures rest[j].name != reserved[i].name
    {
      assert rest[j] == if j < i then reserved[j] else reserved[j + 1];
    }
  }

  /** The same name reserved for two sessions: the first to come is renamed. */
  lemma ReservationMissed(r: Option<Name>)
    requires Chosen([], Without([Reservation(1, "synth"), Reservation(2, "synth")], 1),
                   Wanted([Reservation(1, "synth"), Reservation(2, "synth")], 1, "new"), false, r)
    ensures r.Some? && r.value == "synth-01"
  {
    var reserved := [Reservation(1, "synth"), Reservation(2, "synth")];
    assert FirstFor(reserved, 1) == 0;
    var rest := Without(reserved, 1);
    assert rest == [Reservation(2, "synth")];
    assert rest[0].name == "synth";
    assert Taken([], rest, "synth");
    var first: Name := Variant("synth", 1);
    assert first == "synth-01";
    assert first[5] == '-';
    assert !Taken([], rest, first);
    if r.Some? {
      var k :| FirstFree([], rest, "synth", k) && r.value == Variant("synth", k);
      assert k == 1;
    }
  }

  // ----- The engine's lists

  datatype Operation =
    | Create(name: Name, uuid: nat, exact: bool, setUp: bool)
    | Reserve(name: Name, uuid: nat)
    | Remove(name: Name)

  /** Live names and reservations. */
  datatype Books = Books(clients: seq<Name>, reserved: seq<Reservation>)

  ghost predicate Did(s: Books, t: Books, op: Operation) {
    match op
    case Create(name, uuid, exact, setUp) =>
      && t.reserved == Without(s.reserved, uuid)
      && exists r: Option<Name> ::
           && t.clients == (if r.Some? then [r.value] + s.clients else s.clients)
           && if setUp then Chosen(s.clients, t.reserved, Wanted(s.reserved, uuid, name), exact, r) else r.None?
    case Reserve(name, uuid) =>
      t == if name in s.clients then s else s.(reserved := s.reserved + [Reservation(uuid, name)])
    case Remove(name) => t == s.(clients := RemoveFirst(s.clients, name))
  }

  /** The bound on the length is the right one: exactly these names can be extended. */
  lemma VariantsFit(base: string, k: nat)
    requires k <= 99
    ensures |Variant(base, k)| <= NAME_MAX <==> |base| <= BASE_MAX
  {
  }

  class Registry {
    var clients: seq<Name>
    var reserved: seq<Reservation>

    ghost predicate Valid()
      reads this
    {
      Sound(clients, reserved)
    }

    constructor ()
      ensures Valid() && clients == [] && reserved == []
    {
      clients, reserved := [], [];
    }

    /** jack_client_by_name. */
    method HasClient(name: string) returns (found: bool)
      ensures found <==> name in clients
    {
      for i := 0 to |clients|
        invariant name !in clients[..i]
      {
        if clients[i] == name { return true; }
      }
      return false;
    }

    /** jack_client_name_reserved. */
    method HasReservation(name: string) returns (found: bool)
      ensures found <==> Reserved(reserved, name)
    {
      for i := 0 to |reserved|
        invariant forall j :: 0 <= j < i ==> reserved[j].name != name
      {
        if reserved[i].name == name { return true; }
      }
      return false;
    }

    method IsTaken(name: string) returns (taken: bool)
      ensures taken <==> Taken(clients, reserved, name)
    {
      taken := HasClient(name);
      if !taken { taken := HasReservation(name); }
    }

    /** jack_generate_unique_name: the first free variant; it fails exactly when the name is too
        long or all 99 variants are taken. */
    method GenerateUnique(base: Name) returns (r: Option<Name>)
      ensures r.Some? <==> |base| <= BASE_MAX && exists k :: FirstFree(clients, reserved, base, k)
      ensures r.None? <==> |base| > BASE_MAX || forall k :: 1 <= k <= 99 ==> Taken(clients, reserved, Variant(base, k))
      ensures r.Some? ==> exists k :: FirstFree(clients, reserved, base, k) && r.value == Variant(base, k)
    {
      if |base| > BASE_MAX { return None; }
      var tens, ones := |base| + 1, |base| + 2;
      var name := base + "-01";
      ghost var k := 1;
      var taken := IsTaken(name);
      while taken
        invariant 1 <= k <= 99 && name == Variant(base, k)
        invariant taken <==> Taken(clients, reserved, name)
        invariant forall j :: 1 <= j < k ==> Taken(clients, reserved, Variant(base, j))
        decreases 99 - k, taken
      {
        assert name[tens] == Digit(k / 10) && name[ones] == Digit(k % 10);
        if name[ones] == '9' {
          if name[tens] == '9' {
            return None;
          }
          name := name[tens := name[tens] + 1 as char];
          name := name[ones := '0'];
        } else {
          name := name[ones := name[ones] + 1 as char];
        }
        k := k + 1;
        taken := IsTaken(name);
      }
      assert FirstFree(clients, reserved, base, k);
      return Some(name);
    }

    /** jack_client_name_invalid: None is an invalid name. */
    method ChooseName(wanted: Name, exact: bool) returns (r: Option<Name>)
      ensures Chosen(clients, reserved, wanted, exact, r)
    {
      var taken := IsTaken(wanted);
      if !taken { return Some(wanted); }
      if exact { return None; }
      r := GenerateUnique(wanted);
    }

    /** jack_get_reserved_name. */
    method TakeReservation(uuid: nat) returns (r: Option<Name>)
      requires uuid != 0
      modifies this`reserved
      ensures reserved == Without(old(reserved), uuid)
      ensures r.Some? <==> FirstFor(old(reserved), uuid) < |old(reserved)|
      ensures r.Some? ==> r.value == Wanted(old(reserved), uuid, r.value)
    {
      for i := 0 to |reserved|
        invariant reserved == old(reserved)
        invariant forall j :: 0 <= j < i ==> reserved[j].uuid != uuid
      {
        if reserved[i].uuid == uuid {
          var name := reserved[i].name;
          reserved := reserved[..i] + reserved[i + 1..];
          return Some(name);
        }
      }
      return None;
    }

    /** jack_client_create with setup_client; setUp says whether the rest of the set-up went well. */
    method CreateClient(name: Name, uuid: nat, exact: bool, setUp: bool) returns (r: Option<Name>)
      requires Valid()
      modifies this
      ensures Valid()
      ensures reserved == Without(old(reserved), uuid)
      ensures r.Some? ==> clients == [r.value] + old(clients) && r.value !in old(clients) && !Reserved(reserved, r.value)
      ensures r.None? ==> clients == old(clients)
      ensures setUp ==> Chosen(old(clients), reserved, Wanted(old(reserved), uuid, name), exact, r)
      ensures !setUp ==> r.None?
    {
      hide Chosen;
      var wanted := name;
      if uuid != 0 {
        var kept := TakeReservation(uuid);
        if kept.Some? { wanted := kept.value; }
      }
      StillSound(clients, old(reserved), uuid);
      assert wanted == Wanted(old(reserved), uuid, name);
      r := ChooseName(wanted, exact);
      if r.None? { return; }
      ChosenIsFree(clients, reserved, wanted, exact, r);
      if !setUp { return None; }
      clients := [r.value] + clients;
    }

    /** jack_do_reserve_name: only live names refuse a reservation. */
    method ReserveName(name: Name, uuid: nat) returns (ok: bool)
      requires Valid()
      modifies this`reserved
      ensures Valid() && (ok <==> name !in clients)
      ensures reserved == if ok then old(reserved) + [Reservation(uuid, name)] else old(reserved)
    {
      var live := HasClient(name);
      if live { return false; }
      ReserveSound(clients, reserved, Reservation(uuid, name));
      reserved := reserved + [Reservation(uuid, name)];
      return true;
    }

    /** A client leaves the list. */
    method RemoveName(name: Name)
      requires Valid()
      modifies this`clients
      ensures Valid() && clients == RemoveFirst(old(clients), name) && name !in clients
    {
      RemoveSound(clients, reserved, name);
      clients := RemoveFirst(clients, name);
    }

    ghost function View(): Books
      reads this
    {
      Books(clients, reserved)
    }

    /** Any run keeps live names distinct, apart from every reservation, and within their field. */
    method Run(ops: seq<Operation>) returns (ghost trace: seq<Books>)
      requires Valid()
      modifies this
      ensures Valid()
      ensures forall i, j :: 0 <= i < j < |clients| ==> clients[i] != clients[j]
      ensures forall i, j :: 0 <= i < |clients| && 0 <= j < |reserved| ==> clients[i] != reserved[j].name
      ensures |trace| == |ops| + 1 && trace[0] == old(View()) && trace[|ops|] == View()
      ensures forall i :: 0 <= i < |ops| ==> Did(trace[i], trace[i + 1], ops[i])
    {
      hide Did;
      trace := [View()];
      for k := 0 to |ops|
        invariant Valid() && |trace| == k + 1 && trace[0] == old(View()) && trace[k] == View()
        invariant forall i :: 0 <= i < k ==> Did(trace[i], trace[i + 1], ops[i])
      {
        Do(ops[k]);
        trace := trace + [View()];
      }
      forall i, j | 0 <= i < |clients| && 0 <= j < |reserved|
        ensures clients[i] != reserved[j].name
      {
        assert clients[i] in clients;
      }
    }

    method Do(op: Operation)
      requires Valid()
      modifies this
      ensures Valid() && Did(old(View()), View(), op)
    {
      hide Chosen, Sound, Without, Wanted;
      match op
      case Create(name, uuid, exact, setUp) => var r := CreateClient(name, uuid, exact, setUp);
      case Reserve(name, uuid) => var ok := ReserveName(name, uuid);
      case Remove(name) => RemoveName(name);
    }
  }

  lemma StillSound(clients: seq<Name>, reserved: seq<Reservation>, uuid: nat)
    requires Sound(clients, reserved)
    ensures Sound(clients, Without(reserved, uuid))
  {
    hide Without;
    forall n | n in clients
      ensures !Reserved(Without(reserved, uuid), n)
    {
      WithoutKeeps(reserved, uuid, n);
    }
  }

  lemma ChosenIsFree(clients: seq<Name>, reserved: seq<Reservation>, wanted: Name, exact: bool, r: Option<Name>)
    requires Chosen(clients, reserved, wanted, exact, r) && r.Some? && Sound(clients, reserved)
    ensures !Taken(clients, reserved, r.value) && Sound([r.value] + clients, reserved)
  {
  }

  lemma ReserveSound(clients: seq<Name>, reserved: seq<Reservation>, r: Reservation)
    requires Sound(clients, reserved) && r.name !in clients
    ensures Sound(clients, reserved + [r])
  {
    var next := reserved + [r];
    forall n, i | n in clients && 0 <= i < |next|
      ensures next[i].name != n
    {
      assert !Reserved(reserved, n);
    }
  }

  lemma RemoveSound(clients: seq<Name>, reserved: seq<Reservation>, name: Name)
    requires Sound(clients, reserved)
    ensures Sound(RemoveFirst(clients, name), reserved) && name !in RemoveFirst(clients, name)
  {
    DistinctRemoved(clients, name);
  }
}
