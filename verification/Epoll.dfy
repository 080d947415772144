/** What the epoll state index means: a finite map from (instance, descriptor) to a state. */
module EpollSpec {
  import opened Bytes

  const READ: int := 0
  const WRITE: int := 1
  const RW: int := 2
  const SLEEP: int := 3
  const WAKEUP: int := 4

  /** `EPOLLET`, the edge-triggered behaviour. */
  const EDGE: int := 0x8000_0000

  const IN: int := 0x1
  const OUT: int := 0x4
  const ERR: int := 0x8
  const HUP: int := 0x10
  const RDHUP: int := 0x2000

  /** Storing in a `uint8_t`. */
  function U8(x: int): int { x % 256 }

  datatype Cell = Cell(mode: int, behavior: int, events: int)

  type Key = (int, int)
  type Dict = map<Key, Cell>

  /** The direction bits a mode asks for. */
  function Direction(mode: int): int {
    if mode == READ then IN else if mode == WRITE then OUT else if mode == RW then IN + OUT else 0
  }

  function Trigger(behavior: int): int { if behavior == EDGE then EDGE else 0 }

  /** The mask a descriptor is added with. */
  function AddMask(mode: int, behavior: int): int {
    if mode == SLEEP then 0 else ERR + HUP + RDHUP + Trigger(behavior) + Direction(mode)
  }

  /** The mask of a change, other than a wake-up. */
  function ChangeMask(mode: int, behavior: int): int {
    (if mode == SLEEP then 0 else ERR + HUP + Direction(mode)) + Trigger(behavior)
  }

  /** The bit is set in the mask. */
  predicate Has(mask: int, bit: int)
    requires bit > 0
  {
    mask / bit % 2 == 1
  }

  /** What the kernel is asked to watch: to read, to write, errors, hang-ups, the peer's half-close, edges only. */
  predicate Watches(mask: int, read: bool, write: bool, errors: bool, halfClose: bool, edge: bool) {
    && 0 <= mask < 0x1_0000_0000
    && (Has(mask, 0x1) <==> read) && (Has(mask, 0x4) <==> write)
    && (Has(mask, 0x8) <==> errors) && (Has(mask, 0x10) <==> errors)
    && (Has(mask, 0x2000) <==> halfClose) && (Has(mask, 0x8000_0000) <==> edge)
  }

  /** An addition watches what its mode says, errors, hang-ups and half-closes; nothing at all when it sleeps. */
  lemma AddWatches(mode: int, behavior: int)
    ensures var awake := mode != 3;
            Watches(AddMask(mode, behavior), mode == 0 || mode == 2, mode == 1 || mode == 2, awake, awake,
                    awake && behavior == 0x8000_0000)
  {}

  /** A change no longer watches half-closes; asleep, only the edge bit can be left. */
  lemma ChangeWatches(mode: int, behavior: int)
    ensures Watches(ChangeMask(mode, behavior), mode == 0 || mode == 2, mode == 1 || mode == 2, mode != 3, false,
                    behavior == 0x8000_0000)
  {}

  /** Recording a state; a sleep keeps what it hides. */
  function Recorded(d: Dict, k: Key, mode: int, behavior: int, events: int): Dict {
    if k in d && mode == SLEEP then d[k := d[k].(mode := SLEEP)] else d[k := Cell(mode, behavior, events)]
  }

  /** One call of the module; `added` is the kernel's answer to an addition. */
  datatype Op =
    | Add(key: Key, mode: int, behavior: int, added: bool)
    | Change(key: Key, mode: int, behavior: int)
    | Del(key: Key)

  /** The state after a call; none when the process exits. */
  function Step(d: Dict, op: Op): Option<Dict> {
    match op
    case Add(k, m, b, ok) => Some(if ok then Recorded(d, k, U8(m), U8(b), AddMask(m, b)) else d)
    case Del(k) => Some(d - {k})
    case Change(k, m, b) =>
      if m == WAKEUP then
        if k in d && d[k].mode == SLEEP then Some(d[k := d[k].(mode := WAKEUP)]) else None
      else Some(Recorded(d, k, U8(m), U8(b), ChangeMask(m, b)))
  }

  function Run(d: Dict, ops: seq<Op>): Option<Dict>
    decreases |ops|
  {
    if ops == [] then Some(d)
    else if Step(d, ops[0]).None? then None
    else Run(Step(d, ops[0]).value, ops[1..])
  }

  /** The call puts the descriptor to sleep. */
  predicate Sleeps(op: Op, k: Key) {
    && op.key == k
    && match op
       case Change(_, m, _) => U8(m) == SLEEP
       case Add(_, m, _, ok) => ok && U8(m) == SLEEP
       case Del(_) => false
  }

  predicate Wakes(op: Op, k: Key) { op.key == k && op.Change? && op.mode == WAKEUP }

  /** The call does not touch the descriptor: it is about another one, or it fails. */
  predicate PassesBy(op: Op, k: Key) { op.key != k || (op.Add? && !op.added) }

  /** The descriptor is only put to sleep and woken up. */
  predicate OnlyNaps(ops: seq<Op>, k: Key) {
    forall i :: 0 <= i < |ops| ==> Sleeps(ops[i], k) || Wakes(ops[i], k) || PassesBy(ops[i], k)
  }

  /** The last call that touched the descriptor put it to sleep. */
  ghost predicate SleepsLast(ops: seq<Op>, k: Key) {
    exists i :: LastSleepAt(ops, k, i)
  }

  predicate LastSleepAt(ops: seq<Op>, k: Key, i: int) {
    0 <= i < |ops| && Sleeps(ops[i], k) && forall j :: i < j < |ops| ==> PassesBy(ops[j], k)
  }

  predicate Untouched(ops: seq<Op>, k: Key) {
    forall i :: 0 <= i < |ops| ==> PassesBy(ops[i], k)
  }

  /** One call that only naps keeps what the descriptor was set to. */
  lemma NapStep(d: Dict, op: Op, k: Key)
    requires k in d && Step(d, op).Some? && (Sleeps(op, k) || Wakes(op, k) || PassesBy(op, k))
    ensures k in Step(d, op).value
    ensures var c := Step(d, op).value[k];
            && c.events == d[k].events && c.behavior == d[k].behavior
            && (c.mode == SLEEP <==> Sleeps(op, k) || (PassesBy(op, k) && d[k].mode == SLEEP))
  {}

  /** So does any number of them; it sleeps exactly when the last one to touch it put it to sleep. */
  lemma {:induction false} NapsKeep(d: Dict, ops: seq<Op>, k: Key)
    requires k in d && OnlyNaps(ops, k) && Run(d, ops).Some?
    ensures k in Run(d, ops).value
    ensures var c := Run(d, ops).value[k];
            && c.events == d[k].events && c.behavior == d[k].behavior
            && (c.mode == SLEEP <==> SleepsLast(ops, k) || (Untouched(ops, k) && d[k].mode == SLEEP))
    decreases |ops|
  {
    if ops != [] {
      hide Step;
      var op, rest := ops[0], ops[1..];
      NapStep(d, op, k);
      assert forall i :: 0 <= i < |rest| ==> rest[i] == ops[i + 1];
      NapsKeep(Step(d, op).value, rest, k);
      LastOf(op, rest, k);
      assert [op] + rest == ops;
    }
  }

  lemma LastOf(op: Op, rest: seq<Op>, k: Key)
    ensures SleepsLast([op] + rest, k) <==> SleepsLast(rest, k) || (Sleeps(op, k) && Untouched(rest, k))
    ensures Untouched([op] + rest, k) <==> PassesBy(op, k) && Untouched(rest, k)
  {
    hide Sleeps, PassesBy;
    var ops := [op] + rest;
    assert ops[0] == op && forall i :: 0 <= i < |rest| ==> rest[i] == ops[i + 1];
    hide LastSleepAt;
    if i :| LastSleepAt(ops, k, i) {
      LastShift(op, rest, k, i);
    }
    if i :| LastSleepAt(rest, k, i) {
      LastShift(op, rest, k, i + 1);
    }
    LastShift(op, rest, k, 0);
  }

  lemma LastShift(op: Op, rest: seq<Op>, k: Key, i: int)
    ensures LastSleepAt([op] + rest, k, 0) <==> Sleeps(op, k) && Untouched(rest, k)
    ensures i != 0 ==> (LastSleepAt([op] + rest, k, i) <==> LastSleepAt(rest, k, i - 1))
  {
    hide Sleeps, PassesBy;
    var ops := [op] + rest;
    assert ops[0] == op && forall j :: 0 <= j < |rest| ==> rest[j] == ops[j + 1];
    assert forall j :: 1 <= j < |ops| ==> ops[j] == rest[j - 1];
  }

  /** The mask the kernel is given by a change. */
  function Mask(d: Dict, op: Op): int
    requires op.Change? && Step(d, op).Some?
  {
    if op.mode == WAKEUP then d[op.key].events else ChangeMask(op.mode, op.behavior)
  }

  lemma NoWakeup(d: Dict, k: Key, mode: int, behavior: int)
    ensures mode != 4 ==> Step(d, Change(k, mode, behavior)).Some?
                          && Watches(Mask(d, Change(k, mode, behavior)), mode == 0 || mode == 2, mode == 1 || mode == 2,
                                     mode != 3, false, behavior == 0x8000_0000)
  {
    hide Watches;
    ChangeWatches(mode, behavior);
  }

  /**
    * A change of mode, or a wake-up, and then any calls by which the descriptor was only put to
    * sleep and woken up: a further wake-up gives the kernel the mask of that change again. It is
    * refused (the process exits) exactly when the last call to touch the descriptor was no sleep.
    */
  lemma WakeupRestores(d: Dict, change: Op, ops: seq<Op>, b: int)
    requires change.Change? && U8(change.mode) != SLEEP
    requires OnlyNaps(ops, change.key) && Run(d, [change] + ops).Some?
    ensures var wake := Change(change.key, WAKEUP, b);
            var d2 := Run(d, [change] + ops).value;
            && (Step(d2, wake).Some? <==> SleepsLast(ops, change.key))
            && (Step(d2, wake).Some? ==>
                  && Mask(d2, wake) == Mask(d, change)
                  && Step(d2, wake).value[change.key] == Step(d, change).value[change.key].(mode := WAKEUP))
  {
    assert ([change] + ops)[1..] == ops;
    NapsKeep(Step(d, change).value, ops, change.key);
  }

  /** The same after an addition: what sleeps hide is the mask of the addition. */
  lemma AddedWakes(d: Dict, add: Op, ops: seq<Op>, b: int)
    requires add.Add? && add.added && U8(add.mode) != SLEEP
    requires OnlyNaps(ops, add.key) && Run(d, [add] + ops).Some?
    ensures var wake := Change(add.key, WAKEUP, b);
            var d2 := Run(d, [add] + ops).value;
            && (Step(d2, wake).Some? <==> SleepsLast(ops, add.key))
            && (Step(d2, wake).Some? ==> Mask(d2, wake) == AddMask(add.mode, add.behavior))
  {
    assert ([add] + ops)[1..] == ops;
    NapsKeep(Step(d, add).value, ops, add.key);
  }
}

/** The index as the two queues that hold it. */
module Epoll {
  import opened Bytes
  import opened List
  import opened EpollSpec

  const CHUNK: int := 64

  datatype State = State(instance: int, fd: int, mode: int, behavior: int, events: int)

  function KeyOf(s: State): Key { (s.instance, s.fd) }

  function CellOf(s: State): Cell { Cell(s.mode, s.behavior, s.events) }

  /** The queues without their heads and the record around each link. */
  datatype Rows = Rows(busy: Links, av: Links, states: map<Link, State>)

  ghost predicate Kept(b: Rows) {
    && Distinct(b.busy) && Distinct(b.av) && Apart(b.busy, b.av)
    && b.states.Keys == All(b.busy) + All(b.av)
    && UniqueKeys(b.busy, b.states) && Bytewise(b.busy, b.states)
  }

  ghost predicate UniqueKeys(busy: Links, states: map<Link, State>) {
    forall x, y :: x in busy && y in busy && x in states && y in states && x != y ==>
        KeyOf(states[x]) != KeyOf(states[y])
  }

  ghost predicate Bytewise(busy: Links, states: map<Link, State>) {
    forall x :: x in busy && x in states ==> 0 <= states[x].mode < 256 && 0 <= states[x].behavior < 256
  }

  /** The map the busy queue stands for. */
  ghost function Meaning(b: Rows): Dict
    requires Kept(b)
  {
    map x | x in All(b.busy) :: KeyOf(b.states[x]) := CellOf(b.states[x])
  }

  lemma Here(b: Rows, x: Link)
    requires Kept(b) && x in b.busy
    ensures x in b.states && KeyOf(b.states[x]) in Meaning(b) && Meaning(b)[KeyOf(b.states[x])] == CellOf(b.states[x])
    ensures 0 <= b.states[x].mode < 256 && 0 <= b.states[x].behavior < 256
  {
    assert x in All(b.busy);
  }

  lemma Nowhere(b: Rows, k: Key)
    requires Kept(b) && forall x :: x in b.busy && x in b.states ==> KeyOf(b.states[x]) != k
    ensures k !in Meaning(b)
  {}

  lemma Where(b: Rows, k: Key) returns (x: Link)
    requires Kept(b) && k in Meaning(b)
    ensures x in b.busy && x in b.states && KeyOf(b.states[x]) == k && Meaning(b)[k] == CellOf(b.states[x])
  {
    x :| x in All(b.busy) && KeyOf(b.states[x]) == k;
    Here(b, x);
  }

  /** `m` has every busy entry, and nothing but busy entries. */
  ghost predicate Backs(b: Rows, m: Dict) {
    && (forall x :: x in b.busy && x in b.states ==>
        KeyOf(b.states[x]) in m && m[KeyOf(b.states[x])] == CellOf(b.states[x]))
    && (forall k :: k in m ==> exists x :: x in b.busy && x in b.states && KeyOf(b.states[x]) == k)
  }

  lemma MeaningIs(b: Rows, m: Dict)
    requires Kept(b) && Backs(b, m)
    ensures Meaning(b) == m
  {
    forall k | k in m ensures k in Meaning(b) && Meaning(b)[k] == m[k] {
      var x :| x in b.busy && x in b.states && KeyOf(b.states[x]) == k;
      Here(b, x);
    }
    forall k | k in Meaning(b) ensures k in m {
      var x := Where(b, k);
    }
  }

  ghost function Updated(b: Rows, x: Link, s: State): Rows { b.(states := b.states[x := s]) }

  lemma UpdateKept(b: Rows, x: Link, s: State)
    requires Kept(b) && x in b.busy && x in b.states && KeyOf(s) == KeyOf(b.states[x])
    requires 0 <= s.mode < 256 && 0 <= s.behavior < 256
    ensures Kept(Updated(b, x, s))
    ensures forall y :: y in b.busy && y in b.states && y != x ==> KeyOf(b.states[y]) != KeyOf(s)
  {
    assert x in All(b.busy);
  }

  /** Overwriting an entry's fields is one update of the map. */
  lemma UpdateMeans(b: Rows, x: Link, s: State)
    requires Kept(b) && x in b.busy && x in b.states && KeyOf(s) == KeyOf(b.states[x])
    requires 0 <= s.mode < 256 && 0 <= s.behavior < 256
    ensures Kept(Updated(b, x, s)) && Meaning(Updated(b, x, s)) == Meaning(b)[KeyOf(s) := CellOf(s)]
  {
    hide Kept, Meaning;
    UpdateKept(b, x, s);
    var c, m := Updated(b, x, s), Meaning(b)[KeyOf(s) := CellOf(s)];
    forall y | y in c.busy && y in c.states
        ensures KeyOf(c.states[y]) in m && m[KeyOf(c.states[y])] == CellOf(c.states[y]) {
      Here(b, y);
    }
    forall k | k in m ensures exists y :: y in c.busy && y in c.states && KeyOf(c.states[y]) == k {
      var y := x;
      if k != KeyOf(s) { y := Where(b, k); }
      assert KeyOf(c.states[y]) == k;
    }
    MeaningIs(c, m);
  }

  ghost function Taken(b: Rows, s: State): Rows
    requires |b.av| > 0
  {
    Rows(b.busy + [b.av[0]], b.av[1..], b.states[b.av[0] := s])
  }

  lemma AllFresh(b: Rows, k: Key)
    requires Kept(b) && k !in Meaning(b)
    ensures forall y :: y in b.busy && y in b.states ==> KeyOf(b.states[y]) != k
  {
    hide Kept, Meaning;
    forall y | y in b.busy && y in b.states ensures KeyOf(b.states[y]) != k {
      Here(b, y);
    }
  }

  lemma TakeKept(b: Rows, s: State)
    requires Kept(b) && |b.av| > 0 && 0 <= s.mode < 256 && 0 <= s.behavior < 256
    requires forall y :: y in b.busy && y in b.states ==> KeyOf(b.states[y]) != KeyOf(s)
    ensures Kept(Taken(b, s)) && b.av[0] !in b.busy
  {
    var x := b.av[0];
    assert b.av == [x] + b.av[1..];
    AllAppend(b.busy, [x]);
    AllAppend([x], b.av[1..]);
    assert x in All(b.av);
  }

  /** Filling the first available entry adds one key. */
  lemma TakeMeans(b: Rows, s: State)
    requires Kept(b) && |b.av| > 0 && KeyOf(s) !in Meaning(b)
    requires 0 <= s.mode < 256 && 0 <= s.behavior < 256
    ensures Kept(Taken(b, s)) && Meaning(Taken(b, s)) == Meaning(b)[KeyOf(s) := CellOf(s)]
  {
    hide Kept, Meaning;
    AllFresh(b, KeyOf(s));
    TakeKept(b, s);
    var c, x, m := Taken(b, s), b.av[0], Meaning(b)[KeyOf(s) := CellOf(s)];
    forall y | y in c.busy && y in c.states
        ensures KeyOf(c.states[y]) in m && m[KeyOf(c.states[y])] == CellOf(c.states[y]) {
      if y != x {
        assert y in b.busy;
        Here(b, y);
      }
    }
    forall k | k in m ensures exists y :: y in c.busy && y in c.states && KeyOf(c.states[y]) == k {
      var y := x;
      if k != KeyOf(s) { y := Where(b, k); }
      assert y in c.busy && KeyOf(c.states[y]) == k;
    }
    MeaningIs(c, m);
  }

  ghost function Given(b: Rows, k: nat): Rows
    requires k < |b.busy|
  {
    Rows(Without(b.busy, k), b.av + [b.busy[k]], b.states)
  }

  lemma GiveKept(b: Rows, k: nat)
    requires Kept(b) && k < |b.busy| && b.busy[k] in b.states
    ensures Kept(Given(b, k))
    ensures forall x :: x in Given(b, k).busy <==> x in b.busy && x != b.busy[k]
    ensures forall y :: y in b.busy && y in b.states && y != b.busy[k] ==>
        KeyOf(b.states[y]) != KeyOf(b.states[b.busy[k]])
  {
    WithoutDistinct(b.busy, k);
    AllAppend(b.av, [b.busy[k]]);
    assert b.busy[k] in All(b.busy);
    assert All(Without(b.busy, k)) + {b.busy[k]} == All(b.busy);
  }

  /** Returning an entry to the available queue removes its key and no other. */
  lemma GiveMeans(b: Rows, k: nat)
    requires Kept(b) && k < |b.busy| && b.busy[k] in b.states
    ensures Kept(Given(b, k)) && Meaning(Given(b, k)) == Meaning(b) - {KeyOf(b.states[b.busy[k]])}
  {
    hide Kept, Meaning, Without;
    GiveKept(b, k);
    var c, key := Given(b, k), KeyOf(b.states[b.busy[k]]);
    var m := Meaning(b) - {key};
    forall y | y in c.busy && y in c.states
        ensures KeyOf(c.states[y]) in m && m[KeyOf(c.states[y])] == CellOf(c.states[y]) {
      Here(b, y);
    }
    forall l | l in m ensures exists y :: y in c.busy && y in c.states && KeyOf(c.states[y]) == l {
      var y := Where(b, l);
      assert y in c.busy && KeyOf(c.states[y]) == l;
    }
    MeaningIs(c, m);
  }

  lemma SlotKept(b: Rows, x: Link, s: State)
    requires Kept(b) && x !in b.busy && x !in b.av
    ensures Kept(b.(av := b.av + [x], states := b.states[x := s]))
    ensures Meaning(b.(av := b.av + [x], states := b.states[x := s])) == Meaning(b)
  {
    AllAppend(b.av, [x]);
    var c := b.(av := b.av + [x], states := b.states[x := s]);
    assert Kept(c);
    MeaningIs(c, Meaning(b)) by { StillBacked(b, c); }
  }

  lemma StillBacked(b: Rows, c: Rows)
    requires Kept(b) && c.busy == b.busy && forall x :: x in b.busy ==>
        x in c.states && x in b.states && c.states[x] == b.states[x]
    ensures Backs(c, Meaning(b))
  {
    hide Kept, Meaning;
    forall x | x in b.busy ensures KeyOf(c.states[x]) in Meaning(b)
        && Meaning(b)[KeyOf(c.states[x])] == CellOf(c.states[x]) {
      Here(b, x);
    }
    forall k | k in Meaning(b) ensures exists x :: x in c.busy && x in c.states && KeyOf(c.states[x]) == k {
      var x := Where(b, k);
    }
  }

  lemma NothingKept()
    ensures Kept(Rows([], [], map[])) && Meaning(Rows([], [], map[])) == map[]
  {
    var b := Rows([], [], map[]);
    assert Kept(b);
    assert Backs(b, map[]);
    MeaningIs(b, map[]);
  }

  lemma KeptBusy(b: Rows)
    requires Kept(b)
    ensures forall x :: x in b.busy ==> x in b.states
  {
    forall x | x in b.busy ensures x in b.states { assert x in All(b.busy); }
  }

  class Index {
    var size: int
    const busyHead: Link
    const avHead: Link
    /** The state record around each link. */
    var states: map<Link, State>
    ghost var busy: Links
    ghost var av: Links

    ghost function Now(): Rows
      reads this
    {
      Rows(busy, av, states)
    }

    ghost function Footprint(): set<Link>
      reads this
    {
      All([busyHead] + busy) + All([avHead] + av)
    }

    lemma NoLink()
      ensures forall ns: Links, o: object :: o in All(ns) ==> o != this
    {}

    ghost predicate Queues()
      reads this, Footprint()
    {
      Circle([busyHead] + busy) && Circle([avHead] + av) && Apart([busyHead] + busy, [avHead] + av)
    }

    ghost predicate Valid()
      reads this, Footprint()
    {
      Queues() && Kept(Now()) && |busy| + |av| == size
    }

    /** Enough new entries, last in the available queue; their contents do not matter. */
    method Extend(n: nat)
      requires Queues() && Kept(Now())
      modifies this`av, this`states, Footprint()
      ensures Queues() && Kept(Now()) && Meaning(Now()) == old(Meaning(Now()))
      ensures fresh(Footprint() - old(Footprint())) && |av| == |old(av)| + n
    {
      hide Circle, Kept, Meaning;
      for i := 0 to n
        invariant Queues() && Kept(Now()) && Meaning(Now()) == old(Meaning(Now()))
        invariant fresh(Footprint() - old(Footprint())) && |av| == |old(av)| + i
      {
        NewEntry();
      }
    }

    method NewEntry()
      requires Queues() && Kept(Now())
      modifies this`av, this`states, Footprint()
      ensures Queues() && Kept(Now()) && Meaning(Now()) == old(Meaning(Now()))
      ensures fresh(Footprint() - old(Footprint())) && |av| == |old(av)| + 1
    {
      hide Circle, Kept, Meaning;
      NoLink();
      var link := new Link();
      AddBeside(link, avHead, [avHead] + av, [busyHead] + busy);
      SlotKept(Now(), link, State(0, 0, 0, 0, 0));
      av := av + [link];
      states := states[link := State(0, 0, 0, 0, 0)];
      assert [avHead] + old(av) + [link] == [avHead] + av;
    }

    /** The two empty queues of a new index. */
    constructor ()
      ensures Queues() && Kept(Now()) && fresh(Footprint())
      ensures size == CHUNK && Now() == Rows([], [], map[])
    {
      size := CHUNK;
      busyHead := new Link();
      avHead := new Link();
      states := map[];
      busy := [];
      av := [];
      new;
      assert Kept(Now());
      hide Circle, Kept;
      Init(busyHead);
      InitBeside(avHead, [busyHead]);
      assert [busyHead] + busy == [busyHead] && [avHead] + av == [avHead];
    }

    /** The entry of a key, along the busy queue. */
    method Find(efd: int, fd: int) returns (found: Link?, ghost k: nat)
      requires Valid()
      ensures found == null ==> (efd, fd) !in Meaning(Now())
      ensures found != null ==> k < |busy| && busy[k] == found && found in states && KeyOf(states[found]) == (efd, fd)
    {
      hide Circle, After, Distinct, Kept, Meaning;
      ghost var ns := [busyHead] + busy;
      DistinctLinks(ns);
      KeptBusy(Now());
      FollowLinks(ns, 0);
      k := 0;
      var curr := busyHead.next;
      while curr != busyHead
        invariant Circle(ns) && 0 <= k <= |busy| && curr == After(ns, k)
        invariant forall i :: 0 <= i < k ==> KeyOf(states[busy[i]]) != (efd, fd)
        decreases |busy| - k
      {
        RoundEnds(ns, k);
        assert curr == busy[k];
        if states[curr].instance == efd && states[curr].fd == fd {
          return curr, k;
        }
        FollowLinks(ns, k + 1);
        curr := curr.next;
        k := k + 1;
      }
      RoundEnds(ns, k);
      Nowhere(Now(), (efd, fd));
      found := null;
    }

    method ToBusy(link: Link, s: State)
      requires Queues() && |av| > 0 && av[0] == link
      modifies this`states, this`busy, this`av, Footprint()
      ensures Queues() && Now() == Taken(old(Now()), s)
      ensures Footprint() == old(Footprint())
    {
      hide Circle;
      NoLink();
      Move(link, [avHead] + av, 1, busyHead, [busyHead] + busy);
      states := states[link := s];
      av := av[1..];
      busy := busy + [link];
      assert Without([avHead] + old(av), 1) == [avHead] + av;
      assert [busyHead] + old(busy) + [link] == [busyHead] + busy;
      assert old(av) == [link] + av;
    }

    method ToAvailable(link: Link, ghost k: nat)
      requires Queues() && k < |busy| && busy[k] == link
      modifies this`busy, this`av, Footprint()
      ensures Queues() && Now() == Given(old(Now()), k)
      ensures Footprint() == old(Footprint())
    {
      hide Circle;
      NoLink();
      Move(link, [busyHead] + busy, k + 1, avHead, [avHead] + av);
      busy := Without(busy, k);
      av := av + [link];
      assert Without([busyHead] + old(busy), k + 1) == [busyHead] + busy;
      assert [avHead] + old(av) + [link] == [avHead] + av;
    }

    /** Sixty-four more entries when none is available. */
    method Grow()
      requires Valid()
      modifies this`size, this`av, this`states, Footprint()
      ensures Valid() && Meaning(Now()) == old(Meaning(Now())) && |av| > 0
      ensures fresh(Footprint() - old(Footprint()))
      ensures size == if |old(av)| == 0 then old(size) + 64 else old(size)
    {
      hide Circle, Kept, Meaning;
      NoLink();
      HeadFirst();
      var empty := IsEmpty(avHead, [avHead] + av);
      if empty == 0 {
        Extend(CHUNK);
        size := size + CHUNK;
      }
    }

    lemma HeadFirst()
      requires Queues()
      ensures ([avHead] + av)[0] == avHead && |[avHead] + av| == |av| + 1
    {}

    /** A key that is not yet there takes the first available entry. */
    method Insert(s: State)
      requires Valid() && KeyOf(s) !in Meaning(Now()) && 0 <= s.mode < 256 && 0 <= s.behavior < 256
      modifies this, Footprint()
      ensures Valid() && Meaning(Now()) == old(Meaning(Now()))[KeyOf(s) := CellOf(s)]
      ensures fresh(Footprint() - old(Footprint()))
      ensures size == if |old(av)| == 0 then old(size) + 64 else old(size)
    {
      hide Circle, Kept, Meaning;
      Grow();
      FollowLinks([avHead] + av, 0);
      TakeMeans(Now(), s);
      ToBusy(avHead.next, s);
    }

    /** The fields of an entry are overwritten in place. */
    method Overwrite(link: Link, s: State)
      requires Valid() && link in busy && link in states && KeyOf(s) == KeyOf(states[link])
      requires 0 <= s.mode < 256 && 0 <= s.behavior < 256
      modifies this`states
      ensures Valid() && Meaning(Now()) == old(Meaning(Now()))[KeyOf(s) := CellOf(s)]
    {
      hide Circle, Kept, Meaning;
      NoLink();
      UpdateMeans(Now(), link, s);
      states := states[link := s];
    }

    /** Recording a state: a sleep keeps the events and the behaviour it finds. */
    method StateSet(efd: int, fd: int, mode: int, behavior: int, events: int)
      requires Valid() && 0 <= mode < 256 && 0 <= behavior < 256
      modifies this, Footprint()
      ensures Valid() && Meaning(Now()) == Recorded(old(Meaning(Now())), (efd, fd), mode, behavior, events)
      ensures fresh(Footprint() - old(Footprint()))
      ensures size == if (efd, fd) !in old(Meaning(Now())) && |old(av)| == 0 then old(size) + 64 else old(size)
    {
      hide Circle, Kept, Meaning;
      var found; ghost var k;
      found, k := Find(efd, fd);
      if found == null {
        Insert(State(efd, fd, mode, behavior, events));
      } else {
        Here(Now(), found);
        var s := states[found];
        if mode != SLEEP {
          s := s.(events := events, behavior := behavior);
        }
        Overwrite(found, s.(mode := mode));
      }
    }

    /** The entry of the key goes back to the available queue. */
    method StateDel(efd: int, fd: int) returns (r: int)
      requires Valid()
      modifies this, Footprint()
      ensures Valid() && Meaning(Now()) == old(Meaning(Now())) - {(efd, fd)} && size == old(size)
      ensures Footprint() == old(Footprint())
      ensures r == if (efd, fd) in old(Meaning(Now())) then 0 else -1
    {
      hide Circle, Kept, Meaning;
      var found; ghost var k;
      found, k := Find(efd, fd);
      if found == null { return -1; }
      Here(Now(), found);
      GiveMeans(Now(), k);
      ToAvailable(found, k);
      return 0;
    }

    /** Adding a descriptor; nothing is recorded when the kernel refuses it. */
    method EpollAdd(efd: int, fd: int, mode: int, behavior: int, added: bool) returns (mask: int)
      requires Valid()
      modifies this, Footprint()
      ensures Valid() && fresh(Footprint() - old(Footprint())) && mask == AddMask(mode, behavior)
      ensures Some(Meaning(Now())) == Step(old(Meaning(Now())), Op.Add((efd, fd), mode, behavior, added))
      ensures Watches(mask, mode == 0 || mode == 2, mode == 1 || mode == 2, mode != 3, mode != 3,
                      mode != 3 && behavior == 0x8000_0000)
    {
      hide Circle, Kept, Meaning, Watches;
      AddWatches(mode, behavior);
      mask := ERR + HUP + RDHUP;
      if behavior == EDGE { mask := mask + EDGE; }
      match mode {
        case 0 => mask := mask + IN;
        case 1 => mask := mask + OUT;
        case 2 => mask := mask + IN + OUT;
        case 3 => mask := 0;
        case _ =>
      }
      if added {
        StateSet(efd, fd, U8(mode), U8(behavior), mask);
      }
    }

    /** Removing a descriptor removes its state. */
    method EpollDel(efd: int, fd: int)
      requires Valid()
      modifies this, Footprint()
      ensures Valid() && Footprint() == old(Footprint())
      ensures Some(Meaning(Now())) == Step(old(Meaning(Now())), Op.Del((efd, fd)))
    {
      var _ := StateDel(efd, fd);
    }

    /**
      * Changing the mode. The process stays alive unless a descriptor that does not
      * sleep is woken up; `mask` is what the kernel is given.
      */
    method ChangeMode(efd: int, fd: int, mode: int, behavior: int) returns (alive: bool, mask: int)
      requires Valid()
      modifies this, Footprint()
      ensures Valid() && fresh(Footprint() - old(Footprint()))
      ensures alive <==> Step(old(Meaning(Now())), Change((efd, fd), mode, behavior)).Some?
      ensures !alive ==> Meaning(Now()) == old(Meaning(Now()))
      ensures alive ==> Meaning(Now()) == Step(old(Meaning(Now())), Change((efd, fd), mode, behavior)).value
      ensures alive ==> mask == Mask(old(Meaning(Now())), Change((efd, fd), mode, behavior))
      ensures mode != 4 ==> alive && Watches(mask, mode == 0 || mode == 2, mode == 1 || mode == 2, mode != 3, false,
                                             behavior == 0x8000_0000)
    {
      hide Circle, Kept, Meaning, Step, Mask, Watches;
      NoWakeup(Meaning(Now()), (efd, fd), mode, behavior);
      var how;
      alive, mask, how := Prepare(efd, fd, mode, behavior);
      if alive {
        StateSet(efd, fd, U8(mode), U8(how), mask);
      }
    }

    /** The mask of a change and the behaviour to record with it. */
    method Prepare(efd: int, fd: int, mode: int, behavior: int) returns (alive: bool, mask: int, how: int)
      requires Valid()
      ensures alive <==> Step(Meaning(Now()), Change((efd, fd), mode, behavior)).Some?
      ensures alive ==> mask == Mask(Meaning(Now()), Change((efd, fd), mode, behavior))
      ensures alive ==>
                Some(Recorded(Meaning(Now()), (efd, fd), U8(mode), U8(how), mask))
                == Step(Meaning(Now()), Change((efd, fd), mode, behavior))
    {
      hide Circle, Kept, Meaning;
      mask := ERR + HUP;
      how := behavior;
      match mode {
        case 0 => mask := mask + IN;
        case 1 => mask := mask + OUT;
        case 2 => mask := mask + IN + OUT;
        case 3 => mask := 0;
        case 4 =>
          var found; ghost var k;
          found, k := Find(efd, fd);
          if found == null { return false, mask, how; }
          Here(Now(), found);
          if states[found].mode != SLEEP { return false, mask, how; }
          mask := states[found].events;
          how := states[found].behavior;
        case _ =>
      }
      if how == EDGE { mask := mask + EDGE; }
      alive := true;
    }
  }

  /** The index of a worker starts with 64 available entries and stands for the empty map. */
  method StateInit() returns (index: Index)
    ensures fresh(index) && index.Valid() && fresh(index.Footprint())
    ensures index.size == 64 && Meaning(index.Now()) == map[]
  {
    hide Circle, Kept, Meaning;
    index := new Index();
    NothingKept();
    index.Extend(CHUNK);
  }
}
