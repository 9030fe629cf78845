/** The power-of-two buffer allocator (client/tun/buffer/allocator/allocator.go over
    client/tun/internal/pool/pool.go): 17 pools, the k-th for buffers of capacity 2^k. */
module Allocator {
  import opened Runs
  import opened Tally

  const CLASSES: nat := 17
  const MAX_SIZE: nat := 65536

  function Pow2(k: nat): (r: nat)
    ensures r > 0
  {
    if k == 0 then 1 else 2 * Pow2(k - 1)
  }

  /** `bits.Len32`. */
  function BitLength(x: nat): nat {
    if x == 0 then 0 else 1 + BitLength(x / 2)
  }

  /** `msb`: through uint32, minus one, through uint16. */
  function Msb(size: nat): nat {
    (BitLength(size % 0x1_0000_0000) - 1) % 0x1_0000
  }

  /** The pool `Get` takes from. */
  function ClassOf(size: nat): nat {
    if size == Pow2(Msb(size)) then Msb(size) else Msb(size) + 1
  }

  // ---- Arithmetic ----

  lemma {:induction false} BitLengthBounds(x: nat)
    requires x > 0
    ensures BitLength(x) >= 1
    ensures Pow2(BitLength(x) - 1) <= x < Pow2(BitLength(x))
  {
    if x > 1 {
      BitLengthBounds(x / 2);
    }
  }

  lemma {:induction false} Pow2Monotone(j: nat, k: nat)
    requires j < k
    ensures 2 * Pow2(j) <= Pow2(k)
    decreases k
  {
    if j < k - 1 {
      Pow2Monotone(j, k - 1);
    }
  }

  lemma Pow2Sixteen()
    ensures Pow2(16) == MAX_SIZE
  {
    assert Pow2(4) == 16;
    assert Pow2(8) == 16 * Pow2(4);
    assert Pow2(12) == 16 * Pow2(8);
    assert Pow2(16) == 16 * Pow2(12);
  }

  lemma BitLengthAtMost17(size: nat)
    requires 1 <= size <= MAX_SIZE
    ensures 1 <= BitLength(size) <= 17
  {
    BitLengthBounds(size);
    Pow2Sixteen();
    if BitLength(size) - 1 > 16 {
      Pow2Monotone(16, BitLength(size) - 1);
    }
  }

  lemma SmallModulo(x: nat, m: nat)
    requires x < m
    ensures x % m == x
  {
  }

  /** No truncation happens for the sizes that `Get` and `Put` let through. */
  lemma MsbIsBitLength(size: nat)
    requires size < 0x1_0000_0000 && 1 <= BitLength(size) <= 17
    ensures Msb(size) == BitLength(size) - 1
  {
    SmallModulo(size, 0x1_0000_0000);
    SmallModulo(BitLength(size) - 1, 0x1_0000);
  }

  lemma MsbBounds(size: nat)
    requires 1 <= size <= MAX_SIZE
    ensures Msb(size) <= 16 && Pow2(Msb(size)) <= size < 2 * Pow2(Msb(size))
  {
    BitLengthAtMost17(size);
    MsbIsBitLength(size);
    BitLengthBounds(size);
  }

  lemma MsbOfPow2(k: nat)
    requires k <= 16
    ensures 1 <= Pow2(k) <= MAX_SIZE && Msb(Pow2(k)) == k
  {
    Pow2Sixteen();
    if k < 16 {
      Pow2Monotone(k, 16);
    }
    MsbBounds(Pow2(k));
    var m := Msb(Pow2(k));
    if m < k {
      Pow2Monotone(m, k);
    } else if k < m {
      Pow2Monotone(k, m);
    }
  }

  /** `Get` indexes in range, and its pool holds the smallest capacity that is enough: less than half
      of it is wasted. */
  lemma ClassIsLeast(size: nat, k: nat)
    requires 1 <= size <= MAX_SIZE
    ensures ClassOf(size) < CLASSES
    ensures size <= Pow2(ClassOf(size)) < 2 * size
    ensures size <= Pow2(k) ==> ClassOf(size) <= k
  {
    MsbBounds(size);
    Pow2Sixteen();
    var c := ClassOf(size);
    if k < c {
      Pow2Monotone(k, c);
      if k < c - 1 {
        Pow2Monotone(k, c - 1);
      }
    }
  }

  // ---- Pools ----

  /** A byte slice by the identity of its storage. */
  datatype Slice = Slice(id: nat, length: nat, capacity: nat)

  type Pools = seq<seq<Slice>>

  /** What `New` starts from. */
  function Empty(): Pools {
    seq(CLASSES, _ => [])
  }

  /** Class k holds buffers of capacity 2^k, of any length. */
  ghost predicate Sorted(pools: Pools) {
    && |pools| == CLASSES
    && forall k, i :: 0 <= k < CLASSES && 0 <= i < |pools[k]| ==>
         pools[k][i].capacity == Pow2(k) && pools[k][i].length <= pools[k][i].capacity
  }

  predicate Accepts(capacity: nat) {
    1 <= capacity <= MAX_SIZE && capacity == Pow2(Msb(capacity))
  }

  function Add(pools: Pools, k: nat, b: Slice): Pools
    requires k < |pools|
  {
    pools[k := pools[k] + [b]]
  }

  function Remove(pools: Pools, k: nat, i: nat): Pools
    requires k < |pools| && i < |pools[k]|
  {
    pools[k := pools[k][..i] + pools[k][i + 1..]]
  }

  /** What `Get` hands out from class `k`: the pooled buffer `pick` if there is one, or a new one,
      resliced to `size`. */
  function Taken(pools: Pools, k: nat, pick: nat, id: nat, size: nat): Slice
    requires k < |pools|
  {
    if pick < |pools[k]| then pools[k][pick].(length := size) else Slice(id, size, Pow2(k))
  }

  function TakeFrom(pools: Pools, k: nat, pick: nat): Pools
    requires k < |pools|
  {
    if pick < |pools[k]| then Remove(pools, k, pick) else pools
  }

  /** A buffer is accepted exactly when its capacity is a power of two up to 64 KiB. */
  lemma AcceptsPowersOfTwo(capacity: nat)
    ensures Accepts(capacity) <==> exists k :: 0 <= k <= 16 && capacity == Pow2(k)
  {
    if Accepts(capacity) {
      MsbBounds(capacity);
    }
    forall k | 0 <= k <= 16 && capacity == Pow2(k) ensures Accepts(capacity) {
      MsbOfPow2(k);
    }
  }

  /** A buffer goes back to the class it came from. */
  lemma PutUndoesGet(size: nat, b: Slice)
    requires 1 <= size <= MAX_SIZE && b.capacity == Pow2(ClassOf(size))
    ensures Accepts(b.capacity) && Msb(b.capacity) == ClassOf(size)
  {
    ClassIsLeast(size, 0);
    MsbOfPow2(ClassOf(size));
  }

  /** Taking a pooled buffer takes exactly that one out of its class, and touches no other. */
  lemma TakingTakesOne(pools: Pools, k: nat, pick: nat)
    requires k < |pools| && pick < |pools[k]|
    ensures var pools' := TakeFrom(pools, k, pick);
      && |pools'| == |pools|
      && multiset(pools[k]) == multiset(pools'[k]) + multiset{pools[k][pick]}
      && (forall j :: 0 <= j < |pools| && j != k ==> pools'[j] == pools[j])
  {
    assert pools[k] == pools[k][..pick] + [pools[k][pick]] + pools[k][pick + 1..];
  }

  class Allocator {
    var buffers: Pools
    var next: nat  // identity of the next new buffer

    ghost predicate Valid()
      reads this
    {
      Sorted(buffers)
    }

    constructor ()
      ensures Valid() && buffers == Empty()
    {
      buffers, next := Empty(), 0;
    }

    /** `pick` is the pool's choice among its buffers; out of range, the pool makes a new one. */
    method Get(size: int, pick: nat) returns (r: Option<Slice>)
      requires Valid()
      modifies this
      ensures Valid()
      ensures r.None? <==> size <= 0 || size > MAX_SIZE
      ensures r.None? ==> buffers == old(buffers) && next == old(next)
      ensures r.Some? ==>
        && r.value.length == size <= r.value.capacity == Pow2(ClassOf(size)) < 2 * size
        && ClassOf(size) < CLASSES
        && r.value == Taken(old(buffers), ClassOf(size), pick, old(next), size)
        && buffers == TakeFrom(old(buffers), ClassOf(size), pick)
      ensures r.Some? ==>
        next == old(next) + if pick < |old(buffers)[ClassOf(size)]| then 0 else 1
      ensures r.Some? ==> forall j :: 0 <= j < CLASSES && j != ClassOf(size) ==> buffers[j] == old(buffers)[j]
      ensures r.Some? ==>
        var k := ClassOf(size);
        if pick < |old(buffers)[k]| then
          && r.value.id == old(buffers)[k][pick].id
          && multiset(old(buffers)[k]) == multiset(buffers[k]) + multiset{old(buffers)[k][pick]}
        else r.value.id == old(next) && buffers[k] == old(buffers)[k]
    {
      if size <= 0 || size > MAX_SIZE {
        return None;
      }
      ClassIsLeast(size, 0);
      var b := Msb(size);
      if size != Pow2(b) {
        b := b + 1;
      }
      var slice;
      if pick < |buffers[b]| {
        TakingTakesOne(buffers, b, pick);
        slice := buffers[b][pick];
        buffers := Remove(buffers, b, pick);
      } else {
        slice := Slice(next, Pow2(b), Pow2(b));
        next := next + 1;
      }
      // Reslicing beyond the capacity would panic.
      assert size <= slice.capacity;
      r := Some(slice.(length := size));
    }

    method Put(buf: Slice) returns (ok: bool)
      requires Valid() && buf.length <= buf.capacity
      modifies this`buffers
      ensures Valid()
      ensures ok <==> exists k :: 0 <= k <= 16 && buf.capacity == Pow2(k)
      ensures !ok ==> buffers == old(buffers)
      ensures ok ==> Msb(buf.capacity) < CLASSES && buffers == Add(old(buffers), Msb(buf.capacity), buf)
      ensures ok ==>
        forall j :: 0 <= j < CLASSES ==>
          multiset(buffers[j]) ==
          multiset(old(buffers)[j]) + if buf.capacity == Pow2(j) then multiset{buf} else multiset{}
    {
      AcceptsPowersOfTwo(buf.capacity);
      var b := Msb(buf.capacity);
      if buf.capacity == 0 || buf.capacity > MAX_SIZE || buf.capacity != Pow2(b) {
        return false;
      }
      MsbBounds(buf.capacity);
      forall j | 0 <= j < CLASSES ensures buf.capacity == Pow2(j) <==> j == b {
        MsbOfPow2(j);
      }
      buffers := Add(buffers, b, buf);
      ok := true;
    }
  }

  // ---- Every sequence of calls ----

  datatype Action =
    | Get(size: int, pick: nat, id: nat)
    | Put(b: Slice)               // any buffer, also one this allocator never made
    | Forget(k: nat, i: nat)      // the garbage collector empties pools at will

  function Step(pools: Pools, a: Action): Option<Pools> {
    match a
    case Get(size, pick, id) =>
      if size <= 0 || size > MAX_SIZE then Some(pools)
      else if ClassOf(size) < |pools| then Some(TakeFrom(pools, ClassOf(size), pick))
      else None
    case Put(b) =>
      if b.length > b.capacity then None
      else if !Accepts(b.capacity) then Some(pools)
      else if Msb(b.capacity) < |pools| then Some(Add(pools, Msb(b.capacity), b))
      else None
    case Forget(k, i) =>
      if k < |pools| && i < |pools[k]| then Some(Remove(pools, k, i)) else None
  }

  lemma StepKeepsSorted(pools: Pools, a: Action)
    requires Sorted(pools) && Step(pools, a).Some?
    ensures Sorted(Step(pools, a).value)
  {
  }

  /** Whatever is taken, put back or forgotten, in any order, `Get` succeeds for every size from 1 to
      65536, with a buffer of the least sufficient power of two: no call leaves the table of pools
      and no reslice exceeds its buffer. */
  lemma EveryGetFits(run: seq<Action>, size: nat, pick: nat, id: nat)
    requires Legal(Step, Empty(), run) && 1 <= size <= MAX_SIZE
    ensures var pools: Pools := After(Step, Empty(), run);
      && Sorted(pools) && ClassOf(size) < |pools|
      && (pick < |pools[ClassOf(size)]| ==> size <= pools[ClassOf(size)][pick].capacity)
      && var r := Taken(pools, ClassOf(size), pick, id, size);
      && r.length == size <= r.capacity < 2 * size
      && Accepts(r.capacity) && Msb(r.capacity) == ClassOf(size)
  {
    forall p, a | Sorted(p) && Step(p, a).Some? ensures Sorted(Step(p, a).value) {
      StepKeepsSorted(p, a);
    }
    InvariantHolds(Step, Sorted, Empty(), run);
    ClassIsLeast(size, 0);
    PutUndoesGet(size, Taken(After(Step, Empty(), run), ClassOf(size), pick, id, size));
  }

  // ---- Buffers and their holders ----

  /** The pools, the buffers that callers hold, and the identity of the next new buffer. */
  datatype Owners = Owners(pools: Pools, held: seq<Slice>, next: nat)

  datatype Use =
    | Take(size: int, pick: nat)
    | Reslice(h: nat, length: nat)  // a caller changes the length of a buffer it holds
    | GiveBack(h: nat)              // a caller puts back a buffer it holds
    | Collected(k: nat, i: nat)

  function UseStep(s: Owners, a: Use): Option<Owners> {
    match a
    case Take(size, pick) =>
      if size <= 0 || size > MAX_SIZE then Some(s)
      else if ClassOf(size) >= |s.pools| then None
      else
        var k := ClassOf(size);
        Some(Owners(TakeFrom(s.pools, k, pick), s.held + [Taken(s.pools, k, pick, s.next, size)],
                    if pick < |s.pools[k]| then s.next else s.next + 1))
    case Reslice(h, length) =>
      if h < |s.held| && length <= s.held[h].capacity
      then Some(s.(held := s.held[h := s.held[h].(length := length)]))
      else None
    case GiveBack(h) =>
      if h >= |s.held| then None
      else if !Accepts(s.held[h].capacity) then Some(s)
      else if Msb(s.held[h].capacity) >= |s.pools| then None
      else Some(s.(pools := Add(s.pools, Msb(s.held[h].capacity), s.held[h]),
                   held := s.held[..h] + s.held[h + 1..]))
    case Collected(k, i) =>
      if k < |s.pools| && i < |s.pools[k]| then Some(s.(pools := Remove(s.pools, k, i))) else None
  }

  ghost function IsIt(id: nat): Slice -> nat {
    (b: Slice) => if b.id == id then 1 else 0
  }

  ghost function InPool(id: nat): seq<Slice> -> nat {
    (p: seq<Slice>) => Sum(p, IsIt(id))
  }

  /** How often storage `id` is in a pool or with a caller. */
  ghost function Places(s: Owners, id: nat): nat {
    Sum(s.pools, InPool(id)) + Sum(s.held, IsIt(id))
  }

  ghost predicate OneOwner(s: Owners) {
    forall id: nat :: Places(s, id) <= if id < s.next then 1 else 0
  }

  lemma AddCounts(pools: Pools, k: nat, b: Slice, id: nat)
    requires k < |pools|
    ensures Sum(Add(pools, k, b), InPool(id)) == Sum(pools, InPool(id)) + IsIt(id)(b)
  {
    SumAppend(pools[k], b, IsIt(id));
    SumUpdate(pools, k, pools[k] + [b], InPool(id));
  }

  lemma RemoveCounts(pools: Pools, k: nat, i: nat, id: nat)
    requires k < |pools| && i < |pools[k]|
    ensures Sum(pools, InPool(id)) == Sum(Remove(pools, k, i), InPool(id)) + IsIt(id)(pools[k][i])
  {
    SumRemove(pools[k], i, IsIt(id));
    SumUpdate(pools, k, Remove(pools, k, i)[k], InPool(id));
  }

  lemma UseKeepsOwner(s: Owners, a: Use, id: nat)
    requires OneOwner(s) && UseStep(s, a).Some?
    ensures var s' := UseStep(s, a).value; Places(s', id) <= if id < s'.next then 1 else 0
  {
    assert Places(s, id) <= if id < s.next then 1 else 0;
    match a
    case Take(size, pick) =>
      if 1 <= size <= MAX_SIZE {
        var k := ClassOf(size);
        SumAppend(s.held, Taken(s.pools, k, pick, s.next, size), IsIt(id));
        if pick < |s.pools[k]| {
          RemoveCounts(s.pools, k, pick, id);
        }
      }
    case Reslice(h, length) => SumUpdate(s.held, h, s.held[h].(length := length), IsIt(id));
    case GiveBack(h) =>
      SumRemove(s.held, h, IsIt(id));
      if Msb(s.held[h].capacity) < |s.pools| {
        AddCounts(s.pools, Msb(s.held[h].capacity), s.held[h], id);
      }
    case Collected(k, i) => RemoveCounts(s.pools, k, i, id);
  }

  lemma NobodyAtFirst()
    ensures OneOwner(Owners(Empty(), [], 0))
  {
    forall id: nat ensures Places(Owners(Empty(), [], 0), id) == 0 {
      assert forall k :: 0 <= k < CLASSES ==> InPool(id)(Empty()[k]) == 0;
      SumNothing(Empty(), InPool(id));
    }
  }

  lemma OwnersInductive()
    ensures Inductive(UseStep, OneOwner)
  {
    forall s: Owners, a: Use | OneOwner(s) && UseStep(s, a).Some? ensures OneOwner(UseStep(s, a).value) {
      var s' := UseStep(s, a).value;
      forall i: nat ensures Places(s', i) <= if i < s'.next then 1 else 0 {
        UseKeepsOwner(s, a, i);
      }
    }
  }

  /** As long as callers put back only what they hold, no storage ever has two owners: it occurs at
      most once among all pools and all callers, whatever is taken, put back or collected. */
  lemma NoBufferIsSharedTwice(run: seq<Use>, id: nat)
    requires Legal(UseStep, Owners(Empty(), [], 0), run)
    ensures var s: Owners := After(UseStep, Owners(Empty(), [], 0), run);
      Sum(s.pools, InPool(id)) + Sum(s.held, IsIt(id)) <= 1
  {
    var s0 := Owners(Empty(), [], 0);
    NobodyAtFirst();
    OwnersInductive();
    InvariantHolds(UseStep, OneOwner, s0, run);
    assert Places(After(UseStep, s0, run), id) <= 1;
  }
}
