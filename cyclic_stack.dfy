/** `cppext::cyclic_stack`: a growable container with a rotating "current" index.
    `cycle()` advances the index modulo a cycle length fixed at construction, `push`
    and `emplace` append, `top` is the element at the current index, and `pop` shifts
    the elements after the current index one place to the left without shrinking. */
module CppextCyclicStack {
  import Grids

  /** The index one `cycle()` call produces: (index + 1) mod cycle. */
  function Advance(index: nat, cycle: nat): (r: nat)
    requires cycle > 0
    ensures r < cycle
    ensures index + 1 < cycle ==> r == index + 1
    ensures index + 1 == cycle ==> r == 0
  {
    (index + 1) % cycle
  }

  /** The index after n `cycle()` calls. */
  function AdvanceN(index: nat, cycle: nat, n: nat): nat
    requires cycle > 0
    decreases n
  {
    if n == 0 then index else Advance(AdvanceN(index, cycle, n - 1), cycle)
  }

  /** One more step of a modular counter is the counter of the successor. */
  lemma ModSuccessor(a: nat, c: nat)
    requires c > 0
    ensures (a % c + 1) % c == (a + 1) % c
  {
    var q, r := a / c, a % c;
    if r + 1 < c {
      Grids.DivModUnique(a + 1, c, q, r + 1);
      Grids.DivModUnique(r + 1, c, 0, r + 1);
    } else {
      Grids.DivModUnique(a + 1, c, q + 1, 0);
      Grids.DivModUnique(r + 1, c, 1, 0);
    }
  }

  /** From an index inside the cycle, n calls of `cycle()` land on (index + n) mod cycle. */
  lemma {:induction false} AdvanceNIsModular(index: nat, cycle: nat, n: nat)
    requires index < cycle
    ensures AdvanceN(index, cycle, n) == (index + n) % cycle
  {
    if n == 0 {
      Grids.DivModUnique(index, cycle, 0, index);
    } else {
      AdvanceNIsModular(index, cycle, n - 1);
      ModSuccessor(index + n - 1, cycle);
    }
  }

  /** After exactly `cycle` calls of `cycle()` the index is back where it started. */
  lemma FullCycleReturns(index: nat, cycle: nat)
    requires index < cycle
    ensures AdvanceN(index, cycle, cycle) == index
  {
    AdvanceNIsModular(index, cycle, cycle);
    Grids.DivModUnique(index + cycle, cycle, 1, index);
  }

  /** Starting from index 0, the element `top()` designates after n cycles is element n mod cycle. */
  lemma TopAfterCycles<T>(data: seq<T>, cycle: nat, n: nat)
    requires 0 < cycle <= |data|
    ensures AdvanceN(0, cycle, n) < |data|
    ensures data[AdvanceN(0, cycle, n)] == data[n % cycle]
  {
    AdvanceNIsModular(0, cycle, n);
  }

  /** The container `pop()` leaves: the elements after `index` moved one place left, the
      last slot keeping the (moved-from) last element, the length unchanged. */
  function Popped<T>(s: seq<T>, index: nat): seq<T>
    requires index < |s|
  {
    s[..index] + s[index + 1..] + [s[|s| - 1]]
  }

  /** `pop()` keeps the length, the elements before `index` and the last element, and
      every other slot from `index` on holds its right-hand neighbour. */
  lemma PoppedAt<T>(s: seq<T>, index: nat, k: nat)
    requires index < |s| && k < |s|
    ensures |Popped(s, index)| == |s|
    ensures k < index ==> Popped(s, index)[k] == s[k]
    ensures index <= k < |s| - 1 ==> Popped(s, index)[k] == s[k + 1]
    ensures k == |s| - 1 ==> Popped(s, index)[k] == s[k]
  {
  }

  class CyclicStack<T> {
    var data: seq<T>
    var cycle: nat
    var index: nat

    /** The index stays inside the cycle; a stack built with cycle 0 never moves it off 0. */
    ghost predicate Valid()
      reads this
    {
      index == 0 || index < cycle
    }

    /** `cyclic_stack() = default`: empty, cycle length 0, index 0. */
    constructor Default()
      ensures Valid()
      ensures data == [] && cycle == 0 && index == 0
    {
      data, cycle, index := [], 0, 0;
    }

    /** `cyclic_stack(cycle, size)`: cycle length as given, index 0, and `size`
        value-initialised elements (`fill` stands for `T{}`). */
    constructor (cycle: nat, size: nat, fill: T)
      ensures Valid()
      ensures this.cycle == cycle && index == 0
      ensures data == seq(size, _ => fill)
    {
      this.cycle := cycle;
      index := 0;
      data := seq(size, _ => fill);
    }

    /** `top()`: the element at the current index. */
    function Top(): (x: T)
      reads this
      requires index < |data|
      ensures x == data[index]
    {
      data[index]
    }

    /** Assignment through the reference `top()` returns: only the current element changes. */
    method SetTop(x: T)
      requires Valid() && index < |data|
      modifies this
      ensures Valid()
      ensures data == old(data)[old(index) := x]
      ensures cycle == old(cycle) && index == old(index)
    {
      data := data[index := x];
    }

    /** `empty()`: the container holds no element. */
    function Empty(): (e: bool)
      reads this
      ensures e <==> |data| == 0
    {
      |data| == 0
    }

    /** `index()`: the current index, which lies inside the cycle once the cycle is non-empty. */
    function Index(): (i: nat)
      reads this
      requires Valid()
      ensures i == index
      ensures cycle > 0 ==> i < cycle
    {
      index
    }

    /** `cycle()`: advance the index modulo the cycle length (`cycle()` divides by the
        cycle length, so it must not be 0); the elements are untouched. */
    method Cycle()
      requires Valid() && cycle > 0
      modifies this
      ensures Valid()
      ensures data == old(data) && cycle == old(cycle)
      ensures index == Advance(old(index), cycle)
    {
      index := (index + 1) % cycle;
    }

    /** `push(value)`: append at the end; index, cycle and earlier elements unchanged. */
    method Push(value: T)
      requires Valid()
      modifies this
      ensures Valid()
      ensures data == old(data) + [value]
      ensures cycle == old(cycle) && index == old(index)
    {
      data := data + [value];
    }

    /** `emplace(args...)`: append the constructed element (`value`) and return it. */
    method Emplace(value: T) returns (r: T)
      requires Valid()
      modifies this
      ensures Valid()
      ensures data == old(data) + [value] && r == data[|data| - 1]
      ensures cycle == old(cycle) && index == old(index)
    {
      data := data + [value];
      r := value;
    }

    /** `pop()`: move every element after the current index one slot to the left, in place,
        as `std::move(current + 1, end, current)` does; the length does not change. */
    method Pop()
      requires Valid() && index < |data|
      modifies this
      ensures Valid()
      ensures data == Popped(old(data), old(index))
      ensures cycle == old(cycle) && index == old(index)
    {
      var k := index;
      while k + 1 < |data|
        invariant index <= k < |data| == |old(data)|
        invariant cycle == old(cycle) && index == old(index)
        invariant forall m :: 0 <= m < index ==> data[m] == old(data)[m]
        invariant forall m :: index <= m < k ==> data[m] == old(data)[m + 1]
        invariant forall m :: k <= m < |data| ==> data[m] == old(data)[m]
      {
        data := data[k := data[k + 1]];
        k := k + 1;
      }
      forall m | 0 <= m < |data|
        ensures data[m] == Popped(old(data), index)[m]
      {
        PoppedAt(old(data), index, m);
      }
    }

    /** `swap(other)`: exchange container, cycle length and index with `other`. */
    method Swap(other: CyclicStack<T>)
      requires Valid() && other.Valid()
      modifies this, other
      ensures Valid() && other.Valid()
      ensures data == old(other.data) && cycle == old(other.cycle) && index == old(other.index)
      ensures other.data == old(data) && other.cycle == old(cycle) && other.index == old(index)
    {
      var d, c, i := data, cycle, index;
      data := other.data;
      other.data := d;
      cycle := other.cycle;
      other.cycle := c;
      index := other.index;
      other.index := i;
    }

    /** Writing element k of the span `as_span()` returns; the other elements are untouched. */
    method SetAt(k: nat, x: T)
      requires Valid() && k < |data|
      modifies this
      ensures Valid()
      ensures data == old(data)[k := x]
      ensures cycle == old(cycle) && index == old(index)
    {
      data := data[k := x];
    }

    /** `as_span()` (and `data()`, its first element's address): every element, in order. */
    function AsSpan(): (s: seq<T>)
      reads this
      ensures |s| == |data| && forall k :: 0 <= k < |s| ==> s[k] == data[k]
    {
      data
    }
  }

  /** The unit test: a stack of cycle 3, pushes 1, 2, 3, four cycles, then a pop at index 1.
      Returns the two `empty()` results and the six `top()` results it checks. */
  method UnitTestScenario() returns (empties: seq<bool>, tops: seq<int>)
    ensures empties == [true, false]
    ensures tops == [1, 2, 3, 1, 2, 3]
  {
    var stack := new CyclicStack<int>(3, 0, 0);
    empties := [stack.Empty()];
    stack.Push(1);
    stack.Push(2);
    stack.Push(3);
    empties := empties + [stack.Empty()];
    tops := [stack.Top()];
    stack.Cycle();
    tops := tops + [stack.Top()];
    stack.Cycle();
    tops := tops + [stack.Top()];
    stack.Cycle();
    tops := tops + [stack.Top()];
    stack.Cycle();
    tops := tops + [stack.Top()];
    stack.Pop();
    tops := tops + [stack.Top()];
  }
}
