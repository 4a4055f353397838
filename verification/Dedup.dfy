/**
 * The duplicate filter (ts/infinity-bridge-relay/src/dedup.ts and rescript/.../Dedup.res). Ids are
 * text in TypeScript; in ReScript nothing checks that they are.
 */
module Dedup {
  import opened Base

  /** The ring as a value: the remembered ids, oldest first. */
  datatype Ring<T> = Ring(order: seq<T>, capacity: nat)

  predicate Has<T(==)>(r: Ring<T>, id: T) {
    id in r.order
  }

  function Mark<T(==)>(r: Ring<T>, id: T): Ring<T> {
    if Has(r, id) then r else r.(order := Last(r.order + [id], r.capacity))
  }

  // ---- What the ring remembers, without the ring ----

  datatype Call<T> = MarkCall(id: T) | ClearCall

  /** The marks since the last clear that were not among the `capacity` fresh marks before them. */
  function FreshMarks<T(==)>(calls: seq<Call<T>>, capacity: nat): seq<T> {
    if calls == [] then []
    else
      var before := FreshMarks(calls[..|calls| - 1], capacity);
      match calls[|calls| - 1]
      case ClearCall => []
      case MarkCall(id) => if id in Last(before, capacity) then before else before + [id]
  }

  function Run<T(==)>(calls: seq<Call<T>>, capacity: nat): Ring<T> {
    if calls == [] then Ring([], capacity)
    else
      var r := Run(calls[..|calls| - 1], capacity);
      match calls[|calls| - 1]
      case ClearCall => Ring([], capacity)
      case MarkCall(id) => Mark(r, id)
  }

  /** Equal ids in a history lie more than `capacity` apart. */
  ghost predicate Spaced<T>(history: seq<T>, capacity: nat) {
    forall i, j :: 0 <= i < j < |history| && history[i] == history[j] ==> j - i > capacity
  }

  /** Extending a history by one mark keeps the ring its window and the history spaced. */
  lemma MarkExtendsWindow<T>(history: seq<T>, id: T, capacity: nat)
    requires Spaced(history, capacity)
    ensures var r := Ring(Last(history, capacity), capacity);
            if Has(r, id)
            then Mark(r, id) == r
            else Mark(r, id).order == Last(history + [id], capacity) && Spaced(history + [id], capacity)
  {
    var window := Last(history, capacity);
    if id !in window {
      var longer := history + [id];
      assert Last(window + [id], capacity) == Last(longer, capacity);
      forall i, j | 0 <= i < j < |longer| && longer[i] == longer[j]
        ensures j - i > capacity
      {
        if j == |history| {
          assert forall k :: 0 <= k < |window| ==> window[k] == history[|history| - |window| + k];
          assert i < |history| - |window|;
        }
      }
    }
  }

  lemma SpacedWindowDistinct<T>(history: seq<T>, capacity: nat)
    requires Spaced(history, capacity)
    ensures Distinct(Last(history, capacity))
  {
  }

  /** For any calls, the ring holds exactly the last `capacity` fresh marks since the last clear. */
  lemma {:induction false} RingIsWindow<T>(calls: seq<Call<T>>, capacity: nat)
    ensures Run(calls, capacity).capacity == capacity
    ensures Run(calls, capacity).order == Last(FreshMarks(calls, capacity), capacity)
    ensures Spaced(FreshMarks(calls, capacity), capacity)
    ensures Distinct(Run(calls, capacity).order) && |Run(calls, capacity).order| <= capacity
  {
    if calls != [] {
      RingIsWindow(calls[..|calls| - 1], capacity);
      var last := calls[|calls| - 1];
      if last.MarkCall? {
        MarkExtendsWindow(FreshMarks(calls[..|calls| - 1], capacity), last.id, capacity);
      }
      SpacedWindowDistinct(FreshMarks(calls, capacity), capacity);
    }
  }

  /**
   * In a spaced history, two occurrences of one id have at least `capacity` pairwise distinct
   * other ids between them.
   */
  lemma SpacedSeparates<T>(history: seq<T>, capacity: nat, i: nat, j: nat)
    requires Spaced(history, capacity)
    requires i < j < |history| && history[i] == history[j]
    ensures i < j - capacity
    ensures Distinct(history[j - capacity..j]) && history[i] !in history[j - capacity..j]
  {
    var between := history[j - capacity..j];
    forall k | 0 <= k < |between|
      ensures between[k] != history[i]
    {
      assert between[k] == history[j - capacity + k];
    }
  }

  ghost predicate SameElements<T(!new)>(s: set<T>, q: seq<T>) {
    forall x :: x in s <==> x in q
  }

  lemma Append<T(!new)>(s: set<T>, q: seq<T>, id: T)
    requires SameElements(s, q) && Distinct(q) && id !in s
    ensures SameElements(s + {id}, q + [id]) && Distinct(q + [id])
  {
    assert id !in q;
    assert forall x :: x in q + [id] <==> x in q || x == id;
  }

  lemma Shift<T(!new)>(s: set<T>, q: seq<T>)
    requires SameElements(s, q) && Distinct(q) && q != []
    ensures SameElements(s - {q[0]}, q[1..]) && Distinct(q[1..])
  {
    assert q == [q[0]] + q[1..];
    assert forall x :: x in q <==> x == q[0] || x in q[1..];
    assert q[0] !in q[1..];
  }

  /** The ring as the source keeps it: a set for lookups and an array for eviction order. */
  class DedupRing<T(==,!new)> {
    var ids: set<T>
    var order: seq<T>
    const capacity: nat

    ghost predicate Valid()
      reads this
    {
      SameElements(ids, order) && Distinct(order) && |order| <= capacity
    }

    ghost function State(): Ring<T>
      reads this
    {
      Ring(order, capacity)
    }

    constructor (capacity: nat := 128)
      ensures Valid() && State() == Ring([], capacity)
    {
      this.capacity := capacity;
      ids, order := {}, [];
    }

    method IsMarked(id: T) returns (r: bool)
      requires Valid()
      ensures r <==> Has(State(), id)
    {
      r := id in ids;
    }

    method MarkId(id: T)
      requires Valid()
      modifies this
      ensures Valid() && State() == Mark(old(State()), id)
    {
      if id in ids { return; }
      Append(ids, order, id);
      ids := ids + {id};
      order := order + [id];
      ghost var all := order;
      while |order| > capacity
        invariant |order| <= |all| && order == all[|all| - |order|..]
        invariant |order| >= capacity || order == all
        invariant SameElements(ids, order) && Distinct(order)
        decreases |order|
      {
        Shift(ids, order);
        var oldest := order[0];
        order := order[1..];
        ids := ids - {oldest};
      }
    }

    method Clear()
      modifies this
      ensures Valid() && State() == Ring([], capacity)
    {
      ids, order := {}, [];
    }

    /** How Dedup.res clears: the array is emptied element by element. */
    method ClearByPopping()
      modifies this
      ensures Valid() && State() == Ring([], capacity)
    {
      ids := {};
      while |order| > 0
        invariant ids == {}
        decreases |order|
      {
        order := order[..|order| - 1];
      }
    }
  }
}
