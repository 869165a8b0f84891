/** The rotation of a list of slots in any order: which slot each cycle pays, and when there is a rotation at all. */
module ScheduleOrder {
  import opened Groups

  ghost predicate Indices(slots: seq<Slot>, order: seq<nat>) { forall k :: 0 <= k < |order| ==> order[k] < |slots| }

  ghost predicate Sorted(slots: seq<Slot>, order: seq<nat>)
    requires Indices(slots, order)
  {
    forall j, k :: 0 <= j < k < |order| ==> slots[order[j]].position <= slots[order[k]].position
  }

  ghost predicate NoRepeats(order: seq<nat>) { forall j, k :: 0 <= j < k < |order| ==> order[j] != order[k] }

  /** Everything in the order stands no later than p. */
  ghost predicate Upto(slots: seq<Slot>, order: seq<nat>, p: int)
    requires Indices(slots, order)
  {
    forall k :: 0 <= k < |order| ==> slots[order[k]].position <= p
  }

  lemma {:induction false} InsertKeeps(order: seq<nat>, slots: seq<Slot>, i: nat)
    requires Indices(slots, order) && i < |slots|
    ensures forall k: nat :: k in InsertByPosition(order, slots, i) <==> k in order || k == i
    ensures forall p :: Upto(slots, order, p) && slots[i].position <= p ==> Upto(slots, InsertByPosition(order, slots, i), p)
    decreases |order|
  {
    if order != [] && slots[order[|order| - 1]].position > slots[i].position {
      var init, last := order[..|order| - 1], order[|order| - 1];
      assert order == init + [last];
      InsertKeeps(init, slots, i);
      forall p | Upto(slots, order, p) && slots[i].position <= p
        ensures Upto(slots, InsertByPosition(order, slots, i), p)
      {
        assert Upto(slots, init, p) && slots[order[|order| - 1]].position <= p;
      }
    }
  }

  lemma {:induction false} InsertSorts(order: seq<nat>, slots: seq<Slot>, i: nat)
    requires Indices(slots, order) && Sorted(slots, order) && i < |slots|
    ensures Sorted(slots, InsertByPosition(order, slots, i))
    decreases |order|
  {
    if order != [] && slots[order[|order| - 1]].position > slots[i].position {
      var init, last := order[..|order| - 1], order[|order| - 1];
      InsertSorts(init, slots, i);
      InsertKeeps(init, slots, i);
      assert Upto(slots, init, slots[last].position);
      assert Upto(slots, InsertByPosition(init, slots, i), slots[last].position);
    }
  }

  lemma {:induction false} InsertOnce(order: seq<nat>, slots: seq<Slot>, i: nat)
    requires Indices(slots, order) && NoRepeats(order) && i < |slots| && i !in order
    ensures NoRepeats(InsertByPosition(order, slots, i))
    decreases |order|
  {
    if order != [] && slots[order[|order| - 1]].position > slots[i].position {
      var init, last := order[..|order| - 1], order[|order| - 1];
      assert order == init + [last];
      InsertOnce(init, slots, i);
      InsertKeeps(init, slots, i);
      assert last !in init;
      var r := InsertByPosition(init, slots, i);
      forall k | 0 <= k < |r| ensures r[k] != last {
        assert r[k] in r;
      }
    }
  }

  /** Sorting keeps every slot, once each. */
  lemma {:induction false} ByPositionSorts(slots: seq<Slot>, n: nat)
    requires n <= |slots|
    ensures Sorted(slots, ByPosition(slots, n)) && NoRepeats(ByPosition(slots, n))
    ensures forall k: nat :: k in ByPosition(slots, n) <==> k < n
    decreases n
  {
    if n > 0 {
      ByPositionSorts(slots, n - 1);
      InsertSorts(ByPosition(slots, n - 1), slots, n - 1);
      InsertOnce(ByPosition(slots, n - 1), slots, n - 1);
      InsertKeeps(ByPosition(slots, n - 1), slots, n - 1);
    }
  }

  /** Slots stored in position order come out as they went in. */
  lemma {:induction false} AlreadyInOrder(slots: seq<Slot>, n: nat)
    requires Contiguous(slots) && n <= |slots|
    ensures forall i :: 0 <= i < n ==> ByPosition(slots, n)[i] == i
    decreases n
  {
    if n > 0 {
      AlreadyInOrder(slots, n - 1);
    }
  }

  /** Then the rotation is CycleAt throughout. */
  lemma StoredInOrder(g: Group)
    requires Contiguous(g.slots)
    ensures Numbered(g.slots, ByPosition(g.slots, |g.slots|))
    ensures GenerateRotation(g).Ok? ==>
              forall i :: 0 <= i < |g.slots| && i < |g.calendar| ==> GenerateRotation(g).value[i] == CycleAt(g, i)
  {
    AlreadyInOrder(g.slots, |g.slots|);
  }

  // ----- When the positions fit -------------------------------------------

  /** Slot i stands at position p. */
  predicate StandsAt(slots: seq<Slot>, i: nat, p: int) { i < |slots| && slots[i].position == p }

  ghost predicate Taken(slots: seq<Slot>, p: nat) { exists i: nat :: StandsAt(slots, i, p) }

  /** Every position from 1 to the number of slots is some slot's. */
  ghost predicate EveryPositionTaken(slots: seq<Slot>) {
    forall p: nat :: 1 <= p <= |slots| ==> Taken(slots, p)
  }

  /** Where in the order position p comes. */
  lemma PlaceOf(slots: seq<Slot>, p: nat) returns (k: nat)
    requires EveryPositionTaken(slots) && 1 <= p <= |slots|
    ensures k < |slots| && slots[ByPosition(slots, |slots|)[k]].position == p
  {
    assert Taken(slots, p);
    var i: nat :| StandsAt(slots, i, p);
    ByPositionSorts(slots, |slots|);
    var order := ByPosition(slots, |slots|);
    assert i in order;
    k :| 0 <= k < |order| && order[k] == i;
  }

  /** Position p cannot come before the p - 1 positions below it. */
  lemma {:induction false} NotTooEarly(slots: seq<Slot>, p: nat, k: nat)
    requires EveryPositionTaken(slots) && 1 <= p <= |slots| && k < |slots|
    requires slots[ByPosition(slots, |slots|)[k]].position == p
    ensures k >= p - 1
    decreases p
  {
    if p > 1 {
      var below := PlaceOf(slots, p - 1);
      NotTooEarly(slots, p - 1, below);
      ByPositionSorts(slots, |slots|);
    }
  }

  /** Nor after those above it. */
  lemma {:induction false} NotTooLate(slots: seq<Slot>, p: nat, k: nat)
    requires EveryPositionTaken(slots) && 1 <= p <= |slots| && k < |slots|
    requires slots[ByPosition(slots, |slots|)[k]].position == p
    ensures k <= p - 1
    decreases |slots| - p
  {
    if p < |slots| {
      var above := PlaceOf(slots, p + 1);
      NotTooLate(slots, p + 1, above);
      ByPositionSorts(slots, |slots|);
    }
  }

  lemma {:induction false} NumberedMeansTaken(slots: seq<Slot>)
    requires Numbered(slots, ByPosition(slots, |slots|))
    ensures EveryPositionTaken(slots)
  {
    NumberedTaken(slots, ByPosition(slots, |slots|));
  }

  lemma NumberedTaken(slots: seq<Slot>, order: seq<nat>)
    requires Indices(slots, order) && |order| == |slots| && Numbered(slots, order)
    ensures EveryPositionTaken(slots)
  {
    forall p: nat | 1 <= p <= |slots| ensures Taken(slots, p) {
      assert StandsAt(slots, order[p - 1], p);
    }
  }

  /** If every position is taken there is no room for a slot out of its place. */
  lemma {:induction false} InItsPlace(slots: seq<Slot>, i: nat)
    requires EveryPositionTaken(slots) && i < |slots|
    ensures slots[ByPosition(slots, |slots|)[i]].position == i + 1
  {
    var k := PlaceOf(slots, i + 1);
    NotTooEarly(slots, i + 1, k);
    NotTooLate(slots, i + 1, k);
  }

  lemma {:induction false} NumberedIff(slots: seq<Slot>)
    ensures Numbered(slots, ByPosition(slots, |slots|)) <==> EveryPositionTaken(slots)
  {
    if Numbered(slots, ByPosition(slots, |slots|)) {
      NumberedMeansTaken(slots);
    }
    if EveryPositionTaken(slots) {
      forall i | 0 <= i < |slots| ensures slots[ByPosition(slots, |slots|)[i]].position == i + 1 {
        InItsPlace(slots, i);
      }
    }
  }

  /**
   * In whatever order the slots are listed, there is a rotation exactly if
   * there are 2 to 1,000 of them, the amount is positive, their positions are
   * 1 to n, and the dates fit; and it pays in cycle i the slot at position
   * i + 1, no slot twice.
   */
  lemma RotationFollowsPositions(g: Group)
    ensures GenerateRotation(g).Ok? <==>
              2 <= |g.slots| <= MAX_SLOTS && g.base > 0 && EveryPositionTaken(g.slots) && DatesFit(g)
    ensures GenerateRotation(g).Ok? ==>
              var cycles := GenerateRotation(g).value;
              && |cycles| == |g.slots|
              && (forall i :: 0 <= i < |cycles| ==> StandsAt(g.slots, cycles[i].payoutSlot, i + 1))
              && (forall i, j :: 0 <= i < j < |cycles| ==> cycles[i].payoutSlot != cycles[j].payoutSlot)
  {
    NumberedIff(g.slots);
    ByPositionSorts(g.slots, |g.slots|);
  }
}
