/** The chosen values of one node by slot, possibly with holes, and their delivery in slot order. */
module ChosenLog {
  import opened Types

  datatype Delivery = Delivery(slot: nat, value: PropValue)

  /** `values` is `chosen_values_`, index 0 unused; `delivered` records the callbacks made so far. */
  datatype LogFields = Log(
    values: seq<Option<PropValue>>,
    maxChosen: nat,
    withoutHole: nat,
    delivered: seq<Delivery>)

  type Log = l: LogFields | |l.values| == l.maxChosen + 1 witness Log([None], 0, 0, [])

  const EMPTY: Log := Log([None], 0, 0, [])

  predicate Has(l: Log, slot: nat)
  {
    slot <= l.maxChosen && l.values[slot].Some?
  }

  /** Filling a hole, or growing the vector; a value that is present is never replaced. */
  function Store(l: Log, slot: nat, value: PropValue): Log
  {
    if slot <= l.maxChosen then
      if l.values[slot].None? then l.(values := l.values[slot := Some(value)]) else l
    else
      l.(values := l.values + seq(slot - l.maxChosen - 1, _ => None) + [Some(value)], maxChosen := slot)
  }

  /** Calling back every slot that has become part of the gap-free prefix. */
  function Advance(l: Log): Log
    decreases l.maxChosen - l.withoutHole
  {
    if l.withoutHole < l.maxChosen && l.values[l.withoutHole + 1].Some? then
      Advance(l.(withoutHole := l.withoutHole + 1,
                 delivered := l.delivered + [Delivery(l.withoutHole + 1, l.values[l.withoutHole + 1].value)]))
    else l
  }

  function AddChosen(l: Log, slot: nat, value: PropValue): Log
  {
    Advance(Store(l, slot, value))
  }

  // ---------------------------------------------------------------- the invariant

  /** Slots 1..withoutHole are present and delivered, each once and in order. */
  ghost predicate Delivered(l: Log)
  {
    && l.withoutHole <= l.maxChosen
    && |l.delivered| == l.withoutHole
    && l.values[0].None?
    && (l.maxChosen > 0 ==> l.values[l.maxChosen].Some?)
    && forall s :: 1 <= s <= l.withoutHole ==>
         l.values[s].Some? && l.delivered[s - 1] == Delivery(s, l.values[s].value)
  }

  /** The delivered prefix is the longest one without a gap. */
  ghost predicate Ok(l: Log)
  {
    Delivered(l) && (l.withoutHole < l.maxChosen ==> l.values[l.withoutHole + 1].None?)
  }

  /** The log as a map from slots to values. */
  ghost function Contents(l: Log): map<nat, PropValue>
  {
    map s: nat | s < |l.values| && l.values[s].Some? :: l.values[s].value
  }

  lemma DeliveredIsStored(l: Log, k: nat)
    requires Ok(l) && k < |l.delivered|
    ensures k + 1 in Contents(l) && l.delivered[k] == Delivery(k + 1, Contents(l)[k + 1])
  {
    assert l.values[k + 1].Some?;
  }

  lemma {:induction false} AdvanceDelivers(l: Log)
    requires Delivered(l)
    ensures var l' := Advance(l);
      Ok(l') && l'.values == l.values && l'.maxChosen == l.maxChosen && l.delivered <= l'.delivered
    decreases l.maxChosen - l.withoutHole
  {
    if l.withoutHole < l.maxChosen && l.values[l.withoutHole + 1].Some? {
      var l1 := l.(withoutHole := l.withoutHole + 1,
                   delivered := l.delivered + [Delivery(l.withoutHole + 1, l.values[l.withoutHole + 1].value)]);
      AdvanceDelivers(l1);
      assert l.delivered <= l1.delivered;
    }
  }

  /** The log refines a map in which the first write of a slot wins, whatever the order of slots, and
      nothing delivered is ever taken back. */
  lemma AddRefinesFirstWrite(l: Log, slot: nat, value: PropValue)
    requires Ok(l) && slot >= 1
    ensures var l' := AddChosen(l, slot, value);
      && Ok(l')
      && Contents(l') == (if slot in Contents(l) then Contents(l) else Contents(l)[slot := value])
      && l.delivered <= l'.delivered
  {
    StoreIsFirstWrite(l, slot, value);
    AdvanceDelivers(Store(l, slot, value));
  }

  lemma StoreIsFirstWrite(l: Log, slot: nat, value: PropValue)
    requires Ok(l) && slot >= 1
    ensures var l1 := Store(l, slot, value);
      && Delivered(l1) && l1.delivered == l.delivered
      && Contents(l1) == (if slot in Contents(l) then Contents(l) else Contents(l)[slot := value])
  {
    var l1 := Store(l, slot, value);
    forall s: nat | s < |l1.values| && s != slot
      ensures l1.values[s] == (if s <= l.maxChosen then l.values[s] else None)
    {
    }
  }

  /** A log is determined by its map: same contents, same counters, same deliveries. */
  lemma Canonical(a: Log, b: Log)
    requires Ok(a) && Ok(b) && Contents(a) == Contents(b)
    ensures a == b
  {
    assert forall s :: s in Contents(a) <==> s in Contents(b);
    assert a.maxChosen in Contents(a) || a.maxChosen == 0;
    assert b.maxChosen in Contents(b) || b.maxChosen == 0;
    forall s: nat | s <= a.maxChosen ensures a.values[s] == b.values[s] {
      assert s in Contents(a) <==> s in Contents(b);
    }
    assert a.values == b.values;
    assert a.withoutHole == b.withoutHole;
    forall k: nat | k < a.withoutHole ensures a.delivered[k] == b.delivered[k] {
      assert a.values[k + 1].Some? && b.values[k + 1].Some?;
    }
    assert a.delivered == b.delivered;
  }

  // ---------------------------------------------------------------- whole input sequences

  ghost function Replay(inputs: seq<Delivery>): Log
  {
    if inputs == [] then EMPTY
    else AddChosen(Replay(inputs[..|inputs| - 1]), inputs[|inputs| - 1].slot, inputs[|inputs| - 1].value)
  }

  /** The first value that a sequence of inputs gives to each slot. */
  ghost function FirstWrites(inputs: seq<Delivery>): map<nat, PropValue>
  {
    if inputs == [] then map[]
    else
      var before, last := FirstWrites(inputs[..|inputs| - 1]), inputs[|inputs| - 1];
      if last.slot in before then before else before[last.slot := last.value]
  }

  lemma {:induction false} ReplayIsFirstWrites(inputs: seq<Delivery>)
    requires forall d :: d in inputs ==> d.slot >= 1
    ensures Ok(Replay(inputs)) && Contents(Replay(inputs)) == FirstWrites(inputs)
  {
    if inputs != [] {
      ReplayIsFirstWrites(inputs[..|inputs| - 1]);
      var last := inputs[|inputs| - 1];
      AddRefinesFirstWrite(Replay(inputs[..|inputs| - 1]), last.slot, last.value);
    }
  }

  /** No slot is given two values. */
  ghost predicate Consistent(inputs: seq<Delivery>)
  {
    forall d, e :: d in inputs && e in inputs && d.slot == e.slot ==> d == e
  }

  lemma {:induction false} ConsistentFirstWrites(inputs: seq<Delivery>)
    requires Consistent(inputs)
    ensures forall d :: d in inputs ==> d.slot in FirstWrites(inputs) && FirstWrites(inputs)[d.slot] == d.value
    ensures forall s :: s in FirstWrites(inputs) ==> Delivery(s, FirstWrites(inputs)[s]) in inputs
  {
    if inputs != [] {
      var init, last := inputs[..|inputs| - 1], inputs[|inputs| - 1];
      assert inputs == init + [last];
      ConsistentFirstWrites(init);
    }
  }

  /** Whatever the order and the repetitions in which a consistent set of chosen values arrives, the
      node ends with the same log and has made the same callbacks. */
  lemma OrderDoesNotMatter(xs: seq<Delivery>, ys: seq<Delivery>)
    requires Consistent(xs) && forall d :: d in xs ==> d.slot >= 1
    requires forall d :: d in xs <==> d in ys
    ensures Replay(xs) == Replay(ys)
  {
    ReplayIsFirstWrites(xs);
    ReplayIsFirstWrites(ys);
    SameFirstWrites(xs, ys);
    SameFirstWrites(ys, xs);
    assert FirstWrites(xs) == FirstWrites(ys);
    Canonical(Replay(xs), Replay(ys));
  }

  lemma SameFirstWrites(xs: seq<Delivery>, ys: seq<Delivery>)
    requires Consistent(ys) && Consistent(xs) && forall d :: d in xs ==> d in ys
    ensures forall s :: s in FirstWrites(xs) ==> s in FirstWrites(ys) && FirstWrites(ys)[s] == FirstWrites(xs)[s]
  {
    ConsistentFirstWrites(xs);
    ConsistentFirstWrites(ys);
    forall s | s in FirstWrites(xs) ensures s in FirstWrites(ys) && FirstWrites(ys)[s] == FirstWrites(xs)[s] {
      assert Delivery(s, FirstWrites(xs)[s]) in ys;
    }
  }
}
