/** The proposer of one slot at one node: ballots, acknowledgement counting, value adoption. */
module Proposers {
  import opened Types
  import opened Collections
  import Ballots

  /** The part of a PROMISE, and of an ACCEPTED, that the proposer stores per sender. */
  datatype PromiseAck = PromiseAck(ballot: nat, reply: bool, maxBallot: nat, maxValue: Option<PropValue>)
  datatype AcceptAck = AcceptAck(ballot: nat, reply: bool)

  datatype ProposerState = ProposerState(
    initValue: PropValue,
    currBallot: nat,
    currValue: Option<PropValue>,
    maxBallot: nat,
    maxValue: Option<PropValue>,
    promises: map<nat, PromiseAck>,
    accepts: map<nat, AcceptAck>)

  function New(value: PropValue): ProposerState
  {
    ProposerState(value, 0, None, 0, None, map[], map[])
  }

  /** A proposer that has just sent its first prepare request. */
  function Prepared(me: nat, value: PropValue): ProposerState
  {
    New(value).(currBallot := Ballots.Next(me, 0))
  }

  /** A proposer that starts in phase II with its own value: the fast path of the master. */
  function FastStarted(me: nat, value: PropValue): ProposerState
  {
    New(value).(currBallot := Ballots.Next(me, 0), currValue := Some(value))
  }

  /** A higher ballot and no acks; the best value reported so far is kept. */
  function Restarted(p: ProposerState, me: nat): ProposerState
  {
    p.(currValue := None, promises := map[], accepts := map[], currBallot := Ballots.Next(me, p.currBallot))
  }

  /** The largest accepted ballot, and its value, that the positive promises of the senders in `from`
      report, starting from (`ballot`, `value`) and scanning the senders in increasing order. */
  ghost function Best(acks: map<nat, PromiseAck>, from: set<nat>, ballot: nat,
                      value: Option<PropValue>): (nat, Option<PropValue>)
    requires from <= acks.Keys
  {
    if from == {} then (ballot, value)
    else
      var k := MaxKey(from);
      var rest := Best(acks, from - {k}, ballot, value);
      if acks[k].reply && acks[k].maxBallot > rest.0 then (acks[k].maxBallot, acks[k].maxValue) else rest
  }

  /** `Best` is an upper bound of everything reported, and it is attained. */
  lemma {:induction false} BestIsMaximum(acks: map<nat, PromiseAck>, from: set<nat>, ballot: nat,
                                         value: Option<PropValue>)
    requires from <= acks.Keys
    ensures var best := Best(acks, from, ballot, value);
      && ballot <= best.0
      && (forall j :: j in from && acks[j].reply ==> acks[j].maxBallot <= best.0)
      && (best != (ballot, value) ==>
            exists j :: j in from && acks[j].reply && best == (acks[j].maxBallot, acks[j].maxValue))
  {
    if from != {} {
      var k := MaxKey(from);
      BestIsMaximum(acks, from - {k}, ballot, value);
      assert forall j :: j in from ==> j == k || j in from - {k};
    }
  }

  /** The senders in `from` that said yes. */
  ghost function Yes(acks: map<nat, PromiseAck>, from: set<nat>): set<nat>
  {
    set j | j in from && j in acks && acks[j].reply
  }

  ghost function YesAccepts(acks: map<nat, AcceptAck>, from: set<nat>): set<nat>
  {
    set j | j in from && j in acks && acks[j].reply
  }

  /** Effect of a promise from `src` with quorum size `q`. */
  ghost function OnPromise(p: ProposerState, src: nat, ack: PromiseAck, q: int): (ProposerState, AckType)
  {
    if ack.ballot < p.currBallot || p.currValue.Some? then (p, Drop)
    else
      var p1 := p.(promises := p.promises[src := ack]);
      if |p1.promises| < q then (p1, NotEnough)
      else
        var best := Best(p1.promises, p1.promises.Keys, p.maxBallot, p.maxValue);
        var p2 := p1.(maxBallot := best.0, maxValue := best.1);
        if |Yes(p1.promises, p1.promises.Keys)| >= q then
          (p2.(currValue := Some(if best.1.Some? then best.1.value else p.initValue)), Continue)
        else (p2, Restart)
  }

  /** Effect of an accept acknowledgement from `src` with quorum size `q`. */
  ghost function OnAccepted(p: ProposerState, src: nat, ack: AcceptAck, q: int): (ProposerState, AckType)
  {
    if ack.ballot < p.currBallot || p.currValue.None? then (p, Drop)
    else
      var p1 := p.(accepts := p.accepts[src := ack]);
      if |p1.accepts| < q then (p1, NotEnough)
      else if |YesAccepts(p1.accepts, p1.accepts.Keys)| >= q then (p1, Choose)
      else (p1, Restart)
  }

  /** One turn of the counting loop over promises: `k` is the least sender of `rest`. */
  lemma ScanStep(acks: map<nat, PromiseAck>, rest: set<nat>, k: nat, ballot: nat, value: Option<PropValue>)
    requires Least(k, rest) && rest <= acks.Keys && Before(acks.Keys - rest, rest)
    ensures Before(acks.Keys - (rest - {k}), rest - {k})
    ensures var done, after := acks.Keys - rest, acks.Keys - (rest - {k});
      var best := Best(acks, done, ballot, value);
      && Best(acks, after, ballot, value) ==
         (if acks[k].reply && acks[k].maxBallot > best.0 then (acks[k].maxBallot, acks[k].maxValue) else best)
      && |Yes(acks, after)| == |Yes(acks, done)| + (if acks[k].reply then 1 else 0)
  {
    var done, after := acks.Keys - rest, acks.Keys - (rest - {k});
    assert after == done + {k};
    assert MaxKey(after) == k;
    assert after - {k} == done;
    assert Yes(acks, after) == if acks[k].reply then Yes(acks, done) + {k} else Yes(acks, done);
  }

  lemma CountStep(acks: map<nat, AcceptAck>, rest: set<nat>, k: nat)
    requires k in rest && rest <= acks.Keys
    ensures |YesAccepts(acks, acks.Keys - (rest - {k}))|
         == |YesAccepts(acks, acks.Keys - rest)| + (if acks[k].reply then 1 else 0)
  {
    var done := YesAccepts(acks, acks.Keys - rest);
    assert YesAccepts(acks, acks.Keys - (rest - {k})) == if acks[k].reply then done + {k} else done;
  }

  ghost predicate Before(done: set<nat>, rest: set<nat>)
  {
    forall j, k :: j in done && k in rest ==> j < k
  }

  /** The proposer object. */
  class Proposer {
    const me: nat
    const initValue: PropValue
    const qr: int
    const qw: int
    var currBallot: nat
    var currValue: Option<PropValue>
    var maxBallot: nat
    var maxValue: Option<PropValue>
    var promises: map<nat, PromiseAck>
    var accepts: map<nat, AcceptAck>

    ghost function State(): ProposerState
      reads this
    {
      ProposerState(initValue, currBallot, currValue, maxBallot, maxValue, promises, accepts)
    }

    constructor (me: nat, quorumSize: int, value: PropValue)
      ensures State() == New(value)
      ensures this.me == me && qr == quorumSize && qw == quorumSize
    {
      this.me, initValue, qr, qw := me, value, quorumSize, quorumSize;
      currBallot, currValue, maxBallot, maxValue := 0, None, 0, None;
      promises, accepts := map[], map[];
    }

    method GenNextBallot() returns (ballot: nat)
      modifies this
      ensures ballot == Ballots.Next(me, old(currBallot))
      ensures State() == old(State()).(currBallot := ballot)
    {
      if currBallot == 0 {
        currBallot := currBallot + Ballots.STEP + me;
      } else {
        currBallot := currBallot + Ballots.STEP;
      }
      ballot := currBallot;
    }

    method InitCurrValue()
      modifies this
      ensures State() == old(State()).(currValue := Some(initValue))
    {
      currValue := Some(initValue);
    }

    method MsgPrepare(slot: nat) returns (m: Msg)
      modifies this
      ensures m == Prepare(me, slot, currBallot)
      ensures State() == old(State()).(currBallot := Ballots.Next(me, old(currBallot)))
    {
      var ballot := GenNextBallot();
      m := Prepare(me, slot, ballot);
    }

    method RestartMsgPrepare(slot: nat) returns (m: Msg)
      modifies this
      ensures State() == Restarted(old(State()), me)
      ensures maxBallot == old(maxBallot) && maxValue == old(maxValue) && currBallot > old(currBallot)
      ensures currValue.None? && promises == map[] && accepts == map[]
      ensures m == Prepare(me, slot, currBallot)
    {
      currValue := None;
      promises, accepts := map[], map[];
      m := MsgPrepare(slot);
    }

    method MsgAccept(slot: nat, last: Option<Announcement>) returns (m: Msg)
      requires currValue.Some?
      ensures m == Accept(me, slot, currBallot, State().currValue.value, last)
    {
      m := Accept(me, slot, currBallot, currValue.value, last);
    }

    method HandleMsgPromise(m: Msg) returns (result: AckType)
      requires m.Promise?
      modifies this
      ensures (State(), result) ==
        OnPromise(old(State()), m.src, PromiseAck(m.ballot, m.reply, m.maxBallot, m.maxValue), qr)
    {
      if m.ballot < currBallot || currValue.Some? {
        return Drop;
      }
      promises := promises[m.src := PromiseAck(m.ballot, m.reply, m.maxBallot, m.maxValue)];
      if |promises| < qr {
        return NotEnough;
      }
      var trueCounter := ScanPromises();
      if trueCounter >= qr {
        currValue := Some(if maxValue.Some? then maxValue.value else initValue);
        result := Continue;
      } else {
        result := Restart;
      }
    }

    /** The counting loop over the stored promises, senders in increasing order. */
    method ScanPromises() returns (trueCounter: nat)
      modifies `maxBallot, `maxValue
      ensures trueCounter == |Yes(promises, promises.Keys)|
      ensures (maxBallot, maxValue) == Best(promises, promises.Keys, old(maxBallot), old(maxValue))
    {
      trueCounter := 0;
      var rest := promises.Keys;
      assert promises.Keys - rest == {};
      while rest != {}
        invariant rest <= promises.Keys
        invariant Before(promises.Keys - rest, rest)
        invariant (maxBallot, maxValue) == Best(promises, promises.Keys - rest, old(maxBallot), old(maxValue))
        invariant trueCounter == |Yes(promises, promises.Keys - rest)|
        decreases rest
      {
        HasLeast(rest);
        var k :| Least(k, rest);
        ScanStep(promises, rest, k, old(maxBallot), old(maxValue));
        if promises[k].reply {
          if promises[k].maxBallot > maxBallot {
            maxBallot, maxValue := promises[k].maxBallot, promises[k].maxValue;
          }
          trueCounter := trueCounter + 1;
        }
        rest := rest - {k};
      }
      assert promises.Keys - rest == promises.Keys;
    }

    method HandleMsgAccepted(m: Msg) returns (result: AckType)
      requires m.Accepted?
      modifies this
      ensures (State(), result) == OnAccepted(old(State()), m.src, AcceptAck(m.ballot, m.reply), qw)
    {
      if m.ballot < currBallot || currValue.None? {
        return Drop;
      }
      accepts := accepts[m.src := AcceptAck(m.ballot, m.reply)];
      if |accepts| < qw {
        return NotEnough;
      }
      var trueCounter := CountAccepts();
      result := if trueCounter >= qw then Choose else Restart;
    }

    /** The counting loop over the stored accept acknowledgements. */
    method CountAccepts() returns (trueCounter: nat)
      ensures trueCounter == |YesAccepts(accepts, accepts.Keys)|
    {
      trueCounter := 0;
      var rest := accepts.Keys;
      assert accepts.Keys - rest == {};
      while rest != {}
        invariant rest <= accepts.Keys
        invariant trueCounter == |YesAccepts(accepts, accepts.Keys - rest)|
        decreases rest
      {
        HasLeast(rest);
        var k :| Least(k, rest);
        CountStep(accepts, rest, k);
        if accepts[k].reply {
          trueCounter := trueCounter + 1;
        }
        rest := rest - {k};
      }
      assert accepts.Keys - rest == accepts.Keys;
    }
  }
}
