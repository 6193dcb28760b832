/** A proposer without contention: how often it restarts before its slot is settled.

    Rounds are delivered: everyone asked handles the request once, and the replies arrive in any
    order.  Who is asked, and the order, may differ from round to round and from phase to phase. */
module RestartBound {
  import opened Types
  import opened Collections
  import opened Acceptors
  import opened Proposers
  import opened Ballots
  import Quorum

  type Acceptance = map<nat, AcceptorState>

  /** The order in which those asked answer the prepare request and the accept request of a round. */
  datatype Round = Round(first: seq<nat>, second: seq<nat>)

  ghost predicate Asks(order: seq<nat>, accs: Acceptance, q: int)
  {
    && (forall j :: j in order ==> j in accs)
    && (forall k, l :: 0 <= k < l < |order| ==> order[k] != order[l])
    && |order| >= q
  }

  ghost predicate Delivered(round: Round, accs: Acceptance, q: int)
  {
    Asks(round.first, accs, q) && Asks(round.second, accs, q)
  }

  ghost function PromiseOf(a: AcceptorState, ballot: nat): PromiseAck
  {
    var m := PromiseReply(a, 0, 0, ballot);
    PromiseAck(m.ballot, m.reply, m.maxBallot, m.maxValue)
  }

  ghost function AcceptedOf(a: AcceptorState, ballot: nat): AcceptAck
  {
    var m := AcceptReply(a, 0, 0, ballot);
    AcceptAck(m.ballot, m.reply)
  }

  /** The proposer hears the promises of `order` one by one until it decides what to do next. */
  ghost function HearPromises(p: ProposerState, order: seq<nat>, accs: Acceptance, ballot: nat,
                              q: int): (ProposerState, AckType)
    requires forall j :: j in order ==> j in accs
    decreases |order|
  {
    if order == [] then (p, NotEnough)
    else
      var (p1, result) := OnPromise(p, order[0], PromiseOf(accs[order[0]], ballot), q);
      if result == Continue || result == AckType.Restart then (p1, result)
      else HearPromises(p1, order[1..], accs, ballot, q)
  }

  ghost function HearAccepted(p: ProposerState, order: seq<nat>, accs: Acceptance, ballot: nat,
                              q: int): (ProposerState, AckType)
    requires forall j :: j in order ==> j in accs
    decreases |order|
  {
    if order == [] then (p, NotEnough)
    else
      var (p1, result) := OnAccepted(p, order[0], AcceptedOf(accs[order[0]], ballot), q);
      if result == Choose || result == AckType.Restart then (p1, result)
      else HearAccepted(p1, order[1..], accs, ballot, q)
  }

  ghost function AllPrepare(accs: Acceptance, order: seq<nat>, ballot: nat): Acceptance
  {
    map j | j in accs :: if j in order then OnPrepare(accs[j], ballot) else accs[j]
  }

  ghost function AllAccept(accs: Acceptance, order: seq<nat>, ballot: nat, value: PropValue): Acceptance
  {
    map j | j in accs :: if j in order then OnAccept(accs[j], ballot, value) else accs[j]
  }

  datatype Outcome = Outcome(p: ProposerState, accs: Acceptance, result: AckType)

  ghost function PhaseTwo(p: ProposerState, accs: Acceptance, order: seq<nat>, q: int): Outcome
    requires Asks(order, accs, q) && p.currValue.Some?
  {
    var (p', result) := HearAccepted(p, order, accs, p.currBallot, q);
    Outcome(p', AllAccept(accs, order, p.currBallot, p.currValue.value), result)
  }

  /** One round.  A proposer that has its value already, on the fast path, skips phase I. */
  ghost function Play(p: ProposerState, accs: Acceptance, round: Round, q: int): (o: Outcome)
    requires Delivered(round, accs, q)
    ensures o.accs.Keys == accs.Keys
  {
    if p.currValue.Some? then PhaseTwo(p, accs, round.second, q)
    else
      var (p1, result) := HearPromises(p, round.first, accs, p.currBallot, q);
      var accs1 := AllPrepare(accs, round.first, p.currBallot);
      if result == Continue && p1.currValue.Some? then PhaseTwo(p1, accs1, round.second, q)
      else Outcome(p1, accs1, result)
  }

  /** How many restarts happen before the slot is settled; None if `rounds` does not suffice. */
  ghost function Restarts(me: nat, p: ProposerState, accs: Acceptance, rounds: seq<Round>, q: int): Option<nat>
    requires forall r :: r in rounds ==> Delivered(r, accs, q)
    decreases |rounds|
  {
    if rounds == [] then None
    else
      var o := Play(p, accs, rounds[0], q);
      if o.result == Choose then Some(0)
      else if o.result != AckType.Restart then None
      else
        assert forall r :: r in rounds[1..] ==> Delivered(r, accs, q) ==> Delivered(r, o.accs, q);
        match Restarts(me, Restarted(o.p, me), o.accs, rounds[1..], q)
        case Some(k) => Some(k + 1)
        case None => None
  }

  // ---------------------------------------------------------------- one round

  /** No acceptor has promised more than `top`. */
  ghost predicate Below(accs: Acceptance, top: nat)
  {
    forall j :: j in accs ==> accs[j].maxProposed <= top
  }

  /** The senders in `order` are new, and together with those heard they make a quorum. */
  ghost predicate Suffices(heard: set<nat>, order: seq<nat>, accs: Acceptance, q: int)
  {
    && Asks(order, accs, 0)
    && (forall j :: j in order ==> j !in heard)
    && |heard| < q <= |heard| + |order|
  }

  lemma SufficesNext(heard: set<nat>, order: seq<nat>, accs: Acceptance, q: int)
    requires Suffices(heard, order, accs, q)
    ensures order != []
    ensures |heard + {order[0]}| == |heard| + 1
    ensures |heard + {order[0]}| < q ==> Suffices(heard + {order[0]}, order[1..], accs, q)
  {
    assert order[0] in order;
    forall j | j in order[1..] ensures j in order && j != order[0] {}
  }

  ghost predicate AllYes(acks: map<nat, PromiseAck>)
  {
    forall j :: j in acks ==> acks[j].reply
  }

  ghost predicate AllYesAccepts(acks: map<nat, AcceptAck>)
  {
    forall j :: j in acks ==> acks[j].reply
  }

  /** With a quorum of replies phase I always comes to an end, and it ends well if nobody refuses. */
  lemma {:induction false} PromisesDecide(p: ProposerState, order: seq<nat>, accs: Acceptance, q: int)
    requires Suffices(p.promises.Keys, order, accs, q) && p.currValue.None?
    ensures var (p', result) := HearPromises(p, order, accs, p.currBallot, q);
      && (result == Continue || result == AckType.Restart)
      && p'.currBallot == p.currBallot && p'.accepts == p.accepts
      && (result == Continue <==> p'.currValue.Some?)
      && (AllYes(p.promises) && (forall j :: j in order ==> accs[j].maxProposed < p.currBallot) ==> result == Continue)
    decreases |order|
  {
    SufficesNext(p.promises.Keys, order, accs, q);
    var src := order[0];
    var ack := PromiseOf(accs[src], p.currBallot);
    var p1 := p.(promises := p.promises[src := ack]);
    assert p1.promises.Keys == p.promises.Keys + {src};
    assert |p1.promises| == |p1.promises.Keys|;
    if |p1.promises| < q {
      PromisesDecide(p1, order[1..], accs, q);
      forall j | j in order[1..] ensures j in order {}
    } else if AllYes(p1.promises) {
      assert Yes(p1.promises, p1.promises.Keys) == p1.promises.Keys;
    }
  }

  lemma {:induction false} AcceptsDecide(p: ProposerState, order: seq<nat>, accs: Acceptance, q: int)
    requires Suffices(p.accepts.Keys, order, accs, q) && p.currValue.Some?
    ensures var (p', result) := HearAccepted(p, order, accs, p.currBallot, q);
      && (result == Choose || result == AckType.Restart)
      && p'.currBallot == p.currBallot
      && (AllYesAccepts(p.accepts) && (forall j :: j in order ==> accs[j].maxProposed <= p.currBallot) ==>
            result == Choose)
    decreases |order|
  {
    SufficesNext(p.accepts.Keys, order, accs, q);
    var src := order[0];
    var p1 := p.(accepts := p.accepts[src := AcceptedOf(accs[src], p.currBallot)]);
    assert p1.accepts.Keys == p.accepts.Keys + {src};
    assert |p1.accepts| == |p1.accepts.Keys|;
    if |p1.accepts| < q {
      AcceptsDecide(p1, order[1..], accs, q);
      forall j | j in order[1..] ensures j in order {}
    } else if AllYesAccepts(p1.accepts) {
      assert YesAccepts(p1.accepts, p1.accepts.Keys) == p1.accepts.Keys;
    }
  }

  /** The proposer is at the beginning of a round. */
  ghost predicate Fresh(p: ProposerState)
  {
    p.accepts == map[] && p.promises == map[]
  }

  lemma PhaseTwoDecides(p: ProposerState, accs: Acceptance, order: seq<nat>, q: int, top: nat)
    requires Asks(order, accs, q) && q >= 1 && p.accepts == map[] && p.currValue.Some?
    requires Below(accs, top)
    ensures var o := PhaseTwo(p, accs, order, q);
      && (o.result == Choose || o.result == AckType.Restart)
      && o.p.currBallot == p.currBallot
      && (o.result == AckType.Restart ==> p.currBallot < top && Below(o.accs, top))
  {
    AcceptsDecide(p, order, accs, q);
  }

  /** A delivered round settles the slot, or it restarts because the ballot was not above every
      promise; then no promise has gone beyond what it was. */
  lemma PlayDecides(p: ProposerState, accs: Acceptance, round: Round, q: int, top: nat)
    requires Delivered(round, accs, q) && q >= 1 && Fresh(p) && Below(accs, top)
    ensures var o := Play(p, accs, round, q);
      && (o.result == Choose || o.result == AckType.Restart)
      && o.p.currBallot == p.currBallot
      && (o.result == AckType.Restart ==> p.currBallot <= top && Below(o.accs, top))
  {
    if p.currValue.Some? {
      PhaseTwoDecides(p, accs, round.second, q, top);
    } else {
      PromisesDecide(p, round.first, accs, q);
      var (p1, result) := HearPromises(p, round.first, accs, p.currBallot, q);
      var accs1 := AllPrepare(accs, round.first, p.currBallot);
      if result == Continue {
        PhaseTwoDecides(p1, accs1, round.second, q, if top < p.currBallot then p.currBallot else top);
      }
    }
  }

  // ---------------------------------------------------------------- refusals

  /** Among the replies heard, or still to come from `order`, one refuses. */
  ghost predicate Refused(acks: map<nat, PromiseAck>, order: seq<nat>, accs: Acceptance, ballot: nat)
    requires forall j :: j in order ==> j in accs
  {
    !AllYes(acks) || exists j :: j in order && accs[j].maxProposed >= ballot
  }

  lemma {:induction false} RefusalRestarts(p: ProposerState, order: seq<nat>, accs: Acceptance, q: int)
    requires Suffices(p.promises.Keys, order, accs, q) && p.currValue.None? && |p.promises| + |order| == q
    requires Refused(p.promises, order, accs, p.currBallot)
    ensures HearPromises(p, order, accs, p.currBallot, q).1 == AckType.Restart
    decreases |order|
  {
    SufficesNext(p.promises.Keys, order, accs, q);
    var src := order[0];
    var p1 := p.(promises := p.promises[src := PromiseOf(accs[src], p.currBallot)]);
    assert p1.promises.Keys == p.promises.Keys + {src};
    assert |p1.promises| == |p1.promises.Keys|;
    assert Refused(p1.promises, order[1..], accs, p.currBallot) by {
      if accs[src].maxProposed >= p.currBallot {
        assert !p1.promises[src].reply;
      } else if AllYes(p.promises) {
        var j :| j in order && accs[j].maxProposed >= p.currBallot;
        assert j in order[1..];
      } else {
        var j :| j in p.promises && !p.promises[j].reply;
        assert j in p1.promises && !p1.promises[j].reply;
      }
    }
    if |p1.promises| < q {
      RefusalRestarts(p1, order[1..], accs, q);
    } else {
      var j :| j in p1.promises && !p1.promises[j].reply;
      Quorum.SubsetSize(Yes(p1.promises, p1.promises.Keys), p1.promises.Keys - {j});
    }
  }

  lemma PlayRefused(p: ProposerState, accs: Acceptance, round: Round, q: int, j: nat)
    requires Delivered(round, accs, q) && q >= 1 && Fresh(p) && p.currValue.None?
    requires |round.first| == q && j in round.first && accs[j].maxProposed >= p.currBallot
    ensures var o := Play(p, accs, round, q);
      o.result == AckType.Restart && o.accs[j].maxProposed == accs[j].maxProposed && o.p.currBallot == p.currBallot
  {
    RefusalRestarts(p, round.first, accs, q);
    PromisesDecide(p, round.first, accs, q);
  }

  /** Every round asks exactly a quorum, and always the node `j`. */
  ghost predicate AlwaysAsks(rounds: seq<Round>, j: nat, q: int)
  {
    forall r :: r in rounds ==> |r.first| == q && j in r.first
  }

  // ---------------------------------------------------------------- all rounds

  /** floor((top - ballot) / 65536) + 1 restarts at most, and none above `top`. */
  function Bound(ballot: nat, top: nat): nat
  {
    if ballot > top then 0 else (top - ballot) / STEP + 1
  }

  /** Every round asks exactly a quorum, with always the same node in it, which holds the promise `top`. */
  ghost predicate Stubborn(p: ProposerState, accs: Acceptance, rounds: seq<Round>, q: int, j: nat, top: nat)
  {
    p.currValue.None? && j in accs && accs[j].maxProposed == top && AlwaysAsks(rounds, j, q)
  }

  /** If nobody else is active in the slot, a proposer gets it settled after no more than `Bound`
      restarts, where `top` is the largest promise among the acceptors.  The bound is exact: it is
      reached if phase I always asks just a quorum that has the node with the largest promise in it. */
  lemma {:induction false} SettledWithin(me: nat, p: ProposerState, accs: Acceptance, rounds: seq<Round>, q: int,
                                         top: nat, j: nat)
    requires q >= 1 && Fresh(p) && p.currBallot > 0 && Below(accs, top)
    requires forall r :: r in rounds ==> Delivered(r, accs, q)
    requires |rounds| > Bound(p.currBallot, top)
    ensures var k := Restarts(me, p, accs, rounds, q);
      && k.Some? && k.value <= Bound(p.currBallot, top)
      && (Stubborn(p, accs, rounds, q, j, top) ==> k.value == Bound(p.currBallot, top))
    decreases |rounds|
  {
    PlayDecides(p, accs, rounds[0], q, top);
    if Stubborn(p, accs, rounds, q, j, top) && p.currBallot <= top {
      assert rounds[0] in rounds;
      PlayRefused(p, accs, rounds[0], q, j);
    }
    var o := Play(p, accs, rounds[0], q);
    if o.result == AckType.Restart {
      forall r | r in rounds[1..] ensures Delivered(r, o.accs, q) && r in rounds { assert r in rounds; }
      SettledWithin(me, Restarted(o.p, me), o.accs, rounds[1..], q, top, j);
    }
  }

  // ---------------------------------------------------------------- requests that arrive twice

  /** A reply to a prepare request, or to a second copy of it that reached its sender later. */
  datatype Reply = Reply(src: nat, again: bool)

  /** The second copy finds the ballot promised already. */
  ghost function AckOf(r: Reply, accs: Acceptance, ballot: nat): PromiseAck
    requires r.src in accs
  {
    PromiseOf(if r.again then OnPrepare(accs[r.src], ballot) else accs[r.src], ballot)
  }

  ghost predicate FromAcceptors(replies: seq<Reply>, accs: Acceptance)
  {
    forall r :: r in replies ==> r.src in accs
  }

  /** The proposer hears the replies in the order in which they arrive, until it decides what to do next. */
  ghost function HearReplies(p: ProposerState, replies: seq<Reply>, accs: Acceptance, q: int): (ProposerState, AckType)
    requires FromAcceptors(replies, accs)
    decreases |replies|
  {
    if replies == [] then (p, NotEnough)
    else
      var (p1, result) := OnPromise(p, replies[0].src, AckOf(replies[0], accs, p.currBallot), q);
      if result == Continue || result == AckType.Restart then (p1, result)
      else HearReplies(p1, replies[1..], accs, q)
  }

  /** Who has been heard, and whether the last word heard was the answer to a second copy. */
  ghost function LastWords(heard: map<nat, bool>, replies: seq<Reply>): map<nat, bool>
    decreases |replies|
  {
    if replies == [] then heard else LastWords(heard[replies[0].src := replies[0].again], replies[1..])
  }

  /** With the last of the replies, and not before, `q` nodes have been heard. */
  ghost predicate Completes(heard: map<nat, bool>, replies: seq<Reply>, q: int)
    decreases |replies|
  {
    && replies != []
    && var heard1 := heard[replies[0].src := replies[0].again];
       if |heard1| >= q then |replies| == 1 else Completes(heard1, replies[1..], q)
  }

  ghost predicate NoRepeat(words: map<nat, bool>)
  {
    forall j :: j in words ==> !words[j]
  }

  /** The ballot is above everything promised. */
  ghost predicate AboveAll(accs: Acceptance, ballot: nat)
  {
    forall j :: j in accs ==> accs[j].maxProposed < ballot
  }

  ghost predicate Matches(acks: map<nat, PromiseAck>, heard: map<nat, bool>)
  {
    acks.Keys == heard.Keys && forall j :: j in acks ==> (acks[j].reply <==> !heard[j])
  }

  /** Of q answers all are promises if and only if there is no repeat among them. */
  lemma HeardAll(acks: map<nat, PromiseAck>, heard: map<nat, bool>, q: int)
    requires Matches(acks, heard) && |heard| == q
    ensures |Yes(acks, acks.Keys)| >= q <==> NoRepeat(heard)
  {
    SameSize(acks, heard);
    if NoRepeat(heard) {
      assert Yes(acks, acks.Keys) == acks.Keys;
    } else {
      var j :| j in heard && heard[j];
      Quorum.SubsetSize(Yes(acks, acks.Keys), acks.Keys - {j});
    }
  }

  /** One more reply is stored. */
  lemma HearOne(acks: map<nat, PromiseAck>, heard: map<nat, bool>, r: Reply, accs: Acceptance, ballot: nat)
    requires r.src in accs && AboveAll(accs, ballot) && Matches(acks, heard)
    ensures Matches(acks[r.src := AckOf(r, accs, ballot)], heard[r.src := r.again])
    ensures |acks[r.src := AckOf(r, accs, ballot)]| == |heard[r.src := r.again]| <= |heard| + 1
  {
    var acks1, heard1 := acks[r.src := AckOf(r, accs, ballot)], heard[r.src := r.again];
    assert acks1.Keys == acks.Keys + {r.src} && heard1.Keys == heard.Keys + {r.src};
    SameSize(acks1, heard1);
    assert |heard1| == |heard1.Keys| && |heard| == |heard.Keys|;
  }

  /** In a round that nobody contends, phase I starts again if and only if one of the q answers that count,
      the last ones of their senders, is to a second copy of the request. */
  lemma {:induction false} RepeatsDecide(p: ProposerState, heard: map<nat, bool>, replies: seq<Reply>, accs: Acceptance,
                                         q: int)
    requires FromAcceptors(replies, accs) && AboveAll(accs, p.currBallot) && p.currValue.None?
    requires Matches(p.promises, heard) && |heard| < q && Completes(heard, replies, q)
    ensures var (p', result) := HearReplies(p, replies, accs, q);
      && result == (if NoRepeat(LastWords(heard, replies)) then Continue else AckType.Restart)
      && p'.currBallot == p.currBallot && p'.accepts == p.accepts
      && (result == AckType.Restart ==> p'.currValue.None?)
    decreases |replies|
  {
    var heard1 := heard[replies[0].src := replies[0].again];
    assert replies[0] in replies;
    HearOne(p.promises, heard, replies[0], accs, p.currBallot);
    var p1 := p.(promises := p.promises[replies[0].src := AckOf(replies[0], accs, p.currBallot)]);
    if |heard1| < q {
      forall r | r in replies[1..] ensures r in replies {}
      RepeatsDecide(p1, heard1, replies[1..], accs, q);
    } else {
      assert LastWords(heard, replies) == heard1;
      HeardAll(p1.promises, heard1, q);
    }
  }

  ghost function Senders(replies: seq<Reply>): seq<nat>
  {
    seq(|replies|, i requires 0 <= i < |replies| => replies[i].src)
  }

  /** How many of the first `n` rounds start again if the replies always arrive in this order. */
  ghost function EchoedRestarts(me: nat, p: ProposerState, accs: Acceptance, replies: seq<Reply>, q: int, n: nat): nat
    requires FromAcceptors(replies, accs)
    decreases n
  {
    if n == 0 then 0
    else
      var (p', result) := HearReplies(p, replies, accs, q);
      if result != AckType.Restart then 0
      else 1 + EchoedRestarts(me, Restarted(p', me),
        AllPrepare(accs, Senders(replies), p.currBallot), replies, q, n - 1)
  }

  /** The next ballot is again above every promise. */
  lemma NextIsAbove(me: nat, p: ProposerState, accs: Acceptance, order: seq<nat>)
    requires AboveAll(accs, p.currBallot) && p.currBallot > 0
    ensures var p1 := Restarted(p, me);
      && AboveAll(AllPrepare(accs, order, p.currBallot), p1.currBallot)
      && p1.currBallot > 0 && p1.currValue.None? && p1.promises == map[]
  {
  }

  /** So where requests may arrive twice, restarts without contention have no bound: a proposer whose
      ballot is above every promise from the start restarts in every one of the `n` rounds, for any `n`,
      exactly if a repeat counts. */
  lemma {:induction false} EchoesNeverSettle(me: nat, p: ProposerState, accs: Acceptance, replies: seq<Reply>, q: int,
                                             n: nat)
    requires FromAcceptors(replies, accs) && AboveAll(accs, p.currBallot) && p.currBallot > 0 && p.currValue.None?
    requires p.promises == map[] && q >= 1 && Completes(map[], replies, q)
    ensures EchoedRestarts(me, p, accs, replies, q, n) == if NoRepeat(LastWords(map[], replies)) then 0 else n
    decreases n
  {
    if n > 0 {
      RepeatsDecide(p, map[], replies, accs, q);
      var (p', result) := HearReplies(p, replies, accs, q);
      if result == AckType.Restart {
        NextIsAbove(me, p', accs, Senders(replies));
        EchoesNeverSettle(me, Restarted(p', me), AllPrepare(accs, Senders(replies), p.currBallot), replies, q, n - 1);
      }
    }
  }

  /** Nodes `k` to `q - 1` answer once each. */
  ghost function Others(k: nat, q: int): seq<Reply>
    requires k <= q
  {
    seq(q - k, i requires 0 <= i < q - k => Reply(k + i, false))
  }

  lemma OneMoreHeard(heard: map<nat, bool>, k: nat)
    requires heard.Keys == Quorum.Nodes(k) && 1 <= k && heard[0]
    ensures heard[k := false].Keys == Quorum.Nodes(k + 1) && |heard[k := false]| == k + 1 && heard[k := false][0]
  {
    assert heard[k := false].Keys == Quorum.Nodes(k + 1);
    assert |heard[k := false]| == |heard[k := false].Keys|;
  }

  lemma {:induction false} OthersComplete(heard: map<nat, bool>, k: nat, q: int)
    requires 1 <= k < q && heard.Keys == Quorum.Nodes(k) && heard[0]
    ensures Completes(heard, Others(k, q), q) && !NoRepeat(LastWords(heard, Others(k, q)))
    decreases q - k
  {
    OthersStep(k, q);
    OneMoreHeard(heard, k);
    if k + 1 < q { OthersComplete(heard[k := false], k + 1, q); }
  }

  lemma OthersStep(k: nat, q: int)
    requires k < q
    ensures Others(k, q) != [] && Others(k, q)[0] == Reply(k, false) && Others(k, q)[1..] == Others(k + 1, q)
  {
  }

  /** Among any acceptors with the ids below `q`, for a quorum of at least two, there is such an order: the
      first node answers twice before the last one is heard. */
  lemma EchoExists(accs: Acceptance, q: int) returns (replies: seq<Reply>)
    requires q >= 2 && forall j: nat :: j < q ==> j in accs
    ensures FromAcceptors(replies, accs) && Completes(map[], replies, q) && !NoRepeat(LastWords(map[], replies))
  {
    var once, twice, others := Reply(0, false), Reply(0, true), Others(1, q);
    replies := [once] + ([twice] + others);
    assert ([twice] + others)[1..] == others && replies[1..] == [twice] + others;
    assert map[0 := false][0 := true] == map[0 := true];
    OthersComplete(map[0 := true], 1, q);
    assert LastWords(map[0 := false], replies[1..]) == LastWords(map[0 := true], others);
    assert Completes(map[0 := false], replies[1..], q);
    assert Completes(map[], replies, q);
  }

  /** So no number bounds the restarts: a proposer above every promise may restart `n` times in `n` rounds. */
  lemma RestartsAreUnbounded(me: nat, p: ProposerState, accs: Acceptance, q: int, n: nat) returns (replies: seq<Reply>)
    requires q >= 2 && forall j: nat :: j < q ==> j in accs
    requires AboveAll(accs, p.currBallot) && p.currBallot > 0 && p.currValue.None? && p.promises == map[]
    ensures FromAcceptors(replies, accs) && EchoedRestarts(me, p, accs, replies, q, n) == n
  {
    replies := EchoExists(accs, q);
    EchoesNeverSettle(me, p, accs, replies, q, n);
  }
}
