/** What a working node does about each message and each submission, in terms of what it had and what it
    says: which fields change, to what, and exactly which packets leave. */
module Reactions {
  import opened Types
  import opened Proposers
  import opened Ballots
  import opened ChosenLog
  import opened Replica
  import opened ReplicaSafety
  import opened Refinement
  import Quorum

  /** `m`, and nothing else, is sent to every asked node and to no other. */
  ghost predicate SentToAll(out: set<Packet>, asked: set<nat>, m: Msg)
  {
    forall p :: p in out <==> p.dst in asked && p.msg == m
  }

  // ---------------------------------------------------------------- the acceptor

  ghost predicate OtherAcceptorsStay(c: CaptainState, c': CaptainState, slot: nat)
  {
    forall s: nat :: s != slot ==> AccAt(c'.acceptors, s) == AccAt(c.acceptors, s)
  }

  /** A PREPARE raises the promise of its slot if it can, touches nothing else, and gets one answer. */
  lemma PrepareIsAnswered(ctx: Ctx, c: CaptainState, m: Msg, asked: set<nat>, name: string)
    requires c.work && m.Prepare?
    ensures var h := HandleMsg(ctx, c, m, asked, name);
      var a, a' := AccAt(c.acceptors, m.slot), AccAt(h.state.acceptors, m.slot);
      && h.state == c.(acceptors := h.state.acceptors)
      && OtherAcceptorsStay(c, h.state, m.slot)
      && a'.maxProposed == (if m.ballot > a.maxProposed then m.ballot else a.maxProposed)
      && a'.maxAccepted == a.maxAccepted && a'.maxValue == a.maxValue && a'.voted == a.voted
      && h.out == {Packet(m.src, Promise(ctx.me, m.slot, m.ballot, m.ballot > a.maxProposed, a.maxAccepted,
                                         if m.ballot > a.maxProposed then a.maxValue else None))}
  {
    var h := HandleMsg(ctx, c, m, asked, name);
    forall s: nat ensures s != m.slot ==> AccAt(h.state.acceptors, s) == AccAt(c.acceptors, s) {
      GrownAt(c.acceptors, m.slot, h.state.acceptors[m.slot], s);
    }
  }

  /** An ACCEPT is voted for unless a larger ballot was promised; only a new id replaces what is stored. */
  lemma AcceptIsVoted(ctx: Ctx, c: CaptainState, m: Msg, asked: set<nat>, name: string)
    requires c.work && m.Accept?
    ensures var h := HandleMsg(ctx, c, m, asked, name);
      var a, a' := AccAt(c.acceptors, m.slot), AccAt(h.state.acceptors, m.slot);
      && h.state == c.(acceptors := h.state.acceptors, log := h.state.log)
      && OtherAcceptorsStay(c, h.state, m.slot)
      && (m.ballot < a.maxProposed ==> a' == a)
      && (m.ballot >= a.maxProposed ==>
            && a'.maxProposed == a'.maxAccepted == m.ballot && a'.voted == a.voted + {m.ballot}
            && a'.maxValue.Some? && a'.maxValue.value.id == m.value.id
            && (a'.maxValue == a.maxValue
                || (a'.maxValue.value == m.value && (a.maxValue.None? || a.maxValue.value.id != m.value.id))))
  {
    var h := HandleMsg(ctx, c, m, asked, name);
    AcceptLearnsAtMost(ctx, c, m);
    forall s: nat ensures s != m.slot ==> AccAt(h.state.acceptors, s) == AccAt(c.acceptors, s) {
      GrownAt(c.acceptors, m.slot, h.state.acceptors[m.slot], s);
    }
  }

  // ---------------------------------------------------------------- learning

  /** The log has gained this value, unless it had the slot. */
  ghost predicate Gains(l: Log, l': Log, slot: nat, value: PropValue)
  {
    && Ok(l') && l.delivered <= l'.delivered
    && Contents(l') == if slot in Contents(l) then Contents(l) else Contents(l)[slot := value]
  }

  lemma HasIsIn(l: Log, slot: nat)
    ensures Has(l, slot) <==> slot in Contents(l)
    ensures Has(l, slot) ==> l.values[slot].value == Contents(l)[slot]
  {
  }

  /** The ACCEPT comes from another node and carries a decision. */
  ghost predicate Announces(ctx: Ctx, m: Msg)
  {
    m.Accept? && m.src != ctx.me && m.last.Some?
  }

  /** What the node answers to an ACCEPT, if it answers. */
  ghost function Vote(ctx: Ctx, c: CaptainState, m: Msg): Packet
    requires m.Accept?
  {
    Packet(m.src, Accepted(ctx.me, m.slot, m.ballot, m.ballot >= AccAt(c.acceptors, m.slot).maxProposed))
  }

  /** A piggybacked decision is learned exactly if its slot was not known and the acceptor, after this
      very ACCEPT, stores the id; then it is published too.  The ACCEPT is answered exactly if it does not
      announce a slot that was known. */
  lemma AnnouncementIsLearned(ctx: Ctx, c: CaptainState, m: Msg, asked: set<nat>, name: string)
    requires c.work && m.Accept? && LearnsFrom1(m) && Ok(c.log)
    ensures var h := HandleMsg(ctx, c, m, asked, name);
      if !Announces(ctx, m) then h.state.log == c.log && h.out == {Vote(ctx, c, m)}
      else
        var slot, a := m.last.value.slot, AccAt(h.state.acceptors, m.last.value.slot);
        if slot in Contents(c.log) then h.state.log == c.log && h.out == {}
        else if a.maxValue.Some? && a.maxValue.value.id == m.last.value.id then
          && Gains(c.log, h.state.log, slot, a.maxValue.value)
          && h.out == {Vote(ctx, c, m), Packet(ctx.me, LogData(slot, a.maxValue.value))}
        else h.state.log == c.log && h.out == {Vote(ctx, c, m)}
  {
    if Announces(ctx, m) {
      var h, slot := HandleMsg(ctx, c, m, asked, name), m.last.value.slot;
      HasIsIn(c.log, slot);
      var a := AccAt(h.state.acceptors, slot);
      if a.maxValue.Some? { AddRefinesFirstWrite(c.log, slot, a.maxValue.value); }
    }
  }

  /** A DECIDE for a slot that was not known is learned exactly if the acceptor stores the id; otherwise
      the sender is asked for the value. */
  lemma DecideIsLearned(ctx: Ctx, c: CaptainState, m: Msg, asked: set<nat>, name: string)
    requires c.work && m.Decide? && m.slot >= 1 && Ok(c.log)
    ensures var h, a := HandleMsg(ctx, c, m, asked, name), AccAt(c.acceptors, m.slot);
      && h.state == c.(log := h.state.log)
      && if m.slot in Contents(c.log) then h.state.log == c.log && h.out == {}
         else if a.maxValue.Some? && a.maxValue.value.id == m.id then
           Gains(c.log, h.state.log, m.slot, a.maxValue.value) && h.out == {}
         else h.state.log == c.log && h.out == {Packet(m.src, Learn(ctx.me, m.slot))}
  {
    HasIsIn(c.log, m.slot);
    var a := AccAt(c.acceptors, m.slot);
    if a.maxValue.Some? { AddRefinesFirstWrite(c.log, m.slot, a.maxValue.value); }
  }

  /** Whoever asks for a slot that is known is told its value. */
  lemma LearnIsTaught(ctx: Ctx, c: CaptainState, m: Msg, asked: set<nat>, name: string)
    requires c.work && m.Learn?
    ensures var h := HandleMsg(ctx, c, m, asked, name);
      && h.state == c
      && h.out == if m.slot in Contents(c.log) then {Packet(m.src, Teach(ctx.me, m.slot, Contents(c.log)[m.slot]))}
                  else {}
  {
    HasIsIn(c.log, m.slot);
  }

  /** What is taught, and what is fetched from the published log, is learned unless the slot was known. */
  lemma TeachIsLearned(ctx: Ctx, c: CaptainState, m: Msg, asked: set<nat>, name: string)
    requires c.work && m.Teach? && m.slot >= 1 && Ok(c.log)
    ensures var h := HandleMsg(ctx, c, m, asked, name);
      h.state == c.(log := h.state.log) && h.out == {} && Gains(c.log, h.state.log, m.slot, m.value)
  {
    HasIsIn(c.log, m.slot);
    AddRefinesFirstWrite(c.log, m.slot, m.value);
  }

  lemma LogDataIsLearned(c: CaptainState, slot: nat, value: PropValue)
    requires slot >= 1 && Ok(c.log)
    ensures var c' := OnLogData(c, slot, value);
      c' == c.(log := c'.log) && Gains(c.log, c'.log, slot, value)
  {
    AddRefinesFirstWrite(c.log, slot, value);
  }

  /** A node that has crashed does nothing about any message. */
  lemma CrashedIsMute(ctx: Ctx, c: CaptainState, m: Msg, asked: set<nat>, name: string)
    requires !c.work
    ensures HandleMsg(ctx, c, m, asked, name) == Handled(c, {})
  {
  }

  // ---------------------------------------------------------------- the proposer: promises

  /** A proposer before phase II, and the promises it has with this one. */
  ghost predicate HearsPromise(c: CaptainState, m: Msg)
  {
    m.Promise? && m.slot in c.proposers && c.proposers[m.slot].status in {Init, PhaseI}
  }

  ghost function Heard(c: CaptainState, m: Msg): map<nat, PromiseAck>
    requires HearsPromise(c, m)
  {
    c.proposers[m.slot].proposer.promises[m.src := PromiseAck(m.ballot, m.reply, m.maxBallot, m.maxValue)]
  }

  /** `p'` remembers the pair with the largest ballot among what `p` remembered and what the positive
      answers in `acks` report. */
  ghost predicate Remembers(p: ProposerState, p': ProposerState, acks: map<nat, PromiseAck>)
  {
    && p.maxBallot <= p'.maxBallot
    && (forall j :: j in acks && acks[j].reply ==> acks[j].maxBallot <= p'.maxBallot)
    && ((p'.maxBallot, p'.maxValue) == (p.maxBallot, p.maxValue)
        || exists j :: j in acks && acks[j].reply
                       && acks[j].maxBallot == p'.maxBallot && acks[j].maxValue == p'.maxValue)
  }

  /** The proposer of `slot` starts over at its next ballot, with nothing heard. */
  ghost predicate NewRound(ctx: Ctx, c: CaptainState, h: Handled, slot: nat, asked: set<nat>)
  {
    && slot in c.proposers && slot in h.state.proposers
    && h.state == c.(proposers := c.proposers[slot := h.state.proposers[slot]])
    && var info, info' := c.proposers[slot], h.state.proposers[slot];
    && info'.status == Init && info'.tryTime == info.tryTime && info'.client == info.client
    && info'.proposer.initValue == info.proposer.initValue && info'.proposer.currValue.None?
    && info'.proposer.promises == map[] && info'.proposer.accepts == map[]
    && info'.proposer.currBallot == (if info.proposer.currBallot == 0 then STEP + ctx.me
                                     else info.proposer.currBallot + STEP)
    && SentToAll(h.out, asked, Prepare(ctx.me, slot, info'.proposer.currBallot))
  }

  /** A promise counts unless it is stale.  With a quorum of answers the round is over: a quorum of them
      positive starts phase II with the best value remembered, fewer start a new round. */
  lemma PromiseIsCounted(ctx: Ctx, c: CaptainState, m: Msg, asked: set<nat>, name: string)
    requires c.work && m.Promise? && CaptainOk(ctx, c)
    ensures var h := HandleMsg(ctx, c, m, asked, name);
      if !HearsPromise(c, m) then h == Handled(c, {})
      else
        var info, acks, q := c.proposers[m.slot], Heard(c, m), Quorum.Size(ctx.cfg.n);
        if m.ballot < info.proposer.currBallot then
          h == Handled(c.(proposers := c.proposers[m.slot := info.(status := PhaseI)]), {})
        else if |acks| < q then
          h == Handled(c.(proposers :=
            c.proposers[m.slot := info.(status := PhaseI, proposer := info.proposer.(promises := acks))]), {})
        else
          && m.slot in h.state.proposers && Remembers(info.proposer, h.state.proposers[m.slot].proposer, acks)
          && if |Yes(acks, acks.Keys)| >= q then EntersPhaseII(ctx, c, h, m.slot, acks, asked)
             else NewRound(ctx, c, h, m.slot, asked)
  {
    if HearsPromise(c, m) {
      var p := c.proposers[m.slot].proposer;
      assert RunsPlaced(c.proposers[m.slot], c.placed, m.slot);
      BestIsMaximum(Heard(c, m), Heard(c, m).Keys, p.maxBallot, p.maxValue);
    }
  }

  /** The proposer of `slot` asks for its ballot to be accepted, with the value it remembers, or its own if
      it remembers none. */
  ghost predicate EntersPhaseII(ctx: Ctx, c: CaptainState, h: Handled, slot: nat, acks: map<nat, PromiseAck>,
                                asked: set<nat>)
  {
    && slot in c.proposers && slot in h.state.proposers
    && var info, info' := c.proposers[slot], h.state.proposers[slot];
    && var p, p' := info.proposer, info'.proposer;
    && h.state == c.(proposers := c.proposers[slot := info'])
    && info' == info.(status := PhaseII, proposer := p')
    && p'.currValue == Some(if p'.maxValue.Some? then p'.maxValue.value else p.initValue)
    && p' == p.(promises := acks, maxBallot := p'.maxBallot, maxValue := p'.maxValue, currValue := p'.currValue)
    && SentToAll(h.out, asked, Accept(ctx.me, slot, p.currBallot, p'.currValue.value, None))
  }

  // ---------------------------------------------------------------- the proposer: votes

  ghost predicate HearsVote(c: CaptainState, m: Msg)
  {
    && m.Accepted? && m.slot in c.proposers && c.proposers[m.slot].status == PhaseII
    && c.proposers[m.slot].proposer.currValue.Some?
  }

  ghost function Votes(c: CaptainState, m: Msg): map<nat, AcceptAck>
    requires HearsVote(c, m)
  {
    c.proposers[m.slot].proposer.accepts[m.src := AcceptAck(m.ballot, m.reply)]
  }

  /** This vote is not stale, and with it a quorum has voted for the proposer's ballot. */
  ghost predicate Settles(ctx: Ctx, c: CaptainState, m: Msg)
  {
    && HearsVote(c, m) && m.ballot >= c.proposers[m.slot].proposer.currBallot
    && |YesAccepts(Votes(c, m), Votes(c, m).Keys)| >= Quorum.Size(ctx.cfg.n)
  }

  lemma YesAreVotes(acks: map<nat, AcceptAck>)
    ensures |YesAccepts(acks, acks.Keys)| <= |acks|
  {
    Quorum.SubsetSize(YesAccepts(acks, acks.Keys), acks.Keys);
    assert |acks.Keys| == |acks|;
  }

  /** A vote that does not settle the slot is stale, or waits for a quorum of answers, or completes one in
      which too few said yes. */
  lemma VoteIsCounted(ctx: Ctx, c: CaptainState, m: Msg, asked: set<nat>, name: string)
    requires c.work && m.Accepted? && CaptainOk(ctx, c) && !Settles(ctx, c, m)
    ensures var h := HandleMsg(ctx, c, m, asked, name);
      if !HearsVote(c, m) || m.ballot < c.proposers[m.slot].proposer.currBallot then h == Handled(c, {})
      else
        var info, acks := c.proposers[m.slot], Votes(c, m);
        if |acks| < Quorum.Size(ctx.cfg.n) then
          h == Handled(c.(proposers := c.proposers[m.slot := info.(proposer := info.proposer.(accepts := acks))]), {})
        else
          && NewRound(ctx, c, h, m.slot, asked)
          && h.state.proposers[m.slot].proposer.maxBallot == info.proposer.maxBallot
          && h.state.proposers[m.slot].proposer.maxValue == info.proposer.maxValue
  {
    if HearsVote(c, m) { assert RunsPlaced(c.proposers[m.slot], c.placed, m.slot); }
  }

  // ---------------------------------------------------------------- the proposer: a slot is settled

  /** The proposers, but for the one that is done and the one that starts. */
  ghost predicate OtherProposersStay(c: CaptainState, c': CaptainState, done: nat, begun: nat)
  {
    forall s :: s != done && s != begun ==>
      (s in c'.proposers <==> s in c.proposers) && (s in c.proposers ==> c'.proposers[s] == c.proposers[s])
  }

  lemma OneForAnother(c: CaptainState, c': CaptainState, done: nat, begun: nat)
    requires begun in c'.proposers && c'.proposers == (c.proposers - {done})[begun := c'.proposers[begun]]
    requires done != begun
    ensures done !in c'.proposers && OtherProposersStay(c, c', done, begun)
  {
  }

  /** The settled slot is freed, and its value learned. */
  ghost predicate IsSettled(c: CaptainState, c': CaptainState, slot: nat)
    requires slot in c.proposers && c.proposers[slot].proposer.currValue.Some?
  {
    slot !in c'.proposers && Gains(c.log, c'.log, slot, c.proposers[slot].proposer.currValue.value)
  }

  /** A proposer in its first phase I round for `value`. */
  ghost predicate IsPreparing(ctx: Ctx, info: ProposerInfo, value: PropValue, client: string, tryTime: nat)
  {
    && info.tryTime == tryTime && info.client == client && info.status == Init
    && info.proposer == ProposerState(value, STEP + ctx.me, None, 0, None, map[], map[])
  }

  /** A proposer that has just skipped phase I for `value`. */
  ghost predicate IsFast(ctx: Ctx, info: ProposerInfo, value: PropValue, client: string)
  {
    && info.tryTime == 1 && info.client == client && info.status == PhaseII
    && info.proposer == ProposerState(value, STEP + ctx.me, Some(value), 0, None, map[], map[])
  }

  /** A vote that settles the slot is a CHOOSE. */
  lemma SettlingIsChoosing(ctx: Ctx, c: CaptainState, m: Msg, asked: set<nat>, name: string)
    requires c.work && Settles(ctx, c, m)
    ensures var info := c.proposers[m.slot];
      var value, c1 := info.proposer.currValue.value, Learned(c, m.slot, info.proposer.currValue.value);
      HandleMsg(ctx, c, m, asked, name) ==
        if value.id == info.proposer.initValue.id then StartNext(ctx, Freed(c1, m.slot), asked)
        else BeginSlot(ctx, FreedLost(c1, m.slot), c.maxSlot + 1, info.proposer.initValue, name, info.tryTime + 1,
                       asked)
  {
    YesAreVotes(Votes(c, m));
  }

  lemma LearnsOwnSlot(c: CaptainState, slot: nat, value: PropValue)
    requires CoreOk(c) && slot in c.proposers
    ensures slot <= c.maxSlot && Gains(c.log, AddChosen(c.log, slot, value), slot, value)
  {
    assert RunsPlaced(c.proposers[slot], c.placed, slot);
    AddRefinesFirstWrite(c.log, slot, value);
  }

  lemma MovesOn(ctx: Ctx, c: CaptainState, h: Handled, slot: nat, value: PropValue, own: PropValue, client: string,
                tryTime: nat, asked: set<nat>)
    requires slot <= c.maxSlot
    requires h == BeginSlot(ctx, FreedLost(Learned(c, slot, value), slot), c.maxSlot + 1, own, client, tryTime, asked)
    ensures var t := c.maxSlot + 1;
      && slot !in h.state.proposers && h.state.log == AddChosen(c.log, slot, value)
      && t in h.state.proposers && IsPreparing(ctx, h.state.proposers[t], own, client, tryTime)
      && SentToAll(h.out, asked, Prepare(ctx.me, t, STEP + ctx.me))
      && OtherProposersStay(c, h.state, slot, t)
      && h.state == c.(proposers := h.state.proposers, log := h.state.log, maxSlot := t,
                       placed := c.placed[t := own], lost := c.lost + {slot})
  {
  }

  /** What a start in phase II makes of the next slot to announce: it goes with the ACCEPT exactly if it is
      known. */
  ghost predicate Piggybacks(c: CaptainState, l: Log, c': CaptainState, last: Option<Announcement>)
  {
    if c.lastSlot + 1 in Contents(l) then
      && last == Some(Announcement(c.lastSlot + 1, Contents(l)[c.lastSlot + 1].id))
      && c'.lastSlot == c.lastSlot + 1 && c'.announced == c.announced + [last.value]
    else last.None? && c'.lastSlot == c.lastSlot && c'.announced == c.announced
  }

  /** `value` starts in phase II in the next slot; `l` is the log by then. */
  ghost predicate StartsFast(ctx: Ctx, c: CaptainState, l: Log, h: Handled, value: PropValue, client: string,
                             asked: set<nat>)
  {
    var t := c.maxSlot + 1;
    && h.state.maxSlot == t && h.state.placed == c.placed[t := value] && h.state.fast == c.fast + {t}
    && h.state.started == c.started + [Submission(value, client)]
    && t in h.state.proposers && IsFast(ctx, h.state.proposers[t], value, client)
    && exists last :: Piggybacks(c, l, h.state, last)
                      && SentToAll(h.out, asked, Accept(ctx.me, t, STEP + ctx.me, value, last))
  }

  /** `c'` differs from `c` in what a start in phase II touches only. */
  ghost predicate StartTouches(c: CaptainState, c': CaptainState)
  {
    c' == c.(maxSlot := c'.maxSlot, proposers := c'.proposers, placed := c'.placed, fast := c'.fast,
             started := c'.started, lastSlot := c'.lastSlot, announced := c'.announced)
  }

  lemma StartsFastly(ctx: Ctx, c: CaptainState, c0: CaptainState, value: PropValue, client: string, asked: set<nat>)
    requires c.lastSlot == c0.lastSlot && c.announced == c0.announced && c.maxSlot == c0.maxSlot
    requires c.placed == c0.placed && c.fast == c0.fast && c.started == c0.started
    ensures var h := StartFast(ctx, c, value, client, asked);
      && StartsFast(ctx, c0, c.log, h, value, client, asked) && StartTouches(c, h.state)
      && h.state.proposers == c.proposers[c.maxSlot + 1 := h.state.proposers[c.maxSlot + 1]]
  {
    var h, last := StartFast(ctx, c, value, client, asked), Announce(Started(ctx, c, value, client)).1;
    HasIsIn(c.log, c.lastSlot + 1);
    assert Piggybacks(c0, c.log, h.state, last);
    assert SentToAll(h.out, asked, Accept(ctx.me, c.maxSlot + 1, STEP + ctx.me, value, last));
  }

  lemma NextStarts(ctx: Ctx, c: CaptainState, h: Handled, slot: nat, value: PropValue, asked: set<nat>)
    requires slot <= c.maxSlot && |c.waiting| == |c.clients| && slot in c.proposers
    requires h == StartNext(ctx, Freed(Learned(c, slot, value), slot), asked)
    ensures slot !in h.state.proposers && h.state.log == AddChosen(c.log, slot, value)
    ensures if c.waiting == [] then
        h.state == c.(log := h.state.log, proposers := c.proposers - {slot}) && h.out == {}
      else
        && StartsFast(ctx, c, h.state.log, h, c.waiting[0], c.clients[0], asked)
        && OtherProposersStay(c, h.state, slot, c.maxSlot + 1)
        && StartTouches(c.(log := h.state.log, waiting := c.waiting[1..], clients := c.clients[1..]), h.state)
  {
    if c.waiting != [] {
      StartsFastly(ctx, Dequeued(Freed(Learned(c, slot, value), slot)), c, c.waiting[0], c.clients[0], asked);
      OneForAnother(c, h.state, slot, c.maxSlot + 1);
    }
  }

  /** The slot is settled, and the value that the node had placed there has gone on to the next slot. */
  ghost predicate Moved(ctx: Ctx, c: CaptainState, h: Handled, slot: nat, asked: set<nat>, name: string)
    requires slot in c.proposers && c.proposers[slot].proposer.currValue.Some?
  {
    var own, t := c.proposers[slot].proposer.initValue, c.maxSlot + 1;
    && IsSettled(c, h.state, slot)
    && t in h.state.proposers && IsPreparing(ctx, h.state.proposers[t], own, name, c.proposers[slot].tryTime + 1)
    && SentToAll(h.out, asked, Prepare(ctx.me, t, STEP + ctx.me))
    && OtherProposersStay(c, h.state, slot, t)
    && h.state == c.(proposers := h.state.proposers, log := h.state.log, maxSlot := t,
                     placed := c.placed[t := own], lost := c.lost + {slot})
  }

  /** The slot went to another value: the node's own one is not dropped but prepared in a new slot, and what
      waits goes on waiting. */
  lemma LosingValueMoves(ctx: Ctx, c: CaptainState, m: Msg, asked: set<nat>, name: string)
    requires c.work && CaptainOk(ctx, c) && Settles(ctx, c, m)
    requires c.proposers[m.slot].proposer.currValue.value.id != c.proposers[m.slot].proposer.initValue.id
    ensures Moved(ctx, c, HandleMsg(ctx, c, m, asked, name), m.slot, asked, name)
  {
    var p := c.proposers[m.slot].proposer;
    SettlingIsChoosing(ctx, c, m, asked, name);
    LearnsOwnSlot(c, m.slot, p.currValue.value);
    MovesOn(ctx, c, HandleMsg(ctx, c, m, asked, name), m.slot, p.currValue.value, p.initValue, name,
      c.proposers[m.slot].tryTime + 1, asked);
  }

  /** The slot is settled, and the value first in line, if any waits, has started in the next slot. */
  ghost predicate Won(ctx: Ctx, c: CaptainState, h: Handled, slot: nat, asked: set<nat>)
    requires slot in c.proposers && c.proposers[slot].proposer.currValue.Some? && |c.waiting| == |c.clients|
  {
    && IsSettled(c, h.state, slot)
    && if c.waiting == [] then
         h.state == c.(log := h.state.log, proposers := c.proposers - {slot}) && h.out == {}
       else
         && StartsFast(ctx, c, h.state.log, h, c.waiting[0], c.clients[0], asked)
         && OtherProposersStay(c, h.state, slot, c.maxSlot + 1)
         && StartTouches(c.(log := h.state.log, waiting := c.waiting[1..], clients := c.clients[1..]), h.state)
  }

  /** The slot went to the node's own value: the value first in line starts, if any waits. */
  lemma WinnerLetsNextStart(ctx: Ctx, c: CaptainState, m: Msg, asked: set<nat>, name: string)
    requires c.work && CaptainOk(ctx, c) && Settles(ctx, c, m)
    requires c.proposers[m.slot].proposer.currValue.value.id == c.proposers[m.slot].proposer.initValue.id
    ensures Won(ctx, c, HandleMsg(ctx, c, m, asked, name), m.slot, asked)
  {
    var value := c.proposers[m.slot].proposer.currValue.value;
    SettlingIsChoosing(ctx, c, m, asked, name);
    LearnsOwnSlot(c, m.slot, value);
    NextStarts(ctx, c, HandleMsg(ctx, c, m, asked, name), m.slot, value, asked);
  }

  // ---------------------------------------------------------------- submissions

  /** The value is at the end of the queue, or has started. */
  ghost predicate IsTaken(ctx: Ctx, c: CaptainState, h: Handled, value: PropValue, client: string, asked: set<nat>)
  {
    var submitted := c.submitted + [Submission(value, client)];
    if |c.proposers| == ctx.window then
      h == Handled(c.(submitted := submitted, waiting := c.waiting + [value], clients := c.clients + [client]), {})
    else
      && StartsFast(ctx, c, c.log, h, value, client, asked)
      && h.state.proposers == c.proposers[c.maxSlot + 1 := h.state.proposers[c.maxSlot + 1]]
      && StartTouches(c.(submitted := submitted), h.state)
  }

  /** A value committed while the window is full joins the queue, with its client; otherwise it starts in
      phase II in the next slot. */
  lemma CommitIsQueuedOrStarts(ctx: Ctx, c: CaptainState, value: PropValue, client: string, asked: set<nat>)
    requires CaptainOk(ctx, c)
    ensures IsTaken(ctx, c, Commit(ctx, c, value, client, asked), value, client, asked)
  {
    if |c.proposers| < ctx.window {
      RoomStarts(ctx, c, value, client, asked);
      StartsFastly(ctx, c.(submitted := c.submitted + [Submission(value, client)]), c, value, client, asked);
    }
  }

  /** A value that a node brings to a slot by itself is prepared there. */
  lemma ContenderPrepares(ctx: Ctx, c: CaptainState, slot: nat, value: PropValue, client: string, asked: set<nat>)
    ensures var h, mine := Contend(ctx, c, slot, value, client, asked), [Submission(value, client)];
      && slot in h.state.proposers && IsPreparing(ctx, h.state.proposers[slot], value, client, 1)
      && SentToAll(h.out, asked, Prepare(ctx.me, slot, STEP + ctx.me))
      && h.state == c.(proposers := c.proposers[slot := h.state.proposers[slot]], maxSlot := slot,
                       placed := c.placed[slot := value], submitted := c.submitted + mine, started := c.started + mine)
  {
  }
}
