/** Every step of a slot keeps the invariant, so agreement holds in every run of the slot. */
module SlotSafety {
  import opened Types
  import opened Acceptors
  import opened Proposers
  import opened Ballots
  import opened SlotPaxos
  import Quorum

  lemma StartInv(cfg: Config, slot: nat, floor: nat)
    requires cfg.Valid()
    ensures Inv(cfg, slot, floor, Start(cfg, slot))
  {
  }

  lemma OwnsNext(me: nat, ballot: nat)
    requires me < STEP && (ballot == 0 || Own(me, ballot))
    ensures Own(me, Next(me, ballot)) && ballot < Next(me, ballot)
  {
  }

  // ---------------------------------------------------------------- the steps, one by one

  /** Starting phase I. */
  lemma BeginPrepareStep(cfg: Config, slot: nat, st: SlotState, i: nat, step: SlotStep)
    requires cfg.Valid() && |st.nodes| == cfg.n && Enabled(cfg, slot, st, i, step) && step.BeginPrepare?
    requires NodeOk(cfg, slot, st, i)
    ensures StepOk(cfg, slot, st, Apply(cfg, slot, st, i, step), i, Local(cfg.n, slot, i, st.nodes[i], step).1)
  {
    OwnsNext(i, 0);
    AcceptorStays(cfg, slot, st, Apply(cfg, slot, st, i, step), st.nodes[i].acc);
  }

  /** The master starting in phase II. */
  lemma BeginFastStep(cfg: Config, slot: nat, st: SlotState, i: nat, step: SlotStep)
    requires cfg.Valid() && |st.nodes| == cfg.n && Enabled(cfg, slot, st, i, step) && step.BeginFast?
    requires NodeOk(cfg, slot, st, i)
    requires forall r :: r in st.msgs && r.msg.Accept? ==> r.msg.ballot != cfg.MasterBallot()
    ensures StepOk(cfg, slot, st, Apply(cfg, slot, st, i, step), i, Local(cfg.n, slot, i, st.nodes[i], step).1)
  {
    var st' := Apply(cfg, slot, st, i, step);
    OwnsNext(i, 0);
    AcceptorStays(cfg, slot, st, st', st.nodes[i].acc);
    assert InitOf(st'.nodes[i].role) == Some(step.value);
    assert Home(st', step.value);
  }

  /** A master that has not started has proposed nothing. */
  lemma FirstIsNew(cfg: Config, slot: nat, st: SlotState)
    requires cfg.Valid() && Coherent(cfg, slot, st) && st.nodes[cfg.master].role.Idle?
    ensures forall r :: r in st.msgs && r.msg.Accept? ==> r.msg.ballot != cfg.MasterBallot()
  {
    forall r | r in st.msgs && r.msg.Accept? ensures r.msg.ballot != cfg.MasterBallot() {
      assert PacketOk(slot, st, r);
    }
  }

  /** Where acceptors are pre-promised, no ballot below the master's first one can be chosen. */
  lemma FastStartIsSafe(cfg: Config, slot: nat, st: SlotState, floor: nat, id: nat)
    requires cfg.Valid() && Coherent(cfg, slot, st) && cfg.PrePromised(slot) && floor >= STEP
    ensures SafeBelow(st, floor, cfg.MasterBallot(), id)
  {
    forall b: nat | floor <= b < cfg.MasterBallot() ensures Dead(st, b) {
      forall j: nat | j < cfg.n ensures j in Refusers(st, b) {
        assert NodeOk(cfg, slot, st, j);
      }
      assert Refusers(st, b) == Quorum.Nodes(cfg.n);
      Quorum.SizeIsMajority(cfg.n);
    }
  }

  lemma PrepareStep(cfg: Config, slot: nat, st: SlotState, i: nat, step: SlotStep)
    requires |st.nodes| == cfg.n && Enabled(cfg, slot, st, i, step) && step.Handle? && step.m.Prepare?
    requires NodeOk(cfg, slot, st, i) && PacketOk(slot, st, Packet(i, step.m))
    ensures StepOk(cfg, slot, st, Apply(cfg, slot, st, i, step), i, Local(cfg.n, slot, i, st.nodes[i], step).1)
  {
    var st' := Apply(cfg, slot, st, i, step);
    PrepareAdvances(st.nodes[i].acc, step.m.ballot);
    AcceptorStays(cfg, slot, st, st', st.nodes[i].acc);
    if st.nodes[i].role.Running? { ProposerStays(slot, st, st', i, st.nodes[i].role.p); }
  }

  lemma AcceptStep(cfg: Config, slot: nat, st: SlotState, i: nat, step: SlotStep)
    requires |st.nodes| == cfg.n && Enabled(cfg, slot, st, i, step) && step.Handle? && step.m.Accept?
    requires NodeOk(cfg, slot, st, i) && PacketOk(slot, st, Packet(i, step.m))
    ensures StepOk(cfg, slot, st, Apply(cfg, slot, st, i, step), i, Local(cfg.n, slot, i, st.nodes[i], step).1)
  {
    var st' := Apply(cfg, slot, st, i, step);
    var m := step.m;
    AcceptGrows(cfg, slot, st, i, step);
    AcceptorStays(cfg, slot, st, st', st.nodes[i].acc);
    AcceptKeepsAcceptor(cfg, slot, st, st', i, m);
    PacketStays(slot, st, st', Packet(i, m));
    if st.nodes[i].role.Running? { ProposerStays(slot, st, st', i, st.nodes[i].role.p); }
  }

  lemma AcceptGrows(cfg: Config, slot: nat, st: SlotState, i: nat, step: SlotStep)
    requires i < |st.nodes| && step.Handle? && step.m.Accept?
    ensures Grows(st, Apply(cfg, slot, st, i, step))
  {
    AcceptAdvances(st.nodes[i].acc, step.m.ballot, step.m.value);
  }

  /** What an acceptor stores is always the proposal of its last accepted ballot, also when it keeps
      the older copy of a value with the same id. */
  lemma AcceptKeepsAcceptor(cfg: Config, slot: nat, st: SlotState, st': SlotState, i: nat, m: Msg)
    requires Grows(st, st') && m.Accept? && Packet(i, m) in st.msgs && PacketOk(slot, st, Packet(i, m))
    requires i < |st.nodes| && AcceptorOk(cfg, slot, st', st.nodes[i].acc)
    ensures AcceptorOk(cfg, slot, st', OnAccept(st.nodes[i].acc, m.ballot, m.value))
  {
    HomeStays(st, st', m.value);
    assert Packet(i, m) in st'.msgs && IsAccept(Packet(i, m).msg, m.ballot, m.value.id);
    assert Proposed(st', m.ballot);
    var a := OnAccept(st.nodes[i].acc, m.ballot, m.value);
    if m.ballot >= st.nodes[i].acc.maxProposed {
      assert ProposedId(st', m.ballot, m.value.id);
      assert a.maxValue.value.id == m.value.id;
    }
  }

  /** Restarting with a higher ballot keeps the best value seen. */
  lemma RestartStep(cfg: Config, slot: nat, st: SlotState, st': SlotState, i: nat, p: ProposerState, asked: set<nat>)
    requires cfg.Valid() && |st.nodes| == cfg.n && i < cfg.n && asked <= Quorum.Nodes(cfg.n)
    requires NodeOk(cfg, slot, st, i) && st.nodes[i].role.Running? && p.initValue == st.nodes[i].role.p.initValue
    requires p.currBallot == st.nodes[i].role.p.currBallot
    requires p.maxBallot < p.currBallot && ReportOk(st, p.maxBallot, p.maxValue)
    requires st' == SlotState(st.nodes[i := st.nodes[i].(role := Running(Restarted(p, i)))],
                              st.msgs + Broadcast(asked, Prepare(i, slot, Restarted(p, i).currBallot)))
    ensures StepOk(cfg, slot, st, st', i, Broadcast(asked, Prepare(i, slot, Restarted(p, i).currBallot)))
  {
    OwnsNext(i, p.currBallot);
    assert Grows(st, st');
    ReportStays(st, st', p.maxBallot, p.maxValue);
    AcceptorStays(cfg, slot, st, st', st.nodes[i].acc);
  }

  /** Storing an acknowledgement of the current round. */
  lemma StoreStep(cfg: Config, slot: nat, st: SlotState, st': SlotState, i: nat, p: ProposerState)
    requires |st.nodes| == cfg.n && i < cfg.n
    requires NodeOk(cfg, slot, st, i) && st.nodes[i].role.Running? && p.initValue == st.nodes[i].role.p.initValue
    requires p.currBallot == st.nodes[i].role.p.currBallot && p.currValue == st.nodes[i].role.p.currValue
    requires ProposerOk(slot, st, i, p)
    requires st'.nodes == st.nodes[i := st.nodes[i].(role := Running(p))]
          || st'.nodes == st.nodes[i := st.nodes[i].(role := Done(p.initValue))]
    requires st'.msgs == st.msgs
    ensures StepOk(cfg, slot, st, st', i, {})
  {
    assert Grows(st, st');
    AcceptorStays(cfg, slot, st, st', st.nodes[i].acc);
    ProposerStays(slot, st, st', i, p);
  }

  /** Entering phase II with the value that a quorum of promises allows. */
  lemma ContinueStep(cfg: Config, slot: nat, st: SlotState, st': SlotState, i: nat, p: ProposerState, asked: set<nat>)
    requires |st.nodes| == cfg.n && i < cfg.n && asked <= Quorum.Nodes(cfg.n)
    requires NodeOk(cfg, slot, st, i)
    requires st.nodes[i].role.Running? && st.nodes[i].role.p.currValue.None?
    requires p.initValue == st.nodes[i].role.p.initValue && p.currBallot == st.nodes[i].role.p.currBallot
    requires p.currValue.Some? && ProposerOk(slot, st, i, p)
    requires forall r :: r in st.msgs && r.msg.Accept? ==> r.msg.ballot != p.currBallot
    requires st' == SlotState(st.nodes[i := st.nodes[i].(role := Running(p))],
                              st.msgs + Broadcast(asked, Accept(i, slot, p.currBallot, p.currValue.value, None)))
    ensures StepOk(cfg, slot, st, st', i, Broadcast(asked, Accept(i, slot, p.currBallot, p.currValue.value, None)))
  {
    assert Grows(st, st');
    AcceptorStays(cfg, slot, st, st', st.nodes[i].acc);
    ProposerStays(slot, st, st', i, p);
  }

  // ---------------------------------------------------------------- what a promise quorum means

  /** An acknowledgement that is not below the current ballot is exactly at it, so none that answers
      an earlier round is ever counted. */
  lemma AckIsCurrent(cfg: Config, slot: nat, st: SlotState, i: nat, m: Msg)
    requires Coherent(cfg, slot, st) && i < cfg.n && Packet(i, m) in st.msgs && (m.Accepted? || m.Promise?)
    requires st.nodes[i].role.Running? && st.nodes[i].role.p.currBallot <= m.ballot
    ensures m.slot == slot && m.ballot == st.nodes[i].role.p.currBallot
  {
    assert PacketOk(slot, st, Packet(i, m));
  }

  lemma StoreAccept(slot: nat, st: SlotState, i: nat, p: ProposerState, m: Msg)
    requires ProposerOk(slot, st, i, p) && m.Accepted? && m.slot == slot && m.ballot == p.currBallot
    requires Packet(i, m) in st.msgs
    ensures ProposerOk(slot, st, i, p.(accepts := p.accepts[m.src := AcceptAck(m.ballot, m.reply)]))
  {
    var p1 := p.(accepts := p.accepts[m.src := AcceptAck(m.ballot, m.reply)]);
    forall j | j in p1.accepts ensures StoredAccept(slot, st, i, p1, j) {
      if j != m.src { assert StoredAccept(slot, st, i, p, j); }
    }
    forall j | j in p1.promises ensures StoredPromise(slot, st, i, p1, j) {
      assert StoredPromise(slot, st, i, p, j);
    }
  }

  lemma StorePromise(slot: nat, st: SlotState, i: nat, p: ProposerState, m: Msg)
    requires ProposerOk(slot, st, i, p) && m.Promise? && m.slot == slot && m.ballot == p.currBallot
    requires Packet(i, m) in st.msgs
    ensures ProposerOk(slot, st, i,
      p.(promises := p.promises[m.src := PromiseAck(m.ballot, m.reply, m.maxBallot, m.maxValue)]))
  {
    var p1 := p.(promises := p.promises[m.src := PromiseAck(m.ballot, m.reply, m.maxBallot, m.maxValue)]);
    forall j | j in p1.promises ensures StoredPromise(slot, st, i, p1, j) {
      if j != m.src { assert StoredPromise(slot, st, i, p, j); }
    }
    forall j | j in p1.accepts ensures StoredAccept(slot, st, i, p1, j) {
      assert StoredAccept(slot, st, i, p, j);
    }
  }

  /** A stored positive promise, read back from the message it came in. */
  lemma StoredIsPromise(cfg: Config, slot: nat, st: SlotState, i: nat, p: ProposerState, j: nat)
    requires Coherent(cfg, slot, st) && ProposerOk(slot, st, i, p) && j in p.promises && p.promises[j].reply
    ensures j < |st.nodes| && p.currBallot <= st.nodes[j].acc.maxProposed
    ensures p.promises[j].maxBallot < p.currBallot && ReportOk(st, p.promises[j].maxBallot, p.promises[j].maxValue)
    ensures forall b :: b in st.nodes[j].acc.voted && b < p.currBallot ==> b <= p.promises[j].maxBallot
  {
    assert StoredPromise(slot, st, i, p, j);
    var a := p.promises[j];
    assert PacketOk(slot, st, Packet(i, Promise(j, slot, a.ballot, a.reply, a.maxBallot, a.maxValue)));
  }

  /** `max_ballot_` and `max_value_` after a count, kept from round to round: the value was proposed at
      that ballot, which is below the current one. */
  lemma BestIsReported(cfg: Config, slot: nat, st: SlotState, i: nat, p: ProposerState)
    requires Coherent(cfg, slot, st) && ProposerOk(slot, st, i, p)
    ensures var best := Best(p.promises, p.promises.Keys, p.maxBallot, p.maxValue);
      && best.0 < p.currBallot
      && ReportOk(st, best.0, best.1)
  {
    BestIsMaximum(p.promises, p.promises.Keys, p.maxBallot, p.maxValue);
    var best := Best(p.promises, p.promises.Keys, p.maxBallot, p.maxValue);
    if best != (p.maxBallot, p.maxValue) {
      var j :| j in p.promises && p.promises[j].reply && best == (p.promises[j].maxBallot, p.promises[j].maxValue);
      StoredIsPromise(cfg, slot, st, i, p, j);
    }
  }

  /** Once a quorum has promised, no ballot strictly between the best reported one and the current one
      is or can become chosen. */
  lemma GapIsDead(cfg: Config, slot: nat, st: SlotState, i: nat, p: ProposerState, b: nat)
    requires Coherent(cfg, slot, st) && ProposerOk(slot, st, i, p)
    requires |Yes(p.promises, p.promises.Keys)| >= Quorum.Size(cfg.n)
    requires Best(p.promises, p.promises.Keys, p.maxBallot, p.maxValue).0 < b < p.currBallot
    ensures Dead(st, b)
  {
    BestIsMaximum(p.promises, p.promises.Keys, p.maxBallot, p.maxValue);
    var yes := Yes(p.promises, p.promises.Keys);
    forall j | j in yes ensures j in Refusers(st, b) {
      StoredIsPromise(cfg, slot, st, i, p, j);
    }
    Quorum.SubsetSize(yes, Refusers(st, b));
  }

  /** What a proposer may do after a quorum of promises although it never resets its best value: the
      value it continues with agrees with everything that is or can be chosen below its ballot. */
  lemma ContinueIsSafe(cfg: Config, slot: nat, floor: nat, st: SlotState, i: nat, p: ProposerState)
    requires Inv(cfg, slot, floor, st) && floor >= STEP && i < cfg.n && ProposerOk(slot, st, i, p)
    requires |Yes(p.promises, p.promises.Keys)| >= Quorum.Size(cfg.n)
    ensures var best := Best(p.promises, p.promises.Keys, p.maxBallot, p.maxValue);
      SafeBelow(st, floor, p.currBallot, (if best.1.Some? then best.1.value else p.initValue).id)
  {
    var best := Best(p.promises, p.promises.Keys, p.maxBallot, p.maxValue);
    var id := (if best.1.Some? then best.1.value else p.initValue).id;
    BestIsReported(cfg, slot, st, i, p);
    forall b: nat | floor <= b < p.currBallot ensures Dead(st, b) || ProposedId(st, b, id) {
      if b > best.0 {
        GapIsDead(cfg, slot, st, i, p, b);
      } else if b < best.0 {
        var r :| r in st.msgs && IsAccept(r.msg, best.0, id);
        assert SafeBelow(st, floor, r.msg.ballot, id);
      }
    }
  }

  /** A proposer that is still in phase I has proposed nothing at its ballot. */
  lemma ContinueIsNew(cfg: Config, slot: nat, st: SlotState, i: nat)
    requires Coherent(cfg, slot, st) && i < cfg.n
    requires st.nodes[i].role.Running? && st.nodes[i].role.p.currValue.None?
    ensures forall r :: r in st.msgs && r.msg.Accept? ==> r.msg.ballot != st.nodes[i].role.p.currBallot
  {
    assert NodeOk(cfg, slot, st, i);
    forall r | r in st.msgs && r.msg.Accept? ensures r.msg.ballot != st.nodes[i].role.p.currBallot {
      assert PacketOk(slot, st, r);
    }
  }

  /** What is known of the proposer after it has counted a promise of the current round. */
  ghost predicate Counted(cfg: Config, slot: nat, st: SlotState, i: nat, p: ProposerState, p': ProposerState,
                          result: AckType)
  {
    && p'.initValue == p.initValue && p'.currBallot == p.currBallot
    && (result == NotEnough ==> p'.currValue == p.currValue && ProposerOk(slot, st, i, p'))
    && (result == AckType.Restart ==> p'.maxBallot < p'.currBallot && ReportOk(st, p'.maxBallot, p'.maxValue))
    && (result == Continue ==>
          && p'.currValue.Some? && ProposerOk(slot, st, i, p')
          && forall r :: r in st.msgs && r.msg.Accept? ==> r.msg.ballot != p'.currBallot)
  }

  lemma PromiseCounted(cfg: Config, slot: nat, st: SlotState, i: nat, m: Msg)
    requires Coherent(cfg, slot, st) && i < cfg.n && Packet(i, m) in st.msgs && m.Promise?
    requires st.nodes[i].role.Running?
    requires st.nodes[i].role.p.currValue.None? && st.nodes[i].role.p.currBallot <= m.ballot
    ensures var p := st.nodes[i].role.p;
      var (p', result) := OnPromise(p, m.src, PromiseAck(m.ballot, m.reply, m.maxBallot,
        m.maxValue), Quorum.Size(cfg.n));
      Counted(cfg, slot, st, i, p, p', result)
  {
    var p := st.nodes[i].role.p;
    var ack := PromiseAck(m.ballot, m.reply, m.maxBallot, m.maxValue);
    assert NodeOk(cfg, slot, st, i);
    AckIsCurrent(cfg, slot, st, i, m);
    StorePromise(slot, st, i, p, m);
    BestIsReported(cfg, slot, st, i, p.(promises := p.promises[m.src := ack]));
    ContinueIsNew(cfg, slot, st, i);
    StoredIsCounted(cfg, slot, st, i, p, m.src, ack);
  }

  lemma StoredIsCounted(cfg: Config, slot: nat, st: SlotState, i: nat, p: ProposerState, src: nat, ack: PromiseAck)
    requires i < |st.nodes| && st.nodes[i].role == Running(p) && p.currValue.None? && ack.ballot == p.currBallot
    requires ProposerOk(slot, st, i, p.(promises := p.promises[src := ack]))
    requires var promises := p.promises[src := ack];
      var best := Best(promises, promises.Keys, p.maxBallot, p.maxValue);
      best.0 < p.currBallot && ReportOk(st, best.0, best.1)
    requires forall r :: r in st.msgs && r.msg.Accept? ==> r.msg.ballot != p.currBallot
    ensures var (p', result) := OnPromise(p, src, ack, Quorum.Size(cfg.n)); Counted(cfg, slot, st, i, p, p', result)
  {
    var (p', result) := OnPromise(p, src, ack, Quorum.Size(cfg.n));
    if result == Continue {
      ContinuedOk(slot, st, i, p.(promises := p.promises[src := ack]), p');
    }
  }

  lemma PromiseStep(cfg: Config, slot: nat, st: SlotState, i: nat, step: SlotStep)
    requires cfg.Valid() && |st.nodes| == cfg.n && Enabled(cfg, slot, st, i, step) && step.Handle? && step.m.Promise?
    requires NodeOk(cfg, slot, st, i) && st.nodes[i].role.Running?
    requires st.nodes[i].role.p.currValue.None? && st.nodes[i].role.p.currBallot <= step.m.ballot
    requires var m, p := step.m, st.nodes[i].role.p;
      var (p', result) := OnPromise(p, m.src, PromiseAck(m.ballot, m.reply, m.maxBallot,
        m.maxValue), Quorum.Size(cfg.n));
      Counted(cfg, slot, st, i, p, p', result)
    ensures StepOk(cfg, slot, st, Apply(cfg, slot, st, i, step), i, Local(cfg.n, slot, i, st.nodes[i], step).1)
  {
    var m, p := step.m, st.nodes[i].role.p;
    var st' := Apply(cfg, slot, st, i, step);
    var (p', result) := OnPromise(p, m.src, PromiseAck(m.ballot, m.reply, m.maxBallot, m.maxValue), Quorum.Size(cfg.n));
    if result == NotEnough {
      StoreStep(cfg, slot, st, st', i, p');
    } else if result == AckType.Restart {
      RestartStep(cfg, slot, st, st', i, p', step.asked);
    } else {
      ContinueStep(cfg, slot, st, st', i, p', step.asked);
    }
  }

  lemma ContinuedOk(slot: nat, st: SlotState, i: nat, p: ProposerState, p': ProposerState)
    requires ProposerOk(slot, st, i, p) && i < |st.nodes| && InitOf(st.nodes[i].role) == Some(p.initValue)
    requires p'.maxBallot < p.currBallot && ReportOk(st, p'.maxBallot, p'.maxValue)
    requires p' == p.(maxBallot := p'.maxBallot, maxValue := p'.maxValue,
                      currValue := Some(if p'.maxValue.Some? then p'.maxValue.value else p.initValue))
    ensures ProposerOk(slot, st, i, p')
  {
    assert Home(st, p.initValue);
    forall j | j in p'.promises ensures StoredPromise(slot, st, i, p', j) { assert StoredPromise(slot, st, i, p, j); }
    forall j | j in p'.accepts ensures StoredAccept(slot, st, i, p', j) { assert StoredAccept(slot, st, i, p, j); }
  }

  lemma AcceptedStep(cfg: Config, slot: nat, st: SlotState, i: nat, step: SlotStep)
    requires cfg.Valid() && |st.nodes| == cfg.n && Enabled(cfg, slot, st, i, step) && step.Handle? && step.m.Accepted?
    requires NodeOk(cfg, slot, st, i) && st.nodes[i].role.Running? && step.m.slot == slot
    requires st.nodes[i].role.p.currValue.Some? && st.nodes[i].role.p.currBallot == step.m.ballot
    ensures StepOk(cfg, slot, st, Apply(cfg, slot, st, i, step), i, Local(cfg.n, slot, i, st.nodes[i], step).1)
  {
    var m, p := step.m, st.nodes[i].role.p;
    var st' := Apply(cfg, slot, st, i, step);
    var (p', result) := OnAccepted(p, m.src, AcceptAck(m.ballot, m.reply), Quorum.Size(cfg.n));
    StoreAccept(slot, st, i, p, m);
    if result == AckType.Restart {
      RestartStep(cfg, slot, st, st', i, p', step.asked);
    } else {
      StoreStep(cfg, slot, st, st', i, p');
    }
  }

  /** CHOOSE means chosen: the proposer's current value was accepted by a quorum at its ballot. */
  lemma ChooseIsChosen(cfg: Config, slot: nat, st: SlotState, i: nat, m: Msg)
    requires Coherent(cfg, slot, st) && i < cfg.n && Packet(i, m) in st.msgs && m.Accepted? && st.nodes[i].role.Running?
    requires OnAccepted(st.nodes[i].role.p, m.src, AcceptAck(m.ballot, m.reply), Quorum.Size(cfg.n)).1 == Choose
    ensures var p := st.nodes[i].role.p;
      p.currValue.Some? && ChosenAt(st, p.currBallot, p.currValue.value.id) && Home(st, p.currValue.value)
  {
    var p := st.nodes[i].role.p;
    var p1 := p.(accepts := p.accepts[m.src := AcceptAck(m.ballot, m.reply)]);
    assert NodeOk(cfg, slot, st, i);
    AckIsCurrent(cfg, slot, st, i, m);
    StoreAccept(slot, st, i, p, m);
    YesAcceptsVoted(cfg, slot, st, i, p1);
    var yes := YesAccepts(p1.accepts, p1.accepts.Keys);
    Quorum.SizeIsMajority(cfg.n);
    var j :| j in yes;
    OwnProposal(cfg, slot, st, i, j);
  }

  lemma YesAcceptsVoted(cfg: Config, slot: nat, st: SlotState, i: nat, p: ProposerState)
    requires Coherent(cfg, slot, st) && ProposerOk(slot, st, i, p)
    ensures YesAccepts(p.accepts, p.accepts.Keys) <= Voters(st, p.currBallot)
    ensures |YesAccepts(p.accepts, p.accepts.Keys)| <= |Voters(st, p.currBallot)|
  {
    var yes := YesAccepts(p.accepts, p.accepts.Keys);
    forall j | j in yes ensures j in Voters(st, p.currBallot) {
      assert StoredAccept(slot, st, i, p, j);
      assert PacketOk(slot, st, Packet(i, Accepted(j, slot, p.accepts[j].ballot, p.accepts[j].reply)));
    }
    Quorum.SubsetSize(yes, Voters(st, p.currBallot));
  }

  /** If anyone accepted at a running proposer's ballot, its current value is what was proposed there. */
  lemma OwnProposal(cfg: Config, slot: nat, st: SlotState, i: nat, j: nat)
    requires Coherent(cfg, slot, st) && i < cfg.n && j < cfg.n && st.nodes[i].role.Running?
    requires st.nodes[i].role.p.currBallot in st.nodes[j].acc.voted
    ensures var p := st.nodes[i].role.p;
      p.currValue.Some? && ProposedId(st, p.currBallot, p.currValue.value.id) && Home(st, p.currValue.value)
  {
    var p := st.nodes[i].role.p;
    assert NodeOk(cfg, slot, st, j) && NodeOk(cfg, slot, st, i) && Proposed(st, p.currBallot);
    var r :| r in st.msgs && r.msg.Accept? && r.msg.ballot == p.currBallot;
    assert PacketOk(slot, st, r) && r.msg.src == i;
    assert IsAccept(r.msg, p.currBallot, r.msg.value.id);
  }

  // ---------------------------------------------------------------- all steps, all runs

  /** Every step the protocol can take, a fast start in any slot included, keeps the slot coherent and
      withdraws nothing. */
  lemma StepCoherent(cfg: Config, slot: nat, st: SlotState, i: nat, step: SlotStep)
    requires cfg.Valid() && Coherent(cfg, slot, st) && Enabled(cfg, slot, st, i, step)
    ensures Coherent(cfg, slot, Apply(cfg, slot, st, i, step)) && Grows(st, Apply(cfg, slot, st, i, step))
  {
    var st' := Apply(cfg, slot, st, i, step);
    var out := Local(cfg.n, slot, i, st.nodes[i], step).1;
    assert NodeOk(cfg, slot, st, i);
    match step
    case BeginPrepare(_, _) =>
      BeginPrepareStep(cfg, slot, st, i, step);
      KeepsCoherent(cfg, slot, st, st', i, out);
    case BeginFast(value, _, _) =>
      FirstIsNew(cfg, slot, st);
      BeginFastStep(cfg, slot, st, i, step);
      KeepsCoherent(cfg, slot, st, st', i, out);
    case Handle(m, _, _) =>
      HandleKeeps(cfg, slot, st, i, step);
  }

  lemma HandleKeeps(cfg: Config, slot: nat, st: SlotState, i: nat, step: SlotStep)
    requires cfg.Valid() && Coherent(cfg, slot, st) && Enabled(cfg, slot, st, i, step) && step.Handle?
    ensures Coherent(cfg, slot, Apply(cfg, slot, st, i, step)) && Grows(st, Apply(cfg, slot, st, i, step))
  {
    assert PacketOk(slot, st, Packet(i, step.m)) && NodeOk(cfg, slot, st, i);
    if Ignored(st.nodes[i], step.m) {
      IgnoredStep(cfg, slot, st, i, step);
    } else {
      HandleStep(cfg, slot, st, i, step);
      KeepsCoherent(cfg, slot, st, Apply(cfg, slot, st, i, step), i, Local(cfg.n, slot, i, st.nodes[i], step).1);
    }
  }

  /** Acknowledgements that the proposer drops. */
  ghost predicate Ignored(ns: NodeSlot, m: Msg)
  {
    && (m.Promise? || m.Accepted?)
    && (ns.role.Running? ==> m.ballot < ns.role.p.currBallot || ns.role.p.currValue.Some? == m.Promise?)
  }

  lemma IgnoredStep(cfg: Config, slot: nat, st: SlotState, i: nat, step: SlotStep)
    requires i < |st.nodes| && step.Handle? && Ignored(st.nodes[i], step.m)
    ensures Apply(cfg, slot, st, i, step) == st
  {
  }

  lemma HandleStep(cfg: Config, slot: nat, st: SlotState, i: nat, step: SlotStep)
    requires cfg.Valid() && Coherent(cfg, slot, st) && Enabled(cfg, slot, st, i, step)
    requires step.Handle? && !Ignored(st.nodes[i], step.m)
    ensures StepOk(cfg, slot, st, Apply(cfg, slot, st, i, step), i, Local(cfg.n, slot, i, st.nodes[i], step).1)
  {
    assert PacketOk(slot, st, Packet(i, step.m)) && NodeOk(cfg, slot, st, i);
    match step.m
    case Prepare(_, _, _) => PrepareStep(cfg, slot, st, i, step);
    case Accept(_, _, _, _, _) => AcceptStep(cfg, slot, st, i, step);
    case Promise(_, _, _, _, _, _) =>
      PromiseCounted(cfg, slot, st, i, step.m);
      PromiseStep(cfg, slot, st, i, step);
    case Accepted(_, _, _, _) =>
      AckIsCurrent(cfg, slot, st, i, step.m);
      AcceptedStep(cfg, slot, st, i, step);
    case _ =>
  }

  // ---------------------------------------------------------------- what steps propose

  /** `floor` is the least ballot that anyone can use: the least there is, or the master's first one as
      long as no node with a smaller id has come. */
  ghost predicate IsFloor(cfg: Config, floor: nat, st: SlotState)
  {
    floor == STEP || (floor == cfg.MasterBallot() && NobodyBelow(cfg, st))
  }

  /** A fast start is allowed where acceptors are pre-promised, or if nobody can use a smaller ballot. */
  ghost predicate FastAllowed(cfg: Config, slot: nat, floor: nat, step: SlotStep)
  {
    step.BeginFast? ==> cfg.PrePromised(slot) || floor == cfg.MasterBallot()
  }

  lemma OwnIsLarge(cfg: Config, me: nat, ballot: nat)
    requires cfg.master <= me && Own(me, ballot)
    ensures cfg.MasterBallot() <= ballot
  {
  }

  /** A node that is active in the slot uses ballots from the floor on. */
  lemma AboveFloor(cfg: Config, floor: nat, st: SlotState, i: nat, ballot: nat)
    requires IsFloor(cfg, floor, st) && i < |st.nodes| && !st.nodes[i].role.Idle? && Own(i, ballot)
    ensures floor <= ballot
  {
    if floor != STEP { OwnIsLarge(cfg, i, ballot); }
  }

  lemma FastSends(cfg: Config, slot: nat, floor: nat, st: SlotState, i: nat, step: SlotStep)
    requires cfg.Valid() && Coherent(cfg, slot, st) && Enabled(cfg, slot, st, i, step) && step.BeginFast?
    requires (floor == STEP || floor == cfg.MasterBallot()) && FastAllowed(cfg, slot, floor, step)
    ensures SafeToSend(st, floor, Local(cfg.n, slot, i, st.nodes[i], step).1)
  {
    if cfg.PrePromised(slot) { FastStartIsSafe(cfg, slot, st, floor, step.value.id); }
  }

  lemma PromiseSends(cfg: Config, slot: nat, floor: nat, st: SlotState, i: nat, step: SlotStep)
    requires Inv(cfg, slot, floor, st) && IsFloor(cfg, floor, st) && i < cfg.n
    requires step.Handle? && step.m.Promise? && Packet(i, step.m) in st.msgs
    ensures SafeToSend(st, floor, Local(cfg.n, slot, i, st.nodes[i], step).1)
  {
    if st.nodes[i].role.Running? {
      var m, p := step.m, st.nodes[i].role.p;
      var (p', result) := OnPromise(p, m.src, PromiseAck(m.ballot, m.reply, m.maxBallot, m.maxValue),
        Quorum.Size(cfg.n));
      if result == Continue {
        ContinueSends(cfg, slot, floor, st, i, m);
        assert Local(cfg.n, slot, i, st.nodes[i], step).1 ==
          Broadcast(step.asked, Accept(i, slot, p'.currBallot, p'.currValue.value, None));
      }
    }
  }

  lemma ContinueSends(cfg: Config, slot: nat, floor: nat, st: SlotState, i: nat, m: Msg)
    requires Inv(cfg, slot, floor, st) && IsFloor(cfg, floor, st) && i < cfg.n && m.Promise? && Packet(i, m) in st.msgs
    requires st.nodes[i].role.Running?
    requires OnPromise(st.nodes[i].role.p, m.src, PromiseAck(m.ballot, m.reply, m.maxBallot, m.maxValue),
      Quorum.Size(cfg.n)).1 == Continue
    ensures var p' := OnPromise(st.nodes[i].role.p, m.src, PromiseAck(m.ballot, m.reply, m.maxBallot, m.maxValue),
        Quorum.Size(cfg.n)).0;
      floor <= p'.currBallot && SafeBelow(st, floor, p'.currBallot, p'.currValue.value.id)
  {
    var p := st.nodes[i].role.p;
    assert NodeOk(cfg, slot, st, i);
    AckIsCurrent(cfg, slot, st, i, m);
    StorePromise(slot, st, i, p, m);
    AboveFloor(cfg, floor, st, i, p.currBallot);
    ContinueIsSafe(cfg, slot, floor, st, i,
      p.(promises := p.promises[m.src := PromiseAck(m.ballot, m.reply, m.maxBallot, m.maxValue)]));
  }

  lemma StepSends(cfg: Config, slot: nat, floor: nat, st: SlotState, i: nat, step: SlotStep)
    requires cfg.Valid() && Inv(cfg, slot, floor, st) && IsFloor(cfg, floor, st)
    requires Enabled(cfg, slot, st, i, step) && FastAllowed(cfg, slot, floor, step)
    ensures SafeToSend(st, floor, Local(cfg.n, slot, i, st.nodes[i], step).1)
  {
    match step
    case BeginPrepare(_, _) =>
    case BeginFast(_, _, _) => FastSends(cfg, slot, floor, st, i, step);
    case Handle(m, _, _) => if m.Promise? { PromiseSends(cfg, slot, floor, st, i, step); }
  }

  /** Every step keeps the invariant if fast starts are allowed only where nothing smaller can be chosen. */
  lemma StepKeeps(cfg: Config, slot: nat, floor: nat, st: SlotState, i: nat, step: SlotStep)
    requires cfg.Valid() && Inv(cfg, slot, floor, st) && IsFloor(cfg, floor, st)
    requires Enabled(cfg, slot, st, i, step) && FastAllowed(cfg, slot, floor, step)
    ensures Inv(cfg, slot, floor, Apply(cfg, slot, st, i, step)) && Grows(st, Apply(cfg, slot, st, i, step))
  {
    StepCoherent(cfg, slot, st, i, step);
    StepSends(cfg, slot, floor, st, i, step);
    KeepsSafe(st, Apply(cfg, slot, st, i, step), floor, Local(cfg.n, slot, i, st.nodes[i], step).1);
  }

  /** As long as nobody below the master has come, its first ballot may serve as the floor. */
  lemma RaiseFloor(cfg: Config, slot: nat, st: SlotState)
    requires Inv(cfg, slot, STEP, st) && NobodyBelow(cfg, st)
    ensures Inv(cfg, slot, cfg.MasterBallot(), st)
  {
    forall p | p in st.msgs && p.msg.Accept?
      ensures cfg.MasterBallot() <= p.msg.ballot
      ensures SafeBelow(st, cfg.MasterBallot(), p.msg.ballot, p.msg.value.id)
    {
      assert PacketOk(slot, st, p);
      OwnIsLarge(cfg, p.msg.src, p.msg.ballot);
      assert SafeBelow(st, STEP, p.msg.ballot, p.msg.value.id);
    }
  }

  lemma NobodyBefore(cfg: Config, st: SlotState, st': SlotState)
    requires Grows(st, st') && NobodyBelow(cfg, st')
    ensures NobodyBelow(cfg, st)
  {
    forall j: nat | j < cfg.master && j < |st.nodes| ensures st.nodes[j].role.Idle? {
      assert RoleAdvances(st.nodes[j].role, st'.nodes[j].role) && st'.nodes[j].role.Idle?;
    }
  }

  // ---------------------------------------------------------------- all runs

  datatype Move = Move(node: nat, step: SlotStep)

  ghost predicate Moves(cfg: Config, slot: nat, st: SlotState, move: Move, st': SlotState)
  {
    Enabled(cfg, slot, st, move.node, move.step) && st' == Apply(cfg, slot, st, move.node, move.step)
  }

  /** `run` is a run of the slot that takes `moves` one after the other. */
  ghost predicate IsRun(cfg: Config, slot: nat, run: seq<SlotState>, moves: seq<Move>)
  {
    && |run| == |moves| + 1
    && run[0] == Start(cfg, slot)
    && forall k: nat {:trigger moves[k]} :: k < |moves| ==> Moves(cfg, slot, run[k], moves[k], run[k + 1])
  }

  /** What is needed of the first `k` moves: the slot is pre-promised, or nobody below the master has come
      to it, or the master has not started in phase II. */
  ghost predicate Sheltered(cfg: Config, slot: nat, run: seq<SlotState>, moves: seq<Move>, k: nat)
    requires k < |run|
  {
    || cfg.PrePromised(slot)
    || NobodyBelow(cfg, run[k])
    || forall l :: 0 <= l < k && l < |moves| ==> !moves[l].step.BeginFast?
  }

  lemma {:induction false} RunCoherent(cfg: Config, slot: nat, run: seq<SlotState>, moves: seq<Move>, k: nat)
    requires cfg.Valid() && IsRun(cfg, slot, run, moves) && k < |run|
    ensures Coherent(cfg, slot, run[k])
  {
    if k == 0 {
      StartInv(cfg, slot, STEP);
    } else {
      RunCoherent(cfg, slot, run, moves, k - 1);
      MoveGrows(cfg, slot, run, moves, k - 1);
    }
  }

  lemma MoveGrows(cfg: Config, slot: nat, run: seq<SlotState>, moves: seq<Move>, k: nat)
    requires cfg.Valid() && IsRun(cfg, slot, run, moves) && k < |moves| && Coherent(cfg, slot, run[k])
    ensures Coherent(cfg, slot, run[k + 1]) && Grows(run[k], run[k + 1])
  {
    assert Moves(cfg, slot, run[k], moves[k], run[k + 1]);
    StepCoherent(cfg, slot, run[k], moves[k].node, moves[k].step);
  }

  lemma MoveKeeps(cfg: Config, slot: nat, floor: nat, run: seq<SlotState>, moves: seq<Move>, k: nat)
    requires cfg.Valid() && IsRun(cfg, slot, run, moves) && k < |moves| && Inv(cfg, slot, floor, run[k])
    requires IsFloor(cfg, floor, run[k]) && FastAllowed(cfg, slot, floor, moves[k].step)
    ensures Inv(cfg, slot, floor, run[k + 1])
  {
    assert Moves(cfg, slot, run[k], moves[k], run[k + 1]);
    StepKeeps(cfg, slot, floor, run[k], moves[k].node, moves[k].step);
  }

  lemma {:induction false} RunKeepsFloor(cfg: Config, slot: nat, floor: nat, run: seq<SlotState>, moves: seq<Move>,
                                         k: nat)
    requires cfg.Valid() && IsRun(cfg, slot, run, moves) && k < |run| && IsFloor(cfg, floor, run[k])
    requires forall l :: 0 <= l < k ==> FastAllowed(cfg, slot, floor, moves[l].step)
    ensures Inv(cfg, slot, floor, run[k])
  {
    if k == 0 {
      StartInv(cfg, slot, floor);
    } else {
      RunCoherent(cfg, slot, run, moves, k - 1);
      MoveGrows(cfg, slot, run, moves, k - 1);
      if floor != STEP { NobodyBefore(cfg, run[k - 1], run[k]); }
      RunKeepsFloor(cfg, slot, floor, run, moves, k - 1);
      MoveKeeps(cfg, slot, floor, run, moves, k - 1);
    }
  }

  /** Every state of a sheltered run satisfies the invariant, with one floor or the other. */
  lemma RunKeepsInv(cfg: Config, slot: nat, run: seq<SlotState>, moves: seq<Move>, k: nat) returns (floor: nat)
    requires cfg.Valid() && IsRun(cfg, slot, run, moves) && k < |run| && Sheltered(cfg, slot, run, moves, k)
    ensures Inv(cfg, slot, floor, run[k])
  {
    if NobodyBelow(cfg, run[k]) {
      floor := cfg.MasterBallot();
      RunKeepsFloor(cfg, slot, floor, run, moves, k);
    } else {
      floor := STEP;
      forall l | 0 <= l < k ensures FastAllowed(cfg, slot, floor, moves[l].step) {}
      RunKeepsFloor(cfg, slot, floor, run, moves, k);
    }
  }

  lemma StillChosen(st: SlotState, st': SlotState, id: nat)
    requires Grows(st, st') && ChosenId(st, id)
    ensures ChosenId(st', id)
  {
    var b :| ChosenAt(st, b, id);
    ChosenStays(st, st', b, id);
  }

  /** What is chosen stays chosen, in every run. */
  lemma {:induction false} RunKeepsChosen(cfg: Config, slot: nat, run: seq<SlotState>, moves: seq<Move>, k: nat, l: nat,
                                          id: nat)
    requires cfg.Valid() && IsRun(cfg, slot, run, moves) && k <= l < |run| && ChosenId(run[k], id)
    ensures ChosenId(run[l], id)
  {
    if k < l {
      RunCoherent(cfg, slot, run, moves, l - 1);
      MoveGrows(cfg, slot, run, moves, l - 1);
      RunKeepsChosen(cfg, slot, run, moves, k, l - 1, id);
      StillChosen(run[l - 1], run[l], id);
    }
  }

  /** Agreement over whole runs: two ids chosen at any two moments of a sheltered run are the same. */
  lemma RunAgreement(cfg: Config, slot: nat, run: seq<SlotState>, moves: seq<Move>, k: nat, l: nat, id: nat, id': nat)
    requires cfg.Valid() && IsRun(cfg, slot, run, moves) && k <= l < |run| && Sheltered(cfg, slot, run, moves, l)
    requires ChosenId(run[k], id) && ChosenId(run[l], id')
    ensures id == id'
  {
    RunKeepsChosen(cfg, slot, run, moves, k, l, id);
    var floor := RunKeepsInv(cfg, slot, run, moves, l);
    var b :| ChosenAt(run[l], b, id);
    var b' :| ChosenAt(run[l], b', id');
    Agreement(cfg, slot, floor, run[l], b, id, b', id');
  }
}
