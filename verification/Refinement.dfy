/** Every operation of a node is, in every slot, either nothing or one step of the slot protocol. */
module Refinement {
  import opened Types
  import opened Acceptors
  import opened Proposers
  import opened Ballots
  import opened SlotPaxos
  import opened ChosenLog
  import opened Replica
  import opened ReplicaSafety
  import Quorum

  ghost function AccAt(acceptors: seq<AcceptorState>, s: nat): AcceptorState
  {
    if s < |acceptors| then acceptors[s] else FRESH
  }

  ghost function RoleAt(c: CaptainState, s: nat): Role
  {
    if s in c.proposers then Running(c.proposers[s].proposer)
    else if s in c.placed then Done(c.placed[s])
    else Idle
  }

  /** The node as slot `s` sees it. */
  ghost function NodeAt(c: CaptainState, s: nat): NodeSlot
  {
    NodeSlot(AccAt(c.acceptors, s), RoleAt(c, s))
  }

  ghost predicate IsPaxos(m: Msg, s: nat)
  {
    (m.Prepare? || m.Promise? || m.Accept? || m.Accepted?) && m.slot == s
  }

  ghost function SlotPackets(packets: set<Packet>, s: nat): set<Packet>
  {
    set p | p in packets && IsPaxos(p.msg, s)
  }

  /** `step` is a step that the slot protocol allows this node in slot `s` on receiving `m`, if any. */
  ghost predicate Legal(ctx: Ctx, c: CaptainState, s: nat, step: SlotStep, m: Option<Msg>, asked: set<nat>)
  {
    && step.asked == asked
    && match step
       case BeginPrepare(_, _) => RoleAt(c, s).Idle?
       case BeginFast(_, _, _) => RoleAt(c, s).Idle? && ctx.me == ctx.cfg.master && s == c.maxSlot + 1
       case Handle(m', _, _) => m == Some(m') && IsPaxos(m', s)
  }

  ghost predicate Stutters(c: CaptainState, h: Handled, s: nat)
  {
    NodeAt(h.state, s) == NodeAt(c, s) && SlotPackets(h.out, s) == {}
  }

  /** `h` is this step, and a slot that begins in phase II is on record. */
  ghost predicate Takes(ctx: Ctx, c: CaptainState, h: Handled, s: nat, step: SlotStep)
  {
    && Local(ctx.cfg.n, s, ctx.me, NodeAt(c, s), step) == (NodeAt(h.state, s), SlotPackets(h.out, s))
    && (step.BeginFast? ==> s in h.state.fast)
  }

  ghost predicate Follows(ctx: Ctx, c: CaptainState, h: Handled, s: nat, m: Option<Msg>, asked: set<nat>)
  {
    || Stutters(c, h, s)
    || exists step :: Legal(ctx, c, s, step, m, asked) && Takes(ctx, c, h, s, step)
  }

  // ---------------------------------------------------------------- building blocks

  lemma GrownAt(acceptors: seq<AcceptorState>, slot: nat, a: AcceptorState, s: nat)
    ensures AccAt(Grown(acceptors, slot)[slot := a], s) == if s == slot then a else AccAt(acceptors, s)
    ensures AccAt(acceptors, slot) == Grown(acceptors, slot)[slot]
  {
  }

  lemma BroadcastAt(asked: set<nat>, m: Msg, slot: nat, s: nat)
    requires IsPaxos(m, slot)
    ensures SlotPackets(Broadcast(asked, m), s) == if s == slot then Broadcast(asked, m) else {}
  {
  }

  lemma InitialAt(ctx: Ctx, s: nat)
    ensures NodeAt(Initial(ctx), s) == NodeSlot(ctx.cfg.FirstAcceptor(s), Idle)
  {
  }

  // ---------------------------------------------------------------- acceptor side

  /** An ACCEPT is acknowledged unless it announces a slot that is known. */
  ghost predicate Acknowledges(ctx: Ctx, c: CaptainState, m: Msg)
  {
    m.Accept? ==> m.src == ctx.me || m.last.None? || !Has(c.log, m.last.value.slot)
  }

  /** The step that a message is in its own slot. */
  ghost function StepOf(ctx: Ctx, c: CaptainState, m: Msg, asked: set<nat>): SlotStep
  {
    Handle(m, asked, Acknowledges(ctx, c, m))
  }

  lemma PrepareTakes(ctx: Ctx, c: CaptainState, m: Msg, asked: set<nat>)
    requires m.Prepare?
    ensures Takes(ctx, c, OnPrepareMsg(ctx, c, m), m.slot, StepOf(ctx, c, m, asked))
  {
    var h := OnPrepareMsg(ctx, c, m);
    GrownAt(c.acceptors, m.slot, h.state.acceptors[m.slot], m.slot);
    assert SlotPackets(h.out, m.slot) == h.out;
  }

  lemma AcceptTakes(ctx: Ctx, c: CaptainState, m: Msg, asked: set<nat>)
    requires m.Accept?
    ensures Takes(ctx, c, OnAcceptMsg(ctx, c, m), m.slot, StepOf(ctx, c, m, asked))
  {
    var h := OnAcceptMsg(ctx, c, m);
    var ack := Packet(m.src, AcceptReply(Grown(c.acceptors, m.slot)[m.slot], ctx.me, m.slot, m.ballot));
    GrownAt(c.acceptors, m.slot, h.state.acceptors[m.slot], m.slot);
    assert SlotPackets(h.out, m.slot) == if Acknowledges(ctx, c, m) then {ack} else {};
  }

  /** A message that takes the step it is in its own slot, and is not seen elsewhere, follows. */
  lemma TakingFollows(ctx: Ctx, c: CaptainState, h: Handled, m: Msg, asked: set<nat>, s: nat)
    requires IsPaxos(m, m.slot)
    requires s == m.slot ==> Takes(ctx, c, h, s, StepOf(ctx, c, m, asked))
    requires s != m.slot ==> Stutters(c, h, s)
    ensures Follows(ctx, c, h, s, Some(m), asked)
  {
    if s == m.slot { assert Legal(ctx, c, s, StepOf(ctx, c, m, asked), Some(m), asked); }
  }

  lemma PrepareFollows(ctx: Ctx, c: CaptainState, m: Msg, asked: set<nat>, s: nat)
    requires m.Prepare?
    ensures Follows(ctx, c, OnPrepareMsg(ctx, c, m), s, Some(m), asked)
  {
    var h := OnPrepareMsg(ctx, c, m);
    PrepareTakes(ctx, c, m, asked);
    GrownAt(c.acceptors, m.slot, h.state.acceptors[m.slot], s);
    assert s != m.slot ==> SlotPackets(h.out, s) == {};
    TakingFollows(ctx, c, h, m, asked, s);
  }

  lemma AcceptFollows(ctx: Ctx, c: CaptainState, m: Msg, asked: set<nat>, s: nat)
    requires m.Accept?
    ensures Follows(ctx, c, OnAcceptMsg(ctx, c, m), s, Some(m), asked)
  {
    var h := OnAcceptMsg(ctx, c, m);
    AcceptTakes(ctx, c, m, asked);
    GrownAt(c.acceptors, m.slot, h.state.acceptors[m.slot], s);
    assert s != m.slot ==> SlotPackets(h.out, s) == {};
    TakingFollows(ctx, c, h, m, asked, s);
  }

  // ---------------------------------------------------------------- proposer side

  /** Replacing a running proposer is seen in its own slot only. */
  lemma TouchAt(c: CaptainState, slot: nat, info: ProposerInfo, s: nat)
    requires slot in c.proposers
    ensures NodeAt(c.(proposers := c.proposers[slot := info]), s)
         == if s == slot then NodeAt(c, s).(role := Running(info.proposer)) else NodeAt(c, s)
  {
  }

  /** What a promise does, as its own slot and the others see it. */
  lemma PromiseTakes(ctx: Ctx, c: CaptainState, m: Msg, asked: set<nat>, s: nat)
    requires CaptainOk(ctx, c) && m.Promise?
    ensures s == m.slot ==> Takes(ctx, c, OnPromiseMsg(ctx, c, m, asked), s, StepOf(ctx, c, m, asked))
    ensures s != m.slot ==> Stutters(c, OnPromiseMsg(ctx, c, m, asked), s)
  {
    var h := OnPromiseMsg(ctx, c, m, asked);
    if m.slot in c.proposers { InfoIsOk(ctx, c, m.slot); }
    if m.slot !in c.proposers || c.proposers[m.slot].status !in {Init, PhaseI} {
      assert SlotPackets(h.out, s) == {};
    } else {
      var info := c.proposers[m.slot];
      var (p, result) := OnPromise(info.proposer, m.src,
        PromiseAck(m.ballot, m.reply, m.maxBallot, m.maxValue), Quorum.Size(ctx.cfg.n));
      TouchAt(c, m.slot, h.state.proposers[m.slot], s);
      if result == Continue {
        BroadcastAt(asked, Accept(ctx.me, m.slot, p.currBallot, p.currValue.value, None), m.slot, s);
      } else if result == AckType.Restart {
        BroadcastAt(asked, Prepare(ctx.me, m.slot, Restarted(p, ctx.me).currBallot), m.slot, s);
      } else {
        assert SlotPackets(h.out, s) == {};
      }
    }
  }

  lemma PromiseFollows(ctx: Ctx, c: CaptainState, m: Msg, asked: set<nat>, s: nat)
    requires CaptainOk(ctx, c) && m.Promise?
    ensures Follows(ctx, c, OnPromiseMsg(ctx, c, m, asked), s, Some(m), asked)
  {
    PromiseTakes(ctx, c, m, asked, s);
    TakingFollows(ctx, c, OnPromiseMsg(ctx, c, m, asked), m, asked, s);
  }

  lemma InfoIsOk(ctx: Ctx, c: CaptainState, slot: nat)
    requires CaptainOk(ctx, c) && slot in c.proposers
    ensures InfoOk(c.proposers[slot])
  {
    assert RunsPlaced(c.proposers[slot], c.placed, slot);
  }

  /** A new slot in phase I is a first step there and unseen elsewhere. */
  lemma BeginAt(ctx: Ctx, c: CaptainState, slot: nat, value: PropValue, client: string, tryTime: nat, asked: set<nat>,
                s: nat)
    ensures var h := BeginSlot(ctx, c, slot, value, client, tryTime, asked);
      if s == slot then
        NodeAt(h.state, s) == NodeSlot(AccAt(c.acceptors, s), Running(Prepared(ctx.me, value)))
        && SlotPackets(h.out, s) == Broadcast(asked, Prepare(ctx.me, slot, Next(ctx.me, 0)))
      else NodeAt(h.state, s) == NodeAt(c, s) && SlotPackets(h.out, s) == {}
  {
    BroadcastAt(asked, Prepare(ctx.me, slot, Next(ctx.me, 0)), slot, s);
  }

  lemma FastAt(ctx: Ctx, c: CaptainState, value: PropValue, client: string, asked: set<nat>, s: nat)
    ensures var h := StartFast(ctx, c, value, client, asked);
      var last := Announce(Started(ctx, c, value, client)).1;
      if s == c.maxSlot + 1 then
        NodeAt(h.state, s) == NodeSlot(AccAt(c.acceptors, s), Running(FastStarted(ctx.me, value)))
        && SlotPackets(h.out, s) == Broadcast(asked, Accept(ctx.me, s, Next(ctx.me, 0), value, last))
      else NodeAt(h.state, s) == NodeAt(c, s) && SlotPackets(h.out, s) == {}
  {
    var last := Announce(Started(ctx, c, value, client)).1;
    BroadcastAt(asked, Accept(ctx.me, c.maxSlot + 1, Next(ctx.me, 0), value, last), c.maxSlot + 1, s);
  }

  lemma FreshSlotIsIdle(c: CaptainState, s: nat)
    requires CoreOk(c) && s > c.maxSlot
    ensures RoleAt(c, s) == Idle
  {
    NewSlotIsFree(c, s);
  }

  /** The slot that a settled proposer leaves, as the slot sees it. */
  lemma SettledAt(c: CaptainState, slot: nat, s: nat)
    requires CoreOk(c) && slot in c.proposers
    ensures slot <= c.maxSlot && slot in c.placed
    ensures var role := if s == slot then Done(c.proposers[slot].proposer.initValue) else RoleAt(c, s);
      RoleAt(Freed(c, slot), s) == role && RoleAt(FreedLost(c, slot), s) == role
  {
    assert RunsPlaced(c.proposers[slot], c.placed, slot);
  }

  /** The node after `h` as the slot it has settled sees it. */
  ghost predicate SettledNode(c: CaptainState, slot: nat, h: Handled)
    requires slot in c.proposers
  {
    && NodeAt(h.state, slot) == NodeSlot(AccAt(c.acceptors, slot), Done(c.proposers[slot].proposer.initValue))
    && SlotPackets(h.out, slot) == {}
  }

  /** What CHOOSE does: the settled slot is done, and at most one new slot begins. */
  lemma ChooseFollows(ctx: Ctx, c: CaptainState, h: Handled, slot: nat, p: ProposerState, tryTime: nat, m: Msg,
                      asked: set<nat>, name: string, s: nat)
    requires CaptainOk(ctx, c) && slot in c.proposers && p.initValue == c.proposers[slot].proposer.initValue
    requires p.currValue.Some? && h == OnChoose(ctx, c, slot, p, tryTime, asked, name)
    ensures s == slot ==> SettledNode(c, slot, h)
    ensures s != slot ==> Follows(ctx, c, h, s, Some(m), asked)
  {
    FreshSlotIsIdle(c, c.maxSlot + 1);
    if p.currValue.value.id == p.initValue.id {
      OwnChosenFollows(ctx, c, h, slot, p.currValue.value, m, asked, s);
    } else {
      OtherChosenFollows(ctx, c, h, slot, p.currValue.value, p.initValue, tryTime + 1, m, asked, name, s);
    }
  }

  lemma OtherChosenFollows(ctx: Ctx, c: CaptainState, h: Handled, slot: nat, value: PropValue, own: PropValue,
                           tryTime: nat, m: Msg, asked: set<nat>, name: string, s: nat)
    requires CaptainOk(ctx, c) && slot in c.proposers
    requires h == BeginSlot(ctx, FreedLost(Learned(c, slot, value), slot), c.maxSlot + 1, own, name, tryTime, asked)
    requires RoleAt(c, c.maxSlot + 1) == Idle
    ensures s == slot ==> SettledNode(c, slot, h)
    ensures s != slot ==> Follows(ctx, c, h, s, Some(m), asked)
  {
    SettledAt(c, slot, s);
    BeginAt(ctx, FreedLost(Learned(c, slot, value), slot), c.maxSlot + 1, own, name, tryTime, asked, s);
    if s == c.maxSlot + 1 {
      var step := BeginPrepare(own, asked);
      assert Legal(ctx, c, s, step, Some(m), asked) && Takes(ctx, c, h, s, step);
    }
  }

  lemma OwnChosenFollows(ctx: Ctx, c: CaptainState, h: Handled, slot: nat, value: PropValue, m: Msg, asked: set<nat>,
                         s: nat)
    requires CaptainOk(ctx, c) && slot in c.proposers && h == OnOwnChosen(ctx, Learned(c, slot, value), slot, asked)
    requires RoleAt(c, c.maxSlot + 1) == Idle
    ensures s == slot ==> SettledNode(c, slot, h)
    ensures s != slot ==> Follows(ctx, c, h, s, Some(m), asked)
  {
    SettledAt(c, slot, s);
    var c1 := Freed(Learned(c, slot, value), slot);
    if c.waiting == [] {
      assert SlotPackets(h.out, s) == {};
    } else {
      FastAt(ctx, Dequeued(c1), c.waiting[0], c.clients[0], asked, s);
      if s == c.maxSlot + 1 {
        var step := BeginFast(c.waiting[0], asked, Announce(Started(ctx, Dequeued(c1), c.waiting[0], c.clients[0])).1);
        assert Legal(ctx, c, s, step, Some(m), asked) && Takes(ctx, c, h, s, step);
      }
    }
  }

  /** An acknowledgement that completes a quorum. */
  lemma SettlingTakes(ctx: Ctx, c: CaptainState, m: Msg, asked: set<nat>, name: string, s: nat)
    requires CaptainOk(ctx, c) && m.Accepted? && m.slot in c.proposers && c.proposers[m.slot].status == PhaseII
    requires OnAccepted(c.proposers[m.slot].proposer, m.src, AcceptAck(m.ballot, m.reply),
      Quorum.Size(ctx.cfg.n)).1 == Choose
    ensures s == m.slot ==> Takes(ctx, c, OnAcceptedMsg(ctx, c, m, asked, name), s, StepOf(ctx, c, m, asked))
    ensures s != m.slot ==> Follows(ctx, c, OnAcceptedMsg(ctx, c, m, asked, name), s, Some(m), asked)
  {
    var h := OnAcceptedMsg(ctx, c, m, asked, name);
    var info := c.proposers[m.slot];
    var p := OnAccepted(info.proposer, m.src, AcceptAck(m.ballot, m.reply), Quorum.Size(ctx.cfg.n)).0;
    ChooseFollows(ctx, c, h, m.slot, p, info.tryTime, m, asked, name, s);
  }

  /** One that does not, or that makes the proposer start again. */
  lemma CountingTakes(ctx: Ctx, c: CaptainState, m: Msg, asked: set<nat>, name: string, s: nat)
    requires m.Accepted? && m.slot in c.proposers && c.proposers[m.slot].status == PhaseII
    requires OnAccepted(c.proposers[m.slot].proposer, m.src, AcceptAck(m.ballot, m.reply),
      Quorum.Size(ctx.cfg.n)).1 != Choose
    ensures s == m.slot ==> Takes(ctx, c, OnAcceptedMsg(ctx, c, m, asked, name), s, StepOf(ctx, c, m, asked))
    ensures s != m.slot ==> Stutters(c, OnAcceptedMsg(ctx, c, m, asked, name), s)
  {
    var h := OnAcceptedMsg(ctx, c, m, asked, name);
    var (p, result) := OnAccepted(c.proposers[m.slot].proposer, m.src, AcceptAck(m.ballot, m.reply),
      Quorum.Size(ctx.cfg.n));
    TouchAt(c, m.slot, h.state.proposers[m.slot], s);
    if result == AckType.Restart {
      BroadcastAt(asked, Prepare(ctx.me, m.slot, Restarted(p, ctx.me).currBallot), m.slot, s);
    } else {
      assert SlotPackets(h.out, s) == {};
    }
  }

  /** What an acknowledgement does, as its own slot and the others see it. */
  lemma AcceptedTakes(ctx: Ctx, c: CaptainState, m: Msg, asked: set<nat>, name: string, s: nat)
    requires CaptainOk(ctx, c) && m.Accepted?
    ensures s == m.slot ==> Takes(ctx, c, OnAcceptedMsg(ctx, c, m, asked, name), s, StepOf(ctx, c, m, asked))
    ensures s != m.slot ==> Follows(ctx, c, OnAcceptedMsg(ctx, c, m, asked, name), s, Some(m), asked)
  {
    if m.slot in c.proposers { InfoIsOk(ctx, c, m.slot); }
    if m.slot !in c.proposers || c.proposers[m.slot].status != PhaseII {
      assert SlotPackets(OnAcceptedMsg(ctx, c, m, asked, name).out, s) == {};
    } else if OnAccepted(c.proposers[m.slot].proposer, m.src, AcceptAck(m.ballot, m.reply),
      Quorum.Size(ctx.cfg.n)).1 == Choose {
      SettlingTakes(ctx, c, m, asked, name, s);
    } else {
      CountingTakes(ctx, c, m, asked, name, s);
    }
  }

  lemma AcceptedFollows(ctx: Ctx, c: CaptainState, m: Msg, asked: set<nat>, name: string, s: nat)
    requires CaptainOk(ctx, c) && m.Accepted?
    ensures Follows(ctx, c, OnAcceptedMsg(ctx, c, m, asked, name), s, Some(m), asked)
  {
    AcceptedTakes(ctx, c, m, asked, name, s);
    if s == m.slot { TakingFollows(ctx, c, OnAcceptedMsg(ctx, c, m, asked, name), m, asked, s); }
  }

  // ---------------------------------------------------------------- all operations

  /** No message is ignored: in its own slot it is handled as the slot protocol handles it, by every node
      that works and whatever the node is doing there. */
  lemma HandleMsgTakes(ctx: Ctx, c: CaptainState, m: Msg, asked: set<nat>, name: string)
    requires CaptainOk(ctx, c) && c.work && IsPaxos(m, m.slot)
    ensures Takes(ctx, c, HandleMsg(ctx, c, m, asked, name), m.slot, StepOf(ctx, c, m, asked))
  {
    match m
    case Prepare(_, _, _) => PrepareTakes(ctx, c, m, asked);
    case Promise(_, _, _, _, _, _) => PromiseTakes(ctx, c, m, asked, m.slot);
    case Accept(_, _, _, _, _) => AcceptTakes(ctx, c, m, asked);
    case Accepted(_, _, _, _) => AcceptedTakes(ctx, c, m, asked, name, m.slot);
  }

  lemma HandleMsgFollows(ctx: Ctx, c: CaptainState, m: Msg, asked: set<nat>, name: string, s: nat)
    requires CaptainOk(ctx, c)
    ensures Follows(ctx, c, HandleMsg(ctx, c, m, asked, name), s, Some(m), asked)
  {
    var h := HandleMsg(ctx, c, m, asked, name);
    if !c.work {
      assert SlotPackets(h.out, s) == {};
    } else {
      match m
      case Prepare(_, _, _) => PrepareFollows(ctx, c, m, asked, s);
      case Promise(_, _, _, _, _, _) => PromiseFollows(ctx, c, m, asked, s);
      case Accept(_, _, _, _, _) => AcceptFollows(ctx, c, m, asked, s);
      case Accepted(_, _, _, _) => AcceptedFollows(ctx, c, m, asked, name, s);
      case _ => assert SlotPackets(h.out, s) == {};
    }
  }

  lemma CommitFollows(ctx: Ctx, c: CaptainState, value: PropValue, client: string, asked: set<nat>, s: nat)
    requires CaptainOk(ctx, c) && ctx.me == ctx.cfg.master
    ensures Follows(ctx, c, Commit(ctx, c, value, client, asked), s, None, asked)
  {
    var h := Commit(ctx, c, value, client, asked);
    if |c.proposers| == ctx.window {
      assert SlotPackets(h.out, s) == {};
    } else {
      var c1 := c.(submitted := c.submitted + [Submission(value, client)]);
      FreshSlotIsIdle(c, c.maxSlot + 1);
      FastAt(ctx, c1, value, client, asked, s);
      if s == c.maxSlot + 1 {
        var step := BeginFast(value, asked, Announce(Started(ctx, c1, value, client)).1);
        assert Legal(ctx, c, s, step, None, asked) && Takes(ctx, c, h, s, step);
      }
    }
  }

  lemma ContendFollows(ctx: Ctx, c: CaptainState, slot: nat, value: PropValue, client: string, asked: set<nat>, s: nat)
    requires CaptainOk(ctx, c) && slot > c.maxSlot
    ensures Follows(ctx, c, Contend(ctx, c, slot, value, client, asked), s, None, asked)
  {
    var h := Contend(ctx, c, slot, value, client, asked);
    FreshSlotIsIdle(c, slot);
    BeginAt(ctx, c.(submitted := h.state.submitted, started := h.state.started), slot, value, client, 1, asked, s);
    if s == slot {
      var step := BeginPrepare(value, asked);
      assert Legal(ctx, c, s, step, None, asked) && Takes(ctx, c, h, s, step);
    }
  }
}
