/** The captain of a node: it owns one acceptor per slot and one proposer per slot it is active in,
    and implements the functions of `Replica` in place. */
module Captains {
  import opened Types
  import opened Collections
  import opened Acceptors
  import opened Proposers
  import opened Ballots
  import opened SlotPaxos
  import opened ChosenLog
  import opened Replica
  import opened Views
  import Quorum

  /** What the captain keeps per active slot. */
  datatype Entry = Entry(tryTime: nat, client: string, proposer: Proposer, status: ProposerStatus)

  /** The slots in a message are real ones: slot 0 has no acceptor and no value. */
  predicate NamesSlots(m: Msg)
  {
    match m
    case Prepare(_, slot, _) => slot >= 1
    case Accept(_, slot, _, _, last) => slot >= 1 && (last.Some? ==> last.value.slot >= 1)
    case Decide(_, slot, _) => slot >= 1
    case _ => true
  }

  /** The acceptor objects are distinct and in the states given. */
  ghost predicate AcceptorsAre(acceptors: seq<Acceptor?>, states: seq<AcceptorState>, accs: set<Acceptor>)
    reads accs
  {
    && |acceptors| == |states| && |acceptors| >= 1 && acceptors[0] == null
    && (forall i :: 1 <= i < |acceptors| ==>
          acceptors[i] != null && acceptors[i] in accs && acceptors[i].State() == states[i])
    && forall i, j :: 1 <= i < j < |acceptors| ==> acceptors[i] != acceptors[j]
  }

  ghost predicate EntryIs(me: nat, q: int, e: Entry, info: ProposerInfo)
    reads e.proposer
  {
    && info == ProposerInfo(e.tryTime, e.client, e.proposer.State(), e.status)
    && e.proposer.me == me && e.proposer.qr == e.proposer.qw == q
  }

  /** The proposer objects are in the states given, and each belongs to one slot only. */
  ghost predicate ProposersAre(me: nat, q: int, proposers: map<nat, Entry>, infos: map<nat, ProposerInfo>,
                               owner: map<Proposer, nat>)
    reads owner.Keys
  {
    && proposers.Keys == infos.Keys
    && forall s :: s in proposers ==> BelongsTo(me, q, proposers[s], infos[s], owner, s)
  }

  ghost predicate BelongsTo(me: nat, q: int, e: Entry, info: ProposerInfo, owner: map<Proposer, nat>, s: nat)
    reads owner.Keys
  {
    e.proposer in owner && owner[e.proposer] == s && EntryIs(me, q, e, info)
  }

  lemma Adds(me: nat, q: int, proposers: map<nat, Entry>, infos: map<nat, ProposerInfo>, owner: map<Proposer, nat>,
             s: nat, e: Entry, info: ProposerInfo)
    requires ProposersAre(me, q, proposers, infos, owner) && EntryIs(me, q, e, info) && e.proposer !in owner
    ensures ProposersAre(me, q, proposers[s := e], infos[s := info], owner[e.proposer := s])
  {
  }

  /** The state in which a promise, or an acceptance, has been counted but not yet acted upon. */
  ghost function HeardPromise(ctx: Ctx, c: CaptainState, m: Msg): (CaptainState, AckType)
    requires m.Promise? && m.slot in c.proposers
  {
    var info := c.proposers[m.slot];
    var (p, result) := OnPromise(info.proposer, m.src,
      PromiseAck(m.ballot, m.reply, m.maxBallot, m.maxValue), Quorum.Size(ctx.cfg.n));
    (c.(proposers := c.proposers[m.slot := info.(proposer := p, status := PhaseI)]), result)
  }

  ghost function HeardAccepted(ctx: Ctx, c: CaptainState, m: Msg): (CaptainState, AckType)
    requires m.Accepted? && m.slot in c.proposers
  {
    var info := c.proposers[m.slot];
    var (p, result) := OnAccepted(info.proposer, m.src, AcceptAck(m.ballot, m.reply), Quorum.Size(ctx.cfg.n));
    (c.(proposers := c.proposers[m.slot := info.(proposer := p)]), result)
  }

  /** What is counted for a proposer that is marked as in phase I already. */
  lemma MarkedIsHeard(ctx: Ctx, c: CaptainState, m: Msg)
    requires m.Promise? && m.slot in c.proposers && c.proposers[m.slot].status in {Init, PhaseI}
    ensures var marked := c.proposers[m.slot].(status := PhaseI);
      var (p, result) := OnPromise(marked.proposer, m.src,
        PromiseAck(m.ballot, m.reply, m.maxBallot, m.maxValue), Quorum.Size(ctx.cfg.n));
      && (c.proposers[m.slot].status == PhaseI ==> c.proposers[m.slot := marked] == c.proposers)
      && (c.(proposers := c.proposers[m.slot := marked][m.slot := marked.(proposer := p)]), result) ==
        HeardPromise(ctx, c, m)
  {
    var marked := c.proposers[m.slot].(status := PhaseI);
    var p := OnPromise(marked.proposer, m.src,
      PromiseAck(m.ballot, m.reply, m.maxBallot, m.maxValue), Quorum.Size(ctx.cfg.n)).0;
    UpdatedTwice(c.proposers, m.slot, marked, marked.(proposer := p));
  }

  /** Counting first and acting then is what the handlers do in one go. */
  lemma PromiseIsHeard(ctx: Ctx, c: CaptainState, m: Msg, asked: set<nat>)
    requires m.Promise? && m.slot in c.proposers && c.proposers[m.slot].status in {Init, PhaseI}
    ensures var (c1, result) := HeardPromise(ctx, c, m);
      && m.slot in c1.proposers
      && (result == Continue ==> c1.proposers[m.slot].proposer.currValue.Some?)
      && OnPromiseMsg(ctx, c, m, asked) == AfterPromise(ctx, c1, m.slot, c1.proposers[m.slot], result, asked)
  {
    var info := HeardPromise(ctx, c, m).0.proposers[m.slot];
    UpdatedTwice(c.proposers, m.slot, info, info.(status := PhaseII));
    UpdatedTwice(c.proposers, m.slot, info, info);
    UpdatedTwice(c.proposers, m.slot, info, info.(proposer := Restarted(info.proposer, ctx.me), status := Init));
  }

  /** What follows once the chosen value is stored and its proposer is gone. */
  ghost function AfterSettling(ctx: Ctx, c: CaptainState, slot: nat, value: PropValue, own: PropValue, name: string,
                               tryTime: nat, asked: set<nat>): Handled
  {
    if value.id == own.id then StartNext(ctx, c, asked)
    else BeginSlot(ctx, c.(lost := c.lost + {slot}), c.maxSlot + 1, own, name, tryTime + 1, asked)
  }

  lemma ChooseCases(ctx: Ctx, c: CaptainState, slot: nat, p: ProposerState, tryTime: nat, asked: set<nat>, name: string)
    requires p.currValue.Some?
    ensures var value := p.currValue.value;
      OnChoose(ctx, c, slot, p, tryTime, asked, name) ==
        AfterSettling(ctx, Freed(Learned(c, slot, value), slot), slot, value, p.initValue, name, tryTime, asked)
  {
  }

  /** A slot that is settled forgets what its proposer had counted. */
  lemma ChooseForgets(ctx: Ctx, c: CaptainState, slot: nat, info: ProposerInfo, asked: set<nat>, name: string)
    requires info.proposer.currValue.Some?
    ensures OnChoose(ctx, c.(proposers := c.proposers[slot := info]), slot, info.proposer, info.tryTime, asked, name)
         == OnChoose(ctx, c, slot, info.proposer, info.tryTime, asked, name)
  {
    var c1 := Learned(c, slot, info.proposer.currValue.value);
    var c2 := Learned(c.(proposers := c.proposers[slot := info]), slot, info.proposer.currValue.value);
    UpdatedRemoved(c.proposers, slot, info);
    assert Freed(c1, slot) == Freed(c2, slot) && FreedLost(c1, slot) == FreedLost(c2, slot);
  }

  lemma AcceptedIsHeard(ctx: Ctx, c: CaptainState, m: Msg, asked: set<nat>, name: string)
    requires m.Accepted? && m.slot in c.proposers && c.proposers[m.slot].status == PhaseII
    ensures var (c1, result) := HeardAccepted(ctx, c, m);
      && m.slot in c1.proposers
      && (result == Choose ==> c1.proposers[m.slot].proposer.currValue.Some?)
      && OnAcceptedMsg(ctx, c, m, asked, name) ==
        AfterAccepted(ctx, c1, m.slot, c1.proposers[m.slot], result, asked, name)
  {
    var result := HeardAccepted(ctx, c, m).1;
    var info := HeardAccepted(ctx, c, m).0.proposers[m.slot];
    if result == Choose {
      ChooseForgets(ctx, c, m.slot, info, asked, name);
    } else {
      UpdatedTwice(c.proposers, m.slot, info, info);
      UpdatedTwice(c.proposers, m.slot, info, info.(proposer := Restarted(info.proposer, ctx.me), status := Init));
    }
  }

  /** What a request does, what an acknowledgement does, and what the messages do that only concern the log. */
  ghost function OnRequest(ctx: Ctx, c: CaptainState, m: Msg): Handled
    requires m.Prepare? || m.Accept?
  {
    if m.Prepare? then OnPrepareMsg(ctx, c, m) else OnAcceptMsg(ctx, c, m)
  }

  ghost function OnAck(ctx: Ctx, c: CaptainState, m: Msg, asked: set<nat>, name: string): Handled
    requires m.Promise? || m.Accepted?
  {
    if m.Promise? then OnPromiseMsg(ctx, c, m, asked) else OnAcceptedMsg(ctx, c, m, asked, name)
  }

  ghost function OnNews(ctx: Ctx, c: CaptainState, m: Msg): Handled
    requires m.Decide? || m.Learn? || m.Teach? || m.LogData?
  {
    match m
    case Decide(_, _, _) => OnDecideMsg(ctx, c, m)
    case Learn(_, _) => OnLearnMsg(ctx, c, m)
    case Teach(_, _, _) => OnTeachMsg(c, m)
    case LogData(_, _) => Handled(c, {})
  }

  ghost function OnMsg(ctx: Ctx, c: CaptainState, m: Msg, asked: set<nat>, name: string): Handled
  {
    if m.Prepare? || m.Accept? then OnRequest(ctx, c, m)
    else if m.Promise? || m.Accepted? then OnAck(ctx, c, m, asked, name)
    else OnNews(ctx, c, m)
  }

  lemma Dispatched(ctx: Ctx, c: CaptainState, m: Msg, asked: set<nat>, name: string)
    requires c.work
    ensures Replica.HandleMsg(ctx, c, m, asked, name) == OnMsg(ctx, c, m, asked, name)
  {
  }

  /** Starting a slot is placing the value and then announcing and asking. */
  lemma StartsThenAsks(ctx: Ctx, c: CaptainState, value: PropValue, client: string, asked: set<nat>)
    ensures var p, (c', last) := FastStarted(ctx.me, value), Announce(Started(ctx, c, value, client));
      StartFast(ctx, c, value, client, asked) ==
        Handled(c', Broadcast(asked, Accept(ctx.me, c.maxSlot + 1, p.currBallot, p.currValue.value, last)))
  {
  }

  /** The object stands for `State()`; the ghost fields are the states of the objects it owns, who
      owns them, and the history that `Replica.CaptainState` records. */
  class Captain {
    const ctx: Ctx
    const view: View
    const commo: Commo
    var acceptors: seq<Acceptor?>
    var proposers: map<nat, Entry>
    var chosenValues: seq<Option<PropValue>>
    var maxChosen: nat
    var maxChosenWithoutHole: nat
    var waiting: seq<PropValue>
    var clients: seq<string>
    var maxSlot: nat
    var lastSlot: nat
    var valueId: nat
    var work: bool

    ghost var accs: set<Acceptor>
    ghost var accStates: seq<AcceptorState>
    ghost var owner: map<Proposer, nat>
    ghost var infos: map<nat, ProposerInfo>
    ghost var delivered: seq<Delivery>
    ghost var placed: map<nat, PropValue>
    ghost var lost: set<nat>
    ghost var fast: set<nat>
    ghost var submitted: seq<Submission>
    ghost var started: seq<Submission>
    ghost var announced: seq<Announcement>

    ghost function CurrentLog(): Log
      reads this
      requires LogOk()
    {
      Log(chosenValues, maxChosen, maxChosenWithoutHole, delivered)
    }

    ghost function State(): CaptainState
      reads this
      requires LogOk()
    {
      CaptainState(accStates, infos, CurrentLog(), waiting, clients, maxSlot, lastSlot, valueId, work,
                   placed, lost, fast, submitted, started, announced)
    }

    ghost predicate LogOk()
      reads `chosenValues, `maxChosen
    {
      |chosenValues| == maxChosen + 1
    }

    ghost predicate AcceptorsOk()
      reads `acceptors, `accs, `accStates, accs
    {
      AcceptorsAre(acceptors, accStates, accs)
    }

    ghost predicate ProposersOk()
      reads `proposers, `infos, `owner, owner.Keys
    {
      ProposersAre(ctx.me, Quorum.Size(ctx.cfg.n), proposers, infos, owner)
    }

    ghost predicate ViewOk()
    {
      commo.view == view && view.qSize == Quorum.Size(ctx.cfg.n)
    }

    /** The view is that of a node of this cluster with this master. */
    ghost predicate ViewFits()
      reads view
    {
      view.Valid() && view.size == ctx.cfg.n && view.nodeId == ctx.me && view.masterId == ctx.cfg.master
    }

    ghost predicate Valid()
      reads this, view, accs, owner.Keys
    {
      AcceptorsOk() && ProposersOk() && LogOk() && ViewOk() && |waiting| == |clients| && ViewFits()
    }

    /** So a broadcast asks nodes of the cluster only, and the node takes itself for the master if it is. */
    lemma FitsCluster()
      requires Valid()
      ensures view.Asked() <= Quorum.Nodes(ctx.cfg.n)
      ensures view.IfMaster() <==> ctx.me == ctx.cfg.master
    {
      view.AskedAreNodes();
    }

    /** Slots 1..length start promised to the master's first ballot. */
    constructor (view: View, window: nat)
      requires view.Valid()
      ensures Valid() && fresh(accs) && owner == map[] && this.view == view
      ensures ctx == Ctx(Config(view.size, view.masterId, view.length), view.nodeId, window)
      ensures State() == Initial(ctx)
    {
      ctx := Ctx(Config(view.size, view.masterId, view.length), view.nodeId, window);
      this.view := view;
      commo := new Commo(view);
      acceptors, proposers, chosenValues := [null], map[], [None];
      maxChosen, maxChosenWithoutHole, maxSlot, lastSlot, valueId := 0, 0, 0, 0, view.nodeId;
      waiting, clients, work := [], [], true;
      accs, accStates, owner, infos := {}, [FRESH], map[], map[];
      delivered, placed, lost, fast, submitted, started, announced := [], map[], {}, {}, [], [], [];
      new;
      assert State().(acceptors := Initial(ctx).acceptors) == Initial(ctx);
      PrePromise(STEP + view.masterId);
    }

    /** The acceptors of slots 1..length, promised to ballot `maxId`. */
    method PrePromise(maxId: nat)
      requires AcceptorsOk() && accStates == [FRESH]
      modifies `acceptors, `accs, `accStates
      ensures AcceptorsOk() && fresh(accs - old(accs))
      ensures accStates == [FRESH] + seq(view.length, _ => FRESH.(maxProposed := maxId))
    {
      for i := 1 to view.length + 1
        invariant AcceptorsOk() && |acceptors| == i && fresh(accs - old(accs))
        invariant accStates == [FRESH] + seq(i - 1, _ => FRESH.(maxProposed := maxId))
      {
        var a := new Acceptor();
        a.UpdateMaxProposed(maxId);
        acceptors, accs := acceptors + [a], accs + {a};
        accStates := accStates + [FRESH.(maxProposed := maxId)];
        assert accStates == [FRESH] + seq(i, _ => FRESH.(maxProposed := maxId));
      }
    }

    // -------------------------------------------------------------- acceptor side

    /** New acceptors up to `slot`. */
    method GrowAcceptors(slot: nat)
      requires AcceptorsOk()
      modifies `acceptors, `accs, `accStates
      ensures AcceptorsOk() && slot < |acceptors| && fresh(accs - old(accs))
      ensures accStates == Grown(old(accStates), slot)
    {
      assert accStates + seq(0, _ => FRESH) == accStates;
      while |acceptors| <= slot
        invariant AcceptorsOk() && |acceptors| >= old(|acceptors|) && fresh(accs - old(accs))
        invariant |acceptors| > slot ==> |acceptors| == if old(|acceptors|) > slot then old(|acceptors|) else slot + 1
        invariant accStates == old(accStates) + seq(|acceptors| - old(|acceptors|), _ => FRESH)
        decreases slot + 1 - |acceptors|
      {
        var a := new Acceptor();
        acceptors, accs := acceptors + [a], accs + {a};
        accStates := accStates + [FRESH];
        assert accStates == old(accStates) + seq(|acceptors| - old(|acceptors|), _ => FRESH);
      }
    }

    method AnswerPrepare(m: Msg) returns (ack: Msg)
      requires AcceptorsOk() && m.Prepare? && m.slot >= 1
      modifies `acceptors, `accs, `accStates, accs
      ensures AcceptorsOk() && fresh(accs - old(accs))
      ensures var grown := Grown(old(accStates), m.slot);
        && accStates == grown[m.slot := OnPrepare(grown[m.slot], m.ballot)]
        && ack == PromiseReply(grown[m.slot], ctx.me, m.slot, m.ballot)
    {
      GrowAcceptors(m.slot);
      ack := acceptors[m.slot].HandleMsgPrepare(ctx.me, m);
      accStates := accStates[m.slot := OnPrepare(accStates[m.slot], m.ballot)];
    }

    method AnswerAccept(m: Msg) returns (ack: Msg)
      requires AcceptorsOk() && m.Accept? && m.slot >= 1
      modifies `acceptors, `accs, `accStates, accs
      ensures AcceptorsOk() && fresh(accs - old(accs))
      ensures var grown := Grown(old(accStates), m.slot);
        && accStates == grown[m.slot := OnAccept(grown[m.slot], m.ballot, m.value)]
        && ack == AcceptReply(grown[m.slot], ctx.me, m.slot, m.ballot)
    {
      GrowAcceptors(m.slot);
      ack := acceptors[m.slot].HandleMsgAccept(ctx.me, m);
      accStates := accStates[m.slot := OnAccept(accStates[m.slot], m.ballot, m.value)];
    }

    method HandlePrepare(m: Msg) returns (out: set<Packet>)
      requires AcceptorsOk() && LogOk() && m.Prepare? && m.slot >= 1
      modifies `acceptors, `accs, `accStates, accs
      ensures AcceptorsOk() && fresh(accs - old(accs))
      ensures Handled(State(), out) == OnPrepareMsg(ctx, old(State()), m)
    {
      var ack := AnswerPrepare(m);
      out := {Packet(m.src, ack)};
    }

    /** The value that the acceptor of `slot` stores, if it is the one with this id. */
    method StoredValue(slot: nat, id: nat) returns (v: Option<PropValue>)
      requires AcceptorsOk() && slot >= 1
      ensures v == if Stores(accStates, slot, id) then accStates[slot].maxValue else None
    {
      v := None;
      if |acceptors| > slot {
        var stored := acceptors[slot].GetMaxValue();
        if stored.Some? && stored.value.id == id {
          v := stored;
        }
      }
    }

    method HandleAnnouncement(last: Announcement, ack: Packet) returns (out: set<Packet>)
      requires AcceptorsOk() && LogOk() && last.slot >= 1
      modifies `chosenValues, `maxChosen, `maxChosenWithoutHole, `delivered
      ensures AcceptorsOk() && LogOk()
      ensures Handled(State(), out) == OnAnnouncement(ctx, old(State()), last, ack)
    {
      if maxChosen >= last.slot && chosenValues[last.slot].Some? {
        return {};
      }
      out := {ack};
      var v := StoredValue(last.slot, last.id);
      if v.Some? {
        AddChosenValue(last.slot, v.value);
        out := {ack, Packet(ctx.me, LogData(last.slot, chosenValues[last.slot].value))};
      }
    }

    method HandleAccept(m: Msg) returns (out: set<Packet>)
      requires AcceptorsOk() && LogOk() && m.Accept? && NamesSlots(m)
      modifies `acceptors, `accs, `accStates, `chosenValues, `maxChosen, `maxChosenWithoutHole, `delivered, accs
      ensures AcceptorsOk() && LogOk() && fresh(accs - old(accs))
      ensures Handled(State(), out) == OnAcceptMsg(ctx, old(State()), m)
    {
      var ack := AnswerAccept(m);
      out := {Packet(m.src, ack)};
      if m.src != ctx.me && m.last.Some? {
        out := HandleAnnouncement(m.last.value, Packet(m.src, ack));
      }
    }

    // -------------------------------------------------------------- the log

    method AddChosenValue(slot: nat, value: PropValue)
      requires LogOk()
      modifies `chosenValues, `maxChosen, `maxChosenWithoutHole, `delivered
      ensures LogOk() && State() == Learned(old(State()), slot, value)
      ensures !Has(old(CurrentLog()), slot) ==> slot < |chosenValues| && chosenValues[slot] == Some(value)
    {
      StoreValue(slot, value);
      AddCallback();
    }

    /** Fills a hole, or grows the log up to the slot; a value that is there already stays. */
    method StoreValue(slot: nat, value: PropValue)
      requires LogOk()
      modifies `chosenValues, `maxChosen
      ensures LogOk() && CurrentLog() == Store(old(CurrentLog()), slot, value)
    {
      if slot <= maxChosen {
        if chosenValues[slot].None? {
          chosenValues := chosenValues[slot := Some(value)];
        }
      } else {
        for i := maxChosen + 1 to slot
          invariant chosenValues == old(chosenValues) + seq(i - maxChosen - 1, _ => None)
          modifies `chosenValues
        {
          chosenValues := chosenValues + [None];
        }
        chosenValues := chosenValues + [Some(value)];
        maxChosen := slot;
      }
    }

    /** Calls back every slot that has become part of the gap-free prefix. */
    method AddCallback()
      requires LogOk()
      modifies `maxChosenWithoutHole, `delivered
      ensures CurrentLog() == Advance(old(CurrentLog()))
    {
      while maxChosenWithoutHole < maxChosen
        invariant Advance(CurrentLog()) == Advance(old(CurrentLog()))
        decreases maxChosen - maxChosenWithoutHole
      {
        var value := chosenValues[maxChosenWithoutHole + 1];
        if value.None? {
          break;
        }
        maxChosenWithoutHole := maxChosenWithoutHole + 1;
        delivered := delivered + [Delivery(maxChosenWithoutHole, value.value)];
      }
    }

    // -------------------------------------------------------------- proposer side

    method SetStatus(slot: nat, status: ProposerStatus)
      requires ProposersOk() && LogOk() && slot in infos
      modifies `proposers, `infos
      ensures State() == old(State()).(proposers := infos)
      ensures infos == old(infos)[slot := old(infos)[slot].(status := status)]
      ensures ProposersOk()
    {
      proposers := proposers[slot := proposers[slot].(status := status)];
      infos := infos[slot := infos[slot].(status := status)];
    }

    /** The proposer object counts the promise. */
    method CountPromise(m: Msg) returns (result: AckType)
      requires ProposersOk() && LogOk() && m.Promise? && m.slot in infos
      modifies `infos, owner.Keys
      ensures State() == old(State()).(proposers := infos)
      ensures var info := old(infos)[m.slot];
        var (p, r) := OnPromise(info.proposer, m.src,
          PromiseAck(m.ballot, m.reply, m.maxBallot, m.maxValue), Quorum.Size(ctx.cfg.n));
        infos == old(infos)[m.slot := info.(proposer := p)] && result == r
      ensures ProposersOk()
    {
      var e := proposers[m.slot];
      result := e.proposer.HandleMsgPromise(m);
      infos := infos[m.slot := infos[m.slot].(proposer := e.proposer.State())];
    }

    /** A promise for a proposer in phase I is counted. */
    method HearPromise(m: Msg) returns (result: AckType)
      requires ProposersOk() && LogOk() && m.Promise? && m.slot in infos && infos[m.slot].status in {Init, PhaseI}
      modifies `proposers, `infos, owner.Keys
      ensures (State(), result) == HeardPromise(ctx, old(State()), m)
      ensures ProposersOk()
    {
      MarkedIsHeard(ctx, State(), m);
      if proposers[m.slot].status == Init {
        SetStatus(m.slot, PhaseI);
      }
      result := CountPromise(m);
    }

    /** The accept request with which phase II begins. */
    method EnterPhaseII(slot: nat) returns (m: Msg)
      requires ProposersOk() && LogOk() && slot in proposers && infos[slot].proposer.currValue.Some?
      modifies `proposers, `infos
      ensures ProposersOk()
      ensures var info := old(infos)[slot];
        && infos == old(infos)[slot := info.(status := PhaseII)]
        && m == Accept(ctx.me, slot, info.proposer.currBallot, info.proposer.currValue.value, None)
    {
      var e := proposers[slot];
      m := e.proposer.MsgAccept(slot, None);
      SetStatus(slot, PhaseII);
    }

    /** A higher ballot for the proposer of `slot`, and its prepare request. */
    method RestartPrepare(slot: nat) returns (m: Msg)
      requires ProposersOk() && slot in proposers
      modifies `proposers, `infos, owner.Keys
      ensures ProposersOk()
      ensures var info := old(infos)[slot];
        var p := Restarted(info.proposer, ctx.me);
        && infos == old(infos)[slot := info.(proposer := p, status := Init)]
        && m == Prepare(ctx.me, slot, p.currBallot)
    {
      var e := proposers[slot];
      m := e.proposer.RestartMsgPrepare(slot);
      proposers := proposers[slot := e.(status := Init)];
      infos := infos[slot := infos[slot].(proposer := e.proposer.State(), status := Init)];
    }

    /** Phase II begins in `slot`. */
    method Continue(slot: nat) returns (out: set<Packet>)
      requires ProposersOk() && LogOk() && ViewOk() && slot in proposers && infos[slot].proposer.currValue.Some?
      modifies `proposers, `infos
      ensures ProposersOk()
      ensures Handled(State(), out) ==
        AfterPromise(ctx, old(State()), slot, old(infos)[slot], AckType.Continue, view.Asked())
    {
      var accept := EnterPhaseII(slot);
      out := commo.BroadcastMsg(accept);
    }

    /** Phase I begins again in `slot`. */
    method Restart(slot: nat) returns (out: set<Packet>)
      requires ProposersOk() && LogOk() && ViewOk() && slot in proposers
      modifies `proposers, `infos, owner.Keys
      ensures ProposersOk()
      ensures Handled(State(), out) == RestartSlot(ctx, old(State()), slot, old(infos)[slot], view.Asked())
    {
      var prepare := RestartPrepare(slot);
      out := commo.BroadcastMsg(prepare);
    }

    /** What follows once the promise has been counted. */
    method ActOnPromise(slot: nat, result: AckType) returns (out: set<Packet>)
      requires ProposersOk() && LogOk() && ViewOk() && slot in proposers
      requires result == AckType.Continue ==> infos[slot].proposer.currValue.Some?
      modifies `proposers, `infos, owner.Keys
      ensures ProposersOk()
      ensures Handled(State(), out) == AfterPromise(ctx, old(State()), slot, old(infos)[slot], result, view.Asked())
    {
      out := {};
      if result == AckType.Continue {
        out := Continue(slot);
      } else if result == AckType.Restart {
        out := Restart(slot);
      } else {
        assert infos == infos[slot := infos[slot]];
      }
    }

    method HandlePromise(m: Msg) returns (out: set<Packet>)
      requires ProposersOk() && LogOk() && ViewOk() && m.Promise?
      modifies `proposers, `infos, owner.Keys
      ensures ProposersOk()
      ensures Handled(State(), out) == OnPromiseMsg(ctx, old(State()), m, view.Asked())
    {
      if m.slot !in proposers || proposers[m.slot].status !in {Init, PhaseI} {
        return {};
      }
      PromiseIsHeard(ctx, State(), m, view.Asked());
      var result := HearPromise(m);
      out := ActOnPromise(m.slot, result);
    }

    // -------------------------------------------------------------- new slots

    /** The next settled slot to piggyback on an accept request, if it is known. */
    method AnnounceNext() returns (last: Option<Announcement>)
      requires LogOk()
      modifies `lastSlot, `announced
      ensures (State(), last) == Announce(old(State()))
    {
      last := None;
      if maxChosen > lastSlot && chosenValues[lastSlot + 1].Some? {
        lastSlot := lastSlot + 1;
        last := Some(Announcement(lastSlot, chosenValues[lastSlot].value.id));
        announced := announced + [last.value];
      }
    }

    /** The entry of a new proposer object. */
    method Install(slot: nat, e: Entry, ghost info: ProposerInfo)
      requires ProposersOk() && EntryIs(ctx.me, Quorum.Size(ctx.cfg.n), e, info) && e.proposer !in owner
      modifies `proposers, `owner, `infos
      ensures infos == old(infos)[slot := info] && owner.Keys == old(owner.Keys) + {e.proposer}
      ensures ProposersOk()
    {
      Adds(ctx.me, Quorum.Size(ctx.cfg.n), proposers, infos, owner, slot, e, info);
      proposers, infos, owner := proposers[slot := e], infos[slot := info], owner[e.proposer := slot];
    }

    /** The next slot is for `value`. */
    method NextSlot(value: PropValue)
      requires LogOk()
      modifies `maxSlot, `placed
      ensures State() == old(State()).(maxSlot := maxSlot, placed := placed)
      ensures maxSlot == old(maxSlot) + 1 && placed == old(placed)[maxSlot := value]
    {
      maxSlot := maxSlot + 1;
      placed := placed[maxSlot := value];
    }

    /** The next slot, with a new proposer object for `value` in it. */
    method AddSlot(value: PropValue, e: Entry, ghost info: ProposerInfo)
      requires ProposersOk() && LogOk() && EntryIs(ctx.me, Quorum.Size(ctx.cfg.n), e, info) && e.proposer !in owner
      modifies `proposers, `owner, `infos, `maxSlot, `placed
      ensures State() == old(State()).(maxSlot := maxSlot, proposers := infos, placed := placed)
      ensures maxSlot == old(maxSlot) + 1 && placed == old(placed)[maxSlot := value]
      ensures infos == old(infos)[maxSlot := info] && owner.Keys == old(owner.Keys) + {e.proposer}
      ensures ProposersOk()
    {
      NextSlot(value);
      Install(maxSlot, e, info);
    }

    /** A proposer object that goes straight to phase II. */
    method FastProposer(value: PropValue, client: string) returns (e: Entry)
      requires ViewOk()
      ensures fresh(e.proposer)
      ensures EntryIs(ctx.me, Quorum.Size(ctx.cfg.n), e, ProposerInfo(1, client, FastStarted(ctx.me, value), PhaseII))
    {
      var p := new Proposer(ctx.me, view.qSize, value);
      var ballot := p.GenNextBallot();
      p.InitCurrValue();
      e := Entry(1, client, p, PhaseII);
    }

    /** A proposer object with its first prepare request for `slot`. */
    method PreparedProposer(slot: nat, value: PropValue, client: string, tryTime: nat) returns (e: Entry, m: Msg)
      requires ViewOk()
      ensures fresh(e.proposer)
      ensures EntryIs(ctx.me, Quorum.Size(ctx.cfg.n), e, ProposerInfo(tryTime, client, Prepared(ctx.me, value), Init))
      ensures m == Prepare(ctx.me, slot, Next(ctx.me, 0))
    {
      var p := new Proposer(ctx.me, view.qSize, value);
      m := p.MsgPrepare(slot);
      e := Entry(tryTime, client, p, Init);
    }

    /** A proposer in phase II for `value`, in the next slot. */
    method AddFast(value: PropValue, client: string)
      requires ProposersOk() && LogOk() && ViewOk()
      modifies `proposers, `owner, `infos, `maxSlot, `placed
      ensures ProposersOk() && fresh(owner.Keys - old(owner.Keys))
      ensures maxSlot == old(maxSlot) + 1 && placed == old(placed)[maxSlot := value]
      ensures infos == old(infos)[maxSlot := ProposerInfo(1, client, FastStarted(ctx.me, value), PhaseII)]
      ensures State() == old(State()).(maxSlot := maxSlot, proposers := infos, placed := placed)
    {
      var e := FastProposer(value, client);
      AddSlot(value, e, ProposerInfo(1, client, FastStarted(ctx.me, value), PhaseII));
    }

    /** A proposer in phase I for `value`, in the next slot. */
    method AddPrepared(value: PropValue, client: string, tryTime: nat) returns (m: Msg)
      requires ProposersOk() && LogOk() && ViewOk()
      modifies `proposers, `owner, `infos, `maxSlot, `placed
      ensures ProposersOk() && fresh(owner.Keys - old(owner.Keys))
      ensures maxSlot == old(maxSlot) + 1 && placed == old(placed)[maxSlot := value]
      ensures infos == old(infos)[maxSlot := ProposerInfo(tryTime, client, Prepared(ctx.me, value), Init)]
      ensures State() == old(State()).(maxSlot := maxSlot, proposers := infos, placed := placed)
      ensures m == Prepare(ctx.me, maxSlot, Next(ctx.me, 0))
    {
      var e;
      e, m := PreparedProposer(maxSlot + 1, value, client, tryTime);
      AddSlot(value, e, ProposerInfo(tryTime, client, Prepared(ctx.me, value), Init));
    }

    /** A proposer in phase II for `value`, in the next slot: its value has not had a slot before. */
    method StartProposer(value: PropValue, client: string)
      requires ProposersOk() && LogOk() && ViewOk()
      modifies `proposers, `owner, `infos, `maxSlot, `placed, `fast, `started
      ensures State() == Started(ctx, old(State()), value, client)
      ensures fresh(owner.Keys - old(owner.Keys))
      ensures ProposersOk()
      ensures maxSlot in infos && infos[maxSlot].proposer == FastStarted(ctx.me, value)
    {
      AddFast(value, client);
      fast, started := fast + {maxSlot}, started + [Submission(value, client)];
    }

    /** Broadcasts the accept request of the newest slot, with the next announcement. */
    method AnnounceAndAccept() returns (out: set<Packet>)
      requires ProposersOk() && LogOk() && ViewOk() && maxSlot in infos && infos[maxSlot].proposer.currValue.Some?
      modifies `lastSlot, `announced
      ensures var p, (c, last) := infos[maxSlot].proposer, Announce(old(State()));
        State() == c && out == Broadcast(view.Asked(), Accept(ctx.me, maxSlot, p.currBallot, p.currValue.value, last))
      ensures ProposersOk()
    {
      var p := proposers[maxSlot].proposer;
      var last := AnnounceNext();
      var m := p.MsgAccept(maxSlot, last);
      out := commo.BroadcastMsg(m);
    }

    /** Starts a slot for `value` and broadcasts its accept request. */
    method StartSlot(value: PropValue, client: string) returns (out: set<Packet>)
      requires ProposersOk() && LogOk() && ViewOk()
      modifies `proposers, `owner, `infos, `maxSlot, `lastSlot, `announced, `placed, `fast, `started
      ensures Handled(State(), out) == StartFast(ctx, old(State()), value, client, view.Asked())
      ensures fresh(owner.Keys - old(owner.Keys))
      ensures ProposersOk()
    {
      StartsThenAsks(ctx, State(), value, client, view.Asked());
      StartProposer(value, client);
      out := AnnounceAndAccept();
    }

    method PrepareSlot(value: PropValue, client: string, tryTime: nat) returns (out: set<Packet>)
      requires ProposersOk() && LogOk() && ViewOk()
      modifies `proposers, `owner, `infos, `maxSlot, `placed
      ensures Handled(State(), out) ==
        BeginSlot(ctx, old(State()), old(State()).maxSlot + 1, value, client, tryTime, view.Asked())
      ensures fresh(owner.Keys - old(owner.Keys))
      ensures ProposersOk()
    {
      var m := AddPrepared(value, client, tryTime);
      out := commo.BroadcastMsg(m);
    }

    // -------------------------------------------------------------- a slot is settled

    method HearAccepted(m: Msg) returns (result: AckType)
      requires ProposersOk() && LogOk() && m.Accepted? && m.slot in infos
      modifies `infos, owner.Keys
      ensures (State(), result) == HeardAccepted(ctx, old(State()), m)
      ensures ProposersOk()
    {
      var e := proposers[m.slot];
      result := e.proposer.HandleMsgAccepted(m);
      infos := infos[m.slot := infos[m.slot].(proposer := e.proposer.State())];
    }

    method Erase(slot: nat)
      requires ProposersOk()
      modifies `proposers, `infos
      ensures ProposersOk() && infos == old(infos) - {slot}
    {
      proposers, infos := proposers - {slot}, infos - {slot};
    }

    /** The proposer of `slot` is done with the value it has got chosen. */
    method Settle(slot: nat, value: PropValue)
      requires ProposersOk() && LogOk() && slot in proposers
      modifies `proposers, `infos, `chosenValues, `maxChosen, `maxChosenWithoutHole, `delivered
      ensures LogOk() && State() == Freed(Learned(old(State()), slot, value), slot)
      ensures ProposersOk()
    {
      AddChosenValue(slot, value);
      Erase(slot);
    }

    method Dequeue() returns (value: PropValue, client: string)
      requires LogOk() && waiting != [] && |waiting| == |clients|
      modifies `waiting, `clients
      ensures State() == Dequeued(old(State())) && value == old(waiting)[0] && client == old(clients)[0]
    {
      value, client := waiting[0], clients[0];
      waiting, clients := waiting[1..], clients[1..];
    }

    /** The value first in line gets a slot. */
    method CommitNext() returns (out: set<Packet>)
      requires ProposersOk() && LogOk() && ViewOk() && |waiting| == |clients|
      modifies `proposers, `owner, `infos, `maxSlot, `lastSlot, `announced, `placed, `fast, `started, `waiting, `clients
      ensures Handled(State(), out) == StartNext(ctx, old(State()), view.Asked())
      ensures fresh(owner.Keys - old(owner.Keys))
      ensures ProposersOk() && |waiting| == |clients|
    {
      out := {};
      if waiting != [] {
        var value, client := Dequeue();
        out := StartSlot(value, client);
      }
    }

    /** The slot has gone to another value: the proposer's own value gets a new one. */
    method Recommit(slot: nat, value: PropValue, name: string, tryTime: nat) returns (out: set<Packet>)
      requires ProposersOk() && LogOk() && ViewOk()
      modifies `proposers, `owner, `infos, `maxSlot, `placed, `lost
      ensures var c := old(State());
        Handled(State(), out) == BeginSlot(ctx, c.(lost := c.lost + {slot}), c.maxSlot + 1, value,
          name, tryTime, view.Asked())
      ensures fresh(owner.Keys - old(owner.Keys))
      ensures ProposersOk()
    {
      lost := lost + {slot};
      out := PrepareSlot(value, name, tryTime);
    }

    method ValuesAt(slot: nat) returns (current: PropValue, own: PropValue, tryTime: nat)
      requires ProposersOk() && slot in proposers && infos[slot].proposer.currValue.Some?
      ensures var info := infos[slot];
        current == info.proposer.currValue.value && own == info.proposer.initValue && tryTime == info.tryTime
    {
      var e := proposers[slot];
      current, own, tryTime := e.proposer.currValue.value, e.proposer.initValue, e.tryTime;
    }

    /** Moves on after `slot` was settled on `value`: with the next value, or with its own in a new slot
        if the slot has gone to another one. */
    method MoveOn(slot: nat, value: PropValue, own: PropValue, name: string, tryTime: nat) returns (out: set<Packet>)
      requires ProposersOk() && LogOk() && ViewOk() && |waiting| == |clients| && slot in proposers
      modifies `proposers, `owner, `infos, `chosenValues, `maxChosen, `maxChosenWithoutHole, `delivered
      modifies `maxSlot, `lastSlot, `announced, `placed, `fast, `started, `lost, `waiting, `clients
      ensures LogOk()
      ensures Handled(State(), out) ==
        AfterSettling(ctx, Freed(Learned(old(State()), slot, value), slot), slot, value, own,
          name, tryTime, view.Asked())
      ensures fresh(owner.Keys - old(owner.Keys))
      ensures ProposersOk() && |waiting| == |clients|
    {
      Settle(slot, value);
      if value.id == own.id {
        out := CommitNext();
      } else {
        out := Recommit(slot, own, name, tryTime + 1);
      }
    }

    method HandleChoose(slot: nat, name: string) returns (out: set<Packet>)
      requires ProposersOk() && LogOk() && ViewOk() && |waiting| == |clients| && slot in proposers
      requires infos[slot].proposer.currValue.Some?
      modifies `proposers, `owner, `infos, `chosenValues, `maxChosen, `maxChosenWithoutHole, `delivered
      modifies `maxSlot, `lastSlot, `announced, `placed, `fast, `started, `lost, `waiting, `clients
      ensures LogOk()
      ensures var info := old(infos)[slot];
        Handled(State(), out) == OnChoose(ctx, old(State()), slot, info.proposer, info.tryTime, view.Asked(), name)
      ensures fresh(owner.Keys - old(owner.Keys))
      ensures ProposersOk() && |waiting| == |clients|
    {
      ChooseCases(ctx, State(), slot, infos[slot].proposer, infos[slot].tryTime, view.Asked(), name);
      var chosenValue, initValue, tryTime := ValuesAt(slot);
      out := MoveOn(slot, chosenValue, initValue, name, tryTime);
    }

    /** What follows once the acknowledgement has been counted. */
    method ActOnAccepted(slot: nat, result: AckType, name: string) returns (out: set<Packet>)
      requires ProposersOk() && LogOk() && ViewOk() && |waiting| == |clients| && slot in proposers
      requires result == Choose ==> infos[slot].proposer.currValue.Some?
      modifies `proposers, `owner, `infos, `chosenValues, `maxChosen, `maxChosenWithoutHole, `delivered
      modifies `maxSlot, `lastSlot, `announced, `placed, `fast, `started, `lost, `waiting, `clients, owner.Keys
      ensures LogOk()
      ensures Handled(State(), out) == AfterAccepted(ctx, old(State()), slot, old(infos)[slot],
        result, view.Asked(), name)
      ensures fresh(owner.Keys - old(owner.Keys))
      ensures ProposersOk() && |waiting| == |clients|
    {
      out := {};
      if result == Choose {
        out := HandleChoose(slot, name);
      } else if result == AckType.Restart {
        out := Restart(slot);
      } else {
        assert infos == infos[slot := infos[slot]];
      }
    }

    method HandleAccepted(m: Msg, name: string) returns (out: set<Packet>)
      requires ProposersOk() && LogOk() && ViewOk() && |waiting| == |clients| && m.Accepted?
      modifies `proposers, `owner, `infos, `chosenValues, `maxChosen, `maxChosenWithoutHole, `delivered
      modifies `maxSlot, `lastSlot, `announced, `placed, `fast, `started, `lost, `waiting, `clients, owner.Keys
      ensures LogOk()
      ensures Handled(State(), out) == OnAcceptedMsg(ctx, old(State()), m, view.Asked(), name)
      ensures fresh(owner.Keys - old(owner.Keys))
      ensures ProposersOk() && |waiting| == |clients|
    {
      if m.slot !in proposers || proposers[m.slot].status != PhaseII {
        return {};
      }
      AcceptedIsHeard(ctx, State(), m, view.Asked(), name);
      var result := HearAccepted(m);
      out := ActOnAccepted(m.slot, result, name);
    }

    // -------------------------------------------------------------- submissions

    method Enqueue(value: PropValue, client: string)
      requires LogOk() && |waiting| == |clients|
      modifies `waiting, `clients
      ensures State() == old(State()).(waiting := old(waiting) + [value], clients := old(clients) + [client])
    {
      waiting, clients := waiting + [value], clients + [client];
    }

    method StartFirst(value: PropValue, client: string) returns (out: set<Packet>)
      requires ProposersOk() && LogOk() && ViewOk() && |waiting| == |clients|
      modifies `proposers, `owner, `infos, `maxSlot, `lastSlot, `announced, `placed, `fast, `started, `waiting, `clients
      ensures Handled(State(), out) == Replica.StartFirst(ctx, old(State()), value, client, view.Asked())
      ensures fresh(owner.Keys - old(owner.Keys))
      ensures ProposersOk() && |waiting| == |clients|
    {
      var first, name := value, client;
      if waiting != [] {
        Enqueue(value, client);
        first, name := Dequeue();
      }
      out := StartSlot(first, name);
    }

    /** A value is queued while the window is full; otherwise the one first in line gets a slot. */
    method Take(value: PropValue, client: string) returns (out: set<Packet>)
      requires ProposersOk() && LogOk() && ViewOk() && |waiting| == |clients|
      modifies `proposers, `owner, `infos, `maxSlot, `lastSlot, `announced, `placed, `fast, `started, `waiting, `clients
      ensures Handled(State(), out) == TakeValue(ctx, old(State()), value, client, view.Asked())
      ensures fresh(owner.Keys - old(owner.Keys))
      ensures ProposersOk() && |waiting| == |clients|
    {
      SameSize(proposers, infos);
      if |proposers| > ctx.window {
        return {};
      }
      if |proposers| == ctx.window {
        Enqueue(value, client);
        return {};
      }
      out := StartFirst(value, client);
    }

    ghost method Record(value: PropValue, client: string)
      requires LogOk()
      modifies `submitted
      ensures State() == old(State()).(submitted := old(submitted) + [Submission(value, client)])
    {
      submitted := submitted + [Submission(value, client)];
    }

    method Commit(value: PropValue, client: string) returns (out: set<Packet>)
      requires ProposersOk() && LogOk() && ViewOk() && |waiting| == |clients|
      modifies `proposers, `owner, `infos, `maxSlot, `lastSlot, `announced, `placed, `fast, `started, `waiting
      modifies `clients, `submitted
      ensures Handled(State(), out) == Replica.Commit(ctx, old(State()), value, client, view.Asked())
      ensures fresh(owner.Keys - old(owner.Keys))
      ensures ProposersOk() && |waiting| == |clients|
    {
      Record(value, client);
      out := Take(value, client);
    }

    // -------------------------------------------------------------- learning

    method HandleDecide(m: Msg) returns (out: set<Packet>)
      requires AcceptorsOk() && LogOk() && m.Decide? && m.slot >= 1
      modifies `chosenValues, `maxChosen, `maxChosenWithoutHole, `delivered
      ensures AcceptorsOk() && LogOk() && Handled(State(), out) == OnDecideMsg(ctx, old(State()), m)
    {
      out := {};
      if maxChosen >= m.slot && chosenValues[m.slot].Some? {
        return;
      }
      var v := StoredValue(m.slot, m.id);
      if v.Some? {
        AddChosenValue(m.slot, v.value);
      } else {
        out := {Packet(m.src, Learn(ctx.me, m.slot))};
      }
    }

    method HandleLearn(m: Msg) returns (out: set<Packet>)
      requires LogOk() && m.Learn?
      ensures Handled(State(), out) == OnLearnMsg(ctx, State(), m)
    {
      out := {};
      if m.slot > maxChosen || chosenValues[m.slot].None? {
        return;
      }
      out := {Packet(m.src, Teach(ctx.me, m.slot, chosenValues[m.slot].value))};
    }

    method HandleTeach(m: Msg) returns (out: set<Packet>)
      requires LogOk() && m.Teach?
      modifies `chosenValues, `maxChosen, `maxChosenWithoutHole, `delivered
      ensures LogOk() && Handled(State(), out) == OnTeachMsg(old(State()), m)
    {
      out := {};
      if maxChosen >= m.slot && chosenValues[m.slot].Some? {
        return;
      }
      AddChosenValue(m.slot, m.value);
    }

    /** A log entry fetched by name; a node that no broadcast asks goes on to fetch the next one. */
    method OnDataLog(slot: nat, value: PropValue) returns (fetchNext: bool)
      requires Valid()
      modifies `chosenValues, `maxChosen, `maxChosenWithoutHole, `delivered
      ensures Valid() && State() == OnLogData(old(State()), slot, value) && fetchNext == (view.nodeId !in view.quorums)
    {
      AddChosenValue(slot, value);
      fetchNext := !view.IfQuorum();
    }

    method GetChosenValue(slot: nat) returns (v: Option<PropValue>)
      requires LogOk()
      ensures v == if Has(CurrentLog(), slot) then CurrentLog().values[slot] else None
    {
      v := if slot <= maxChosen then chosenValues[slot] else None;
    }

    method MsgDecide(slot: nat) returns (m: Msg)
      requires LogOk() && Has(CurrentLog(), slot)
      ensures m == Decide(ctx.me, slot, CurrentLog().values[slot].value.id)
    {
      m := Decide(ctx.me, slot, chosenValues[slot].value.id);
    }

    // -------------------------------------------------------------- entry points

    /** What happens to proposers and the log is nothing to the acceptors. */
    twostate lemma AcceptorsStay()
      requires old(AcceptorsOk()) && unchanged(`acceptors, `accs, `accStates) && unchanged(accs)
      ensures AcceptorsOk()
    {
    }

    twostate lemma ProposersStay()
      requires old(ProposersOk()) && unchanged(`proposers, `infos, `owner) && unchanged(owner.Keys)
      ensures ProposersOk()
    {
    }

    /** The messages that only concern the log. */
    method HearNews(m: Msg) returns (out: set<Packet>)
      requires AcceptorsOk() && LogOk() && NamesSlots(m) && (m.Decide? || m.Learn? || m.Teach? || m.LogData?)
      modifies `chosenValues, `maxChosen, `maxChosenWithoutHole, `delivered
      ensures AcceptorsOk() && LogOk()
      ensures Handled(State(), out) == OnNews(ctx, old(State()), m)
    {
      out := {};
      match m
      case Decide(_, _, _) => out := HandleDecide(m);
      case Learn(_, _) => out := HandleLearn(m);
      case Teach(_, _, _) => out := HandleTeach(m);
      case LogData(_, _) =>
    }

    method HandleNews(m: Msg) returns (out: set<Packet>)
      requires Valid() && NamesSlots(m) && (m.Decide? || m.Learn? || m.Teach? || m.LogData?)
      modifies `chosenValues, `maxChosen, `maxChosenWithoutHole, `delivered
      ensures Valid()
      ensures Handled(State(), out) == OnNews(ctx, old(State()), m)
    {
      out := HearNews(m);
    }

    /** Requests go to an acceptor. */
    method AskAcceptor(m: Msg) returns (out: set<Packet>)
      requires AcceptorsOk() && LogOk() && NamesSlots(m) && (m.Prepare? || m.Accept?)
      modifies `acceptors, `accs, `accStates, `chosenValues, `maxChosen, `maxChosenWithoutHole, `delivered, accs
      ensures AcceptorsOk() && LogOk()
      ensures Handled(State(), out) == OnRequest(ctx, old(State()), m)
      ensures fresh(accs - old(accs))
    {
      if m.Prepare? {
        out := HandlePrepare(m);
      } else {
        out := HandleAccept(m);
      }
    }

    method HandleRequest(m: Msg) returns (out: set<Packet>)
      requires Valid() && NamesSlots(m) && (m.Prepare? || m.Accept?)
      modifies `acceptors, `accs, `accStates, `chosenValues, `maxChosen, `maxChosenWithoutHole, `delivered, accs
      ensures Valid()
      ensures Handled(State(), out) == OnRequest(ctx, old(State()), m)
      ensures fresh(accs - old(accs))
    {
      out := AskAcceptor(m);
      ProposersStay();
    }

    /** Acknowledgements go to a proposer. */
    method TellProposer(m: Msg, name: string) returns (out: set<Packet>)
      requires ProposersOk() && LogOk() && ViewOk() && |waiting| == |clients| && (m.Promise? || m.Accepted?)
      modifies `proposers, `owner, `infos, `chosenValues, `maxChosen, `maxChosenWithoutHole, `delivered
      modifies `maxSlot, `lastSlot, `announced, `placed, `fast, `started, `lost, `waiting, `clients, owner.Keys
      ensures LogOk()
      ensures Handled(State(), out) == OnAck(ctx, old(State()), m, view.Asked(), name)
      ensures fresh(owner.Keys - old(owner.Keys))
      ensures ProposersOk() && |waiting| == |clients|
    {
      if m.Promise? {
        out := HandlePromise(m);
      } else {
        out := HandleAccepted(m, name);
      }
    }

    method HandleAck(m: Msg, name: string) returns (out: set<Packet>)
      requires Valid() && (m.Promise? || m.Accepted?)
      modifies `proposers, `owner, `infos, `chosenValues, `maxChosen, `maxChosenWithoutHole, `delivered
      modifies `maxSlot, `lastSlot, `announced, `placed, `fast, `started, `lost, `waiting, `clients, owner.Keys
      ensures Valid()
      ensures Handled(State(), out) == OnAck(ctx, old(State()), m, view.Asked(), name)
      ensures fresh(owner.Keys - old(owner.Keys))
    {
      out := TellProposer(m, name);
      AcceptorsStay();
    }

    method Dispatch(m: Msg, name: string) returns (out: set<Packet>)
      requires Valid() && NamesSlots(m)
      modifies this, accs, owner.Keys
      ensures Valid()
      ensures Handled(State(), out) == OnMsg(ctx, old(State()), m, view.Asked(), name)
      ensures fresh(accs - old(accs)) && fresh(owner.Keys - old(owner.Keys))
    {
      if m.Prepare? || m.Accept? {
        out := HandleRequest(m);
      } else if m.Promise? || m.Accepted? {
        out := HandleAck(m, name);
      } else {
        out := HandleNews(m);
      }
    }

    /** Every message a node can get, whatever it says about slots from 1 on; a crashed node is mute. */
    method HandleMsg(m: Msg, name: string) returns (out: set<Packet>)
      requires Valid() && NamesSlots(m)
      modifies this, accs, owner.Keys
      ensures Valid()
      ensures Handled(State(), out) == Replica.HandleMsg(ctx, old(State()), m, view.Asked(), name)
      ensures fresh(accs - old(accs)) && fresh(owner.Keys - old(owner.Keys))
    {
      out := {};
      if work {
        Dispatched(ctx, State(), m, view.Asked(), name);
        out := Dispatch(m, name);
      }
    }

    /** A new value with the next id of this node. */
    method NewValue(data: string) returns (value: PropValue)
      requires LogOk()
      modifies `valueId
      ensures value == PropValue(old(valueId) + STEP, data)
      ensures State() == old(State()).(valueId := old(valueId) + STEP)
    {
      valueId := valueId + STEP;
      value := PropValue(valueId, data);
    }

    /** The master commits a value itself, another node sends it to the master. */
    method Submit(value: PropValue, client: string) returns (out: set<Packet>, toMaster: Option<PropValue>)
      requires ProposersOk() && LogOk() && ViewOk() && |waiting| == |clients|
      modifies `proposers, `owner, `infos, `maxSlot, `lastSlot, `announced, `placed, `fast, `started, `waiting
      modifies `clients, `submitted
      ensures toMaster == if view.IfMaster() then None else Some(value)
      ensures Handled(State(), out) ==
        if view.IfMaster() then Replica.Commit(ctx, old(State()), value, client, view.Asked())
          else Handled(old(State()), {})
      ensures fresh(owner.Keys - old(owner.Keys))
      ensures ProposersOk() && |waiting| == |clients|
    {
      out, toMaster := {}, None;
      if view.IfMaster() {
        out := Commit(value, client);
      } else {
        toMaster := Some(value);
      }
    }

    method SubmitData(data: string, client: string) returns (out: set<Packet>, toMaster: Option<PropValue>)
      requires ProposersOk() && LogOk() && ViewOk() && |waiting| == |clients|
      modifies `valueId, `proposers, `owner, `infos, `maxSlot, `lastSlot, `announced, `placed, `fast, `started
      modifies `waiting, `clients, `submitted
      ensures var value := PropValue(old(valueId) + STEP, data);
        var c := old(State()).(valueId := old(valueId) + STEP);
        && toMaster == (if view.IfMaster() then None else Some(value))
        && Handled(State(), out) == if view.IfMaster()
          then Replica.Commit(ctx, c, value, client, view.Asked()) else Handled(c, {})
      ensures fresh(owner.Keys - old(owner.Keys))
      ensures ProposersOk() && |waiting| == |clients|
    {
      var value := NewValue(data);
      out, toMaster := Submit(value, client);
    }

    /** A client's data gets the next id of this node. */
    method CommitData(data: string, client: string) returns (out: set<Packet>, toMaster: Option<PropValue>)
      requires Valid()
      modifies `valueId, `proposers, `owner, `infos, `maxSlot, `lastSlot, `announced, `placed, `fast, `started
      modifies `waiting, `clients, `submitted
      ensures var value := PropValue(old(valueId) + STEP, data);
        var c := old(State()).(valueId := old(valueId) + STEP);
        && toMaster == (if view.IfMaster() then None else Some(value))
        && Handled(State(), out) == if view.IfMaster()
          then Replica.Commit(ctx, c, value, client, view.Asked()) else Handled(c, {})
      ensures fresh(owner.Keys - old(owner.Keys))
      ensures Valid()
    {
      out, toMaster := SubmitData(data, client);
    }

    /** A value that another node sent to the master; that node is told nothing here. */
    method HandleCommit(value: PropValue) returns (out: set<Packet>)
      requires Valid()
      modifies `proposers, `owner, `infos, `maxSlot, `lastSlot, `announced, `placed, `fast, `started, `waiting
      modifies `clients, `submitted
      ensures if work && view.IfMaster()
        then Handled(State(), out) == Replica.Commit(ctx, old(State()), value, "", view.Asked())
        else State() == old(State()) && out == {}
      ensures fresh(owner.Keys - old(owner.Keys))
      ensures Valid()
    {
      out := {};
      if work && view.IfMaster() {
        out := Commit(value, "");
      }
    }

    method Crash()
      requires Valid()
      modifies `work
      ensures Valid() && State() == old(State()).(work := false)
    {
      work := false;
    }
  }
}
