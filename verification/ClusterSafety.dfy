/** What holds of the cluster as long as the master starts in phase II only where that is safe: the slot
    invariant in every slot, and everything learned was chosen. */
module ClusterSafety {
  import opened Types
  import opened Proposers
  import opened Ballots
  import opened SlotPaxos
  import opened ChosenLog
  import opened Replica
  import opened ReplicaSafety
  import opened Refinement
  import opened Cluster
  import opened ClusterLocal
  import SlotSafety
  import Quorum

  ghost predicate SettledId(sys: System, s: nat, id: nat)
  {
    ChosenId(View(sys, s), id)
  }

  /** `value` is the value that slot `s` was settled on. */
  ghost predicate Settled(sys: System, s: nat, value: PropValue)
  {
    SettledId(sys, s, value.id) && value in sys.issued
  }

  ghost predicate LogKnown(sys: System, l: Log)
  {
    forall s :: s in Contents(l) ==> Settled(sys, s, Contents(l)[s])
  }

  ghost predicate LossKnown(sys: System, s: nat, id: nat)
  {
    exists id' :: id' != id && SettledId(sys, s, id')
  }

  /** A slot that a node has given up on is settled on another value. */
  ghost predicate LossesKnown(sys: System, c: CaptainState)
  {
    forall s :: s in c.lost && s in c.placed ==> LossKnown(sys, s, c.placed[s].id)
  }

  /** Whatever a packet says about a settled slot is so. */
  ghost predicate PacketKnown(sys: System, m: Msg)
  {
    match m
    case Accept(_, _, _, _, last) => last.Some? ==> SettledId(sys, last.value.slot, last.value.id)
    case Decide(_, slot, id) => SettledId(sys, slot, id)
    case Teach(_, slot, value) => Settled(sys, slot, value)
    case LogData(slot, value) => Settled(sys, slot, value)
    case _ => true
  }

  ghost predicate NodeKnown(sys: System, i: nat)
    requires i < |sys.nodes|
  {
    LogKnown(sys, sys.nodes[i].log) && LossesKnown(sys, sys.nodes[i])
  }

  /** The least ballot that counts in slot `s`: the master's first one where the master has started in
      phase II without a pre-promise. */
  ghost function Floor(par: Params, sys: System, s: nat): nat
    requires par.cfg.master < |sys.nodes|
  {
    if s in sys.nodes[par.cfg.master].fast && !par.cfg.PrePromised(s) then par.cfg.MasterBallot() else STEP
  }

  ghost predicate SlotsSafe(par: Params, sys: System)
    requires par.cfg.master < |sys.nodes|
  {
    forall s: nat :: Safe(View(sys, s), Floor(par, sys, s))
  }

  ghost predicate SysOk(par: Params, sys: System)
    requires par.Valid()
  {
    && LocalOk(par, sys)
    && SlotsSafe(par, sys)
    && (forall i: nat :: i < par.cfg.n ==> NodeKnown(sys, i))
    && (forall p :: p in sys.sent ==> PacketKnown(sys, p.msg))
  }

  /** What the invariant says of one slot. */
  lemma SlotInv(par: Params, sys: System, s: nat)
    requires par.Valid() && SysOk(par, sys)
    ensures Inv(par.cfg, s, Floor(par, sys, s), View(sys, s))
  {
    assert Safe(View(sys, s), Floor(par, sys, s));
  }

  /** Two ids that a slot is settled on are the same. */
  lemma SettledIdsAgree(par: Params, sys: System, s: nat, id: nat, id': nat)
    requires par.Valid() && SysOk(par, sys) && SettledId(sys, s, id) && SettledId(sys, s, id')
    ensures id == id'
  {
    SlotInv(par, sys, s);
    var b :| ChosenAt(View(sys, s), b, id);
    var b' :| ChosenAt(View(sys, s), b', id');
    Agreement(par.cfg, s, Floor(par, sys, s), View(sys, s), b, id, b', id');
  }

  // ---------------------------------------------------------------- knowledge only grows

  lemma SettledStays(sys: System, sys': System, s: nat, id: nat)
    requires SysGrows(sys, sys') && SettledId(sys, s, id)
    ensures SettledId(sys', s, id)
  {
    var b :| ChosenAt(View(sys, s), b, id);
    ChosenStays(View(sys, s), View(sys', s), b, id);
  }

  lemma LogStays(sys: System, sys': System, l: Log)
    requires SysGrows(sys, sys') && LogKnown(sys, l)
    ensures LogKnown(sys', l)
  {
    forall s | s in Contents(l) ensures Settled(sys', s, Contents(l)[s]) {
      assert Settled(sys, s, Contents(l)[s]);
      SettledStays(sys, sys', s, Contents(l)[s].id);
    }
  }

  lemma LossesStay(sys: System, sys': System, c: CaptainState)
    requires SysGrows(sys, sys') && LossesKnown(sys, c)
    ensures LossesKnown(sys', c)
  {
    forall s | s in c.lost && s in c.placed ensures LossKnown(sys', s, c.placed[s].id) {
      assert LossKnown(sys, s, c.placed[s].id);
      var id' :| id' != c.placed[s].id && SettledId(sys, s, id');
      SettledStays(sys, sys', s, id');
    }
  }

  lemma PacketStaysKnown(sys: System, sys': System, m: Msg)
    requires SysGrows(sys, sys') && PacketKnown(sys, m)
    ensures PacketKnown(sys', m)
  {
    match m
    case Accept(_, _, _, _, last) => if last.Some? { SettledStays(sys, sys', last.value.slot, last.value.id); }
    case Decide(_, slot, id) => SettledStays(sys, sys', slot, id);
    case Teach(_, slot, value) => SettledStays(sys, sys', slot, value.id);
    case LogData(slot, value) => SettledStays(sys, sys', slot, value.id);
    case _ =>
  }

  // ---------------------------------------------------------------- where settled values come from

  /** A settled id belongs to a value that some node placed in that very slot. */
  lemma SettledWasPlaced(par: Params, sys: System, s: nat, id: nat) returns (i: nat)
    requires LocalOk(par, sys) && SettledId(sys, s, id)
    ensures i < par.cfg.n && s in sys.nodes[i].placed && sys.nodes[i].placed[s].id == id && s >= 1
  {
    var st := View(sys, s);
    var b :| ChosenAt(st, b, id);
    var p :| p in st.msgs && IsAccept(p.msg, b, id);
    assert PacketOk(s, st, p);
    i := HomeWasPlaced(par, sys, s, p.msg.value);
  }

  lemma RoleWasPlaced(ctx: Ctx, c: CaptainState, s: nat, value: PropValue)
    requires CaptainOk(ctx, c) && InitOf(RoleAt(c, s)) == Some(value)
    ensures s in c.placed && c.placed[s] == value && s >= 1 && SubmittedValue(c.submitted, value)
  {
    if s in c.proposers { assert RunsPlaced(c.proposers[s], c.placed, s); }
    StillSubmitted(c.started, c.submitted, value);
  }

  lemma HomeWasPlaced(par: Params, sys: System, s: nat, value: PropValue) returns (i: nat)
    requires LocalOk(par, sys) && Home(View(sys, s), value)
    ensures i < par.cfg.n && s in sys.nodes[i].placed && sys.nodes[i].placed[s] == value && s >= 1
    ensures value in sys.issued
  {
    i :| i < |View(sys, s).nodes| && InitOf(View(sys, s).nodes[i].role) == Some(value);
    assert CaptainOk(par.At(i), sys.nodes[i]) && Submits(sys.nodes[i], sys.issued);
    RoleWasPlaced(par.At(i), sys.nodes[i], s, value);
  }

  /** What an acceptor stores under the id of a settled slot is the value the slot was settled on. */
  lemma StoredIsSettled(par: Params, sys: System, i: nat, s: nat, id: nat)
    requires LocalOk(par, sys) && i < par.cfg.n && SettledId(sys, s, id) && Stores(sys.nodes[i].acceptors, s, id)
    ensures Settled(sys, s, sys.nodes[i].acceptors[s].maxValue.value)
  {
    var st := View(sys, s);
    assert Coherent(par.cfg, s, st);
    assert NodeOk(par.cfg, s, st, i) && st.nodes[i].acc == sys.nodes[i].acceptors[s];
    var j := HomeWasPlaced(par, sys, s, sys.nodes[i].acceptors[s].maxValue.value);
  }

  // ---------------------------------------------------------------- what an operation tells

  /** What node `i` holds and says after `h` is so. */
  ghost predicate Truthful(sys: System, h: Handled)
  {
    && LogKnown(sys, h.state.log)
    && LossesKnown(sys, h.state)
    && forall p :: p in h.out ==> PacketKnown(sys, p.msg)
  }

  lemma LearnKnown(sys: System, c: CaptainState, slot: nat, value: PropValue)
    requires CoreOk(c) && slot >= 1 && LogKnown(sys, c.log) && Settled(sys, slot, value)
    ensures LogKnown(sys, Learned(c, slot, value).log)
  {
    AddRefinesFirstWrite(c.log, slot, value);
  }

  lemma AnnounceKnown(sys: System, c: CaptainState)
    requires LogKnown(sys, c.log)
    ensures var last := Announce(c).1; last.Some? ==> SettledId(sys, last.value.slot, last.value.id)
  {
    if Has(c.log, c.lastSlot + 1) {
      assert c.lastSlot + 1 in Contents(c.log);
      assert Settled(sys, c.lastSlot + 1, Contents(c.log)[c.lastSlot + 1]);
    }
  }

  lemma StartFastTruthful(ctx: Ctx, sys: System, c: CaptainState, value: PropValue, client: string, asked: set<nat>)
    requires PlacesOk(c) && LogKnown(sys, c.log) && LossesKnown(sys, c)
    ensures Truthful(sys, StartFast(ctx, c, value, client, asked))
  {
    AnnounceKnown(sys, Started(ctx, c, value, client));
  }

  lemma BeginTruthful(ctx: Ctx, sys: System, c: CaptainState, slot: nat, value: PropValue, client: string, tryTime: nat,
                      asked: set<nat>)
    requires PlacesOk(c) && slot > c.maxSlot && LogKnown(sys, c.log) && LossesKnown(sys, c)
    ensures Truthful(sys, BeginSlot(ctx, c, slot, value, client, tryTime, asked))
  {
  }

  lemma WonTruthful(ctx: Ctx, sys: System, c: CaptainState, slot: nat, asked: set<nat>)
    requires CoreOk(c) && LogKnown(sys, c.log) && LossesKnown(sys, c)
    ensures Truthful(sys, OnOwnChosen(ctx, c, slot, asked))
  {
    FreeKeeps(c, slot);
    if c.waiting != [] && c.clients != [] {
      StartFastTruthful(ctx, sys, Dequeued(Freed(c, slot)), c.waiting[0], c.clients[0], asked);
    }
  }

  lemma LostTruthful(ctx: Ctx, sys: System, c: CaptainState, slot: nat, value: PropValue, name: string, tryTime: nat,
                     asked: set<nat>)
    requires CoreOk(c) && LogKnown(sys, c.log) && LossesKnown(sys, c)
    requires slot in c.proposers && slot in c.placed && LossKnown(sys, slot, c.placed[slot].id)
    ensures Truthful(sys, BeginSlot(ctx, FreedLost(c, slot), c.maxSlot + 1, value, name, tryTime, asked))
  {
    LoseKeeps(c, slot);
    BeginTruthful(ctx, sys, FreedLost(c, slot), c.maxSlot + 1, value, name, tryTime, asked);
  }

  lemma OwnChosenTruthful(ctx: Ctx, sys: System, c: CaptainState, slot: nat, p: ProposerState, tryTime: nat,
                          asked: set<nat>, name: string)
    requires p.currValue.Some? && p.currValue.value.id == p.initValue.id && LossesKnown(sys, c)
    requires CoreOk(Learned(c, slot, p.currValue.value)) && LogKnown(sys, Learned(c, slot, p.currValue.value).log)
    ensures Truthful(sys, OnChoose(ctx, c, slot, p, tryTime, asked, name))
  {
    WonTruthful(ctx, sys, Learned(c, slot, p.currValue.value), slot, asked);
  }

  lemma OtherChosenTruthful(ctx: Ctx, sys: System, c: CaptainState, slot: nat, p: ProposerState, tryTime: nat,
                            asked: set<nat>, name: string)
    requires p.currValue.Some? && p.currValue.value.id != p.initValue.id && LossesKnown(sys, c)
    requires CoreOk(Learned(c, slot, p.currValue.value)) && LogKnown(sys, Learned(c, slot, p.currValue.value).log)
    requires slot in c.proposers && slot in c.placed && LossKnown(sys, slot, c.placed[slot].id)
    ensures Truthful(sys, OnChoose(ctx, c, slot, p, tryTime, asked, name))
  {
    LostTruthful(ctx, sys, Learned(c, slot, p.currValue.value), slot, p.initValue, name, tryTime + 1, asked);
  }

  lemma ChooseTruthful(ctx: Ctx, sys: System, c: CaptainState, slot: nat, p: ProposerState, tryTime: nat,
                       asked: set<nat>, name: string)
    requires CoreOk(c) && LogKnown(sys, c.log) && LossesKnown(sys, c)
    requires slot in c.proposers && p.initValue == c.proposers[slot].proposer.initValue
    requires p.currValue.Some? && Settled(sys, slot, p.currValue.value)
    ensures Truthful(sys, OnChoose(ctx, c, slot, p, tryTime, asked, name))
  {
    var value := p.currValue.value;
    assert RunsPlaced(c.proposers[slot], c.placed, slot);
    LearnKeeps(c, slot, value);
    LearnKnown(sys, c, slot, value);
    if value.id == p.initValue.id {
      OwnChosenTruthful(ctx, sys, c, slot, p, tryTime, asked, name);
    } else {
      assert LossKnown(sys, slot, c.placed[slot].id);
      OtherChosenTruthful(ctx, sys, c, slot, p, tryTime, asked, name);
    }
  }

  /** The value of a CHOOSE is the value its slot is settled on. */
  lemma ChosenIsSettled(par: Params, sys: System, i: nat, m: Msg)
    requires LocalOk(par, sys) && i < par.cfg.n && Packet(i, m) in sys.sent && m.Accepted?
    requires m.slot in sys.nodes[i].proposers
    requires OnAccepted(sys.nodes[i].proposers[m.slot].proposer, m.src, AcceptAck(m.ballot, m.reply),
      Quorum.Size(par.cfg.n)).1 == Choose
    ensures var value := sys.nodes[i].proposers[m.slot].proposer.currValue;
      value.Some? && Settled(sys, m.slot, value.value)
  {
    var st := View(sys, m.slot);
    assert Coherent(par.cfg, m.slot, st);
    assert st.nodes[i].role == Running(sys.nodes[i].proposers[m.slot].proposer);
    SlotSafety.ChooseIsChosen(par.cfg, m.slot, st, i, m);
    var j := HomeWasPlaced(par, sys, m.slot, sys.nodes[i].proposers[m.slot].proposer.currValue.value);
  }

  lemma AcceptedTruthful(par: Params, sys: System, i: nat, m: Msg, asked: set<nat>, name: string)
    requires par.Valid() && SysOk(par, sys) && i < par.cfg.n && Packet(i, m) in sys.sent && m.Accepted?
    ensures Truthful(sys, OnAcceptedMsg(par.At(i), sys.nodes[i], m, asked, name))
  {
    var c, ctx := sys.nodes[i], par.At(i);
    assert NodeKnown(sys, i) && CaptainOk(par.At(i), sys.nodes[i]);
    if m.slot in c.proposers && OnAccepted(c.proposers[m.slot].proposer, m.src, AcceptAck(m.ballot, m.reply),
      Quorum.Size(ctx.cfg.n)).1 == Choose {
      ChosenIsSettled(par, sys, i, m);
      AcceptedChooses(ctx, sys, c, m, asked, name);
    } else {
      AcceptedWaits(ctx, sys, c, m, asked, name);
    }
  }

  lemma AcceptedChooses(ctx: Ctx, sys: System, c: CaptainState, m: Msg, asked: set<nat>, name: string)
    requires CaptainOk(ctx, c) && LogKnown(sys, c.log) && LossesKnown(sys, c) && m.Accepted? && m.slot in c.proposers
    requires c.proposers[m.slot].proposer.currValue.Some?
    requires Settled(sys, m.slot, c.proposers[m.slot].proposer.currValue.value)
    requires OnAccepted(c.proposers[m.slot].proposer, m.src, AcceptAck(m.ballot, m.reply),
      Quorum.Size(ctx.cfg.n)).1 == Choose
    ensures Truthful(sys, OnAcceptedMsg(ctx, c, m, asked, name))
  {
    var info := c.proposers[m.slot];
    var p := OnAccepted(info.proposer, m.src, AcceptAck(m.ballot, m.reply), Quorum.Size(ctx.cfg.n)).0;
    ChooseTruthful(ctx, sys, c, m.slot, p, info.tryTime, asked, name);
  }

  lemma AcceptedWaits(ctx: Ctx, sys: System, c: CaptainState, m: Msg, asked: set<nat>, name: string)
    requires LogKnown(sys, c.log) && LossesKnown(sys, c) && m.Accepted?
    requires m.slot in c.proposers ==>
      OnAccepted(c.proposers[m.slot].proposer, m.src, AcceptAck(m.ballot, m.reply), Quorum.Size(ctx.cfg.n)).1 != Choose
    ensures Truthful(sys, OnAcceptedMsg(ctx, c, m, asked, name))
  {
  }

  /** A piggybacked decision is learned from the value the acceptor stores after this very ACCEPT. */
  lemma AcceptTruthful(par: Params, sys: System, i: nat, m: Msg)
    requires par.Valid() && SysOk(par, sys) && i < par.cfg.n && Packet(i, m) in sys.sent && m.Accept?
    ensures Truthful(sys, OnAcceptMsg(par.At(i), sys.nodes[i], m))
  {
    var c, h := sys.nodes[i], OnAcceptMsg(par.At(i), sys.nodes[i], m);
    assert NodeKnown(sys, i) && CaptainOk(par.At(i), sys.nodes[i]);
    assert PacketKnown(sys, m);
    if m.last.Some? {
      var slot, id := m.last.value.slot, m.last.value.id;
      var j := SettledWasPlaced(par, sys, slot, id);
      if Stores(h.state.acceptors, slot, id) { StoredAfterAccept(par, sys, i, m, slot, id); }
    }
    AcceptLearns(par.At(i), sys, c, m);
  }

  lemma AcceptLearns(ctx: Ctx, sys: System, c: CaptainState, m: Msg)
    requires CoreOk(c) && LogKnown(sys, c.log) && LossesKnown(sys, c) && m.Accept?
    requires m.last.Some? ==> m.last.value.slot >= 1
    requires m.last.Some? ==>
      var accs := OnAcceptMsg(ctx, c, m).state.acceptors;
      Stores(accs, m.last.value.slot, m.last.value.id) ==>
        Settled(sys, m.last.value.slot, accs[m.last.value.slot].maxValue.value)
    ensures Truthful(sys, OnAcceptMsg(ctx, c, m))
  {
    var accs := OnAcceptMsg(ctx, c, m).state.acceptors;
    if m.last.Some? && Stores(accs, m.last.value.slot, m.last.value.id) {
      LearnKnown(sys, c, m.last.value.slot, accs[m.last.value.slot].maxValue.value);
    }
  }

  lemma StoredAfterAccept(par: Params, sys: System, i: nat, m: Msg, slot: nat, id: nat)
    requires LocalOk(par, sys) && i < par.cfg.n && Packet(i, m) in sys.sent && m.Accept? && SettledId(sys, slot, id)
    requires Stores(OnAcceptMsg(par.At(i), sys.nodes[i], m).state.acceptors, slot, id)
    ensures Settled(sys, slot, OnAcceptMsg(par.At(i), sys.nodes[i], m).state.acceptors[slot].maxValue.value)
  {
    var c := sys.nodes[i];
    StoredOldOrNew(par.At(i), c, m, slot);
    if Stores(c.acceptors, slot, id) {
      StoredIsSettled(par, sys, i, slot, id);
    }
    if slot == m.slot {
      assert Coherent(par.cfg, slot, View(sys, slot));
      assert PacketOk(slot, View(sys, slot), Packet(i, m));
      var j := HomeWasPlaced(par, sys, slot, m.value);
    }
  }

  lemma StoredOldOrNew(ctx: Ctx, c: CaptainState, m: Msg, slot: nat)
    requires m.Accept?
    ensures var a, a' := AccAt(c.acceptors, slot), AccAt(OnAcceptMsg(ctx, c, m).state.acceptors, slot);
      a'.maxValue == a.maxValue || (slot == m.slot && a'.maxValue == Some(m.value))
  {
    GrownAt(c.acceptors, m.slot, OnAcceptMsg(ctx, c, m).state.acceptors[m.slot], slot);
  }

  lemma TeachTruthful(par: Params, sys: System, i: nat, slot: nat, value: PropValue)
    requires par.Valid() && SysOk(par, sys) && i < par.cfg.n && Settled(sys, slot, value)
    ensures slot >= 1 && Truthful(sys, Handled(Learned(sys.nodes[i], slot, value), {}))
  {
    assert NodeKnown(sys, i) && CaptainOk(par.At(i), sys.nodes[i]);
    var j := SettledWasPlaced(par, sys, slot, value.id);
    LearnKnown(sys, sys.nodes[i], slot, value);
  }

  lemma DecideTruthful(par: Params, sys: System, i: nat, m: Msg)
    requires par.Valid() && SysOk(par, sys) && i < par.cfg.n && m.Decide? && SettledId(sys, m.slot, m.id)
    ensures Truthful(sys, OnDecideMsg(par.At(i), sys.nodes[i], m))
  {
    assert NodeKnown(sys, i) && CaptainOk(par.At(i), sys.nodes[i]);
    var j := SettledWasPlaced(par, sys, m.slot, m.id);
    if Stores(sys.nodes[i].acceptors, m.slot, m.id) {
      StoredIsSettled(par, sys, i, m.slot, m.id);
    }
    DecideLearns(par.At(i), sys, sys.nodes[i], m);
  }

  lemma DecideLearns(ctx: Ctx, sys: System, c: CaptainState, m: Msg)
    requires CoreOk(c) && LogKnown(sys, c.log) && LossesKnown(sys, c) && m.Decide? && m.slot >= 1
    requires Stores(c.acceptors, m.slot, m.id) ==> Settled(sys, m.slot, c.acceptors[m.slot].maxValue.value)
    ensures Truthful(sys, OnDecideMsg(ctx, c, m))
  {
    if Stores(c.acceptors, m.slot, m.id) {
      LearnKnown(sys, c, m.slot, c.acceptors[m.slot].maxValue.value);
    }
  }

  lemma LearnTruthful(ctx: Ctx, sys: System, c: CaptainState, m: Msg)
    requires m.Learn? && LogKnown(sys, c.log) && LossesKnown(sys, c)
    ensures Truthful(sys, OnLearnMsg(ctx, c, m))
  {
    assert Has(c.log, m.slot) ==> m.slot in Contents(c.log);
  }

  /** Preparing and promising neither learn nor announce. */
  lemma PhaseITruthful(ctx: Ctx, sys: System, c: CaptainState, m: Msg, asked: set<nat>)
    requires LogKnown(sys, c.log) && LossesKnown(sys, c)
    ensures m.Prepare? ==> Truthful(sys, OnPrepareMsg(ctx, c, m))
    ensures m.Promise? ==> Truthful(sys, OnPromiseMsg(ctx, c, m, asked))
  {
  }

  /** Every learned value is the chosen one, whichever message it was learned from. */
  lemma HandleMsgTruthful(par: Params, sys: System, i: nat, m: Msg, asked: set<nat>, name: string)
    requires par.Valid() && SysOk(par, sys) && i < par.cfg.n && Packet(i, m) in sys.sent
    ensures Truthful(sys, HandleMsg(par.At(i), sys.nodes[i], m, asked, name))
  {
    assert NodeKnown(sys, i) && CaptainOk(par.At(i), sys.nodes[i]) && PacketKnown(sys, m);
    PhaseITruthful(par.At(i), sys, sys.nodes[i], m, asked);
    match m
    case Accept(_, _, _, _, _) => AcceptTruthful(par, sys, i, m);
    case Accepted(_, _, _, _) => AcceptedTruthful(par, sys, i, m, asked, name);
    case Decide(_, _, _) => DecideTruthful(par, sys, i, m);
    case Learn(_, _) => LearnTruthful(par.At(i), sys, sys.nodes[i], m);
    case Teach(_, slot, value) => TeachTruthful(par, sys, i, slot, value);
    case _ =>
  }
}
