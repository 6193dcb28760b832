/** One Naxos node as a value: what each message and each submission does to it and what it sends.
    The object `Captains.Captain` implements these functions; the properties are proved here. */
module Replica {
  import opened Types
  import opened Acceptors
  import opened Proposers
  import opened Ballots
  import opened SlotPaxos
  import opened ChosenLog
  import Quorum

  /** What a node knows of itself: the cluster, its id, and its number of concurrent proposers. */
  datatype Ctx = Ctx(cfg: Config, me: nat, window: nat) {
    ghost predicate Valid() { cfg.Valid() && me < cfg.n && window >= 1 }
  }

  datatype ProposerInfo = ProposerInfo(tryTime: nat, client: string, proposer: ProposerState, status: ProposerStatus)

  datatype Submission = Submission(value: PropValue, client: string)

  /** The fields of the code, then history: where this node's proposers started (`placed`), which of
      those slots went to another value (`lost`) or began in phase II (`fast`), the values committed here
      in order (`submitted`), those that got a first slot (`started`), and the announcements piggybacked
      so far. */
  datatype CaptainState = CaptainState(
    acceptors: seq<AcceptorState>,
    proposers: map<nat, ProposerInfo>,
    log: Log,
    waiting: seq<PropValue>,
    clients: seq<string>,
    maxSlot: nat,
    lastSlot: nat,
    valueId: nat,
    work: bool,
    placed: map<nat, PropValue>,
    lost: set<nat>,
    fast: set<nat>,
    submitted: seq<Submission>,
    started: seq<Submission>,
    announced: seq<Announcement>)

  datatype Handled = Handled(state: CaptainState, out: set<Packet>)

  ghost function Initial(ctx: Ctx): CaptainState
  {
    CaptainState(
      [FRESH] + seq(ctx.cfg.length, _ => FRESH.(maxProposed := ctx.cfg.MasterBallot())),
      map[], EMPTY, [], [], 0, 0, ctx.me, true, map[], {}, {}, [], [], [])
  }

  /** The acceptors with enough of them for `slot`. */
  ghost function Grown(acceptors: seq<AcceptorState>, slot: nat): (grown: seq<AcceptorState>)
    ensures slot < |grown|
  {
    if slot < |acceptors| then acceptors else acceptors + seq(slot + 1 - |acceptors|, _ => FRESH)
  }

  /** The acceptor of `slot` stores a value with this id. */
  ghost predicate Stores(acceptors: seq<AcceptorState>, slot: nat, id: nat)
  {
    slot < |acceptors| && acceptors[slot].maxValue.Some? && acceptors[slot].maxValue.value.id == id
  }

  ghost function OnPrepareMsg(ctx: Ctx, c: CaptainState, m: Msg): Handled
    requires m.Prepare?
  {
    var accs := Grown(c.acceptors, m.slot);
    Handled(c.(acceptors := accs[m.slot := OnPrepare(accs[m.slot], m.ballot)]),
            {Packet(m.src, PromiseReply(accs[m.slot], ctx.me, m.slot, m.ballot))})
  }

  /** An ACCEPT from another node may carry a decision on an earlier slot.  If that slot is known
      already the handler returns before it acknowledges. */
  ghost function OnAcceptMsg(ctx: Ctx, c: CaptainState, m: Msg): Handled
    requires m.Accept?
  {
    var accs := Grown(c.acceptors, m.slot);
    var c1 := c.(acceptors := accs[m.slot := OnAccept(accs[m.slot], m.ballot, m.value)]);
    var ack := Packet(m.src, AcceptReply(accs[m.slot], ctx.me, m.slot, m.ballot));
    if m.src == ctx.me || m.last.None? then Handled(c1, {ack})
    else OnAnnouncement(ctx, c1, m.last.value, ack)
  }

  /** The slot of an announcement is learned, and published, if the acceptor has the value. */
  ghost function OnAnnouncement(ctx: Ctx, c: CaptainState, a: Announcement, ack: Packet): Handled
  {
    if Has(c.log, a.slot) then Handled(c, {})
    else if Stores(c.acceptors, a.slot, a.id) then
      var v := c.acceptors[a.slot].maxValue.value;
      Handled(Learned(c, a.slot, v), {ack, Packet(ctx.me, LogData(a.slot, v))})
    else Handled(c, {ack})
  }

  ghost function OnPromiseMsg(ctx: Ctx, c: CaptainState, m: Msg, asked: set<nat>): Handled
    requires m.Promise?
  {
    if m.slot !in c.proposers || c.proposers[m.slot].status !in {Init, PhaseI} then Handled(c, {})
    else
      var info := c.proposers[m.slot];
      var (p, result) := OnPromise(info.proposer, m.src,
        PromiseAck(m.ballot, m.reply, m.maxBallot, m.maxValue), Quorum.Size(ctx.cfg.n));
      AfterPromise(ctx, c, m.slot, info.(proposer := p, status := PhaseI), result, asked)
  }

  /** What follows once the promise has been counted. */
  ghost function AfterPromise(ctx: Ctx, c: CaptainState, slot: nat, info: ProposerInfo, result: AckType,
                              asked: set<nat>): Handled
    requires result == Continue ==> info.proposer.currValue.Some?
  {
    if result == Continue then
      Handled(c.(proposers := c.proposers[slot := info.(status := PhaseII)]),
              Broadcast(asked, Accept(ctx.me, slot, info.proposer.currBallot, info.proposer.currValue.value, None)))
    else if result == AckType.Restart then RestartSlot(ctx, c, slot, info, asked)
    else Handled(c.(proposers := c.proposers[slot := info]), {})
  }

  ghost function RestartSlot(ctx: Ctx, c: CaptainState, slot: nat, info: ProposerInfo, asked: set<nat>): Handled
  {
    var p := Restarted(info.proposer, ctx.me);
    Handled(c.(proposers := c.proposers[slot := info.(proposer := p, status := Init)]),
            Broadcast(asked, Prepare(ctx.me, slot, p.currBallot)))
  }

  /** `name` is the name the acknowledgement came under. */
  ghost function OnAcceptedMsg(ctx: Ctx, c: CaptainState, m: Msg, asked: set<nat>, name: string): Handled
    requires m.Accepted?
  {
    if m.slot !in c.proposers || c.proposers[m.slot].status != PhaseII then Handled(c, {})
    else
      var info := c.proposers[m.slot];
      var (p, result) := OnAccepted(info.proposer, m.src, AcceptAck(m.ballot, m.reply), Quorum.Size(ctx.cfg.n));
      AfterAccepted(ctx, c, m.slot, info.(proposer := p), result, asked, name)
  }

  /** What follows once the acknowledgement has been counted. */
  ghost function AfterAccepted(ctx: Ctx, c: CaptainState, slot: nat, info: ProposerInfo, result: AckType,
                               asked: set<nat>, name: string): Handled
  {
    if result == Choose then OnChoose(ctx, c, slot, info.proposer, info.tryTime, asked, name)
    else if result == AckType.Restart then RestartSlot(ctx, c, slot, info, asked)
    else Handled(c.(proposers := c.proposers[slot := info]), {})
  }

  ghost function Learned(c: CaptainState, slot: nat, value: PropValue): CaptainState
  {
    c.(log := AddChosen(c.log, slot, value))
  }

  /** The proposer of `slot` is done. */
  ghost function Freed(c: CaptainState, slot: nat): CaptainState
  {
    c.(proposers := c.proposers - {slot})
  }

  /** The proposer of `slot` is done, and another value has the slot. */
  ghost function FreedLost(c: CaptainState, slot: nat): CaptainState
  {
    c.(proposers := c.proposers - {slot}, lost := c.lost + {slot})
  }

  ghost function Dequeued(c: CaptainState): CaptainState
    requires c.waiting != [] && c.clients != []
  {
    c.(waiting := c.waiting[1..], clients := c.clients[1..])
  }

  /** A slot is settled: store the value and free its proposer.  If the value is the node's own the
      next waiting one starts; if not, the node's value moves to a new slot. */
  ghost function OnChoose(ctx: Ctx, c: CaptainState, slot: nat, p: ProposerState, tryTime: nat, asked: set<nat>,
                          name: string): Handled
  {
    if p.currValue.None? then Handled(c, {})
    else
      var c1 := Learned(c, slot, p.currValue.value);
      if p.currValue.value.id == p.initValue.id then OnOwnChosen(ctx, c1, slot, asked)
      else BeginSlot(ctx, FreedLost(c1, slot), c1.maxSlot + 1, p.initValue, name, tryTime + 1, asked)
  }

  ghost function OnOwnChosen(ctx: Ctx, c: CaptainState, slot: nat, asked: set<nat>): Handled
  {
    StartNext(ctx, Freed(c, slot), asked)
  }

  /** The value first in line gets a slot. */
  ghost function StartNext(ctx: Ctx, c: CaptainState, asked: set<nat>): Handled
  {
    if c.waiting == [] || c.clients == [] then Handled(c, {})
    else StartFast(ctx, Dequeued(c), c.waiting[0], c.clients[0], asked)
  }

  /** A proposer in phase I for `value` in a new slot. */
  ghost function BeginSlot(ctx: Ctx, c: CaptainState, slot: nat, value: PropValue, client: string, tryTime: nat,
                           asked: set<nat>): Handled
  {
    Handled(c.(maxSlot := slot,
               proposers := c.proposers[slot := ProposerInfo(tryTime, client, Prepared(ctx.me, value), Init)],
               placed := c.placed[slot := value]),
            Broadcast(asked, Prepare(ctx.me, slot, Next(ctx.me, 0))))
  }

  /** A proposer in phase II for a value that has not had a slot before. */
  ghost function StartFast(ctx: Ctx, c: CaptainState, value: PropValue, client: string, asked: set<nat>): Handled
  {
    var (c', last) := Announce(Started(ctx, c, value, client));
    Handled(c', Broadcast(asked, Accept(ctx.me, c.maxSlot + 1, Next(ctx.me, 0), value, last)))
  }

  ghost function Started(ctx: Ctx, c: CaptainState, value: PropValue, client: string): CaptainState
  {
    var slot := c.maxSlot + 1;
    c.(maxSlot := slot,
       proposers := c.proposers[slot := ProposerInfo(1, client, FastStarted(ctx.me, value), PhaseII)],
       placed := c.placed[slot := value],
       fast := c.fast + {slot},
       started := c.started + [Submission(value, client)])
  }

  /** The next settled slot to piggyback, if it is known. */
  ghost function Announce(c: CaptainState): (CaptainState, Option<Announcement>)
  {
    if Has(c.log, c.lastSlot + 1) then
      var a := Announcement(c.lastSlot + 1, c.log.values[c.lastSlot + 1].value.id);
      (c.(lastSlot := c.lastSlot + 1, announced := c.announced + [a]), Some(a))
    else (c, None)
  }

  /** Committing a value at this node. */
  ghost function Commit(ctx: Ctx, c: CaptainState, value: PropValue, client: string, asked: set<nat>): Handled
  {
    TakeValue(ctx, c.(submitted := c.submitted + [Submission(value, client)]), value, client, asked)
  }

  /** Queue a value, or start a slot for the one that is first in line. */
  ghost function TakeValue(ctx: Ctx, c: CaptainState, value: PropValue, client: string, asked: set<nat>): Handled
  {
    if |c.proposers| > ctx.window then Handled(c, {})
    else if |c.proposers| == ctx.window then
      Handled(c.(waiting := c.waiting + [value], clients := c.clients + [client]), {})
    else StartFirst(ctx, c, value, client, asked)
  }

  /** A slot for the first value of the queue with this one at its end. */
  ghost function StartFirst(ctx: Ctx, c: CaptainState, value: PropValue, client: string, asked: set<nat>): Handled
  {
    if c.waiting != [] && c.clients != [] then
      StartFast(ctx, c.(waiting := (c.waiting + [value])[1..], clients := (c.clients + [client])[1..]),
                c.waiting[0], c.clients[0], asked)
    else StartFast(ctx, c, value, client, asked)
  }

  /** A node other than the master bringing a value of its own to a slot above those it has used, as
      the recommit path does. */
  ghost function Contend(ctx: Ctx, c: CaptainState, slot: nat, value: PropValue, client: string,
                         asked: set<nat>): Handled
  {
    BeginSlot(ctx, c.(submitted := c.submitted + [Submission(value, client)],
                      started := c.started + [Submission(value, client)]),
              slot, value, client, 1, asked)
  }

  ghost function OnDecideMsg(ctx: Ctx, c: CaptainState, m: Msg): Handled
    requires m.Decide?
  {
    if Has(c.log, m.slot) then Handled(c, {})
    else if Stores(c.acceptors, m.slot, m.id) then
      Handled(Learned(c, m.slot, c.acceptors[m.slot].maxValue.value), {})
    else Handled(c, {Packet(m.src, Learn(ctx.me, m.slot))})
  }

  ghost function OnLearnMsg(ctx: Ctx, c: CaptainState, m: Msg): Handled
    requires m.Learn?
  {
    if Has(c.log, m.slot) then Handled(c, {Packet(m.src, Teach(ctx.me, m.slot, c.log.values[m.slot].value))})
    else Handled(c, {})
  }

  ghost function OnTeachMsg(c: CaptainState, m: Msg): Handled
    requires m.Teach?
  {
    if Has(c.log, m.slot) then Handled(c, {})
    else Handled(Learned(c, m.slot, m.value), {})
  }

  /** The dispatcher; a crashed node is mute. */
  ghost function HandleMsg(ctx: Ctx, c: CaptainState, m: Msg, asked: set<nat>, name: string): Handled
  {
    if !c.work then Handled(c, {})
    else
      match m
      case Prepare(_, _, _) => OnPrepareMsg(ctx, c, m)
      case Promise(_, _, _, _, _, _) => OnPromiseMsg(ctx, c, m, asked)
      case Accept(_, _, _, _, _) => OnAcceptMsg(ctx, c, m)
      case Accepted(_, _, _, _) => OnAcceptedMsg(ctx, c, m, asked, name)
      case Decide(_, _, _) => OnDecideMsg(ctx, c, m)
      case Learn(_, _) => OnLearnMsg(ctx, c, m)
      case Teach(_, _, _) => OnTeachMsg(c, m)
      case LogData(_, _) => Handled(c, {})
  }

  /** A log entry fetched by name; this path does not ask whether the node has crashed. */
  ghost function OnLogData(c: CaptainState, slot: nat, value: PropValue): CaptainState
  {
    Learned(c, slot, value)
  }
}
