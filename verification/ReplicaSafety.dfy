/** What one node keeps whatever messages and submissions it handles: window, queue order, status,
    announcements, and where each of its values has been placed. */
module ReplicaSafety {
  import opened Types
  import opened Collections
  import opened Acceptors
  import opened Proposers
  import opened SlotPaxos
  import opened ChosenLog
  import opened Replica
  import Quorum

  ghost function Pairs(values: seq<PropValue>, clients: seq<string>): (s: seq<Submission>)
    requires |values| == |clients|
  {
    seq(|values|, i requires 0 <= i < |values| => Submission(values[i], clients[i]))
  }

  ghost predicate Submitted(s: seq<Submission>, id: nat)
  {
    exists k :: 0 <= k < |s| && s[k].value.id == id
  }

  ghost predicate SubmittedValue(s: seq<Submission>, value: PropValue)
  {
    exists k :: 0 <= k < |s| && s[k].value == value
  }

  /** At most `window` proposers; values wait only while the window is full, paired with their
      clients; and values get their first slot exactly in the order in which they were committed. */
  ghost predicate WindowOk(ctx: Ctx, running: nat, waiting: seq<PropValue>, clients: seq<string>,
                           started: seq<Submission>, submitted: seq<Submission>)
  {
    && |waiting| == |clients|
    && running <= ctx.window
    && (waiting != [] ==> running == ctx.window && ctx.me == ctx.cfg.master)
    && started + Pairs(waiting, clients) == submitted
  }

  /** The status of a slot and the state of its proposer say the same. */
  ghost predicate InfoOk(info: ProposerInfo)
  {
    && info.status != ProposerStatus.Chosen
    && (info.status == PhaseII <==> info.proposer.currValue.Some?)
  }

  ghost predicate RunsPlaced(info: ProposerInfo, placed: map<nat, PropValue>, s: nat)
  {
    s in placed && placed[s] == info.proposer.initValue && InfoOk(info)
  }

  ghost predicate SlotsOk(proposers: map<nat, ProposerInfo>, placed: map<nat, PropValue>, maxSlot: nat)
  {
    && (forall s :: s in proposers ==> RunsPlaced(proposers[s], placed, s))
    && (forall s :: s in placed ==> 1 <= s <= maxSlot)
  }

  /** Slots are announced in order, each once, with the id that is stored, and only when everything
      up to them is known. */
  ghost predicate AnnouncedOk(log: Log, lastSlot: nat, announced: seq<Announcement>)
  {
    && |announced| == lastSlot <= log.withoutHole <= log.maxChosen
    && forall s :: 1 <= s <= lastSlot ==>
         log.values[s].Some? && announced[s - 1] == Announcement(s, log.values[s].value.id)
  }

  /** What was placed is a value that was started here, and a slot that was lost is over. */
  ghost predicate HomesOk(placed: map<nat, PropValue>, lost: set<nat>, proposers: map<nat, ProposerInfo>,
                          started: seq<Submission>)
  {
    && (forall t :: t in placed ==> SubmittedValue(started, placed[t]))
    && (forall t :: t in lost ==> t in placed && t !in proposers)
  }

  ghost predicate QueueOk(ctx: Ctx, c: CaptainState)
  {
    WindowOk(ctx, |c.proposers|, c.waiting, c.clients, c.started, c.submitted)
  }

  ghost predicate PlacesOk(c: CaptainState)
  {
    SlotsOk(c.proposers, c.placed, c.maxSlot) && HomesOk(c.placed, c.lost, c.proposers, c.started)
  }

  ghost predicate CoreOk(c: CaptainState)
  {
    Ok(c.log) && PlacesOk(c) && AnnouncedOk(c.log, c.lastSlot, c.announced)
  }

  ghost predicate CaptainOk(ctx: Ctx, c: CaptainState)
  {
    CoreOk(c) && QueueOk(ctx, c)
  }

  lemma InitialOk(ctx: Ctx)
    requires ctx.Valid()
    ensures CaptainOk(ctx, Initial(ctx))
  {
  }

  // ---------------------------------------------------------------- log, announcements and places

  /** Learning a value in any of the ways there are. */
  lemma LearnKeeps(c: CaptainState, slot: nat, value: PropValue)
    requires CoreOk(c) && slot >= 1
    ensures CoreOk(Learned(c, slot, value))
  {
    AddRefinesFirstWrite(c.log, slot, value);
    KnownStays(c.log, AddChosen(c.log, slot, value));
  }

  lemma KnownStays(l: Log, l': Log)
    requires Ok(l) && Ok(l') && l.delivered <= l'.delivered
    ensures l.withoutHole <= l'.withoutHole
    ensures forall s :: 1 <= s <= l.withoutHole ==> l'.values[s] == l.values[s]
  {
    forall s | 1 <= s <= l.withoutHole ensures l'.values[s] == l.values[s] {
      assert l.delivered[s - 1] == l'.delivered[s - 1];
    }
  }

  /** Any change of a running proposer that keeps its own value and a matching status. */
  lemma TouchKeeps(ctx: Ctx, c: CaptainState, slot: nat, info: ProposerInfo)
    requires CaptainOk(ctx, c) && slot in c.proposers
    requires info.proposer.initValue == c.proposers[slot].proposer.initValue && InfoOk(info)
    ensures CaptainOk(ctx, c.(proposers := c.proposers[slot := info]))
  {
    Updated(c.proposers, slot, info);
  }

  lemma AnnounceKeeps(c: CaptainState)
    requires CoreOk(c)
    ensures CoreOk(Announce(c).0)
  {
    var c' := Announce(c).0;
    assert AnnouncedOk(c'.log, c'.lastSlot, c'.announced);
  }

  /** The announcement made, if any, is the slot after the last one announced, and it is settled. */
  lemma AnnouncesNext(c: CaptainState)
    requires CoreOk(c)
    ensures var (c', last) := Announce(c);
      && (last.Some? <==> c.lastSlot < c.log.withoutHole)
      && (last.Some? ==> c'.lastSlot == c.lastSlot + 1 == last.value.slot <= c.log.withoutHole
                         && c'.announced == c.announced + [last.value])
      && (last.None? ==> c' == c)
  {
    if c.lastSlot < c.log.withoutHole { assert c.log.values[c.lastSlot + 1].Some?; }
  }

  lemma FreeKeeps(c: CaptainState, slot: nat)
    requires CoreOk(c)
    ensures CoreOk(Freed(c, slot))
  {
  }

  /** The slot that is freed went to another value. */
  lemma LoseKeeps(c: CaptainState, slot: nat)
    requires CoreOk(c) && slot in c.proposers && slot in c.placed
    ensures CoreOk(FreedLost(c, slot))
    ensures SubmittedValue(c.started, c.placed[slot])
  {
    FreeKeeps(c, slot);
  }

  /** A new slot for `value`. */
  lemma PlaceKeeps(c: CaptainState, c': CaptainState, slot: nat, value: PropValue, info: ProposerInfo)
    requires PlacesOk(c) && slot > c.maxSlot
    requires info.proposer.initValue == value && InfoOk(info)
    requires c'.maxSlot == slot && c'.proposers == c.proposers[slot := info] && c'.placed == c.placed[slot := value]
    requires c'.lost == c.lost && SubmittedValue(c'.started, value) && c.started <= c'.started
    ensures PlacesOk(c')
  {
    SlotsGrow(c.proposers, c.placed, c.maxSlot, slot, value, info);
    HomesGrow(c.placed, c.lost, c.proposers, c.started, c'.started, slot, value, info);
  }

  lemma SlotsGrow(proposers: map<nat, ProposerInfo>, placed: map<nat, PropValue>, maxSlot: nat, slot: nat,
                  value: PropValue, info: ProposerInfo)
    requires SlotsOk(proposers, placed, maxSlot) && slot > maxSlot
    requires info.proposer.initValue == value && InfoOk(info)
    ensures slot !in placed && SlotsOk(proposers[slot := info], placed[slot := value], slot)
  {
    forall s | s in proposers ensures RunsPlaced(proposers[s], placed[slot := value], s) {
      assert RunsPlaced(proposers[s], placed, s);
    }
  }

  lemma HomesGrow(placed: map<nat, PropValue>, lost: set<nat>, proposers: map<nat, ProposerInfo>,
                  started: seq<Submission>, started': seq<Submission>, slot: nat, value: PropValue, info: ProposerInfo)
    requires HomesOk(placed, lost, proposers, started)
    requires slot !in placed && SubmittedValue(started', value) && started <= started'
    ensures HomesOk(placed[slot := value], lost, proposers[slot := info], started')
  {
    forall t | t in placed ensures SubmittedValue(started', placed[t]) {
      StillSubmitted(started, started', placed[t]);
    }
  }

  lemma StillSubmitted(s: seq<Submission>, s': seq<Submission>, value: PropValue)
    requires s <= s' && SubmittedValue(s, value)
    ensures SubmittedValue(s', value)
  {
    var k :| 0 <= k < |s| && s[k].value == value;
    assert s'[k] == s[k];
  }

  lemma LastIsSubmitted(s: seq<Submission>, value: PropValue, client: string)
    ensures SubmittedValue(s + [Submission(value, client)], value)
  {
    assert (s + [Submission(value, client)])[|s|].value == value;
  }

  lemma StartFastKeeps(ctx: Ctx, c: CaptainState, value: PropValue, client: string, asked: set<nat>)
    requires CoreOk(c)
    ensures CoreOk(StartFast(ctx, c, value, client, asked).state)
  {
    var c1 := Started(ctx, c, value, client);
    LastIsSubmitted(c.started, value, client);
    PlaceKeeps(c, c1, c.maxSlot + 1, value, c1.proposers[c.maxSlot + 1]);
    AnnounceKeeps(c1);
  }

  /** A new slot in phase I. */
  lemma BeginKeeps(ctx: Ctx, c: CaptainState, slot: nat, value: PropValue, client: string, tryTime: nat,
                   asked: set<nat>)
    requires CoreOk(c) && slot > c.maxSlot && SubmittedValue(c.started, value)
    ensures CoreOk(BeginSlot(ctx, c, slot, value, client, tryTime, asked).state)
  {
    var c' := BeginSlot(ctx, c, slot, value, client, tryTime, asked).state;
    PlaceKeeps(c, c', slot, value, c'.proposers[slot]);
  }

  // ---------------------------------------------------------------- the window and the queue

  lemma StartedQueue(ctx: Ctx, c: CaptainState, value: PropValue, client: string, asked: set<nat>)
    requires c.maxSlot + 1 !in c.proposers
    requires WindowOk(ctx, |c.proposers| + 1, c.waiting, c.clients,
      c.started + [Submission(value, client)], c.submitted)
    ensures QueueOk(ctx, StartFast(ctx, c, value, client, asked).state)
  {
    Inserted(c.proposers, c.maxSlot + 1, ProposerInfo(1, client, FastStarted(ctx.me, value), PhaseII));
  }

  lemma BeginQueue(ctx: Ctx, c: CaptainState, slot: nat, value: PropValue, client: string, tryTime: nat,
                   asked: set<nat>)
    requires slot !in c.proposers && WindowOk(ctx, |c.proposers| + 1, c.waiting, c.clients, c.started, c.submitted)
    ensures QueueOk(ctx, BeginSlot(ctx, c, slot, value, client, tryTime, asked).state)
  {
    Inserted(c.proposers, slot, ProposerInfo(tryTime, client, Prepared(ctx.me, value), Init));
  }

  lemma NewSlotIsFree(c: CaptainState, slot: nat)
    requires CoreOk(c) && slot > c.maxSlot
    ensures slot !in c.proposers
  {
    forall s | s in c.proposers ensures s <= c.maxSlot { assert RunsPlaced(c.proposers[s], c.placed, s); }
  }

  lemma RecommitQueue(ctx: Ctx, c: CaptainState, slot: nat, slot': nat, value: PropValue, name: string, tryTime: nat,
                      asked: set<nat>)
    requires QueueOk(ctx, c) && slot in c.proposers && slot' !in c.proposers
    ensures QueueOk(ctx, BeginSlot(ctx, FreedLost(c, slot), slot', value, name, tryTime, asked).state)
  {
    Removed(c.proposers, slot);
    BeginQueue(ctx, FreedLost(c, slot), slot', value, name, tryTime, asked);
  }

  lemma WonQueue(ctx: Ctx, c: CaptainState, slot: nat, asked: set<nat>)
    requires QueueOk(ctx, c) && slot in c.proposers && c.maxSlot + 1 !in c.proposers
    ensures QueueOk(ctx, OnOwnChosen(ctx, c, slot, asked).state)
  {
    Removed(c.proposers, slot);
    if c.waiting != [] {
      var c1 := Dequeued(Freed(c, slot));
      assert Pairs(c.waiting, c.clients) == [Submission(c.waiting[0], c.clients[0])] + Pairs(c1.waiting, c1.clients);
      StartedQueue(ctx, c1, c.waiting[0], c.clients[0], asked);
    }
  }

  // ---------------------------------------------------------------- the operations

  /** Committing a value at the master. */
  lemma CommitKeeps(ctx: Ctx, c: CaptainState, value: PropValue, client: string, asked: set<nat>)
    requires ctx.Valid() && CaptainOk(ctx, c) && ctx.me == ctx.cfg.master
    ensures CaptainOk(ctx, Commit(ctx, c, value, client, asked).state)
  {
    var c1 := c.(submitted := c.submitted + [Submission(value, client)]);
    if |c.proposers| == ctx.window {
      assert Pairs(c.waiting + [value], c.clients + [client]) ==
        Pairs(c.waiting, c.clients) + [Submission(value, client)];
    } else {
      assert c.waiting == [];
      assert Pairs(c.waiting, c.clients) == [];
      StartFastKeeps(ctx, c1, value, client, asked);
      NewSlotIsFree(c, c.maxSlot + 1);
      StartedQueue(ctx, c1, value, client, asked);
    }
  }

  lemma StartFastFields(ctx: Ctx, c: CaptainState, value: PropValue, client: string, asked: set<nat>)
    ensures var c' := StartFast(ctx, c, value, client, asked).state;
      && c'.proposers == c.proposers[c.maxSlot + 1 := ProposerInfo(1, client, FastStarted(ctx.me, value), PhaseII)]
      && c'.waiting == c.waiting && c'.started == c.started + [Submission(value, client)]
  {
  }

  lemma RoomStarts(ctx: Ctx, c: CaptainState, value: PropValue, client: string, asked: set<nat>)
    requires |c.proposers| < ctx.window && c.waiting == []
    ensures Commit(ctx, c, value, client, asked) ==
      StartFast(ctx, c.(submitted := c.submitted + [Submission(value, client)]), value, client, asked)
  {
  }

  /** A commit is never refused: the check for too many proposers cannot fire. */
  lemma CommitAccepts(ctx: Ctx, c: CaptainState, value: PropValue, client: string, asked: set<nat>)
    requires ctx.Valid() && CaptainOk(ctx, c)
    ensures var c' := Commit(ctx, c, value, client, asked).state;
      if |c.proposers| == ctx.window
      then c'.waiting == c.waiting + [value] && c'.clients == c.clients + [client] && c'.started == c.started
      else
        && c'.waiting == [] && c'.started == c.started + [Submission(value, client)]
        && |c'.proposers| == |c.proposers| + 1
  {
    if |c.proposers| < ctx.window {
      NewSlotIsFree(c, c.maxSlot + 1);
      Inserted(c.proposers, c.maxSlot + 1, ProposerInfo(1, client, FastStarted(ctx.me, value), PhaseII));
      RoomStarts(ctx, c, value, client, asked);
      StartFastFields(ctx, c.(submitted := c.submitted + [Submission(value, client)]), value, client, asked);
    }
  }

  lemma ContendKeeps(ctx: Ctx, c: CaptainState, slot: nat, value: PropValue, client: string, asked: set<nat>)
    requires ctx.Valid() && CaptainOk(ctx, c) && slot > c.maxSlot && |c.proposers| < ctx.window
    ensures CaptainOk(ctx, Contend(ctx, c, slot, value, client, asked).state)
  {
    var started := c.started + [Submission(value, client)];
    assert c.waiting == [] && Pairs(c.waiting, c.clients) == [] && c.started == c.submitted;
    LastIsSubmitted(c.started, value, client);
    var c1 := c.(submitted := started, started := started);
    StartedGrows(c, c1);
    BeginKeeps(ctx, c1, slot, value, client, 1, asked);
    NewSlotIsFree(c, slot);
    BeginQueue(ctx, c1, slot, value, client, 1, asked);
  }

  lemma StartedGrows(c: CaptainState, c1: CaptainState)
    requires CoreOk(c) && c1 == c.(submitted := c1.submitted, started := c1.started) && c.started <= c1.started
    ensures CoreOk(c1)
  {
    forall t | t in c.placed ensures SubmittedValue(c1.started, c.placed[t]) {
      StillSubmitted(c.started, c1.started, c.placed[t]);
    }
  }

  /** The slot went to this node's own value. */
  lemma WonCore(ctx: Ctx, c: CaptainState, slot: nat, asked: set<nat>)
    requires CaptainOk(ctx, c) && slot in c.proposers
    ensures CoreOk(OnOwnChosen(ctx, c, slot, asked).state)
  {
    FreeKeeps(c, slot);
    if c.waiting != [] {
      StartFastKeeps(ctx, Dequeued(Freed(c, slot)), c.waiting[0], c.clients[0], asked);
    }
  }

  /** The slot went to another value: this node's own moves on. */
  lemma RecommitCore(ctx: Ctx, c: CaptainState, slot: nat, name: string, tryTime: nat, asked: set<nat>)
    requires CoreOk(c) && slot in c.proposers && slot in c.placed
    ensures CoreOk(BeginSlot(ctx, FreedLost(c, slot), c.maxSlot + 1, c.placed[slot], name, tryTime, asked).state)
  {
    LoseKeeps(c, slot);
    BeginKeeps(ctx, FreedLost(c, slot), c.maxSlot + 1, c.placed[slot], name, tryTime, asked);
  }

  lemma ChooseQueue(ctx: Ctx, c: CaptainState, slot: nat, p: ProposerState, tryTime: nat, asked: set<nat>, name: string)
    requires QueueOk(ctx, c) && slot in c.proposers && c.maxSlot + 1 !in c.proposers
    ensures QueueOk(ctx, OnChoose(ctx, c, slot, p, tryTime, asked, name).state)
  {
    if p.currValue.Some? {
      if p.currValue.value.id == p.initValue.id {
        WonQueue(ctx, Learned(c, slot, p.currValue.value), slot, asked);
      } else {
        RecommitQueue(ctx, Learned(c, slot, p.currValue.value), slot, c.maxSlot + 1, p.initValue,
          name, tryTime + 1, asked);
      }
    }
  }

  lemma OwnChosenCore(ctx: Ctx, c: CaptainState, slot: nat, p: ProposerState, tryTime: nat, asked: set<nat>,
                      name: string)
    requires p.currValue.Some? && p.currValue.value.id == p.initValue.id
    requires CaptainOk(ctx, Learned(c, slot, p.currValue.value)) && slot in c.proposers
    ensures CoreOk(OnChoose(ctx, c, slot, p, tryTime, asked, name).state)
  {
    WonCore(ctx, Learned(c, slot, p.currValue.value), slot, asked);
  }

  lemma OtherChosenCore(ctx: Ctx, c: CaptainState, slot: nat, p: ProposerState, tryTime: nat, asked: set<nat>,
                        name: string)
    requires p.currValue.Some? && p.currValue.value.id != p.initValue.id
    requires CoreOk(Learned(c, slot, p.currValue.value)) && slot in c.proposers && slot in c.placed
    requires p.initValue == c.placed[slot]
    ensures CoreOk(OnChoose(ctx, c, slot, p, tryTime, asked, name).state)
  {
    var c1 := Learned(c, slot, p.currValue.value);
    RecommitCore(ctx, c1, slot, name, tryTime + 1, asked);
    assert OnChoose(ctx, c, slot, p, tryTime, asked, name) ==
      BeginSlot(ctx, FreedLost(c1, slot), c1.maxSlot + 1, c1.placed[slot], name, tryTime + 1, asked);
  }

  lemma ChooseKeeps(ctx: Ctx, c: CaptainState, slot: nat, p: ProposerState, tryTime: nat, asked: set<nat>, name: string)
    requires CaptainOk(ctx, c) && slot in c.proposers && p.initValue == c.proposers[slot].proposer.initValue
    ensures CaptainOk(ctx, OnChoose(ctx, c, slot, p, tryTime, asked, name).state)
  {
    assert RunsPlaced(c.proposers[slot], c.placed, slot);
    NewSlotIsFree(c, c.maxSlot + 1);
    ChooseQueue(ctx, c, slot, p, tryTime, asked, name);
    if p.currValue.Some? {
      LearnKeeps(c, slot, p.currValue.value);
      if p.currValue.value.id == p.initValue.id {
        OwnChosenCore(ctx, c, slot, p, tryTime, asked, name);
      } else {
        OtherChosenCore(ctx, c, slot, p, tryTime, asked, name);
      }
    }
  }

  lemma PromiseMsgKeeps(ctx: Ctx, c: CaptainState, m: Msg, asked: set<nat>)
    requires CaptainOk(ctx, c) && m.Promise?
    ensures CaptainOk(ctx, OnPromiseMsg(ctx, c, m, asked).state)
  {
    if m.slot in c.proposers && c.proposers[m.slot].status in {Init, PhaseI} {
      var info := c.proposers[m.slot];
      var (p, result) := OnPromise(info.proposer, m.src,
        PromiseAck(m.ballot, m.reply, m.maxBallot, m.maxValue), Quorum.Size(ctx.cfg.n));
      assert InfoOk(info);
      if result == Continue {
        TouchKeeps(ctx, c, m.slot, info.(proposer := p, status := PhaseII));
      } else if result == AckType.Restart {
        TouchKeeps(ctx, c, m.slot, info.(proposer := Restarted(p, ctx.me), status := Init));
      } else {
        TouchKeeps(ctx, c, m.slot, info.(proposer := p, status := PhaseI));
      }
    }
  }

  lemma AcceptedMsgKeeps(ctx: Ctx, c: CaptainState, m: Msg, asked: set<nat>, name: string)
    requires ctx.Valid() && CaptainOk(ctx, c) && m.Accepted?
    ensures CaptainOk(ctx, OnAcceptedMsg(ctx, c, m, asked, name).state)
  {
    if m.slot in c.proposers && c.proposers[m.slot].status == PhaseII {
      var info := c.proposers[m.slot];
      var (p, result) := OnAccepted(info.proposer, m.src, AcceptAck(m.ballot, m.reply), Quorum.Size(ctx.cfg.n));
      assert InfoOk(info);
      if result == Choose {
        ChooseKeeps(ctx, c, m.slot, p, info.tryTime, asked, name);
      } else if result == AckType.Restart {
        TouchKeeps(ctx, c, m.slot, info.(proposer := Restarted(p, ctx.me), status := Init));
      } else {
        TouchKeeps(ctx, c, m.slot, info.(proposer := p));
      }
    }
  }

  /** The slot a message may make its receiver learn about is a real one. */
  ghost predicate LearnsFrom1(m: Msg)
  {
    match m
    case Accept(_, _, _, _, last) => last.Some? ==> last.value.slot >= 1
    case Decide(_, slot, _) => slot >= 1
    case Teach(_, slot, _) => slot >= 1
    case LogData(slot, _) => slot >= 1
    case _ => true
  }

  lemma SameButAcceptors(ctx: Ctx, c: CaptainState, acceptors: seq<AcceptorState>)
    requires CaptainOk(ctx, c)
    ensures CaptainOk(ctx, c.(acceptors := acceptors))
  {
  }

  lemma LearnedOk(ctx: Ctx, c: CaptainState, slot: nat, value: PropValue)
    requires CaptainOk(ctx, c) && slot >= 1
    ensures CaptainOk(ctx, Learned(c, slot, value))
  {
    LearnKeeps(c, slot, value);
  }

  lemma AcceptMsgKeeps(ctx: Ctx, c: CaptainState, m: Msg)
    requires CaptainOk(ctx, c) && m.Accept? && LearnsFrom1(m)
    ensures CaptainOk(ctx, OnAcceptMsg(ctx, c, m).state)
  {
    var c1 := c.(acceptors := OnAcceptMsg(ctx, c, m).state.acceptors);
    AcceptLearnsAtMost(ctx, c, m);
    SameButAcceptors(ctx, c, c1.acceptors);
    if OnAcceptMsg(ctx, c, m).state != c1 {
      LearnedOk(ctx, c1, m.last.value.slot, c1.acceptors[m.last.value.slot].maxValue.value);
    }
  }

  lemma AcceptLearnsAtMost(ctx: Ctx, c: CaptainState, m: Msg)
    requires m.Accept?
    ensures var c' := OnAcceptMsg(ctx, c, m).state;
      var c1 := c.(acceptors := c'.acceptors);
      c' == c1 || (m.last.Some? && Stores(c1.acceptors, m.last.value.slot, m.last.value.id)
                   && c' == Learned(c1, m.last.value.slot, c1.acceptors[m.last.value.slot].maxValue.value))
  {
  }

  lemma DecideMsgKeeps(ctx: Ctx, c: CaptainState, m: Msg)
    requires CaptainOk(ctx, c) && m.Decide? && LearnsFrom1(m)
    ensures CaptainOk(ctx, OnDecideMsg(ctx, c, m).state)
  {
    if Stores(c.acceptors, m.slot, m.id) { LearnedOk(ctx, c, m.slot, c.acceptors[m.slot].maxValue.value); }
  }

  /** Every message keeps everything this module claims of a node. */
  lemma HandleMsgKeeps(ctx: Ctx, c: CaptainState, m: Msg, asked: set<nat>, name: string)
    requires ctx.Valid() && CaptainOk(ctx, c) && LearnsFrom1(m)
    ensures CaptainOk(ctx, HandleMsg(ctx, c, m, asked, name).state)
  {
    match m
    case Promise(_, _, _, _, _, _) => PromiseMsgKeeps(ctx, c, m, asked);
    case Accepted(_, _, _, _) => AcceptedMsgKeeps(ctx, c, m, asked, name);
    case Accept(_, _, _, _, _) => AcceptMsgKeeps(ctx, c, m);
    case Decide(_, _, _) => DecideMsgKeeps(ctx, c, m);
    case Teach(_, slot, value) => LearnedOk(ctx, c, slot, value);
    case Prepare(_, _, _) => SameButAcceptors(ctx, c, OnPrepareMsg(ctx, c, m).state.acceptors);
    case _ =>
  }
}
