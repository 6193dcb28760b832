/** Exactly where skipping phase I is sound: in slots whose acceptors start promised to the master's
    first ballot, or when no node that may come to the slot can generate a smaller ballot than the master. */
module FastPath {
  import opened Types
  import opened Proposers
  import opened Ballots
  import opened SlotPaxos
  import opened SlotSafety
  import Quorum

  ghost predicate EndsAt(cfg: Config, slot: nat, run: seq<SlotState>, moves: seq<Move>, st: SlotState)
  {
    IsRun(cfg, slot, run, moves) && run[|moves|] == st
  }

  ghost predicate Reachable(cfg: Config, slot: nat, st: SlotState)
  {
    exists run, moves :: EndsAt(cfg, slot, run, moves, st)
  }

  /** The nodes that have come to the slot with a value. */
  ghost function Contenders(st: SlotState): set<nat>
  {
    set i: nat | i < |st.nodes| && !st.nodes[i].role.Idle?
  }

  /** In every state that the slot can reach with no other contenders than `who`, at most one id is chosen. */
  ghost predicate Agrees(cfg: Config, slot: nat, who: set<nat>)
  {
    forall st, id, id' :: Reachable(cfg, slot, st) && Contenders(st) <= who && ChosenId(st, id) && ChosenId(st, id') ==>
      id == id'
  }

  ghost predicate FastPathSafe(cfg: Config, slot: nat, who: set<nat>)
  {
    cfg.PrePromised(slot) || cfg.master !in who || forall j :: j in who ==> cfg.master <= j
  }

  lemma StartIsReachable(cfg: Config, slot: nat)
    ensures Reachable(cfg, slot, SlotPaxos.Start(cfg, slot))
  {
    assert EndsAt(cfg, slot, [SlotPaxos.Start(cfg, slot)], [], SlotPaxos.Start(cfg, slot));
  }

  lemma StepIsReachable(cfg: Config, slot: nat, st: SlotState, i: nat, step: SlotStep)
    requires Reachable(cfg, slot, st) && Enabled(cfg, slot, st, i, step)
    ensures Reachable(cfg, slot, Apply(cfg, slot, st, i, step))
  {
    var st' := Apply(cfg, slot, st, i, step);
    var run, moves :| EndsAt(cfg, slot, run, moves, st);
    assert EndsAt(cfg, slot, run + [st'], moves + [Move(i, step)], st');
  }

  // ---------------------------------------------------------------- the run that breaks agreement

  const MINE: PropValue := PropValue(0, "")
  const OTHER: PropValue := PropValue(1, "")

  ghost predicate SentToAll(cfg: Config, st: SlotState, m: Msg)
  {
    forall j: nat :: j < Quorum.Size(cfg.n) ==> Packet(j, m) in st.msgs
  }

  /** What node `i` does on a request that was sent to all. */
  ghost function Answer(cfg: Config, slot: nat, ns: NodeSlot, i: nat, m: Msg): (NodeSlot, set<Packet>)
  {
    Local(cfg.n, slot, i, ns, Handle(m, {}, true))
  }

  /** Nodes 0 to k-1 handle the same request, one after the other. */
  lemma {:induction false} Each(cfg: Config, slot: nat, st: SlotState, m: Msg, k: nat) returns (st': SlotState)
    requires Reachable(cfg, slot, st) && SentToAll(cfg, st, m) && k <= Quorum.Size(cfg.n) <= |st.nodes|
    ensures Reachable(cfg, slot, st') && |st'.nodes| == |st.nodes| && st.msgs <= st'.msgs
    ensures forall i: nat :: i < |st.nodes| ==>
      st'.nodes[i] == if i < k then Answer(cfg, slot, st.nodes[i], i, m).0 else st.nodes[i]
    ensures forall i: nat :: i < k ==> Answer(cfg, slot, st.nodes[i], i, m).1 <= st'.msgs
  {
    if k == 0 {
      st' := st;
    } else {
      var st1 := Each(cfg, slot, st, m, k - 1);
      StepIsReachable(cfg, slot, st1, k - 1, Handle(m, {}, true));
      st' := Apply(cfg, slot, st1, k - 1, Handle(m, {}, true));
    }
  }

  /** Node `from` promises the first ballot of node `i`. */
  ghost function Promised(slot: nat, i: nat, from: nat): Msg
  {
    Promise(from, slot, STEP + i, true, 0, None)
  }

  /** The proposer of node `i` after promises from nodes 0 to k-1. */
  ghost function Counting(i: nat, k: nat): ProposerState
  {
    Prepared(i, MINE).(promises := map j: nat | j in Quorum.Nodes(k) :: PromiseAck(STEP + i, true, 0, None))
  }

  lemma CountOne(cfg: Config, i: nat, k: nat)
    requires k < Quorum.Size(cfg.n)
    ensures OnPromise(Counting(i, k), k, PromiseAck(STEP + i, true, 0, None), Quorum.Size(cfg.n)) ==
      if k + 1 < Quorum.Size(cfg.n) then (Counting(i, k + 1), NotEnough)
      else (Counting(i, k + 1).(currValue := Some(MINE)), Continue)
  {
    var acks := Counting(i, k + 1).promises;
    assert acks == Counting(i, k).promises[k := PromiseAck(STEP + i, true, 0, None)];
    assert acks.Keys == Quorum.Nodes(k + 1);
    assert |acks| == |acks.Keys|;
    assert Yes(acks, acks.Keys) == acks.Keys;
    BestIsMaximum(acks, acks.Keys, 0, None);
  }

  ghost function Promoted(st: SlotState, i: nat, role: Role): SlotState
    requires i < |st.nodes|
  {
    st.(nodes := st.nodes[i := st.nodes[i].(role := role)])
  }

  lemma PromiseOne(cfg: Config, slot: nat, st: SlotState, i: nat, k: nat, asked: set<nat>)
    requires k < Quorum.Size(cfg.n) && i < |st.nodes| && st.nodes[i].role == Running(Counting(i, k))
    ensures Apply(cfg, slot, st, i, Handle(Promised(slot, i, k), asked, true)) ==
      if k + 1 < Quorum.Size(cfg.n) then Promoted(st, i, Running(Counting(i, k + 1)))
      else
        var st' := Promoted(st, i, Running(Counting(i, k + 1).(currValue := Some(MINE))));
        st'.(msgs := st.msgs + Broadcast(asked, Accept(i, slot, STEP + i, MINE, None)))
  {
    CountOne(cfg, i, k);
  }

  lemma ReachOne(cfg: Config, slot: nat, st: SlotState, i: nat, k: nat)
    requires Reachable(cfg, slot, st) && k + 1 < Quorum.Size(cfg.n) && i < |st.nodes|
    requires Packet(i, Promised(slot, i, k)) in st.msgs && st.nodes[i].role == Running(Counting(i, k))
    ensures Reachable(cfg, slot, Promoted(st, i, Running(Counting(i, k + 1))))
  {
    PromiseOne(cfg, slot, st, i, k, {});
    StepIsReachable(cfg, slot, st, i, Handle(Promised(slot, i, k), {}, true));
  }

  lemma PromotedTwice(st: SlotState, i: nat, r: Role, r': Role)
    requires i < |st.nodes|
    ensures Promoted(Promoted(st, i, r), i, r') == Promoted(st, i, r')
  {
  }

  lemma {:induction false} Promises(cfg: Config, slot: nat, st: SlotState, i: nat, k: nat)
    requires Reachable(cfg, slot, st) && k < Quorum.Size(cfg.n) && i < |st.nodes|
    requires forall j: nat :: j < Quorum.Size(cfg.n) ==> Packet(i, Promised(slot, i, j)) in st.msgs
    requires st.nodes[i].role == Running(Counting(i, 0))
    ensures Reachable(cfg, slot, Promoted(st, i, Running(Counting(i, k))))
  {
    if k == 0 {
      assert Promoted(st, i, Running(Counting(i, 0))).nodes == st.nodes;
    } else {
      Promises(cfg, slot, st, i, k - 1);
      ReachOne(cfg, slot, Promoted(st, i, Running(Counting(i, k - 1))), i, k - 1);
      PromotedTwice(st, i, Running(Counting(i, k - 1)), Running(Counting(i, k)));
    }
  }

  /** A quorum promises the first ballot of node `i`, and nobody else has come to the slot. */
  lemma AllPromise(cfg: Config, slot: nat, i: nat) returns (st: SlotState)
    requires cfg.Valid() && !cfg.PrePromised(slot) && i < cfg.n
    ensures Reachable(cfg, slot, st) && |st.nodes| == cfg.n
    ensures forall j: nat :: j < Quorum.Size(cfg.n) ==> Packet(i, Promised(slot, i, j)) in st.msgs
    ensures forall j: nat :: j < cfg.n ==> st.nodes[j].acc.maxProposed <= STEP + i
    ensures forall j: nat :: j < cfg.n ==> st.nodes[j].role == if j == i then Running(Counting(i, 0)) else Idle
  {
    var m, step := Prepare(i, slot, STEP + i), BeginPrepare(MINE, Quorum.Nodes(Quorum.Size(cfg.n)));
    Quorum.SizeIsMajority(cfg.n);
    var st0 := SlotPaxos.Start(cfg, slot);
    StartIsReachable(cfg, slot);
    StepIsReachable(cfg, slot, st0, i, step);
    var st1 := Apply(cfg, slot, st0, i, step);
    assert Counting(i, 0) == Prepared(i, MINE);
    st := Each(cfg, slot, st1, m, Quorum.Size(cfg.n));
    forall j: nat | j < Quorum.Size(cfg.n) ensures Packet(i, Promised(slot, i, j)) in st.msgs {
      assert Answer(cfg, slot, st1.nodes[j], j, m).1 <= st.msgs;
    }
  }

  /** Then node `i` sends its own value to the whole quorum. */
  lemma PhaseOne(cfg: Config, slot: nat, i: nat) returns (st: SlotState)
    requires cfg.Valid() && !cfg.PrePromised(slot) && i < cfg.n
    ensures Reachable(cfg, slot, st) && |st.nodes| == cfg.n
    ensures SentToAll(cfg, st, Accept(i, slot, STEP + i, MINE, None))
    ensures forall j: nat :: j < cfg.n ==> st.nodes[j].acc.maxProposed <= STEP + i
    ensures forall j: nat :: j < cfg.n && j != i ==> st.nodes[j].role == Idle
  {
    Quorum.SizeIsMajority(cfg.n);
    var st1 := AllPromise(cfg, slot, i);
    Promises(cfg, slot, st1, i, Quorum.Size(cfg.n) - 1);
    st := LastPromise(cfg, slot, Promoted(st1, i, Running(Counting(i, Quorum.Size(cfg.n) - 1))), i);
  }

  lemma LastPromise(cfg: Config, slot: nat, st: SlotState, i: nat) returns (st': SlotState)
    requires Reachable(cfg, slot, st) && i < |st.nodes| && 1 <= Quorum.Size(cfg.n) <= cfg.n
    requires st.nodes[i].role == Running(Counting(i, Quorum.Size(cfg.n) - 1))
    requires Packet(i, Promised(slot, i, Quorum.Size(cfg.n) - 1)) in st.msgs
    ensures Reachable(cfg, slot, st') && SentToAll(cfg, st', Accept(i, slot, STEP + i, MINE, None))
    ensures |st'.nodes| == |st.nodes|
    ensures forall j: nat :: j < |st.nodes| ==>
      st'.nodes[j].acc == st.nodes[j].acc && (j != i ==> st'.nodes[j] == st.nodes[j])
  {
    var q, asked := Quorum.Size(cfg.n), Quorum.Nodes(Quorum.Size(cfg.n));
    PromiseOne(cfg, slot, st, i, q - 1, asked);
    StepIsReachable(cfg, slot, st, i, Handle(Promised(slot, i, q - 1), asked, true));
    st' := Promoted(st, i, Running(Counting(i, q).(currValue := Some(MINE))));
    st' := st'.(msgs := st.msgs + Broadcast(asked, Accept(i, slot, STEP + i, MINE, None)));
  }

  /** Nodes 0 to q-1 accept what was sent to all of them. */
  lemma AllAccept(cfg: Config, slot: nat, st: SlotState, m: Msg) returns (st': SlotState)
    requires cfg.Valid() && |st.nodes| == cfg.n && Reachable(cfg, slot, st) && m.Accept? && SentToAll(cfg, st, m)
    requires forall i: nat :: i < cfg.n ==> st.nodes[i].acc.maxProposed <= m.ballot
    ensures Reachable(cfg, slot, st') && |st'.nodes| == cfg.n && ChosenId(st', m.value.id)
    ensures forall i: nat :: i < cfg.n ==>
      st'.nodes[i].acc.maxProposed <= m.ballot && st'.nodes[i].role == st.nodes[i].role
    ensures forall b, id :: ChosenAt(st, b, id) ==> ChosenAt(st', b, id)
  {
    var q := Quorum.Size(cfg.n);
    Quorum.SizeIsMajority(cfg.n);
    st' := Each(cfg, slot, st, m, q);
    forall i: nat | i < cfg.n ensures st.nodes[i].acc.voted <= st'.nodes[i].acc.voted
                              ensures i < q ==> m.ballot in st'.nodes[i].acc.voted {}
    assert Packet(0, m) in st'.msgs && IsAccept(Packet(0, m).msg, m.ballot, m.value.id);
    Quorum.SubsetSize(Quorum.Nodes(q), Voters(st', m.ballot));
    assert ChosenAt(st', m.ballot, m.value.id);
    forall b, id | ChosenAt(st, b, id) ensures ChosenAt(st', b, id) {
      Quorum.SubsetSize(Voters(st, b), Voters(st', b));
    }
  }

  lemma FastOne(cfg: Config, slot: nat, st: SlotState, step: SlotStep)
    requires cfg.Valid() && |st.nodes| == cfg.n && step == BeginFast(OTHER, Quorum.Nodes(Quorum.Size(cfg.n)), None)
    ensures var st' := Apply(cfg, slot, st, cfg.master, step);
      && |st'.nodes| == cfg.n
      && SentToAll(cfg, st', Accept(cfg.master, slot, cfg.MasterBallot(), OTHER, None))
      && (forall i: nat :: i < cfg.n ==> st'.nodes[i].acc == st.nodes[i].acc)
      && (forall i: nat :: i < cfg.n && i != cfg.master ==> st'.nodes[i].role == st.nodes[i].role)
      && (forall b, id :: ChosenAt(st, b, id) ==> ChosenAt(st', b, id))
  {
    var st' := Apply(cfg, slot, st, cfg.master, step);
    forall b, id | ChosenAt(st, b, id) ensures ChosenAt(st', b, id) {
      assert Voters(st', b) == Voters(st, b);
    }
  }

  /** A node below the master gets its value chosen at its first ballot, and then the master's first
      ballot, which is larger, gets another value chosen without looking. */
  lemma TwoChosen(cfg: Config, slot: nat, i: nat) returns (st: SlotState)
    requires cfg.Valid() && !cfg.PrePromised(slot) && i < cfg.master
    ensures Reachable(cfg, slot, st) && ChosenId(st, MINE.id) && ChosenId(st, OTHER.id)
    ensures Contenders(st) <= {i, cfg.master}
  {
    Quorum.SizeIsMajority(cfg.n);
    var st1 := PhaseOne(cfg, slot, i);
    var st2 := AllAccept(cfg, slot, st1, Accept(i, slot, STEP + i, MINE, None));
    var step := BeginFast(OTHER, Quorum.Nodes(Quorum.Size(cfg.n)), None);
    StepIsReachable(cfg, slot, st2, cfg.master, step);
    FastOne(cfg, slot, st2, step);
    var st3 := Apply(cfg, slot, st2, cfg.master, step);
    st := AllAccept(cfg, slot, st3, Accept(cfg.master, slot, cfg.MasterBallot(), OTHER, None));
    var b :| ChosenAt(st2, b, MINE.id);
    assert ChosenAt(st, b, MINE.id);
  }

  // ---------------------------------------------------------------- where it is sound

  /** A master that is idle at the end has never started. */
  lemma {:induction false} IdleNeverStarted(cfg: Config, slot: nat, run: seq<SlotState>, moves: seq<Move>, k: nat,
                                            l: nat)
    requires cfg.Valid() && IsRun(cfg, slot, run, moves) && l < k < |run|
    requires cfg.master < |run[k].nodes| && run[k].nodes[cfg.master].role.Idle?
    ensures !moves[l].step.BeginFast?
  {
    RunCoherent(cfg, slot, run, moves, k - 1);
    MoveGrows(cfg, slot, run, moves, k - 1);
    assert RoleAdvances(run[k - 1].nodes[cfg.master].role, run[k].nodes[cfg.master].role);
    if l + 1 < k {
      IdleNeverStarted(cfg, slot, run, moves, k - 1, l);
    } else {
      assert Moves(cfg, slot, run[l], moves[l], run[l + 1]);
    }
  }

  lemma SafeIsSheltered(cfg: Config, slot: nat, who: set<nat>, run: seq<SlotState>, moves: seq<Move>)
    requires cfg.Valid() && IsRun(cfg, slot, run, moves) && FastPathSafe(cfg, slot, who)
    requires Contenders(run[|moves|]) <= who
    ensures Sheltered(cfg, slot, run, moves, |moves|)
  {
    var st := run[|moves|];
    RunCoherent(cfg, slot, run, moves, |moves|);
    if cfg.master !in who {
      assert cfg.master !in Contenders(st);
      forall l | 0 <= l < |moves| ensures !moves[l].step.BeginFast? { IdleNeverStarted(cfg, slot,
        run, moves, |moves|, l); }
    } else if !cfg.PrePromised(slot) {
      forall j: nat | j < cfg.master && j < |st.nodes| ensures st.nodes[j].role.Idle? { assert j !in Contenders(st); }
    }
  }

  /** With the contenders `who`, a slot agrees in every reachable state if and only if its acceptors were
      promised to the master in advance, or the master is no contender, or none has a smaller id. */
  lemma AgreementIff(cfg: Config, slot: nat, who: set<nat>)
    requires cfg.Valid()
    ensures Agrees(cfg, slot, who) <==> FastPathSafe(cfg, slot, who)
  {
    if FastPathSafe(cfg, slot, who) {
      forall st, id, id' | Reachable(cfg, slot, st) && Contenders(st) <= who && ChosenId(st, id) && ChosenId(st, id')
        ensures id == id'
      {
        var run, moves :| EndsAt(cfg, slot, run, moves, st);
        SafeIsSheltered(cfg, slot, who, run, moves);
        RunAgreement(cfg, slot, run, moves, |moves|, |moves|, id, id');
      }
    } else {
      var i :| i in who && i < cfg.master;
      var st := TwoChosen(cfg, slot, i);
    }
  }
}
