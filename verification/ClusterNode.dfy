/** The captain object as a node of the cluster: what its entry points do are the events of the cluster. */
module ClusterNode {
  import opened Types
  import opened Replica
  import opened Cluster
  import opened Captains
  import Ballots
  import Quorum

  /** The object is node `i` of the cluster in the state `sys`. */
  ghost predicate IsNode(captain: Captain, par: Params, sys: System, i: nat)
    reads captain, captain.view, captain.accs, captain.owner.Keys
    requires par.Valid()
  {
    && captain.Valid() && i < par.cfg.n == |sys.nodes| && captain.ctx == par.At(i) && sys.nodes[i] == captain.State()
  }

  /** Handling a packet that was sent is a delivery. */
  method Receive(captain: Captain, ghost par: Params, ghost sys: System, p: Packet, name: string)
    returns (out: set<Packet>)
    requires par.Valid() && IsNode(captain, par, sys, p.dst) && p in sys.sent && NamesSlots(p.msg)
    modifies captain, captain.accs, captain.owner.Keys
    ensures captain.Valid()
    ensures var e := Deliver(p, captain.view.Asked(), name);
      Cluster.Enabled(par, sys, e) && Does(par, sys, e) == Handled(captain.State(), out)
  {
    out := captain.HandleMsg(p.msg, name);
    captain.FitsCluster();
  }

  lemma CommitIs(par: Params, sys: System, i: nat, data: string, client: string, asked: set<nat>)
    requires par.Valid() && i < par.cfg.n == |sys.nodes| && asked <= Quorum.Nodes(par.cfg.n)
    ensures var e, value := ClientCommit(i, data, client, asked), NextValue(sys.nodes[i], data);
      && Does(par, sys, e) == (
        if i == par.cfg.master then Commit(par.At(i), Counted(sys.nodes[i]), value, client, asked)
        else Handled(Counted(sys.nodes[i]), {}))
      && Sends(par, sys, e) == (if i == par.cfg.master then {} else {value})
  {
  }

  /** A client's data is a commit at this node, or is sent to the master. */
  method Submit(captain: Captain, ghost par: Params, ghost sys: System, ghost i: nat, data: string, client: string)
    returns (out: set<Packet>, toMaster: Option<PropValue>)
    requires par.Valid() && IsNode(captain, par, sys, i)
    modifies captain, captain.accs, captain.owner.Keys
    ensures captain.Valid()
    ensures var e := ClientCommit(i, data, client, captain.view.Asked());
      && Cluster.Enabled(par, sys, e) && Does(par, sys, e) == Handled(captain.State(), out)
      && Sends(par, sys, e) == if toMaster.Some? then {toMaster.value} else {}
  {
    captain.FitsCluster();
    ghost var c := captain.State();
    out, toMaster := captain.CommitData(data, client);
    captain.FitsCluster();
    assert Counted(c) == c.(valueId := c.valueId + Ballots.STEP);
    CommitIs(par, sys, i, data, client, captain.view.Asked());
  }

  /** A value that was sent to the master, and has come there. */
  method ReceiveCommit(captain: Captain, ghost par: Params, ghost sys: System, value: PropValue)
    returns (out: set<Packet>)
    requires par.Valid() && IsNode(captain, par, sys, par.cfg.master) && value in sys.commits
    modifies captain, captain.accs, captain.owner.Keys
    ensures captain.Valid()
    ensures var e := DeliverCommit(value, captain.view.Asked());
      Cluster.Enabled(par, sys, e) && Does(par, sys, e) == Handled(captain.State(), out)
  {
    captain.FitsCluster();
    out := captain.HandleCommit(value);
    captain.FitsCluster();
  }

  /** An entry of the log that was fetched. */
  method ReceiveLog(captain: Captain, ghost par: Params, ghost sys: System, ghost i: nat, p: Packet)
    returns (fetchNext: bool)
    requires par.Valid() && IsNode(captain, par, sys, i) && p in sys.sent && p.msg.LogData?
    modifies captain, captain.accs, captain.owner.Keys
    ensures captain.Valid()
    ensures Cluster.Enabled(par, sys, DeliverLog(i, p))
    ensures Does(par, sys, DeliverLog(i, p)) == Handled(captain.State(), {})
  {
    fetchNext := captain.OnDataLog(p.msg.slot, p.msg.value);
  }
}
