/** The configuration a node reads, the set of nodes it asks, and the exchange of a member that does
    not answer. */
module Views {
  import opened Types
  import opened Collections
  import Quorum

  /** Members and spare nodes. */
  datatype Members = Members(quorums: set<nat>, spare: set<nat>)

  /** Of the first `k` hosts, those below `q` and the others. */
  function Split(k: nat, q: int): Members
  {
    Members(set i: nat | i in Quorum.Nodes(k) && i < q, set i: nat | i in Quorum.Nodes(k) && i >= q)
  }

  function First(size: nat): Members
  {
    Split(size, Quorum.Size(size))
  }

  lemma SplitStep(k: nat, q: int)
    ensures Split(k + 1, q) ==
      (if k < q then Split(k, q).(quorums := Split(k, q).quorums + {k})
        else Split(k, q).(spare := Split(k, q).spare + {k}))
  {
  }

  ghost function LeastOf(s: set<nat>): (k: nat)
    requires s != {}
    ensures Least(k, s)
  {
    HasLeast(s);
    var k :| Least(k, s);
    k
  }

  /** A refusal by `node` is acted upon: only for nodes 0 and 1, and while there is a spare node. */
  ghost predicate Exchanges(m: Members, node: nat)
  {
    node < 2 && m.spare != {}
  }

  /** The members after `node` has refused: the least spare node takes its place. */
  ghost function Exchange(m: Members, node: nat): Members
  {
    if Exchanges(m, node) then
      var joiner := LeastOf(m.spare);
      Members(m.quorums - {node} + {joiner}, m.spare - {joiner})
    else m
  }

  ghost function ExchangeAll(m: Members, refusers: seq<nat>): Members
  {
    if refusers == [] then m else Exchange(ExchangeAll(m, refusers[..|refusers| - 1]), refusers[|refusers| - 1])
  }

  /** How many refusals in `refusers` were acted upon. */
  ghost function Exchanged(m: Members, refusers: seq<nat>): nat
  {
    if refusers == [] then 0
    else
      var n := |refusers| - 1;
      Exchanged(m, refusers[..n]) + (if Exchanges(ExchangeAll(m, refusers[..n]), refusers[n]) then 1 else 0)
  }

  ghost predicate Ok(size: nat, m: Members)
  {
    && m.quorums !! m.spare
    && (forall i :: i in m.quorums + m.spare ==> i < size)
    && |m.quorums| >= Quorum.Size(size)
  }

  lemma FirstOk(size: nat)
    requires size > 0
    ensures Ok(size, First(size))
    ensures |First(size).quorums| == Quorum.Size(size) && |First(size).spare| == size - Quorum.Size(size)
  {
    Quorum.SizeIsMajority(size);
    var m := First(size);
    assert m.quorums == Quorum.Nodes(Quorum.Size(size));
    assert m.quorums + m.spare == Quorum.Nodes(size);
    assert |m.quorums + m.spare| == |m.quorums| + |m.spare|;
  }

  /** An exchange keeps the two sets apart, never shrinks the set of asked nodes, and keeps its size
      exactly if no exchange takes place or the node that refused was a member. */
  lemma ExchangeOk(size: nat, m: Members, node: nat)
    requires Ok(size, m)
    ensures Ok(size, Exchange(m, node))
    ensures |Exchange(m, node).quorums| == |m.quorums| <==> !Exchanges(m, node) || node in m.quorums
    ensures |Exchange(m, node).spare| == |m.spare| - (if Exchanges(m, node) then 1 else 0)
  {
    if Exchanges(m, node) {
      var joiner := LeastOf(m.spare);
      assert Exchange(m, node) == Members(m.quorums - {node} + {joiner}, m.spare - {joiner});
      Swap(m.quorums, m.spare, node, joiner);
      var e := Exchange(m, node);
      forall i | i in e.quorums + e.spare ensures i < size {
        assert i in m.quorums + m.spare;
      }
    }
  }

  lemma Swap(quorums: set<nat>, spare: set<nat>, node: nat, joiner: nat)
    requires joiner in spare && joiner !in quorums
    ensures |quorums - {node} + {joiner}| == |quorums| + (if node in quorums then 0 else 1)
    ensures |spare - {joiner}| == |spare| - 1
  {
    var rest := quorums - {node};
    assert joiner !in rest;
    assert |rest + {joiner}| == |rest| + 1;
    if node in quorums {
      assert quorums == rest + {node};
      assert |rest + {node}| == |rest| + 1;
    } else {
      assert rest == quorums;
    }
    assert spare == (spare - {joiner}) + {joiner};
  }

  /** Over any sequence of refusals a quorum is still asked, and no more exchanges happen than there
      were spare nodes at first. */
  lemma {:induction false} ExchangesAreBounded(size: nat, refusers: seq<nat>)
    requires size > 0
    ensures Ok(size, ExchangeAll(First(size), refusers))
    ensures Exchanged(First(size), refusers) + |ExchangeAll(First(size), refusers).spare| == size - Quorum.Size(size)
  {
    if refusers == [] {
      FirstOk(size);
    } else {
      ExchangesAreBounded(size, refusers[..|refusers| - 1]);
      ExchangeOk(size, ExchangeAll(First(size), refusers[..|refusers| - 1]), refusers[|refusers| - 1]);
    }
  }

  ghost function Zeros(n: nat): seq<nat>
  {
    seq(n, _ => 0)
  }

  function Min(a: nat, b: nat): nat
  {
    if a < b then a else b
  }

  /** How far the asked set grows: if node 0 refuses `n` times, its first refusal exchanges it, and every
      later one adds a spare node for a member that is gone already, while there are spare nodes. */
  lemma {:induction false} AskedGrows(size: nat, n: nat)
    requires size > 0
    ensures 0 <= size - Quorum.Size(size)
    ensures var m, done := ExchangeAll(First(size), Zeros(n)), Min(n, size - Quorum.Size(size));
      && |m.quorums| == Quorum.Size(size) + (if done == 0 then 0 else done - 1)
      && |m.spare| == size - Quorum.Size(size) - done
      && (0 in m.quorums <==> done == 0) && 0 !in m.spare
      && (|m.quorums| > Quorum.Size(size) <==> n >= 2 && size >= 5)
  {
    Quorum.SizeIsMajority(size);
    if n == 0 {
      FirstOk(size);
    } else {
      assert Zeros(n)[..n - 1] == Zeros(n - 1) && Zeros(n)[n - 1] == 0;
      AskedGrows(size, n - 1);
      ExchangesAreBounded(size, Zeros(n - 1));
      ExchangeOk(size, ExchangeAll(First(size), Zeros(n - 1)), 0);
      ExchangeZero(ExchangeAll(First(size), Zeros(n - 1)));
    }
  }

  lemma ExchangeZero(m: Members)
    requires 0 !in m.spare
    ensures 0 !in Exchange(m, 0).spare && (0 in Exchange(m, 0).quorums <==> m.spare == {} && 0 in m.quorums)
  {
  }

  class View {
    const nodeId: nat
    const size: nat
    const qSize: int
    const length: nat
    var masterId: nat
    var quorums: set<nat>
    var spare: set<nat>

    ghost function Sets(): Members
      reads this
    {
      Members(quorums, spare)
    }

    /** The node is one of the cluster, and a quorum of the cluster is asked. */
    ghost predicate Valid()
      reads this
    {
      nodeId < size && qSize == Quorum.Size(size) && Ok(size, Sets())
    }

    /** The nodes a broadcast goes to: in a cluster of one the node asks itself. */
    function Asked(): set<nat>
      reads this
    {
      if size == 1 then {nodeId} else quorums
    }

    /** The first `qSize` hosts of the configuration are members; an id out of range becomes 0. */
    constructor (id: nat, hosts: nat, master: nat, lease: nat)
      ensures nodeId == (if id >= hosts then 0 else id)
      ensures size == hosts && qSize == Quorum.Size(hosts) && length == lease && masterId == master
      ensures Sets() == First(hosts) && (hosts > 0 ==> Valid())
    {
      size, qSize, length, masterId := hosts, Quorum.Size(hosts), lease, master;
      nodeId := if id >= hosts then 0 else id;
      quorums, spare := {}, {};
      new;
      FillSets();
      if hosts > 0 { FirstOk(hosts); }
    }

    method FillSets()
      requires Sets() == Members({}, {})
      modifies `quorums, `spare
      ensures Sets() == Split(size, qSize)
    {
      for i := 0 to size
        invariant quorums == Split(i, qSize).quorums && spare == Split(i, qSize).spare
      {
        SplitStep(i, qSize);
        if i < qSize {
          quorums := quorums + {i};
        } else {
          spare := spare + {i};
        }
      }
    }

    method AddQuorums(node: nat)
      modifies `quorums
      ensures quorums == old(quorums) + {node}
    {
      if node !in quorums {
        quorums := quorums + {node};
      }
    }

    method RemoveQuorums(node: nat)
      modifies `quorums
      ensures quorums == old(quorums) - {node}
    {
      if node in quorums {
        quorums := quorums - {node};
      }
    }

    method AddNQuorums(node: nat)
      modifies `spare
      ensures spare == old(spare) + {node}
    {
      if node !in spare {
        spare := spare + {node};
      }
    }

    method RemoveNQuorums(node: nat)
      modifies `spare
      ensures spare == old(spare) - {node}
    {
      if node in spare {
        spare := spare - {node};
      }
    }

    /** Only nodes of the cluster are asked. */
    lemma AskedAreNodes()
      requires Valid()
      ensures Asked() <= Quorum.Nodes(size)
    {
      forall i | i in quorums ensures i < size { assert i in quorums + spare; }
    }

    predicate IfMaster()
      reads this
    {
      nodeId == masterId
    }

    predicate IfQuorum()
      reads this
    {
      nodeId in quorums
    }
  }

  class Commo {
    const view: View

    constructor (view: View)
      ensures this.view == view
    {
      this.view := view;
    }

    /** One packet to every member; a cluster of one hands the message to itself. */
    method BroadcastMsg(m: Msg) returns (packets: set<Packet>)
      ensures packets == Broadcast(view.Asked(), m)
    {
      if view.size == 1 {
        return {Packet(view.nodeId, m)};
      }
      packets := {};
      var rest := view.quorums;
      while rest != {}
        invariant rest <= view.quorums
        invariant packets == Broadcast(view.quorums - rest, m)
        decreases rest
      {
        HasLeast(rest);
        var i :| Least(i, rest);
        packets := packets + {Packet(i, m)};
        rest := rest - {i};
      }
      assert view.quorums - rest == view.quorums;
    }

    /** A node has refused an interest: exchange it and name the node to ask instead. */
    method OnNack(refuser: nat) returns (asked: Option<nat>)
      modifies view`quorums, view`spare
      ensures view.Sets() == Exchange(old(view.Sets()), refuser)
      ensures asked.Some? <==> Exchanges(old(view.Sets()), refuser)
      ensures asked.Some? ==> asked.value in view.quorums && asked.value in old(view.spare)
      ensures old(view.Valid()) ==> view.Valid()
    {
      if view.Valid() { ExchangeOk(view.size, view.Sets(), refuser); }
      asked := None;
      if refuser >= 2 {
        return;
      }
      if view.spare != {} {
        view.RemoveQuorums(refuser);
        HasLeast(view.spare);
        var joiner :| Least(joiner, view.spare);
        view.AddQuorums(joiner);
        view.RemoveNQuorums(joiner);
        asked := Some(joiner);
      }
    }
  }
}
