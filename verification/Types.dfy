/** Identifiers, values and wire messages shared by every role of a Naxos node.

    Node, slot, ballot and value ids are unbounded naturals here; the code keeps them in 16 and
    64 bit words.  `Ballots.FitsIn64Bits` says how far that is exact. */
module Types {

  datatype Option<+T> = None | Some(value: T)

  /** A command to replicate: the protocol looks at `id` only. */
  datatype PropValue = PropValue(id: nat, data: string)

  /** `last_slot` and `last_value` of an ACCEPT: an earlier slot is settled, and on which id. */
  datatype Announcement = Announcement(slot: nat, id: nat)

  datatype Msg =
    | Prepare(src: nat, slot: nat, ballot: nat)
    | Promise(src: nat, slot: nat, ballot: nat, reply: bool, maxBallot: nat, maxValue: Option<PropValue>)
    | Accept(src: nat, slot: nat, ballot: nat, value: PropValue, last: Option<Announcement>)
    | Accepted(src: nat, slot: nat, ballot: nat, reply: bool)
    | Decide(src: nat, slot: nat, id: nat)
    | Learn(src: nat, slot: nat)
    | Teach(src: nat, slot: nat, value: PropValue)
    | LogData(slot: nat, value: PropValue)

  /** A message with the node it travels to. */
  datatype Packet = Packet(dst: nat, msg: Msg)

  /** What a proposer makes of one acknowledgement. */
  datatype AckType = Drop | NotEnough | Continue | Restart | Choose

  datatype ProposerStatus = Init | PhaseI | PhaseII | Chosen

  /** The packets by which `msg` reaches every asked node. */
  function Broadcast(asked: set<nat>, msg: Msg): (packets: set<Packet>)
  {
    set j | j in asked :: Packet(j, msg)
  }
}

/** Ballot numbers: 48 bits of counter above 16 bits of node id. */
module Ballots {

  const STEP: nat := 65536

  /** The ballot after `current` at node `me`; 0 means that none was used yet. */
  function Next(me: nat, current: nat): nat
  {
    if current == 0 then STEP + me else current + STEP
  }

  /** `ballot` is one that node `me` can generate. */
  predicate Own(me: nat, ballot: nat)
  {
    STEP <= ballot && ballot % STEP == me
  }

  /** The k-th ballot a fresh proposer of node `me` generates. */
  function Kth(me: nat, k: nat): nat
  {
    if k == 0 then 0 else Next(me, Kth(me, k - 1))
  }

  lemma {:induction false} KthBallot(me: nat, k: nat)
    requires me < STEP
    ensures k > 0 ==> Kth(me, k) == k * STEP + me && Own(me, Kth(me, k))
  {
    if k > 1 {
      KthBallot(me, k - 1);
    } else if k == 1 {
      assert Kth(me, 0) == 0;
    }
  }

  /** Ballots of all nodes are totally ordered by counter first and node id second, and two equal
      ballots come from the same node in the same round. */
  lemma OrderIsLexicographic(i: nat, k: nat, j: nat, l: nat)
    requires i < STEP && j < STEP && k > 0 && l > 0
    ensures Kth(i, k) < Kth(j, l) <==> k < l || (k == l && i < j)
    ensures Kth(i, k) == Kth(j, l) <==> i == j && k == l
  {
    KthBallot(i, k);
    KthBallot(j, l);
  }

  /** The 64-bit word holds exactly the first 2^48 - 1 ballots of every node. */
  lemma FitsIn64Bits(me: nat, k: nat)
    requires me < STEP && k > 0
    ensures Kth(me, k) < 0x1_0000_0000_0000_0000 <==> k < 0x1_0000_0000_0000
  {
    KthBallot(me, k);
  }
}
