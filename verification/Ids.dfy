/** Identifiers: how a node mints them, and going through a set of them in order. */
module Ids {
  const SEQUENCE_SPAN: nat := 0x1_0000_0000_0000   // 48 bits of local sequence
  const NODE_SPAN: nat := 0x1_0000                 // 16 bits of node id

  /** The node in the high bits, the local sequence masked to 48 in the low ones. */
  function ComposeId(node: nat, sequence: nat): (id: nat)
    requires node < NODE_SPAN
    ensures id / SEQUENCE_SPAN == node && id % SEQUENCE_SPAN == sequence % SEQUENCE_SPAN
    ensures id < NODE_SPAN * SEQUENCE_SPAN
  {
    node * SEQUENCE_SPAN + sequence % SEQUENCE_SPAN
  }

  /** Ids of different nodes never meet; ids of one node are distinct, and in minting order, exactly as long as
      its counter has not used up the 48 bits. */
  lemma MintedIdsAreDistinct(a: nat, x: nat, b: nat, y: nat)
    requires a < 0x1_0000 && b < 0x1_0000
    ensures ComposeId(a, x) == ComposeId(b, y) <==> a == b && x % 0x1_0000_0000_0000 == y % 0x1_0000_0000_0000
  {
  }

  lemma MintedIdsGrow(node: nat, x: nat, y: nat)
    requires node < 0x1_0000 && x < y < 0x1_0000_0000_0000
    ensures ComposeId(node, x) < ComposeId(node, y)
  {
  }

  type NodeNumber = n: nat | n < NODE_SPAN

  /** One node's counters: how many ids it has handed out for each kind of row. */
  datatype Counters = Counters(node: NodeNumber, servers: nat, channels: nat, messages: nat, proposals: nat, rules: nat,
                               dms: nat, roles: nat)
  {
    function Server(): nat { ComposeId(node, servers) }
    function Channel(): nat { ComposeId(node, channels) }
    function Message(): nat { ComposeId(node, messages) }
    function Proposal(): nat { ComposeId(node, proposals) }
    function Rule(): nat { ComposeId(node, rules) }
    function Dm(): nat { ComposeId(node, dms) }
    function Role(): nat { ComposeId(node, roles) }

    /** No counter has used up its 48 bits. */
    predicate Fit() {
      && servers < SEQUENCE_SPAN && channels < SEQUENCE_SPAN && messages < SEQUENCE_SPAN && proposals < SEQUENCE_SPAN
      && rules < SEQUENCE_SPAN && dms < SEQUENCE_SPAN && roles < SEQUENCE_SPAN
    }

    predicate UpTo(later: Counters) {
      && later.node == node && servers <= later.servers && channels <= later.channels && messages <= later.messages
      && proposals <= later.proposals && rules <= later.rules && dms <= later.dms && roles <= later.roles
    }
  }

  function Fresh(node: NodeNumber): Counters {
    Counters(node, 0, 0, 0, 0, 0, 0, 0)
  }

  predicate IsLeast(s: set<nat>, x: nat) {
    x in s && forall y :: y in s ==> x <= y
  }

  /** The least of a set of ids. */
  function Least(s: set<nat>): (x: nat)
    requires s != {}
    ensures IsLeast(s, x)
  {
    HasLeast(s);
    var x :| IsLeast(s, x);
    x
  }

  lemma {:induction false} HasLeast(s: set<nat>)
    requires s != {}
    ensures exists x :: IsLeast(s, x)
    decreases |s|
  {
    var x :| x in s;
    var rest := s - {x};
    if rest == {} {
      assert s == {x};
      assert IsLeast(s, x);
    } else {
      HasLeast(rest);
      var y :| IsLeast(rest, y);
      LeastOfTwo(s, x, y);
    }
  }

  lemma LeastOfTwo(s: set<nat>, x: nat, y: nat)
    requires x in s && IsLeast(s - {x}, y)
    ensures IsLeast(s, if x <= y then x else y)
  {
    forall z | z in s ensures (if x <= y then x else y) <= z {
      if z != x { assert z in s - {x}; }
    }
  }

  /** A set of ids in increasing order. */
  function Sorted(ids: set<nat>): (r: seq<nat>)
    ensures forall x :: x in r <==> x in ids
    ensures forall i, j :: 0 <= i < j < |r| ==> r[i] < r[j]
    decreases |ids|
  {
    if ids == {} then []
    else
      var x := Least(ids);
      [x] + Sorted(ids - {x})
  }
}
