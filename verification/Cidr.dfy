/**
  The CIDR table: what creation and deletion keep, and the tree that clients read off
  it.
*/
module Cidr {
  import opened Results
  import opened Numbers

  // ---------------------------------------------------------------- Networks

  function Width(v6: bool): nat {
    if v6 then 128 else 32
  }

  lemma RemainderAtMost(a: nat, s: nat)
    requires s >= 1
    ensures a % s <= a
  {
    if a < s {
      assert a % s == a;
    }
  }

  /** An address with a prefix length; the address may have host bits. */
  datatype RawNet = Net(v6: bool, addr: nat, prefix: nat) {
    predicate Valid() {
      prefix <= Width(v6)
    }
    function Size(): (s: nat)
      requires Valid()
      ensures s >= 1
    {
      Pow2(Width(v6) - prefix)
    }
    function Network(): nat
      requires Valid()
    {
      RemainderAtMost(addr, Size());
      addr - addr % Size()
    }
    function Broadcast(): (b: nat)
      requires Valid()
      ensures b >= Network()
    {
      Network() + Size() - 1
    }
    predicate HasAddress(family: bool, a: nat)
      requires Valid()
    {
      v6 == family && Network() <= a <= Broadcast()
    }
    predicate Contains(other: RawNet)
      requires Valid() && other.Valid()
    {
      v6 == other.v6 && Network() <= other.Network() && other.Broadcast() <= Broadcast()
    }
    predicate Disjoint(other: RawNet)
      requires Valid() && other.Valid()
    {
      v6 != other.v6 || Broadcast() < other.Network() || other.Broadcast() < Network()
    }
  }

  type Net = n: RawNet | n.Valid() witness RawNet.Net(false, 0, 0)

  /** The check on siblings: an end of one lies in the other. */
  predicate EndsMeet(a: Net, b: Net)
  {
    a.HasAddress(b.v6, b.Network()) || a.HasAddress(b.v6, b.Broadcast())
    || b.HasAddress(a.v6, a.Network()) || b.HasAddress(a.v6, a.Broadcast())
  }

  lemma EndsMeetExactlyWhenOverlapping(a: Net, b: Net)
    ensures EndsMeet(a, b) <==> !a.Disjoint(b)
  {
    hide RawNet.Network, RawNet.Size;
  }

  /** A longer prefix is a smaller network. */
  lemma ContainedIsLonger(a: Net, b: Net)
    requires a.Contains(b)
    ensures a.prefix <= b.prefix
  {
    if b.prefix < a.prefix {
      Pow2Grows(Width(a.v6) - a.prefix, Width(b.v6) - b.prefix);
      hide RawNet.Network;
    }
  }

  // ---------------------------------------------------------------- The table

  datatype Contents = Contents(name: string, net: Net, parent: Option<nat>)

  datatype Row = Row(id: nat, contents: Contents)

  /** The rows in the order of their identifiers. */
  type Table = seq<Row>

  function Find(t: Table, id: nat): Option<Row> {
    if |t| == 0 then None
    else if t[|t| - 1].id == id then Some(t[|t| - 1])
    else Find(t[..|t| - 1], id)
  }

  lemma {:induction false} FindFinds(t: Table, id: nat)
    ensures Find(t, id).Some? ==> Find(t, id).value in t && Find(t, id).value.id == id
    ensures Find(t, id).None? ==> forall r :: r in t ==> r.id != id
  {
    if |t| > 0 {
      FindFinds(t[..|t| - 1], id);
      forall r | r in t && Find(t, id).None?
        ensures r.id != id
      {
        var i :| 0 <= i < |t| && t[i] == r;
        if i < |t| - 1 { assert t[..|t| - 1][i] == r; }
      }
    }
  }

  /** `max_by_key` on the prefix length: the last of the longest that contain the network. */
  function Closest(t: Table, net: Net): Option<Row>
  {
    if |t| == 0 then None
    else
      var last := t[|t| - 1];
      var before := Closest(t[..|t| - 1], net);
      if last.contents.net.Contains(net) && (before.None? || before.value.contents.net.prefix <= last.contents.net.prefix)
      then Some(last) else before
  }

  lemma {:induction false} ClosestIsLast(t: Table, net: Net)
    ensures var c := Closest(t, net);
            (c.None? ==> forall r :: r in t ==> !r.contents.net.Contains(net))
            && (c.Some? ==>
                  c.value.contents.net.Contains(net)
                  && exists i :: 0 <= i < |t| && t[i] == c.value
                       && forall j :: 0 <= j < |t| && t[j].contents.net.Contains(net) ==>
                            t[j].contents.net.prefix < c.value.contents.net.prefix
                            || (t[j].contents.net.prefix == c.value.contents.net.prefix && j <= i))
  {
    if |t| > 0 {
      var init, last := t[..|t| - 1], t[|t| - 1];
      ClosestIsLast(init, net);
      if Closest(t, net) == Some(last) && last.contents.net.Contains(net)
         && (Closest(init, net).None? || Closest(init, net).value.contents.net.prefix <= last.contents.net.prefix) {
        forall j | 0 <= j < |t| && t[j].contents.net.Contains(net)
          ensures t[j].contents.net.prefix <= last.contents.net.prefix
        {
          if j < |t| - 1 { assert init[j] == t[j]; }
        }
        assert t[|t| - 1] == last;
      } else if Closest(t, net).Some? {
        var i :| 0 <= i < |init| && init[i] == Closest(t, net).value
                 && forall j :: 0 <= j < |init| && init[j].contents.net.Contains(net) ==>
                      init[j].contents.net.prefix < init[i].contents.net.prefix
                      || (init[j].contents.net.prefix == init[i].contents.net.prefix && j <= i);
        forall j | 0 <= j < |t| && t[j].contents.net.Contains(net)
          ensures t[j].contents.net.prefix < t[i].contents.net.prefix
                  || (t[j].contents.net.prefix == t[i].contents.net.prefix && j <= i)
        {
          if j < |t| - 1 { assert init[j] == t[j]; }
        }
        assert t[i] == init[i];
      }
    }
  }

  datatype CidrError = InvalidQuery | Database

  predicate HasChild(t: Table, id: nat) {
    exists r :: r in t && r.contents.parent == Some(id)
  }

  predicate OverlapsSibling(t: Table, c: Contents)
  {
    exists r :: r in t && r.contents.parent == c.parent && EndsMeet(c.net, r.contents.net)
  }

  predicate Unique(t: Table, c: Contents) {
    forall r :: r in t ==>
      r.contents.name != c.name
      && !(r.contents.net.v6 == c.net.v6 && r.contents.net.addr == c.net.addr && r.contents.net.prefix == c.net.prefix)
  }

  function NextId(t: Table): nat {
    if |t| == 0 then 1 else t[|t| - 1].id + 1
  }

  /** `peersAt` are the CIDRs that peers are assigned to. */
  function Create(t: Table, c: Contents, peersAt: set<nat>): Result<Table, CidrError>
  {
    if c.parent.Some? && c.parent.value in peersAt then Err(InvalidQuery)
    else if c.parent.Some? && (Closest(t, c.net).None? || Closest(t, c.net).value.id != c.parent.value) then Err(InvalidQuery)
    else if c.parent.Some? && Find(t, c.parent.value).None? then Err(Database)
    else if c.parent.Some? && (var p := Find(t, c.parent.value).value.contents.net;
                               !p.HasAddress(c.net.v6, c.net.Network()) || !p.HasAddress(c.net.v6, c.net.Broadcast())) then
      Err(InvalidQuery)
    else if OverlapsSibling(t, c) then Err(InvalidQuery)
    else if !Unique(t, c) then Err(Database)
    else Ok(t + [Row(NextId(t), c)])
  }

  function Without(t: Table, id: nat): Table {
    if |t| == 0 then []
    else Without(t[..|t| - 1], id) + (if t[|t| - 1].id == id then [] else [t[|t| - 1]])
  }

  /** Foreign keys restrict the deletion of a row that children, peers or associations refer to. */
  function Delete(t: Table, id: nat, referenced: set<nat>): Result<Table, CidrError> {
    if HasChild(t, id) || (id in referenced && Find(t, id).Some?) then Err(Database) else Ok(Without(t, id))
  }

  // ---------------------------------------------------------------- The forest

  /** Identifiers ascend, parents come first and contain their children, and siblings do not meet. */
  ghost predicate Forest(t: Table) {
    && (forall i, j :: 0 <= i < j < |t| ==> t[i].id < t[j].id)
    && (forall r :: r in t && r.contents.parent.Some? ==> HasParent(t, r))
    && (forall a, b :: a in t && b in t && a != b && a.contents.parent == b.contents.parent ==> a.contents.net.Disjoint(b.contents.net))
  }

  ghost predicate HasParent(t: Table, r: Row)
    requires r.contents.parent.Some?
  {
    exists p :: p in t && p.id == r.contents.parent.value && p.id < r.id && p.contents.net.Contains(r.contents.net)
  }

  lemma IdsAreUnique(t: Table, a: Row, b: Row)
    requires Forest(t) && a in t && b in t && a.id == b.id
    ensures a == b
  {
  }

  ghost function ParentOf(t: Table, r: Row): (p: Row)
    requires Forest(t) && r in t && r.contents.parent.Some?
    ensures p in t && p.id == r.contents.parent.value && p.id < r.id && p.contents.net.Contains(r.contents.net)
  {
    assert HasParent(t, r);
    var p :| p in t && p.id == r.contents.parent.value && p.id < r.id && p.contents.net.Contains(r.contents.net);
    p
  }

  /** `c` is `a` or lies below it. */
  ghost predicate Below(t: Table, a: Row, c: Row)
    requires Forest(t) && c in t
    decreases c.id
  {
    c == a || (c.contents.parent.Some? && Below(t, a, ParentOf(t, c)))
  }

  lemma {:induction false} BelowFacts(t: Table, a: Row, c: Row)
    requires Forest(t) && c in t && Below(t, a, c)
    ensures a in t && a.id <= c.id && a.contents.net.Contains(c.contents.net)
    decreases c.id
  {
    if c != a {
      BelowFacts(t, a, ParentOf(t, c));
    }
  }

  lemma {:induction false} BelowTransitive(t: Table, a: Row, b: Row, c: Row)
    requires Forest(t) && b in t && c in t && Below(t, a, b) && Below(t, b, c)
    ensures Below(t, a, c)
    decreases c.id
  {
    if c != b {
      BelowTransitive(t, a, b, ParentOf(t, c));
    }
  }

  lemma ChildIsBelow(t: Table, p: Row, c: Row)
    requires Forest(t) && p in t && c in t && c.contents.parent == Some(p.id)
    ensures ParentOf(t, c) == p && Below(t, p, c) && p.id < c.id
  {
    IdsAreUnique(t, ParentOf(t, c), p);
  }

  /** The child through which a descendant hangs. */
  lemma {:induction false} ChildToward(t: Table, p: Row, a: Row) returns (c: Row)
    requires Forest(t) && p in t && a in t && p != a && Below(t, p, a)
    ensures c in t && c.contents.parent == Some(p.id) && Below(t, c, a)
    decreases a.id
  {
    var up := ParentOf(t, a);
    if up == p {
      c := a;
    } else {
      c := ChildToward(t, p, up);
    }
  }

  lemma OverlapSpreads(p: Net, a: Net, b: Net)
    requires p.Contains(b) && !a.Disjoint(b)
    ensures !a.Disjoint(p)
  {
    hide RawNet.Network, RawNet.Size;
  }

  lemma DisjointIsSymmetric(a: Net, b: Net)
    ensures a.Disjoint(b) == b.Disjoint(a)
  {
  }

  /** Any two networks of the table are disjoint or nested along the tree. */
  lemma {:induction false} NestedOrDisjoint(t: Table, a: Row, b: Row)
    requires Forest(t) && a in t && b in t && !a.contents.net.Disjoint(b.contents.net)
    ensures Below(t, a, b) || Below(t, b, a)
    decreases a.id + b.id
  {
    hide RawNet.Disjoint, RawNet.Contains;
    if a == b {
    } else if b.contents.parent.Some? && a.id <= b.id {
      UpwardNested(t, a, b);
    } else if a.contents.parent.Some? && b.id <= a.id {
      DisjointIsSymmetric(a.contents.net, b.contents.net);
      UpwardNested(t, b, a);
    } else if a.contents.parent.Some? {
      DisjointIsSymmetric(a.contents.net, b.contents.net);
      UpwardNested(t, b, a);
    } else if b.contents.parent.Some? {
      UpwardNested(t, a, b);
    }
  }

  /** One step up from `b`: its parent meets `a` as well. */
  lemma {:induction false} UpwardNested(t: Table, a: Row, b: Row)
    requires Forest(t) && a in t && b in t && a != b && !a.contents.net.Disjoint(b.contents.net) && b.contents.parent.Some?
    ensures Below(t, a, b) || Below(t, b, a)
    decreases a.id + b.id, 0
  {
    var p := ParentOf(t, b);
    OverlapSpreads(p.contents.net, a.contents.net, b.contents.net);
    NestedOrDisjoint(t, a, p);
    if !Below(t, a, p) {
      var c := ChildToward(t, p, a);
      BelowFacts(t, c, a);
      DisjointIsSymmetric(a.contents.net, b.contents.net);
      OverlapSpreads(c.contents.net, b.contents.net, a.contents.net);
      DisjointIsSymmetric(c.contents.net, b.contents.net);
      assert c.contents.parent == b.contents.parent;
    }
  }

  // ---------------------------------------------------------------- Creation and deletion

  lemma {:induction false} IdsBelowNext(t: Table)
    requires Forest(t)
    ensures forall r :: r in t ==> r.id < NextId(t)
  {
    forall r | r in t
      ensures r.id < NextId(t)
    {
      var i :| 0 <= i < |t| && t[i] == r;
    }
  }

  lemma EndsInsideMeansContained(p: Net, n: Net)
    requires p.HasAddress(n.v6, n.Network()) && p.HasAddress(n.v6, n.Broadcast())
    ensures p.Contains(n)
  {
  }

  lemma CreateKeepsForest(t: Table, c: Contents, peersAt: set<nat>)
    requires Forest(t) && Create(t, c, peersAt).Ok?
    ensures Forest(Create(t, c, peersAt).value)
  {
    var row, t' := Row(NextId(t), c), Create(t, c, peersAt).value;
    IdsBelowNext(t);
    assert t' == t + [row] && !OverlapsSibling(t, c);
    assert forall r :: r in t' <==> r in t || r == row;
    if c.parent.Some? {
      FindFinds(t, c.parent.value);
      EndsInsideMeansContained(Find(t, c.parent.value).value.contents.net, c.net);
      assert HasParent(t', row);
    }
    hide Create, RawNet.Disjoint, RawNet.Contains, Find, NextId;
    forall r | r in t' && r.contents.parent.Some?
      ensures HasParent(t', r)
    {
      if r in t { assert HasParent(t, r); }
    }
    forall a, b | a in t' && b in t' && a != b && a.contents.parent == b.contents.parent
      ensures a.contents.net.Disjoint(b.contents.net)
    {
      if a == row {
        EndsMeetExactlyWhenOverlapping(c.net, b.contents.net);
      } else if b == row {
        EndsMeetExactlyWhenOverlapping(c.net, a.contents.net);
        DisjointIsSymmetric(c.net, a.contents.net);
      }
    }
  }

  lemma {:induction false} WithoutRows(t: Table, id: nat)
    requires Forest(t)
    ensures forall r :: r in Without(t, id) <==> r in t && r.id != id
    ensures forall i, j :: 0 <= i < j < |Without(t, id)| ==> Without(t, id)[i].id < Without(t, id)[j].id
  {
    WithoutRowsOf(t, id);
  }

  lemma {:induction false} WithoutRowsOf(t: Table, id: nat)
    requires forall i, j :: 0 <= i < j < |t| ==> t[i].id < t[j].id
    ensures forall r :: r in Without(t, id) <==> r in t && r.id != id
    ensures forall i, j :: 0 <= i < j < |Without(t, id)| ==> Without(t, id)[i].id < Without(t, id)[j].id
  {
    if |t| > 0 {
      var init, last := t[..|t| - 1], t[|t| - 1];
      WithoutRowsOf(init, id);
      assert forall r :: r in t <==> r in init || r == last;
      forall i | 0 <= i < |Without(init, id)|
        ensures Without(init, id)[i].id < last.id
      {
        assert Without(init, id)[i] in Without(init, id);
      }
    }
  }

  lemma DeleteKeepsForest(t: Table, id: nat, referenced: set<nat>)
    requires Forest(t) && Delete(t, id, referenced).Ok?
    ensures Forest(Delete(t, id, referenced).value)
  {
    var t' := Without(t, id);
    WithoutRows(t, id);
    forall r | r in t' && r.contents.parent.Some?
      ensures HasParent(t', r)
    {
      assert HasParent(t, r);
      var p :| p in t && p.id == r.contents.parent.value && p.id < r.id && p.contents.net.Contains(r.contents.net);
      assert p in t';
    }
  }

  datatype Op = CreateOp(contents: Contents, peersAt: set<nat>) | DeleteOp(id: nat, referenced: set<nat>)

  /** A refused operation leaves the table as it was. */
  function AfterOps(t: Table, ops: seq<Op>): Table
    decreases |ops|
  {
    if |ops| == 0 then t
    else
      var result := match ops[0]
                    case CreateOp(c, peersAt) => Create(t, c, peersAt)
                    case DeleteOp(id, referenced) => Delete(t, id, referenced);
      AfterOps(if result.Ok? then result.value else t, ops[1..])
  }

  lemma {:induction false} OpsKeepForest(t: Table, ops: seq<Op>)
    requires Forest(t)
    ensures Forest(AfterOps(t, ops))
    decreases |ops|
  {
    if |ops| > 0 {
      match ops[0]
      case CreateOp(c, peersAt) =>
        if Create(t, c, peersAt).Ok? { CreateKeepsForest(t, c, peersAt); }
        OpsKeepForest(if Create(t, c, peersAt).Ok? then Create(t, c, peersAt).value else t, ops[1..]);
      case DeleteOp(id, referenced) =>
        if Delete(t, id, referenced).Ok? { DeleteKeepsForest(t, id, referenced); }
        OpsKeepForest(if Delete(t, id, referenced).Ok? then Delete(t, id, referenced).value else t, ops[1..]);
    }
  }

  /**
    Every table that creations and deletions reach is an acyclic laminar forest: any two
    networks are disjoint, or one lies below the other in the tree and inside it.
  */
  lemma ReachableTablesAreLaminar(ops: seq<Op>, a: Row, b: Row)
    requires var t := AfterOps([], ops); a in t && b in t
    ensures var t := AfterOps([], ops);
            Forest(t)
            && (a.contents.net.Disjoint(b.contents.net)
                || (Below(t, a, b) && a.contents.net.Contains(b.contents.net))
                || (Below(t, b, a) && b.contents.net.Contains(a.contents.net)))
  {
    var t := AfterOps([], ops);
    OpsKeepForest([], ops);
    hide AfterOps, Forest, RawNet.Disjoint, RawNet.Contains;
    if !a.contents.net.Disjoint(b.contents.net) {
      NestedOrDisjoint(t, a, b);
      if Below(t, a, b) { BelowFacts(t, a, b); } else { BelowFacts(t, b, a); }
    }
  }

  // ---------------------------------------------------------------- The closest-parent check

  lemma ContainersMeet(a: Net, b: Net, n: Net)
    requires a.Contains(n) && b.Contains(n)
    ensures !a.Disjoint(b)
  {
    hide RawNet.Network, RawNet.Size;
  }

  /** With no sibling in the way, the parent is the closest row that contains the new network. */
  lemma ParentIsClosest(t: Table, c: Contents, p: Row)
    requires Forest(t) && p in t && c.parent == Some(p.id) && p.contents.net.Contains(c.net) && !OverlapsSibling(t, c)
    ensures Closest(t, c.net) == Some(p)
  {
    ClosestIsLast(t, c.net);
    var z := Closest(t, c.net).value;
    var i :| 0 <= i < |t| && t[i] == z
             && forall j :: 0 <= j < |t| && t[j].contents.net.Contains(c.net) ==>
                  t[j].contents.net.prefix < z.contents.net.prefix || (t[j].contents.net.prefix == z.contents.net.prefix && j <= i);
    var k :| 0 <= k < |t| && t[k] == p;
    assert z in t && z.contents.net.Contains(c.net);
    if z != p {
      ContainersMeet(z.contents.net, p.contents.net, c.net);
      NestedOrDisjoint(t, z, p);
      if Below(t, z, p) {
        BelowFacts(t, z, p);
        ContainedIsLonger(z.contents.net, p.contents.net);
      } else {
        var child := ChildToward(t, p, z);
        BelowFacts(t, child, z);
        EndsMeetExactlyWhenOverlapping(c.net, child.contents.net);
        ContainedMeets(child.contents.net, z.contents.net, c.net);
      }
    }
  }

  lemma ContainedMeets(outer: Net, inner: Net, n: Net)
    requires outer.Contains(inner) && inner.Contains(n)
    ensures !n.Disjoint(outer)
  {
    hide RawNet.Network, RawNet.Size;
  }

  /**
    When a creation is accepted. The check for the closest containing row adds nothing:
    it never refuses what the other checks let through.
  */
  lemma CreateIsAcceptedExactlyWhen(t: Table, c: Contents, peersAt: set<nat>)
    requires Forest(t)
    ensures Create(t, c, peersAt).Ok?
            <==> (c.parent.Some? ==>
                    c.parent.value !in peersAt && exists p :: p in t && p.id == c.parent.value && p.contents.net.Contains(c.net))
                 && (forall r :: r in t && r.contents.parent == c.parent ==> r.contents.net.Disjoint(c.net))
                 && Unique(t, c)
  {
    SiblingCheck(t, c);
    if !OverlapsSibling(t, c) && c.parent.Some? {
      ParentCheck(t, c);
    }
    hide OverlapsSibling, Closest, Find, Unique, RawNet.HasAddress, RawNet.Disjoint, RawNet.Contains;
  }

  lemma SiblingCheck(t: Table, c: Contents)
    ensures OverlapsSibling(t, c) <==> exists r :: r in t && r.contents.parent == c.parent && !r.contents.net.Disjoint(c.net)
  {
    forall r | r in t
      ensures EndsMeet(c.net, r.contents.net) <==> !r.contents.net.Disjoint(c.net)
    {
      EndsMeetExactlyWhenOverlapping(c.net, r.contents.net);
      DisjointIsSymmetric(c.net, r.contents.net);
    }
    hide EndsMeet, RawNet.Disjoint;
  }

  lemma ContainedEndsInside(p: Net, n: Net)
    requires p.Contains(n)
    ensures p.HasAddress(n.v6, n.Network()) && p.HasAddress(n.v6, n.Broadcast())
  {
  }

  lemma ParentCheck(t: Table, c: Contents)
    requires Forest(t) && c.parent.Some? && !OverlapsSibling(t, c)
    ensures (&& Closest(t, c.net).Some? && Closest(t, c.net).value.id == c.parent.value
             && Find(t, c.parent.value).Some?
             && Find(t, c.parent.value).value.contents.net.HasAddress(c.net.v6, c.net.Network())
             && Find(t, c.parent.value).value.contents.net.HasAddress(c.net.v6, c.net.Broadcast()))
            <==> exists p :: p in t && p.id == c.parent.value && p.contents.net.Contains(c.net)
  {
    FindFinds(t, c.parent.value);
    hide OverlapsSibling, Closest, Find, RawNet.HasAddress, RawNet.Contains;
    if p :| p in t && p.id == c.parent.value && p.contents.net.Contains(c.net) {
      ParentIsClosest(t, c, p);
      IdsAreUnique(t, p, Find(t, c.parent.value).value);
      ContainedEndsInside(p.contents.net, c.net);
    } else if Find(t, c.parent.value).Some? {
      var q := Find(t, c.parent.value).value.contents.net;
      if q.HasAddress(c.net.v6, c.net.Network()) && q.HasAddress(c.net.v6, c.net.Broadcast()) {
        EndsInsideMeansContained(q, c.net);
      }
    }
  }

  // ---------------------------------------------------------------- What the two operations change

  /** A creation adds one row, with the contents asked for and an identifier above all others, and keeps the rest. */
  lemma CreateAddsTheRow(t: Table, c: Contents, peersAt: set<nat>)
    requires Forest(t) && Create(t, c, peersAt).Ok?
    ensures var after := Create(t, c, peersAt).value;
            |after| == |t| + 1 && t <= after && after[|t|].contents == c && forall r :: r in t ==> r.id < after[|t|].id
  {
    IdsBelowNext(t);
    hide OverlapsSibling, Unique, Closest, Find;
  }

  /**
    A deletion is accepted exactly when no row hangs below the one named, and nothing
    refers to it; then that row is gone, and only that.
  */
  lemma DeleteRemovesTheRow(t: Table, id: nat, referenced: set<nat>)
    requires Forest(t)
    ensures Delete(t, id, referenced).Ok?
            <==> (forall r :: r in t ==> r.contents.parent != Some(id)) && !(id in referenced && exists r :: r in t && r.id == id)
    ensures Delete(t, id, referenced).Ok? ==>
              var after := Delete(t, id, referenced).value;
              (forall r :: r in after <==> r in t && r.id != id) && forall i, j :: 0 <= i < j < |after| ==> after[i].id < after[j].id
  {
    FindFinds(t, id);
    WithoutRows(t, id);
    hide Find, Without;
  }

  // ---------------------------------------------------------------- The tree that clients read

  function Children(t: Table, id: nat): Table {
    if |t| == 0 then []
    else Children(t[..|t| - 1], id) + (if t[|t| - 1].contents.parent == Some(id) then [t[|t| - 1]] else [])
  }

  lemma {:induction false} ChildrenRows(t: Table, id: nat)
    requires forall i, j :: 0 <= i < j < |t| ==> t[i].id < t[j].id
    ensures forall r :: r in Children(t, id) <==> r in t && r.contents.parent == Some(id)
    ensures forall i, j :: 0 <= i < j < |Children(t, id)| ==> Children(t, id)[i].id < Children(t, id)[j].id
    ensures |Children(t, id)| <= |t|
  {
    if |t| > 0 {
      var init, last := t[..|t| - 1], t[|t| - 1];
      ChildrenRows(init, id);
      assert forall r :: r in t <==> r in init || r == last;
      forall i | 0 <= i < |Children(init, id)|
        ensures Children(init, id)[i].id < last.id
      {
        assert Children(init, id)[i] in Children(init, id);
      }
    }
  }

  lemma ChildrenBetween(t: Table, id: nat)
    requires Forest(t)
    ensures forall c :: c in Children(t, id) ==> c in t && id < c.id < NextId(t)
  {
    ChildrenRows(t, id);
    IdsBelowNext(t);
    forall c | c in Children(t, id)
      ensures id < c.id
    {
      assert HasParent(t, c);
    }
  }

  /** `leaves`: the row itself if nothing hangs below it, and else the leaves of its children in turn. */
  ghost function Leaves(t: Table, r: Row): seq<Row>
    requires Forest(t) && r in t
    decreases NextId(t) - r.id, |t| + 1
  {
    IdsBelowNext(t);
    ChildrenBetween(t, r.id);
    ChildrenRows(t, r.id);
    if !HasChild(t, r.id) then [r] else LeavesOf(t, r.id, Children(t, r.id))
  }

  ghost function LeavesOf(t: Table, low: nat, rows: seq<Row>): seq<Row>
    requires Forest(t) && low < NextId(t) && |rows| <= |t| && forall c :: c in rows ==> c in t && low < c.id < NextId(t)
    decreases NextId(t) - low, |rows|
  {
    if |rows| == 0 then [] else LeavesOf(t, low, rows[..|rows| - 1]) + Leaves(t, rows[|rows| - 1])
  }

  predicate NoRepeats(rows: seq<Row>) {
    forall i, j :: 0 <= i < j < |rows| ==> rows[i] != rows[j]
  }

  /** What lies below two children of one row is different. */
  lemma {:induction false} SiblingsShareNothing(t: Table, a: Row, b: Row, c: Row)
    requires Forest(t) && a in t && b in t && c in t && a.contents.parent == b.contents.parent && a.contents.parent.Some?
    requires Below(t, a, c) && Below(t, b, c)
    ensures a == b
    decreases c.id
  {
    if c == a && c == b {
    } else if c == a {
      var p := ParentOf(t, a);
      BelowFacts(t, b, p);
      IdsAreUnique(t, ParentOf(t, b), p);
    } else if c == b {
      var p := ParentOf(t, b);
      BelowFacts(t, a, p);
      IdsAreUnique(t, ParentOf(t, a), p);
    } else {
      SiblingsShareNothing(t, a, b, ParentOf(t, c));
    }
  }

  /** The childless rows below one of these. */
  ghost predicate LeafBelow(t: Table, rows: seq<Row>, c: Row)
    requires Forest(t) && c in t
  {
    !HasChild(t, c.id) && exists k :: k in rows && Below(t, k, c)
  }

  lemma {:induction false} LeavesOfExact(t: Table, id: nat, rows: seq<Row>)
    requires Forest(t) && id < NextId(t) && |rows| <= |t| && NoRepeats(rows)
    requires forall c :: c in rows ==> c in t && id < c.id < NextId(t) && c.contents.parent == Some(id)
    ensures forall c :: c in LeavesOf(t, id, rows) <==> c in t && LeafBelow(t, rows, c)
    ensures NoRepeats(LeavesOf(t, id, rows))
    decreases NextId(t) - id, |rows|
  {
    if |rows| > 0 {
      var init, last := rows[..|rows| - 1], rows[|rows| - 1];
      LeavesOfExact(t, id, init);
      LeavesExact(t, last);
      var before, own := LeavesOf(t, id, init), Leaves(t, last);
      assert forall k :: k in rows <==> k in init || k == last;
      forall i, j | 0 <= i < |before| && 0 <= j < |own|
        ensures before[i] != own[j]
      {
        if before[i] == own[j] {
          var c := before[i];
          assert c in before && own[j] in own;
          var k :| k in init && Below(t, k, c);
          NotInInit(rows, k);
          SiblingsShareNothing(t, k, last, c);
        }
      }
    }
  }

  lemma NotInInit(rows: seq<Row>, k: Row)
    requires NoRepeats(rows) && |rows| > 0 && k in rows[..|rows| - 1]
    ensures k != rows[|rows| - 1]
  {
    var i :| 0 <= i < |rows| - 1 && rows[..|rows| - 1][i] == k;
    assert rows[i] == k;
  }

  /** `leaves` terminates, and lists each childless row at or below its root exactly once. */
  lemma {:induction false} LeavesExact(t: Table, r: Row)
    requires Forest(t) && r in t
    ensures forall c :: c in Leaves(t, r) <==> c in t && !HasChild(t, c.id) && Below(t, r, c)
    ensures NoRepeats(Leaves(t, r))
    decreases NextId(t) - r.id, |t| + 1
  {
    IdsBelowNext(t);
    ChildrenBetween(t, r.id);
    ChildrenRows(t, r.id);
    var rows := Children(t, r.id);
    if HasChild(t, r.id) {
      LeavesOfExact(t, r.id, rows);
      forall c | c in t && !HasChild(t, c.id)
        ensures LeafBelow(t, rows, c) <==> Below(t, r, c)
      {
        if Below(t, r, c) {
          assert c != r;
          var k := ChildToward(t, r, c);
          assert k in rows;
        }
        if LeafBelow(t, rows, c) {
          var k :| k in rows && Below(t, k, c);
          ChildIsBelow(t, r, k);
          BelowTransitive(t, r, k, c);
        }
      }
    } else {
      forall c | c in t && Below(t, r, c)
        ensures c == r
      {
        if c != r {
          var k := ChildToward(t, r, c);
        }
      }
    }
  }

  // ---------------------------------------------------------------- The table as it is changed

  class Database {
    var rows: Table

    constructor ()
      ensures rows == []
    {
      rows := [];
    }

    /** The checks of a creation one by one, and the insertion. */
    method Insert(c: Contents, peersAt: set<nat>) returns (result: Result<Row, CidrError>)
      modifies this
      ensures match Create(old(rows), c, peersAt)
              case Err(e) => result == Err(e) && rows == old(rows)
              case Ok(after) => rows == after && result == Ok(Row(NextId(old(rows)), c))
    {
      hide Closest, Find, OverlapsSibling, Unique, NextId, RawNet.HasAddress;
      if c.parent.Some? {
        var parent := c.parent.value;
        if parent in peersAt { return Err(InvalidQuery); }
        var closest := Closest(rows, c.net);
        if closest.None? || closest.value.id != parent { return Err(InvalidQuery); }
        var row := Find(rows, parent);
        if row.None? { return Err(CidrError.Database); }
        var net := row.value.contents.net;
        if !net.HasAddress(c.net.v6, c.net.Network()) || !net.HasAddress(c.net.v6, c.net.Broadcast()) { return Err(InvalidQuery); }
      }
      if OverlapsSibling(rows, c) { return Err(InvalidQuery); }
      if !Unique(rows, c) { return Err(CidrError.Database); }
      var added := Row(NextId(rows), c);
      rows := rows + [added];
      return Ok(added);
    }

    method Remove(id: nat, referenced: set<nat>) returns (result: Result<Unit, CidrError>)
      modifies this
      ensures match Delete(old(rows), id, referenced)
              case Err(e) => result == Err(e) && rows == old(rows)
              case Ok(after) => rows == after && result == Ok(Unit)
    {
      if HasChild(rows, id) || (id in referenced && Find(rows, id).Some?) { return Err(CidrError.Database); }
      rows := Without(rows, id);
      return Ok(Unit);
    }
  }
}
