/**
  The paged state read: the server's keyset page over peers, CIDRs and exchange
  records, and the client's restartable walk over it.
*/
module PageWalk {
  import opened Results
  import opened Numbers
  import opened Protocol
  import opened Mailbox

  const MAX_ITEMS: nat := 32
  const PQ_BUDGET: nat := 128 * 1024
  const TOTAL_BUDGET: nat := 1024 * 1024
  const ENVELOPE: nat := 512

  datatype PeerItem = PeerItem(row: PeerRow, advertised: Option<AdvertisedBundle>) {
    /** The advertised bundle must be for the key that the directory lists. */
    predicate Consistent() {
      advertised.Some? ==> advertised.value.bundle.wgPublicKey == row.publicKey
    }
  }

  /** The encoded sizes of the objects, which the budgets are about. */
  datatype Sizes = Sizes(peer: map<int, nat>, bundle: map<int, nat>, cidr: map<int, nat>, record: map<int, nat>)

  /** What one transaction shows to one caller, by identifier; records by the other peer. */
  datatype View = View(
    revision: nat,
    peers: map<int, PeerItem>,
    cidrs: map<int, string>,
    records: map<int, Exchange>,
    allowed: set<int>,
    sizes: Sizes)
  {
    predicate Valid() {
      && (forall k :: k in peers ==> 1 <= k <= MAX_NUMBER && k in sizes.peer && k in sizes.bundle)
      && (forall k :: k in cidrs ==> 1 <= k <= MAX_NUMBER && k in sizes.cidr)
      && (forall k :: k in records ==> 1 <= k <= MAX_NUMBER && k in sizes.record)
    }

    /** The records of counterparts that the caller may deal with. */
    function Open(): map<int, Exchange> {
      map k | k in records && k in allowed :: records[k]
    }
  }

  /** Fields of the signed cursor: requester, visibility revision, stage and last identifier. */
  datatype Cursor = Cursor(caller: int, revision: nat, stage: nat, after: int)

  datatype Page = Page(
    revision: nat,
    peers: seq<(int, PeerItem)>,
    cidrs: seq<(int, string)>,
    exchanges: seq<(int, Exchange)>,
    next: Option<Cursor>)

  // ---------------------------------------------------------------- Runs of a keyed table

  /** The list is exactly the entries of the table between the bounds, ascending. */
  ghost predicate Exactly<T(!new)>(m: map<int, T>, low: int, high: int, list: seq<(int, T)>) {
    && (forall i :: 0 <= i < |list| ==> low < list[i].0 <= high && list[i].0 in m && m[list[i].0] == list[i].1)
    && (forall i, j :: 0 <= i < j < |list| ==> list[i].0 < list[j].0)
    && (forall k :: k in m && low < k <= high ==> Lists(list, k))
  }

  predicate Lists<T(!new)>(list: seq<(int, T)>, k: int) {
    exists i :: 0 <= i < |list| && list[i].0 == k
  }

  lemma ListsAppended<T(!new)>(a: seq<(int, T)>, b: seq<(int, T)>, k: int)
    ensures Lists(a + b, k) <==> Lists(a, k) || Lists(b, k)
  {
    if Lists(a, k) {
      var i :| 0 <= i < |a| && a[i].0 == k;
      assert (a + b)[i].0 == k;
    }
    if Lists(b, k) {
      var i :| 0 <= i < |b| && b[i].0 == k;
      assert (a + b)[|a| + i].0 == k;
    }
  }

  lemma ExactlyJoins<T(!new)>(m: map<int, T>, low: int, mid: int, high: int, a: seq<(int, T)>, b: seq<(int, T)>)
    requires Exactly(m, low, mid, a) && Exactly(m, mid, high, b) && low <= mid <= high
    ensures Exactly(m, low, high, a + b)
  {
    forall k | k in m && low < k <= high
      ensures Lists(a + b, k)
    {
      ListsAppended(a, b, k);
    }
  }

  /** A list over a whole table has each of its keys once. */
  lemma ExactlyIsAll<T(!new)>(m: map<int, T>, low: int, high: int, list: seq<(int, T)>)
    requires Exactly(m, low, high, list) && forall k :: k in m ==> low < k <= high
    ensures forall k :: k in m <==> Lists(list, k)
    ensures |list| == |m|
  {
    ListCoversKeys(m, list);
  }

  lemma {:induction false} ListCoversKeys<T(!new)>(m: map<int, T>, list: seq<(int, T)>)
    requires forall i :: 0 <= i < |list| ==> list[i].0 in m
    requires forall i, j :: 0 <= i < j < |list| ==> list[i].0 < list[j].0
    requires forall k :: k in m ==> Lists(list, k)
    ensures |list| == |m|
  {
    if |list| == 0 {
      forall k
        ensures k !in m
      {
        assert k in m ==> Lists(list, k);
      }
      assert m.Keys == {};
    } else {
      var last := list[|list| - 1];
      var init := list[..|list| - 1];
      var rest := m - {last.0};
      forall k | k in rest
        ensures Lists(init, k)
      {
        assert Lists(list, k);
        var i :| 0 <= i < |list| && list[i].0 == k;
        assert init[i].0 == k;
      }
      ListCoversKeys(rest, init);
      assert m.Keys == rest.Keys + {last.0};
      assert |m.Keys| == |rest.Keys| + 1;
    }
  }

  // ---------------------------------------------------------------- The next entry of a table

  ghost predicate LeastAbove(keys: set<int>, after: int, k: int) {
    k in keys && k > after && forall q :: q in keys && q > after ==> k <= q
  }

  lemma SomeElement(keys: set<int>)
    ensures keys == {} || exists k :: k in keys
  {
    if forall k: int :: k !in keys {
      assert keys == {};
    }
  }

  /** What `ORDER BY id LIMIT 1` returns, as a scan. */
  method NextAbove(keys: set<int>, after: int) returns (found: Option<int>)
    ensures found.None? ==> forall k :: k in keys ==> k <= after
    ensures found.Some? ==> LeastAbove(keys, after, found.value)
  {
    found := None;
    var left := keys;
    while left != {}
      invariant left <= keys
      invariant found.None? ==> forall k :: k in keys && k !in left ==> k <= after
      invariant found.Some? ==> found.value in keys && found.value > after
      invariant found.Some? ==> forall k :: k in keys && k !in left && k > after ==> found.value <= k
      decreases |left|
    {
      SomeElement(left);
      var k: int :| k in left;
      left := left - {k};
      if k > after && (found.None? || k < found.value) {
        found := Some(k);
      }
    }
  }

  // ---------------------------------------------------------------- One page

  /** How much of a table lies before a position of the walk. */
  function Mark(table: nat, stage: nat, after: int): int {
    if stage > table then MAX_NUMBER else if stage == table then after else 0
  }

  function Sum(list: seq<int>, sizes: map<int, nat>): nat {
    if |list| == 0 then 0 else Sum(list[..|list| - 1], sizes) + (if list[|list| - 1] in sizes then sizes[list[|list| - 1]] else 0)
  }

  function Ids<T>(list: seq<(int, T)>): (r: seq<int>)
    ensures |r| == |list| && forall i :: 0 <= i < |list| ==> r[i] == list[i].0
  {
    seq(|list|, i requires 0 <= i < |list| => list[i].0)
  }

  function PqBytes(v: View, p: Page): nat {
    Sum(Ids(p.peers), v.sizes.bundle) + Sum(Ids(p.exchanges), v.sizes.record)
  }

  function TotalBytes(v: View, p: Page): nat {
    Sum(Ids(p.peers), v.sizes.peer) + Sum(Ids(p.cidrs), v.sizes.cidr) + Sum(Ids(p.exchanges), v.sizes.record)
  }

  lemma SumAppended<T>(list: seq<(int, T)>, entry: (int, T), sizes: map<int, nat>)
    requires entry.0 in sizes
    ensures Sum(Ids(list + [entry]), sizes) == Sum(Ids(list), sizes) + sizes[entry.0]
  {
    var ids := Ids(list + [entry]);
    assert ids[..|list|] == Ids(list);
  }

  function Count(p: Page): nat {
    |p.peers| + |p.cidrs| + |p.exchanges|
  }

  /** The page holds exactly what lies between two positions of the walk. */
  ghost predicate Between(v: View, p: Page, stage: nat, after: int, stage': nat, after': int) {
    && Exactly(v.peers, Mark(0, stage, after), Mark(0, stage', after'), p.peers)
    && Exactly(v.cidrs, Mark(1, stage, after), Mark(1, stage', after'), p.cidrs)
    && Exactly(v.Open(), Mark(2, stage, after), Mark(2, stage', after'), p.exchanges)
  }

  ghost predicate PageOk(v: View, p: Page, caller: int, stage: nat, after: int) {
    && p.revision == v.revision
    && Count(p) <= MAX_ITEMS
    && ENVELOPE + PqBytes(v, p) <= PQ_BUDGET && ENVELOPE + TotalBytes(v, p) <= TOTAL_BUDGET
    && (match p.next
        case None => Between(v, p, stage, after, 3, 0)
        case Some(c) =>
          c.caller == caller && c.revision == v.revision && c.stage < 3 && 0 <= c.after <= MAX_NUMBER
          && Count(p) > 0 && Mark(0, stage, after) <= Mark(0, c.stage, c.after)
          && Mark(1, stage, after) <= Mark(1, c.stage, c.after) && Mark(2, stage, after) <= Mark(2, c.stage, c.after)
          && Between(v, p, stage, after, c.stage, c.after))
  }

  /** Adding the next entry of a table extends an exact list. */
  lemma ExactlyNext<T(!new)>(m: map<int, T>, low: int, after: int, list: seq<(int, T)>, k: int)
    requires Exactly(m, low, after, list) && low <= after && LeastAbove(m.Keys, after, k)
    ensures Exactly(m, low, k, list + [(k, m[k])])
  {
    var more := list + [(k, m[k])];
    assert more[|list|].0 == k;
    forall q | q in m && low < q <= k
      ensures Lists(more, q)
    {
      ListsAppended(list, [(k, m[k])], q);
      if q > after {
        assert q == k;
        assert [(k, m[k])][0].0 == q;
      }
    }
  }

  /** Nothing of the table lies between the two bounds, so the list covers both. */
  lemma ExactlySkips<T(!new)>(m: map<int, T>, low: int, after: int, high: int, list: seq<(int, T)>)
    requires Exactly(m, low, after, list) && after <= high && forall k :: k in m && k > after ==> k > high
    ensures Exactly(m, low, high, list)
  {
  }

  function Above(keys: set<int>, after: int): set<int> {
    set k | k in keys && k > after
  }

  lemma AboveShrinks(keys: set<int>, after: int, k: int)
    requires k in keys && k > after
    ensures |Above(keys, k)| < |Above(keys, after)|
  {
    var small, large := Above(keys, k), Above(keys, after);
    assert k in large && k !in small;
    assert small <= large - {k};
    SubsetCardinality(small, large - {k});
    assert |large - {k}| == |large| - 1;
  }

  function Stage(v: View, stage: nat): set<int> {
    if stage == 0 then v.peers.Keys else if stage == 1 then v.cidrs.Keys else if stage == 2 then v.records.Keys else {}
  }

  /** The page so far: what it covers, and what it weighs. */
  ghost predicate Filled(v: View, p: Page, stage0: nat, after0: int, stage: nat, after: int, count: nat, pqBytes: nat, totalBytes: nat) {
    && p.revision == v.revision && p.next.None?
    && count == Count(p) <= MAX_ITEMS
    && pqBytes == ENVELOPE + PqBytes(v, p) <= PQ_BUDGET && totalBytes == ENVELOPE + TotalBytes(v, p) <= TOTAL_BUDGET
    && stage0 <= stage <= 3 && (stage == stage0 ==> after0 <= after) && 0 <= after <= MAX_NUMBER
    && Between(v, p, stage0, after0, stage, after)
  }

  /** Some object does not even fit into a page of its own. */
  predicate Oversized(v: View)
    requires v.Valid()
  {
    (exists k :: k in v.peers && (ENVELOPE + v.sizes.bundle[k] > PQ_BUDGET || ENVELOPE + v.sizes.peer[k] > TOTAL_BUDGET))
    || (exists k :: k in v.cidrs && ENVELOPE + v.sizes.cidr[k] > TOTAL_BUDGET)
    || (exists k :: k in v.records && (ENVELOPE + v.sizes.record[k] > PQ_BUDGET || ENVELOPE + v.sizes.record[k] > TOTAL_BUDGET))
  }

  lemma EmptyWeighsNothing(v: View, p: Page, stage0: nat, after0: int, stage: nat, after: int, pqBytes: nat, totalBytes: nat)
    requires Filled(v, p, stage0, after0, stage, after, 0, pqBytes, totalBytes)
    ensures pqBytes == ENVELOPE && totalBytes == ENVELOPE
  {
  }

  lemma FilledWeighs(v: View, p: Page, stage0: nat, after0: int, stage: nat, after: int, count: nat, pqBytes: nat, totalBytes: nat)
    requires Filled(v, p, stage0, after0, stage, after, count, pqBytes, totalBytes)
    ensures p.next.None? && count == Count(p) <= MAX_ITEMS && pqBytes == ENVELOPE + PqBytes(v, p) && totalBytes == ENVELOPE + TotalBytes(v, p)
  {
    hide Between, PqBytes, TotalBytes;
  }

  lemma CannotTake(v: View, p: Page, stage: nat, after: int, id: int)
    requires v.Valid() && LeastAbove(Stage(v, stage), after, id) && (stage == 2 ==> id in v.allowed)
    requires ENVELOPE + PqBytes(v, p) + SizesAt(v, stage, id).0 > PQ_BUDGET || ENVELOPE + TotalBytes(v, p) + SizesAt(v, stage, id).1 > TOTAL_BUDGET
    ensures Stuck(v, p, stage, after)
  {
  }

  lemma StuckIgnoresCursor(v: View, p: Page, stage: nat, after: int, c: Cursor)
    requires v.Valid()
    ensures Stuck(v, p, stage, after) ==> Stuck(v, p.(next := Some(c)), stage, after)
    ensures Count(p.(next := Some(c))) == Count(p)
  {
    hide SizesAt;
  }

  lemma NothingFilled(v: View, p: Page, stage: nat, after: int)
    requires p == Page(v.revision, [], [], [], None) && stage <= 2 && 0 <= after <= MAX_NUMBER
    ensures Filled(v, p, stage, after, stage, after, 0, ENVELOPE, ENVELOPE)
  {
  }

  /** The encoded sizes of an object: of its key material, and of all of it. */
  function SizesAt(v: View, stage: nat, id: int): (nat, nat)
    requires v.Valid() && id in Stage(v, stage)
  {
    if stage == 0 then (v.sizes.bundle[id], v.sizes.peer[id])
    else if stage == 1 then (0, v.sizes.cidr[id])
    else (v.sizes.record[id], v.sizes.record[id])
  }

  /** The next object after this position is one that the page could not take any more. */
  ghost predicate Stuck(v: View, p: Page, stage: nat, after: int)
    requires v.Valid()
  {
    exists id ::
      && LeastAbove(Stage(v, stage), after, id) && (stage == 2 ==> id in v.allowed)
      && (ENVELOPE + PqBytes(v, p) + SizesAt(v, stage, id).0 > PQ_BUDGET || ENVELOPE + TotalBytes(v, p) + SizesAt(v, stage, id).1 > TOTAL_BUDGET)
  }

  predicate ListsConsistent(p: Page) {
    forall i :: 0 <= i < |p.peers| ==> p.peers[i].1.Consistent()
  }

  /**
    One page. It breaks off only when it is full or the next object goes beyond a budget,
    lists no peer whose bundle is for another key, and fails only for the reasons named.
  */
  method ReadPage(v: View, caller: int, cursor: Option<Cursor>) returns (result: Served<Page>)
    requires v.Valid()
    requires cursor.Some? ==> cursor.value.stage <= 2 && 0 <= cursor.value.after <= MAX_NUMBER
    ensures cursor.Some? && (cursor.value.caller != caller || cursor.value.revision != v.revision) ==> result == Err(ServerError.Conflict)
    ensures result.Ok? ==> PageOk(v, result.value, caller, if cursor.Some? then cursor.value.stage else 0,
                                  if cursor.Some? then cursor.value.after else 0)
    ensures result.Ok? && result.value.next.Some? ==>
              Count(result.value) == MAX_ITEMS || Stuck(v, result.value, result.value.next.value.stage, result.value.next.value.after)
    ensures result.Ok? ==> ListsConsistent(result.value)
    ensures result.Err? ==> result.error in {ServerError.Conflict, Unavailable}
    ensures result == Err(Unavailable) ==> Oversized(v)
    ensures result == Err(ServerError.Conflict) ==>
              (cursor.Some? && (cursor.value.caller != caller || cursor.value.revision != v.revision))
              || exists k :: k in v.peers && !v.peers[k].Consistent()
  {
    hide Filled, PageOk, Between, Mark, Stuck, PqBytes, TotalBytes;
    if cursor.Some? && (cursor.value.caller != caller || cursor.value.revision != v.revision) {
      return Err(ServerError.Conflict);
    }
    var stage: nat, after: int := 0, 0;
    if cursor.Some? { stage, after := cursor.value.stage, cursor.value.after; }
    ghost var stage0: nat, after0: int := stage, after;
    var page := Page(v.revision, [], [], [], None);
    NothingFilled(v, page, stage, after);
    var pqBytes: nat, totalBytes: nat, count: nat := ENVELOPE, ENVELOPE, 0;
    while stage < 3 && count < MAX_ITEMS
      invariant stage <= 3
      invariant ListsConsistent(page)
      invariant Filled(v, page, stage0, after0, stage, after, count, pqBytes, totalBytes)
      decreases 3 - stage, |Above(Stage(v, stage), after)|
    {
      var found := NextAbove(Stage(v, stage), after);
      if found.None? {
        StageEnds(v, page, stage0, after0, stage, after, count, pqBytes, totalBytes);
        stage, after := stage + 1, 0;
      } else {
        var id := found.value;
        AboveShrinks(Stage(v, stage), after, id);
        if stage == 2 && id !in v.allowed {
          RecordSkipped(v, page, stage0, after0, after, id, count, pqBytes, totalBytes);
          after := id;
        } else {
          if stage == 0 && !v.peers[id].Consistent() { return Err(ServerError.Conflict); }
          var pqSize := if stage == 0 then v.sizes.bundle[id] else if stage == 1 then 0 else v.sizes.record[id];
          var size := if stage == 0 then v.sizes.peer[id] else if stage == 1 then v.sizes.cidr[id] else v.sizes.record[id];
          if pqBytes + pqSize > PQ_BUDGET || totalBytes + size > TOTAL_BUDGET {
            if count == 0 {
              EmptyWeighsNothing(v, page, stage0, after0, stage, after, pqBytes, totalBytes);
              return Err(Unavailable);
            }
            FilledWeighs(v, page, stage0, after0, stage, after, count, pqBytes, totalBytes);
            CannotTake(v, page, stage, after, id);
            break;
          }
          ghost var before := page;
          if stage == 0 {
            page := page.(peers := page.peers + [(id, v.peers[id])]);
          } else if stage == 1 {
            page := page.(cidrs := page.cidrs + [(id, v.cidrs[id])]);
          } else {
            page := page.(exchanges := page.exchanges + [(id, v.records[id])]);
          }
          EntryPushed(v, before, stage0, after0, stage, after, id, count, pqBytes, totalBytes);
          pqBytes := pqBytes + pqSize;
          totalBytes := totalBytes + size;
          count := count + 1;
          after := id;
        }
      }
    }
    FilledWeighs(v, page, stage0, after0, stage, after, count, pqBytes, totalBytes);
    if stage < 3 {
      assert count == MAX_ITEMS || Stuck(v, page, stage, after);
      StuckIgnoresCursor(v, page, stage, after, Cursor(caller, v.revision, stage, after));
      PageCut(v, page, caller, stage0, after0, stage, after, count, pqBytes, totalBytes);
      page := page.(next := Some(Cursor(caller, v.revision, stage, after)));
    } else {
      PageWhole(v, page, caller, stage0, after0, after, count, pqBytes, totalBytes);
    }
    return Ok(page);
  }

  lemma StageEnds(v: View, p: Page, stage0: nat, after0: int, stage: nat, after: int, count: nat, pqBytes: nat, totalBytes: nat)
    requires v.Valid() && Filled(v, p, stage0, after0, stage, after, count, pqBytes, totalBytes) && stage < 3 && 0 <= after0
    requires forall k :: k in Stage(v, stage) ==> k <= after
    ensures Filled(v, p, stage0, after0, stage + 1, 0, count, pqBytes, totalBytes)
  {
    if stage == 0 {
      assert Stage(v, stage) == v.peers.Keys;
      assert forall k :: k in v.peers ==> k in v.peers.Keys;
      ExactlySkips(v.peers, Mark(0, stage0, after0), after, MAX_NUMBER, p.peers);
    } else if stage == 1 {
      assert Stage(v, stage) == v.cidrs.Keys;
      assert forall k :: k in v.cidrs ==> k in v.cidrs.Keys;
      ExactlySkips(v.cidrs, Mark(1, stage0, after0), after, MAX_NUMBER, p.cidrs);
    } else {
      assert Stage(v, stage) == v.records.Keys;
      assert forall k :: k in v.Open() ==> k in v.records.Keys;
      ExactlySkips(v.Open(), Mark(2, stage0, after0), after, MAX_NUMBER, p.exchanges);
    }
    hide Sum, Ids, Exactly, PqBytes, TotalBytes;
  }

  lemma RecordSkipped(v: View, p: Page, stage0: nat, after0: int, after: int, id: int, count: nat, pqBytes: nat, totalBytes: nat)
    requires v.Valid() && Filled(v, p, stage0, after0, 2, after, count, pqBytes, totalBytes)
    requires LeastAbove(v.records.Keys, after, id) && id !in v.allowed
    ensures Filled(v, p, stage0, after0, 2, id, count, pqBytes, totalBytes)
  {
    hide Sum, Ids;
  }

  /** The page with the next entry of the current stage. */
  function Pushed(v: View, p: Page, stage: nat, id: int): Page
    requires stage < 3 && id in Stage(v, stage)
  {
    if stage == 0 then p.(peers := p.peers + [(id, v.peers[id])])
    else if stage == 1 then p.(cidrs := p.cidrs + [(id, v.cidrs[id])])
    else p.(exchanges := p.exchanges + [(id, v.records[id])])
  }

  lemma EntryPushed(v: View, p: Page, stage0: nat, after0: int, stage: nat, after: int, id: int, count: nat, pqBytes: nat, totalBytes: nat)
    requires v.Valid() && Filled(v, p, stage0, after0, stage, after, count, pqBytes, totalBytes) && stage < 3 && count < MAX_ITEMS && 0 <= after0
    requires LeastAbove(Stage(v, stage), after, id) && (stage == 2 ==> id in v.allowed)
    ensures var pqSize := if stage == 0 then v.sizes.bundle[id] else if stage == 1 then 0 else v.sizes.record[id];
            var size := if stage == 0 then v.sizes.peer[id] else if stage == 1 then v.sizes.cidr[id] else v.sizes.record[id];
            pqBytes + pqSize <= PQ_BUDGET && totalBytes + size <= TOTAL_BUDGET ==>
              Filled(v, Pushed(v, p, stage, id), stage0, after0, stage, id, count + 1, pqBytes + pqSize, totalBytes + size)
  {
    if stage == 0 {
      PeerPushed(v, p, stage0, after0, after, id, count, pqBytes, totalBytes);
    } else if stage == 1 {
      CidrPushed(v, p, stage0, after0, after, id, count, pqBytes, totalBytes);
    } else {
      RecordPushed(v, p, stage0, after0, after, id, count, pqBytes, totalBytes);
    }
    hide Filled;
  }

  lemma PeerPushed(v: View, p: Page, stage0: nat, after0: int, after: int, id: int, count: nat, pqBytes: nat, totalBytes: nat)
    requires v.Valid() && Filled(v, p, stage0, after0, 0, after, count, pqBytes, totalBytes) && count < MAX_ITEMS && 0 <= after0
    requires LeastAbove(v.peers.Keys, after, id)
    ensures pqBytes + v.sizes.bundle[id] <= PQ_BUDGET && totalBytes + v.sizes.peer[id] <= TOTAL_BUDGET ==>
              Filled(v, p.(peers := p.peers + [(id, v.peers[id])]), stage0, after0, 0, id, count + 1,
                     pqBytes + v.sizes.bundle[id], totalBytes + v.sizes.peer[id])
  {
    SumAppended(p.peers, (id, v.peers[id]), v.sizes.bundle);
    SumAppended(p.peers, (id, v.peers[id]), v.sizes.peer);
    ExactlyNext(v.peers, Mark(0, stage0, after0), after, p.peers, id);
    hide Sum, Ids, Exactly;
  }

  lemma CidrPushed(v: View, p: Page, stage0: nat, after0: int, after: int, id: int, count: nat, pqBytes: nat, totalBytes: nat)
    requires v.Valid() && Filled(v, p, stage0, after0, 1, after, count, pqBytes, totalBytes) && count < MAX_ITEMS && 0 <= after0
    requires LeastAbove(v.cidrs.Keys, after, id)
    ensures totalBytes + v.sizes.cidr[id] <= TOTAL_BUDGET ==>
              Filled(v, p.(cidrs := p.cidrs + [(id, v.cidrs[id])]), stage0, after0, 1, id, count + 1,
                     pqBytes, totalBytes + v.sizes.cidr[id])
  {
    SumAppended(p.cidrs, (id, v.cidrs[id]), v.sizes.cidr);
    ExactlyNext(v.cidrs, Mark(1, stage0, after0), after, p.cidrs, id);
    hide Sum, Ids, Exactly;
  }

  lemma RecordPushed(v: View, p: Page, stage0: nat, after0: int, after: int, id: int, count: nat, pqBytes: nat, totalBytes: nat)
    requires v.Valid() && Filled(v, p, stage0, after0, 2, after, count, pqBytes, totalBytes) && count < MAX_ITEMS && 0 <= after0
    requires LeastAbove(v.records.Keys, after, id) && id in v.allowed
    ensures pqBytes + v.sizes.record[id] <= PQ_BUDGET && totalBytes + v.sizes.record[id] <= TOTAL_BUDGET ==>
              Filled(v, p.(exchanges := p.exchanges + [(id, v.records[id])]), stage0, after0, 2, id, count + 1,
                     pqBytes + v.sizes.record[id], totalBytes + v.sizes.record[id])
  {
    SumAppended(p.exchanges, (id, v.records[id]), v.sizes.record);
    ExactlyNext(v.Open(), Mark(2, stage0, after0), after, p.exchanges, id);
    hide Sum, Ids, Exactly;
  }

  lemma PageCut(v: View, p: Page, caller: int, stage0: nat, after0: int, stage: nat, after: int, count: nat, pqBytes: nat, totalBytes: nat)
    requires Filled(v, p, stage0, after0, stage, after, count, pqBytes, totalBytes) && stage < 3 && count > 0
    requires 0 <= after0 <= MAX_NUMBER
    ensures PageOk(v, p.(next := Some(Cursor(caller, v.revision, stage, after))), caller, stage0, after0)
  {
    hide Sum, Ids, Exactly;
  }

  lemma PageWhole(v: View, p: Page, caller: int, stage0: nat, after0: int, after: int, count: nat, pqBytes: nat, totalBytes: nat)
    requires Filled(v, p, stage0, after0, 3, after, count, pqBytes, totalBytes)
    ensures PageOk(v, p, caller, stage0, after0)
  {
    hide Sum, Ids, Exactly;
  }

  // ---------------------------------------------------------------- The client's walk

  /** What happens to one request of the client: a transaction of the server serves it, or it fails. */
  datatype Visit = Serve(view: View) | Broken(error: ServerError)

  /** Writes in between may do anything; but every change of the directory moves the revision. */
  ghost predicate Guarded(visits: seq<Visit>) {
    && (forall i :: 0 <= i < |visits| && visits[i].Serve? ==> visits[i].view.Valid())
    && (forall i, j :: 0 <= i < j < |visits| && visits[i].Serve? && visits[j].Serve? ==> SameRevision(visits[i].view, visits[j].view))
  }

  ghost predicate SameRevision(a: View, b: View) {
    a.revision == b.revision ==>
      a.peers == b.peers && a.cidrs == b.cidrs && a.allowed == b.allowed && a.records.Keys <= b.records.Keys
  }

  /** All visits of a stretch were served at one revision. */
  ghost predicate OneRevision(visits: seq<Visit>, first: nat, end: nat)
    requires first < end <= |visits|
  {
    visits[first].Serve? && forall i :: first <= i < end ==> visits[i].Serve? && visits[i].view.revision == visits[first].view.revision
  }

  /** Some visit of the stretch showed this record to the caller. */
  ghost predicate Shown(visits: seq<Visit>, first: nat, end: nat, entry: (int, Exchange)) {
    exists i :: first <= i < end <= |visits| && visits[i].Serve? && entry.0 in visits[i].view.Open() && visits[i].view.Open()[entry.0] == entry.1
  }

  /** The records collected so far: shown during the walk, ascending, and none missing that was there from its start. */
  ghost predicate Collected(visits: seq<Visit>, first: nat, end: nat, high: int, list: seq<(int, Exchange)>)
    requires first < |visits| && visits[first].Serve?
  {
    && (forall i :: 0 <= i < |list| ==> 0 < list[i].0 <= high && Shown(visits, first, end, list[i]))
    && (forall i, j :: 0 <= i < j < |list| ==> list[i].0 < list[j].0)
    && (forall k :: k in visits[first].view.Open() && 0 < k <= high ==> Lists(list, k))
  }

  lemma CollectedJoins(visits: seq<Visit>, first: nat, end: nat, mid: int, high: int, a: seq<(int, Exchange)>, b: seq<(int, Exchange)>)
    requires Guarded(visits) && first <= end < |visits| && OneRevision(visits, first, end + 1)
    requires Collected(visits, first, end, mid, a) && mid <= high && 0 <= mid
    requires Exactly(visits[end].view.Open(), mid, high, b)
    ensures Collected(visits, first, end + 1, high, a + b)
  {
    var v := visits[end].view;
    assert SameRevision(visits[first].view, v);
    forall k | k in visits[first].view.Open() && 0 < k <= high
      ensures Lists(a + b, k)
    {
      ListsAppended(a, b, k);
      assert k in v.Open();
    }
    forall i | 0 <= i < |a + b|
      ensures 0 < (a + b)[i].0 <= high && Shown(visits, first, end + 1, (a + b)[i])
    {
      if i < |a| {
        assert Shown(visits, first, end, a[i]);
      } else {
        var entry := b[i - |a|];
        assert v.Open()[entry.0] == entry.1;
        assert Shown(visits, first, end + 1, entry);
      }
    }
  }

  datatype State = State(peers: seq<(int, PeerItem)>, exchanges: seq<(int, Exchange)>)

  /** Where the walk stands after some pages of one revision. */
  ghost predicate Walked(visits: seq<Visit>, caller: int, first: nat, end: nat, c: Cursor, s: State) {
    && first < end <= |visits| && OneRevision(visits, first, end)
    && c.caller == caller && c.revision == visits[first].view.revision && c.stage <= 2 && 0 <= c.after <= MAX_NUMBER
    && Exactly(visits[first].view.peers, 0, Mark(0, c.stage, c.after), s.peers)
    && Collected(visits, first, end, Mark(2, c.stage, c.after), s.exchanges)
  }

  /** What the walk promises: the whole directory of one revision, and the records of the walk. */
  ghost predicate Snapshot(visits: seq<Visit>, first: nat, end: nat, s: State) {
    && first < end <= |visits| && OneRevision(visits, first, end)
    && (forall i :: first <= i < end ==> visits[i].view.peers == visits[first].view.peers)
    && Exactly(visits[first].view.peers, 0, MAX_NUMBER, s.peers) && |s.peers| == |visits[first].view.peers|
    && Collected(visits, first, end, MAX_NUMBER, s.exchanges)
  }

  // ---------------------------------------------------------------- Progress of the walk

  /** The objects that a walk over this view lists. */
  function Objects(v: View): nat {
    |v.peers| + |v.cidrs| + |v.Open()|
  }

  /** Those of them beyond a position of the walk. */
  function Left(v: View, stage: nat, after: int): nat {
    |Above(v.peers.Keys, Mark(0, stage, after))| + |Above(v.cidrs.Keys, Mark(1, stage, after))| + |Above(v.Open().Keys, Mark(2, stage, after))|
  }

  lemma LeftIsBounded(v: View, stage: nat, after: int)
    ensures Left(v, stage, after) <= Objects(v)
  {
    SubsetCardinality(Above(v.peers.Keys, Mark(0, stage, after)), v.peers.Keys);
    SubsetCardinality(Above(v.cidrs.Keys, Mark(1, stage, after)), v.cidrs.Keys);
    SubsetCardinality(Above(v.Open().Keys, Mark(2, stage, after)), v.Open().Keys);
    assert |v.peers.Keys| == |v.peers| && |v.cidrs.Keys| == |v.cidrs| && |v.Open().Keys| == |v.Open()|;
    hide View.Open, Mark;
  }

  lemma {:induction false} ListConsumes<T(!new)>(keys: set<int>, low: int, high: int, list: seq<(int, T)>)
    requires low <= high && forall i :: 0 <= i < |list| ==> low < list[i].0 <= high && list[i].0 in keys
    requires forall i, j :: 0 <= i < j < |list| ==> list[i].0 < list[j].0
    ensures |Above(keys, high)| + |list| <= |Above(keys, low)|
    decreases |list|
  {
    if |list| == 0 {
      SubsetCardinality(Above(keys, high), Above(keys, low));
    } else {
      var k := list[|list| - 1].0;
      ListConsumes(keys - {k}, low, high, list[..|list| - 1]);
      assert Above(keys - {k}, high) == Above(keys, high);
      assert Above(keys - {k}, low) == Above(keys, low) - {k} && k in Above(keys, low);
    }
  }

  lemma TableConsumes<T(!new)>(m: map<int, T>, keys: set<int>, low: int, high: int, list: seq<(int, T)>)
    requires Exactly(m, low, high, list) && m.Keys <= keys && low <= high
    ensures |Above(keys, high)| + |list| <= |Above(keys, low)|
  {
    ListConsumes(keys, low, high, list);
  }

  /** A page that is not the last one leaves fewer objects, even of a later view of the revision. */
  lemma PageConsumes(v: View, last: View, p: Page, caller: int, stage: nat, after: int)
    requires PageOk(v, p, caller, stage, after) && p.next.Some?
    requires v.peers == last.peers && v.cidrs == last.cidrs && v.Open().Keys <= last.Open().Keys
    ensures Left(last, p.next.value.stage, p.next.value.after) < Left(last, stage, after)
  {
    var c := p.next.value;
    TableConsumes(v.peers, last.peers.Keys, Mark(0, stage, after), Mark(0, c.stage, c.after), p.peers);
    TableConsumes(v.cidrs, last.cidrs.Keys, Mark(1, stage, after), Mark(1, c.stage, c.after), p.cidrs);
    TableConsumes(v.Open(), last.Open().Keys, Mark(2, stage, after), Mark(2, c.stage, c.after), p.exchanges);
    hide Exactly, PqBytes, TotalBytes, Mark, View.Open, Above;
  }

  /** Every peer's bundle is for the key that is listed, and every object fits into a page. */
  predicate Readable(v: View) {
    v.Valid() && (forall k :: k in v.peers ==> v.peers[k].Consistent()) && !Oversized(v)
  }

  /** From here on every request is served, at one revision, and can be read. */
  ghost predicate Steady(visits: seq<Visit>, start: nat) {
    start < |visits| && visits[start].Serve?
    && forall i :: start <= i < |visits| ==> visits[i].Serve? && visits[i].view.revision == visits[start].view.revision && Readable(visits[i].view)
  }

  function LastView(visits: seq<Visit>): View
    requires |visits| > 0 && visits[|visits| - 1].Serve?
  {
    visits[|visits| - 1].view
  }

  /** And there are enough of them: one for each object, one for the end, and one that a restart may cost. */
  ghost predicate Enough(visits: seq<Visit>, start: nat) {
    Steady(visits, start) && |visits| - start >= Objects(LastView(visits)) + 2
  }

  /** This visit ends a walk with this error. */
  predicate FailsWith(visit: Visit, e: ServerError) {
    e != ServerError.Conflict
    && (visit == Broken(e) || (visit.Serve? && e == Unavailable && visit.view.Valid() && Oversized(visit.view)))
  }

  /** How far the walk has come since the requests became steady. */
  ghost predicate OnTime(visits: seq<Visit>, start: nat, i: nat, cursor: Option<Cursor>) {
    start < i ==>
      i <= |visits| && Enough(visits, start)
      && (cursor.None? ==> i == start + 1)
      && (cursor.Some? ==> cursor.value.revision == visits[start].view.revision
                           && i - start + Left(LastView(visits), cursor.value.stage, cursor.value.after) <= Objects(LastView(visits)) + 1)
  }

  lemma SteadyTables(visits: seq<Visit>, start: nat, i: nat)
    requires Guarded(visits) && Steady(visits, start) && start <= i < |visits|
    ensures var v, last := visits[i].view, LastView(visits);
            v.peers == last.peers && v.cidrs == last.cidrs && v.Open().Keys <= last.Open().Keys
  {
    var v, last := visits[i].view, LastView(visits);
    assert i < |visits| - 1 ==> SameRevision(v, last);
    hide Readable;
  }

  /** A page that is not the last one brings the walk on by one visit and one object at least. */
  lemma ReadsOn(visits: seq<Visit>, caller: int, start: nat, i: nat, cursor: Option<Cursor>, page: Page)
    requires Guarded(visits) && i < |visits| && (start < |visits| ==> Enough(visits, start)) && OnTime(visits, start, i, cursor)
    requires visits[i].Serve? && (cursor.Some? ==> cursor.value.revision == visits[i].view.revision)
    requires PageOk(visits[i].view, page, caller, if cursor.Some? then cursor.value.stage else 0, if cursor.Some? then cursor.value.after else 0)
    requires page.next.Some?
    ensures OnTime(visits, start, i + 1, page.next)
  {
    if start <= i {
      var stage, after := if cursor.Some? then cursor.value.stage else 0, if cursor.Some? then cursor.value.after else 0;
      SteadyTables(visits, start, i);
      PageConsumes(visits[i].view, LastView(visits), page, caller, stage, after);
      LeftIsBounded(LastView(visits), stage, after);
      assert page.next.value.revision == visits[i].view.revision by { hide Between, PqBytes, TotalBytes; }
      hide PageOk, Left, Objects, Guarded, Readable, View.Open;
    }
  }

  /** Once the requests are steady, only the first of them can meet a conflict. */
  lemma RestartsOnce(visits: seq<Visit>, caller: int, start: nat, i: nat, cursor: Option<Cursor>)
    requires i < |visits| && (start < |visits| ==> Enough(visits, start)) && OnTime(visits, start, i, cursor)
    requires visits[i].Serve? ==>
               (cursor.Some? && cursor.value.revision != visits[i].view.revision)
               || exists k :: k in visits[i].view.peers && !visits[i].view.peers[k].Consistent()
    ensures OnTime(visits, start, i + 1, None)
  {
    hide Left, Objects, PeerItem.Consistent, Oversized, View.Valid;
  }

  lemma NeverLate(visits: seq<Visit>, start: nat, cursor: Option<Cursor>)
    requires OnTime(visits, start, |visits|, cursor) && (start < |visits| ==> Enough(visits, start))
    ensures start >= |visits|
  {
    hide Left, Objects, Readable;
  }

  /**
    Walks the pages, from the top again whenever the server answers with a conflict. A
    success is a snapshot of one revision; an error is that of some visit; and once the
    requests are steady for long enough, there is an answer, so that a walk without
    failing visits succeeds. Without that the visits may run out first.
  */
  method FetchState(visits: seq<Visit>, caller: int) returns (answer: Option<Served<State>>)
    requires Guarded(visits)
    ensures answer.Some? && answer.value.Ok? ==> exists first: nat, end: nat :: Snapshot(visits, first, end, answer.value.value)
    ensures answer.Some? && answer.value.Err? ==> exists i :: 0 <= i < |visits| && FailsWith(visits[i], answer.value.error)
    ensures (exists start: nat :: Enough(visits, start)) ==> answer.Some?
    ensures (exists start: nat :: Enough(visits, start)) && (forall i, e :: 0 <= i < |visits| ==> !FailsWith(visits[i], e)) ==>
              answer.Some? && answer.value.Ok?
  {
    hide Walked, Snapshot, PageOk, Exactly, Collected, Enough, OnTime, Oversized;
    var peers: seq<(int, PeerItem)>, exchanges: seq<(int, Exchange)> := [], [];
    var cursor: Option<Cursor> := None;
    ghost var first: nat := 0;
    ghost var start: nat := |visits|;
    if s: nat :| Enough(visits, s) {
      start := s;
      EnoughIsWithin(visits, s);
    }
    OnTimeAtFirst(visits, start);
    for i := 0 to |visits|
      invariant cursor.None? ==> peers == [] && exchanges == []
      invariant cursor.Some? ==> Walked(visits, caller, first, i, cursor.value, State(peers, exchanges))
      invariant cursor.Some? ==> cursor.value.stage <= 2 && 0 <= cursor.value.after <= MAX_NUMBER && cursor.value.caller == caller
      invariant OnTime(visits, start, i, cursor)
    {
      var reply: Served<Page>;
      match visits[i] {
        case Serve(view) => reply := ReadPage(view, caller, cursor);
        case Broken(error) => reply := Err(error);
      }
      if reply.Ok? {
        var page := reply.value;
        if cursor.None? { first := i; }
        PageJoins(visits, caller, first, i, cursor, page, State(peers, exchanges));
        if page.next.Some? { ReadsOn(visits, caller, start, i, cursor, page); }
        peers := peers + page.peers;
        exchanges := exchanges + page.exchanges;
        if page.next.None? { return Some(Ok(State(peers, exchanges))); }
        cursor := page.next;
      } else if reply.error == ServerError.Conflict {
        if visits[i].Broken? { BrokenIsEarly(visits, start, i); }
        RestartsOnce(visits, caller, start, i, cursor);
        peers, exchanges, cursor := [], [], None;
      } else {
        assert FailsWith(visits[i], reply.error);
        return Some(Err(reply.error));
      }
    }
    NeverLate(visits, start, cursor);
    return None;
  }

  lemma EnoughIsWithin(visits: seq<Visit>, start: nat)
    requires Enough(visits, start)
    ensures start < |visits|
  {
  }

  lemma OnTimeAtFirst(visits: seq<Visit>, start: nat)
    ensures OnTime(visits, start, 0, None)
  {
  }

  lemma BrokenIsEarly(visits: seq<Visit>, start: nat, i: nat)
    requires i < |visits| && visits[i].Broken? && (start < |visits| ==> Enough(visits, start))
    ensures i < start
  {
  }

  /** One more page of the same revision extends the walk; the last one completes it. */
  lemma PageJoins(visits: seq<Visit>, caller: int, first: nat, i: nat, cursor: Option<Cursor>, page: Page, s: State)
    requires Guarded(visits) && i < |visits| && visits[i].Serve?
    requires if cursor.None? then first == i && s == State([], [])
             else Walked(visits, caller, first, i, cursor.value, s) && cursor.value.revision == visits[i].view.revision
    requires PageOk(visits[i].view, page, caller, if cursor.Some? then cursor.value.stage else 0, if cursor.Some? then cursor.value.after else 0)
    ensures var joined := State(s.peers + page.peers, s.exchanges + page.exchanges);
            && (page.next.Some? ==> page.next.value.stage <= 2 && 0 <= page.next.value.after <= MAX_NUMBER && page.next.value.caller == caller)
            && (page.next.Some? ==> Walked(visits, caller, first, i + 1, page.next.value, joined))
            && (page.next.None? ==> Snapshot(visits, first, i + 1, joined))
  {
    var v := visits[i].view;
    var stage := if cursor.Some? then cursor.value.stage else 0;
    var after := if cursor.Some? then cursor.value.after else 0;
    var stage' := if page.next.Some? then page.next.value.stage else 3;
    var after' := if page.next.Some? then page.next.value.after else 0;
    StretchGrows(visits, caller, first, i, cursor, s);
    assert Collected(visits, first, i, Mark(2, stage, after), s.exchanges);
    assert Between(v, page, stage, after, stage', after') && Mark(0, stage, after) <= Mark(0, stage', after')
           && Mark(2, stage, after) <= Mark(2, stage', after') by { hide PqBytes, TotalBytes, Exactly; }
    assert Exactly(v.peers, Mark(0, stage, after), Mark(0, stage', after'), page.peers)
           && Exactly(v.Open(), Mark(2, stage, after), Mark(2, stage', after'), page.exchanges) by { hide Exactly; }
    assert page.next.Some? ==> page.next.value.stage <= 2 && 0 <= page.next.value.after <= MAX_NUMBER
                               && page.next.value.caller == caller && page.next.value.revision == v.revision by { hide Between, PqBytes, TotalBytes; }
    hide PageOk, Between, Exactly, Collected, Guarded, OneRevision, View.Open;
    ExactlyJoins(v.peers, 0, Mark(0, stage, after), Mark(0, stage', after'), s.peers, page.peers);
    CollectedJoins(visits, first, i, Mark(2, stage, after), Mark(2, stage', after'), s.exchanges, page.exchanges);
    if page.next.None? {
      WalkComplete(visits, first, i + 1, State(s.peers + page.peers, s.exchanges + page.exchanges));
    }
  }

  lemma StretchGrows(visits: seq<Visit>, caller: int, first: nat, i: nat, cursor: Option<Cursor>, s: State)
    requires Guarded(visits) && i < |visits| && visits[i].Serve?
    requires if cursor.None? then first == i && s == State([], [])
             else Walked(visits, caller, first, i, cursor.value, s) && cursor.value.revision == visits[i].view.revision
    ensures first <= i && OneRevision(visits, first, i + 1) && visits[first].view.peers == visits[i].view.peers
    ensures visits[first].view.revision == visits[i].view.revision
    ensures var stage, after := if cursor.Some? then cursor.value.stage else 0, if cursor.Some? then cursor.value.after else 0;
            Exactly(visits[i].view.peers, 0, Mark(0, stage, after), s.peers)
            && Collected(visits, first, i, Mark(2, stage, after), s.exchanges)
  {
    assert first < i ==> SameRevision(visits[first].view, visits[i].view);
    if cursor.Some? {
      hide Exactly, Collected;
    }
  }

  lemma WalkComplete(visits: seq<Visit>, first: nat, end: nat, s: State)
    requires Guarded(visits) && first < end <= |visits| && OneRevision(visits, first, end)
    requires Exactly(visits[first].view.peers, 0, MAX_NUMBER, s.peers) && Collected(visits, first, end, MAX_NUMBER, s.exchanges)
    ensures Snapshot(visits, first, end, s)
  {
    hide Collected;
    ExactlyIsAll(visits[first].view.peers, 0, MAX_NUMBER, s.peers);
    forall j | first <= j < end
      ensures visits[j].view.peers == visits[first].view.peers
    {
      assert first < j ==> SameRevision(visits[first].view, visits[j].view);
    }
  }
}
