/**
  Packing a device update into netlink messages of bounded size: the messages, applied
  in order, do what one unbounded message would have done.
*/
module Netlink {
  import opened Results

  datatype PeerUpdate = PeerUpdate(
    key: int,
    remove: bool,
    presharedKey: Option<int>,
    endpoint: Option<int>,
    keepalive: Option<int>,
    replaceAllowed: bool,
    allowed: set<int>,
    size: nat)

  datatype Attribute =
    | IfName(size: nat)
    | PrivateKey(key: int)
    | Fwmark(mark: int)
    | ListenPort(port: int)
    | ReplacePeers
    | Peers(peers: seq<PeerUpdate>)

  type Message = seq<Attribute>

  datatype Update = Update(privateKey: Option<int>, fwmark: Option<int>, listenPort: Option<int>, replacePeers: bool, peers: seq<PeerUpdate>)

  const HEADER: nat := 4

  // ---------------------------------------------------------------- Encoded lengths

  function PeersLength(peers: seq<PeerUpdate>): nat {
    if |peers| == 0 then 0 else PeersLength(peers[..|peers| - 1]) + peers[|peers| - 1].size
  }

  /** Attribute lengths, padded to four bytes; a nested list is its header and its parts. */
  function Length(a: Attribute): nat {
    match a
    case IfName(size) => size
    case PrivateKey(_) => HEADER + 32
    case Fwmark(_) => HEADER + 4
    case ListenPort(_) => HEADER + 4
    case ReplacePeers => HEADER + 4
    case Peers(peers) => HEADER + PeersLength(peers)
  }

  function MessageLength(m: Message): nat {
    if |m| == 0 then 0 else MessageLength(m[..|m| - 1]) + Length(m[|m| - 1])
  }

  lemma LengthAppended(m: Message, a: Attribute)
    ensures MessageLength(m + [a]) == MessageLength(m) + Length(a)
  {
    assert (m + [a])[..|m|] == m;
  }

  lemma PeersLengthAppended(peers: seq<PeerUpdate>, p: PeerUpdate)
    ensures PeersLength(peers + [p]) == PeersLength(peers) + p.size
  {
    assert (peers + [p])[..|peers|] == peers;
  }

  // ---------------------------------------------------------------- What a device does with a message

  datatype PeerConfig = PeerConfig(presharedKey: Option<int>, endpoint: Option<int>, keepalive: Option<int>, allowed: set<int>)

  datatype Device = Device(privateKey: Option<int>, fwmark: Option<int>, listenPort: Option<int>, peers: map<int, PeerConfig>)

  function Keep<T>(update: Option<T>, previous: Option<T>): Option<T> {
    if update.Some? then update else previous
  }

  function ApplyPeer(d: Device, p: PeerUpdate): Device {
    if p.remove then d.(peers := d.peers - {p.key})
    else
      var before := if p.key in d.peers then d.peers[p.key] else PeerConfig(None, None, None, {});
      d.(peers := d.peers[p.key := PeerConfig(Keep(p.presharedKey, before.presharedKey), Keep(p.endpoint, before.endpoint),
                                              Keep(p.keepalive, before.keepalive),
                                              if p.replaceAllowed then p.allowed else before.allowed + p.allowed)])
  }

  function ApplyPeers(d: Device, peers: seq<PeerUpdate>): Device {
    if |peers| == 0 then d else ApplyPeer(ApplyPeers(d, peers[..|peers| - 1]), peers[|peers| - 1])
  }

  function ApplySetting(d: Device, a: Attribute): Device {
    match a
    case PrivateKey(k) => d.(privateKey := Some(k))
    case Fwmark(f) => d.(fwmark := Some(f))
    case ListenPort(p) => d.(listenPort := Some(p))
    case _ => d
  }

  function ApplySettings(d: Device, m: Message): Device {
    if |m| == 0 then d else ApplySetting(ApplySettings(d, m[..|m| - 1]), m[|m| - 1])
  }

  function PeersIn(m: Message): seq<PeerUpdate> {
    if |m| == 0 then [] else PeersIn(m[..|m| - 1]) + (if m[|m| - 1].Peers? then m[|m| - 1].peers else [])
  }

  /** The kernel reads the settings, then drops all peers if told to, and only then walks the peer list. */
  function ApplyMessage(d: Device, m: Message): Device {
    var configured := ApplySettings(d, m);
    var cleared := if ReplacePeers in m then configured.(peers := map[]) else configured;
    ApplyPeers(cleared, PeersIn(m))
  }

  function ApplyMessages(d: Device, queue: seq<Message>): Device {
    if |queue| == 0 then d else ApplyMessage(ApplyMessages(d, queue[..|queue| - 1]), queue[|queue| - 1])
  }

  // ---------------------------------------------------------------- The parts of an update, in order

  datatype Item = Setting(attribute: Attribute) | OnePeer(peer: PeerUpdate)

  function ApplyItem(d: Device, i: Item): Device {
    match i
    case Setting(a) => if a.ReplacePeers? then d.(peers := map[]) else ApplySetting(d, a)
    case OnePeer(p) => ApplyPeer(d, p)
  }

  function ApplyItems(d: Device, items: seq<Item>): Device {
    if |items| == 0 then d else ApplyItem(ApplyItems(d, items[..|items| - 1]), items[|items| - 1])
  }

  lemma {:induction false} ItemsCompose(d: Device, a: seq<Item>, b: seq<Item>)
    ensures ApplyItems(d, a + b) == ApplyItems(ApplyItems(d, a), b)
  {
    if |b| == 0 {
      assert a + b == a;
    } else {
      assert (a + b)[..|a + b| - 1] == a + b[..|b| - 1];
      ItemsCompose(d, a, b[..|b| - 1]);
    }
  }

  function PeerItems(peers: seq<PeerUpdate>): (r: seq<Item>)
    ensures |r| == |peers|
  {
    seq(|peers|, i requires 0 <= i < |peers| => OnePeer(peers[i]))
  }

  function ItemsOf(a: Attribute): seq<Item> {
    match a
    case IfName(_) => []
    case Peers(peers) => PeerItems(peers)
    case _ => [Setting(a)]
  }

  function Items(m: Message): seq<Item> {
    if |m| == 0 then [] else Items(m[..|m| - 1]) + ItemsOf(m[|m| - 1])
  }

  function AllItems(queue: seq<Message>): seq<Item> {
    if |queue| == 0 then [] else AllItems(queue[..|queue| - 1]) + Items(queue[|queue| - 1])
  }

  lemma ItemsAppended(m: Message, a: Attribute)
    ensures Items(m + [a]) == Items(m) + ItemsOf(a)
  {
    assert (m + [a])[..|m|] == m;
  }

  lemma AllItemsAppended(queue: seq<Message>, m: Message)
    ensures AllItems(queue + [m]) == AllItems(queue) + Items(m)
  {
    assert (queue + [m])[..|queue|] == queue;
  }

  /** Every message names the interface first, and lists its peers once and last. */
  predicate Shaped(m: Message) {
    |m| > 0 && m[0].IfName? && forall i :: 0 < i < |m| ==> !m[i].IfName? && (m[i].Peers? ==> i == |m| - 1)
  }

  predicate NoPeers(m: Message) {
    forall i :: 0 <= i < |m| ==> !m[i].Peers?
  }

  lemma {:induction false} SettingsAreItems(d: Device, m: Message)
    requires NoPeers(m)
    ensures var configured := ApplySettings(d, m);
            ApplyItems(d, Items(m)) == if ReplacePeers in m then configured.(peers := map[]) else configured
    ensures PeersIn(m) == []
  {
    if |m| > 0 {
      var init, last := m[..|m| - 1], m[|m| - 1];
      assert m == init + [last];
      SettingsAreItems(d, init);
      ItemsCompose(d, Items(init), ItemsOf(last));
      SettingStep(ApplySettings(d, init), ReplacePeers in init, last);
      assert ReplacePeers in m <==> ReplacePeers in init || last == ReplacePeers;
      hide ApplySetting, ItemsOf, ApplyItems;
    }
  }

  lemma SettingStep(configured: Device, cleared: bool, last: Attribute)
    requires !last.Peers?
    ensures ApplyItems(if cleared then configured.(peers := map[]) else configured, ItemsOf(last))
            == if cleared || last == ReplacePeers then ApplySetting(configured, last).(peers := map[]) else ApplySetting(configured, last)
  {
    var d := if cleared then configured.(peers := map[]) else configured;
    if !last.IfName? {
      OneItem(d, Setting(last));
    }
  }

  lemma OneItem(d: Device, i: Item)
    ensures ApplyItems(d, [i]) == ApplyItem(d, i)
  {
    assert [i][..0] == [];
  }

  lemma {:induction false} PeersAreItems(d: Device, peers: seq<PeerUpdate>)
    ensures ApplyItems(d, PeerItems(peers)) == ApplyPeers(d, peers)
  {
    if |peers| > 0 {
      PeersAreItems(d, peers[..|peers| - 1]);
      assert PeerItems(peers)[..|peers| - 1] == PeerItems(peers[..|peers| - 1]);
    }
  }

  /** A shaped message does what its parts do one by one. */
  lemma MessageIsItems(d: Device, m: Message)
    requires Shaped(m)
    ensures ApplyMessage(d, m) == ApplyItems(d, Items(m))
  {
    var init, last := m[..|m| - 1], m[|m| - 1];
    assert m == init + [last];
    if last.Peers? {
      SettingsAreItems(d, init);
      ItemsCompose(d, Items(init), ItemsOf(last));
      PeersAreItems(ApplyItems(d, Items(init)), last.peers);
      assert ApplySettings(d, m) == ApplySettings(d, init);
      assert ReplacePeers in m <==> ReplacePeers in init;
      assert PeersIn(m) == last.peers;
    } else {
      SettingsAreItems(d, m);
    }
  }

  lemma {:induction false} MessagesAreItems(d: Device, queue: seq<Message>)
    requires forall m :: m in queue ==> Shaped(m)
    ensures ApplyMessages(d, queue) == ApplyItems(d, AllItems(queue))
  {
    if |queue| > 0 {
      var init, last := queue[..|queue| - 1], queue[|queue| - 1];
      MessagesAreItems(d, init);
      MessageIsItems(ApplyMessages(d, init), last);
      ItemsCompose(d, AllItems(init), Items(last));
    }
  }

  // ---------------------------------------------------------------- The packer

  function SettingsOf(u: Update): Message {
    (if u.privateKey.Some? then [PrivateKey(u.privateKey.value)] else [])
    + (if u.fwmark.Some? then [Fwmark(u.fwmark.value)] else [])
    + (if u.listenPort.Some? then [ListenPort(u.listenPort.value)] else [])
    + (if u.replacePeers then [ReplacePeers] else [])
  }

  /** The update as one message of any length. */
  function Whole(name: Attribute, u: Update): Message {
    [name] + SettingsOf(u) + [Peers(u.peers)]
  }

  /** Each part fits into a message of its own. */
  predicate Fits(name: Attribute, u: Update, maxLength: nat) {
    (forall a :: a in SettingsOf(u) ==> Length(name) + Length(a) <= maxLength)
    && (forall p :: p in u.peers ==> Length(name) + HEADER + p.size <= maxLength)
  }

  predicate Sendable(m: Message, maxLength: nat) {
    Shaped(m) && MessageLength(m) <= maxLength
  }

  predicate NoEmptyPeers(m: Message) {
    forall i :: 0 <= i < |m| ==> m[i] != Peers([])
  }

  lemma {:induction false} LengthAtLeastFirst(m: Message)
    requires |m| > 0
    ensures MessageLength(m) >= Length(m[0])
  {
    if |m| > 1 {
      LengthAtLeastFirst(m[..|m| - 1]);
    }
  }

  class ApplyPayload {
    const name: Attribute
    const maxLength: nat
    var nlas: Message
    var currentLength: nat
    var queue: seq<Message>

    ghost predicate Valid()
      reads this
    {
      && name.IfName? && Shaped(nlas) && nlas[0] == name && NoEmptyPeers(nlas)
      && currentLength == MessageLength(nlas)
      && (nlas == [name] || currentLength <= maxLength)
      && (forall m :: m in queue ==> Sendable(m, maxLength))
    }

    /** Everything pushed so far, in order, whichever message it is in. */
    ghost function Pushed(): seq<Item>
      reads this
    {
      AllItems(queue) + Items(nlas)
    }

    constructor (nameSize: nat, maxLength: nat)
      ensures Valid() && Pushed() == [] && name == IfName(nameSize) && this.maxLength == maxLength && queue == [] && nlas == [name]
    {
      name := IfName(nameSize);
      this.maxLength := maxLength;
      nlas := [IfName(nameSize)];
      currentLength := nameSize;
      queue := [];
      new;
      LengthAppended([], name);
      assert [] + [name] == nlas;
      ItemsAppended([], name);
    }

    /** Queue the message under construction, unless it says nothing, and begin the next one. */
    method Flush()
      requires Valid()
      modifies this
      ensures Valid() && Pushed() == old(Pushed()) && nlas == [name] && currentLength == Length(name)
      ensures queue == if old(nlas) == [name] then old(queue) else old(queue) + [old(nlas)]
    {
      LengthAppended([], name);
      ItemsAppended([], name);
      assert [] + [name] == [name];
      Retain();
      if nlas != [] && nlas != [name] {
        currentLength := Length(name);
        AllItemsAppended(queue, nlas);
        queue := queue + [nlas];
        nlas := [name];
      }
    }

    /** Drop empty peer lists. */
    method Retain()
      requires Valid()
      modifies this`nlas
      ensures nlas == old(nlas)
    {
      var kept: Message := [];
      for i := 0 to |nlas|
        invariant kept == nlas[..i]
      {
        if nlas[i] != Peers([]) { kept := kept + [nlas[i]]; }
      }
      nlas := kept;
    }

    method Push(nla: Attribute) returns (result: Result<Unit, Unit>)
      requires Valid() && !nla.IfName? && !nla.Peers? && NoPeers(nlas)
      modifies this
      ensures result.Ok? <==> Length(name) + Length(nla) <= maxLength
      ensures result.Ok? ==> Valid() && NoPeers(nlas) && Pushed() == old(Pushed()) + ItemsOf(nla)
    {
      hide Items, MessageLength, PeersLength, AllItems;
      LengthAtLeastFirst(nlas);
      if currentLength + Length(nla) > maxLength { Flush(); }
      if currentLength + Length(nla) > maxLength { return Err(Unit); }
      LengthAppended(nlas, nla);
      ItemsAppended(nlas, nla);
      nlas := nlas + [nla];
      currentLength := currentLength + Length(nla);
      return Ok(Unit);
    }

    /** Add a peer to the list of the message under construction, or to a new one. */
    method PushPeer(peer: PeerUpdate) returns (result: Result<Unit, Unit>)
      requires Valid()
      modifies this
      ensures result.Ok? <==> Length(name) + HEADER + peer.size <= maxLength
      ensures result.Ok? ==> Valid() && Pushed() == old(Pushed()) + [OnePeer(peer)]
    {
      hide Items, MessageLength, PeersLength, AllItems, WithPeer;
      LengthAtLeastFirst(nlas);
      var needsList := !nlas[|nlas| - 1].Peers?;
      if !needsList { ListLength(nlas); }
      var additional := if needsList then peer.size + HEADER else peer.size;
      if currentLength + additional > maxLength {
        Flush();
        needsList := true;
      }
      if needsList {
        if currentLength + HEADER > maxLength { return Err(Unit); }
        ListBegun(nlas);
        nlas := nlas + [Peers([])];
        currentLength := currentLength + HEADER;
      }
      if currentLength + peer.size > maxLength { return Err(Unit); }
      PeerAppended(nlas, peer);
      nlas := WithPeer(nlas, peer);
      currentLength := currentLength + peer.size;
      return Ok(Unit);
    }

    method Finish() returns (messages: seq<Message>)
      requires Valid()
      modifies this
      ensures AllItems(messages) == old(Pushed())
      ensures forall m :: m in messages ==> Sendable(m, maxLength)
    {
      Flush();
      ItemsAppended([], name);
      assert [] + [name] == [name];
      messages := queue;
    }
  }

  function WithPeer(m: Message, peer: PeerUpdate): Message
    requires |m| > 0 && m[|m| - 1].Peers?
  {
    m[..|m| - 1] + [Peers(m[|m| - 1].peers + [peer])]
  }

  /** Beginning a peer list adds its header and no item. */
  lemma ListBegun(m: Message)
    requires Shaped(m) && !m[|m| - 1].Peers?
    ensures Shaped(m + [Peers([])]) && (m + [Peers([])])[0] == m[0]
    ensures MessageLength(m + [Peers([])]) == MessageLength(m) + HEADER
    ensures Items(m + [Peers([])]) == Items(m)
  {
    LengthAppended(m, Peers([]));
    ItemsAppended(m, Peers([]));
    assert PeerItems([]) == [];
    hide Items, MessageLength;
  }

  lemma PeerAppended(m: Message, peer: PeerUpdate)
    requires Shaped(m) && m[|m| - 1].Peers?
    ensures Shaped(WithPeer(m, peer)) && WithPeer(m, peer)[0] == m[0]
    ensures NoEmptyPeers(m[..|m| - 1]) ==> NoEmptyPeers(WithPeer(m, peer))
    ensures MessageLength(WithPeer(m, peer)) == MessageLength(m) + peer.size
    ensures Items(WithPeer(m, peer)) == Items(m) + [OnePeer(peer)]
  {
    var init, list := m[..|m| - 1], m[|m| - 1].peers;
    hide *;
    PartsWithPeer(m, peer);
    LongerShape(init, list, peer);
    LongerList(init, list, peer);
    MoreItems(init, list, peer);
  }

  lemma PartsWithPeer(m: Message, peer: PeerUpdate)
    requires |m| > 0 && m[|m| - 1].Peers?
    ensures m == m[..|m| - 1] + [Peers(m[|m| - 1].peers)]
    ensures WithPeer(m, peer) == m[..|m| - 1] + [Peers(m[|m| - 1].peers + [peer])]
  {
  }

  lemma LongerShape(init: Message, list: seq<PeerUpdate>, peer: PeerUpdate)
    requires Shaped(init + [Peers(list)])
    ensures var m := init + [Peers(list + [peer])];
            Shaped(m) && m[0] == init[0] && (NoEmptyPeers(init) ==> NoEmptyPeers(m))
  {
    var before, m := init + [Peers(list)], init + [Peers(list + [peer])];
    assert |init| > 0 by { assert before[0].IfName?; }
    forall i | 0 <= i < |init|
      ensures m[i] == init[i] == before[i]
    {
    }
    assert |list + [peer]| > 0;
  }

  lemma LongerList(init: Message, list: seq<PeerUpdate>, peer: PeerUpdate)
    ensures MessageLength(init + [Peers(list + [peer])]) == MessageLength(init + [Peers(list)]) + peer.size
  {
    LengthAppended(init, Peers(list));
    LengthAppended(init, Peers(list + [peer]));
    PeersLengthAppended(list, peer);
    hide MessageLength, PeersLength;
  }

  lemma MoreItems(init: Message, list: seq<PeerUpdate>, peer: PeerUpdate)
    ensures Items(init + [Peers(list + [peer])]) == Items(init + [Peers(list)]) + [OnePeer(peer)]
  {
    ItemsAppended(init, Peers(list));
    ItemsAppended(init, Peers(list + [peer]));
    PeerItemAppended(list, peer);
    hide Items, PeerItems;
    assert (Items(init) + PeerItems(list)) + [OnePeer(peer)] == Items(init) + (PeerItems(list) + [OnePeer(peer)]);
  }

  lemma PeerItemAppended(list: seq<PeerUpdate>, peer: PeerUpdate)
    ensures PeerItems(list + [peer]) == PeerItems(list) + [OnePeer(peer)]
  {
  }

  /** A message that has a peer list is at least its name and the list's header long. */
  lemma ListLength(m: Message)
    requires Shaped(m) && m[|m| - 1].Peers?
    ensures MessageLength(m) >= Length(m[0]) + HEADER
  {
    LengthAtLeastFirst(m[..|m| - 1]);
  }

  lemma {:induction false} ItemsJoin(a: Message, b: Message)
    ensures Items(a + b) == Items(a) + Items(b)
  {
    hide Items;
    if |b| == 0 {
      assert a + b == a && b == [];
      NoItems();
    } else {
      var init, last := b[..|b| - 1], b[|b| - 1];
      ItemsJoin(a, init);
      ItemsAppended(init, last);
      ItemsAppended(a + init, last);
      assert b == init + [last] && a + b == (a + init) + [last];
      assert (Items(a) + Items(init)) + ItemsOf(last) == Items(a) + (Items(init) + ItemsOf(last));
    }
  }

  lemma NoItems()
    ensures Items([]) == []
  {
  }

  lemma WholeItems(name: Attribute, u: Update)
    requires name.IfName?
    ensures Items(Whole(name, u)) == Items(SettingsOf(u)) + PeerItems(u.peers)
  {
    hide Items, SettingsOf, PeerItems;
    var settings := SettingsOf(u);
    ItemsAppended([], name);
    NoItems();
    assert [] + [name] == [name];
    ItemsJoin([name], settings);
    ItemsAppended([name] + settings, Peers(u.peers));
    assert Items([name]) == [];
  }

  lemma SettingsAreSettings(u: Update)
    ensures forall i :: 0 <= i < |SettingsOf(u)| ==> !SettingsOf(u)[i].IfName? && !SettingsOf(u)[i].Peers?
  {
  }

  lemma WholeIsShaped(name: Attribute, u: Update)
    requires name.IfName?
    ensures Shaped(Whole(name, u))
  {
    SettingsAreSettings(u);
    hide SettingsOf;
  }

  lemma NoPeerItems()
    ensures PeerItems([]) == []
  {
  }

  // ---------------------------------------------------------------- What an update means

  /** What the update asks of a device: each setting that it names, and then its peers, after dropping all others if so told. */
  function Configured(d: Device, u: Update): Device {
    ApplyPeers(Device(Keep(u.privateKey, d.privateKey), Keep(u.fwmark, d.fwmark), Keep(u.listenPort, d.listenPort),
                      if u.replacePeers then map[] else d.peers), u.peers)
  }

  lemma {:induction false} SettingsCompose(d: Device, a: Message, b: Message)
    ensures ApplySettings(d, a + b) == ApplySettings(ApplySettings(d, a), b)
  {
    if |b| == 0 {
      assert a + b == a;
    } else {
      assert (a + b)[..|a + b| - 1] == a + b[..|b| - 1];
      SettingsCompose(d, a, b[..|b| - 1]);
    }
  }

  lemma OneSetting(d: Device, a: Attribute)
    ensures ApplySettings(d, [a]) == ApplySetting(d, a) && ApplySettings(d, []) == d
  {
    assert [a][..0] == [];
  }

  function KeyPart(u: Update): Message {
    if u.privateKey.Some? then [PrivateKey(u.privateKey.value)] else []
  }

  function MarkPart(u: Update): Message {
    if u.fwmark.Some? then [Fwmark(u.fwmark.value)] else []
  }

  function PortPart(u: Update): Message {
    if u.listenPort.Some? then [ListenPort(u.listenPort.value)] else []
  }

  function ReplacePart(u: Update): Message {
    if u.replacePeers then [ReplacePeers] else []
  }

  lemma PartsConfigure(d: Device, u: Update)
    ensures ApplySettings(d, KeyPart(u)) == d.(privateKey := Keep(u.privateKey, d.privateKey))
    ensures ApplySettings(d, MarkPart(u)) == d.(fwmark := Keep(u.fwmark, d.fwmark))
    ensures ApplySettings(d, PortPart(u)) == d.(listenPort := Keep(u.listenPort, d.listenPort))
    ensures ApplySettings(d, ReplacePart(u)) == d
  {
    OneSetting(d, ReplacePeers);
    if u.privateKey.Some? { OneSetting(d, PrivateKey(u.privateKey.value)); }
    if u.fwmark.Some? { OneSetting(d, Fwmark(u.fwmark.value)); }
    if u.listenPort.Some? { OneSetting(d, ListenPort(u.listenPort.value)); }
    hide ApplySettings;
  }

  lemma SettingsAreParts(u: Update)
    ensures SettingsOf(u) == KeyPart(u) + MarkPart(u) + PortPart(u) + ReplacePart(u)
    ensures ReplacePeers in SettingsOf(u) <==> u.replacePeers
  {
  }

  lemma SettingsConfigure(d: Device, u: Update)
    ensures ApplySettings(d, SettingsOf(u))
            == d.(privateKey := Keep(u.privateKey, d.privateKey), fwmark := Keep(u.fwmark, d.fwmark), listenPort := Keep(u.listenPort, d.listenPort))
  {
    SettingsAreParts(u);
    hide ApplySettings, SettingsOf, KeyPart, MarkPart, PortPart, ReplacePart, Keep;
    SettingsCompose(d, KeyPart(u) + MarkPart(u) + PortPart(u), ReplacePart(u));
    SettingsCompose(d, KeyPart(u) + MarkPart(u), PortPart(u));
    SettingsCompose(d, KeyPart(u), MarkPart(u));
    PartsConfigure(d, u);
    var keyed := ApplySettings(d, KeyPart(u));
    PartsConfigure(keyed, u);
    var marked := ApplySettings(keyed, MarkPart(u));
    PartsConfigure(marked, u);
    PartsConfigure(ApplySettings(marked, PortPart(u)), u);
  }

  lemma WholeSettings(d: Device, name: Attribute, u: Update)
    requires name.IfName?
    ensures ApplySettings(d, Whole(name, u)) == ApplySettings(d, SettingsOf(u))
    ensures ReplacePeers in Whole(name, u) <==> ReplacePeers in SettingsOf(u)
  {
    var settings := SettingsOf(u);
    SettingsCompose(d, [name] + settings, [Peers(u.peers)]);
    SettingsCompose(d, [name], settings);
    OneSetting(d, name);
    OneSetting(ApplySettings(d, settings), Peers(u.peers));
    hide ApplySettings, SettingsOf;
  }

  lemma WholePeers(name: Attribute, u: Update)
    requires name.IfName?
    ensures PeersIn(Whole(name, u)) == u.peers
  {
    var whole, init := Whole(name, u), [name] + SettingsOf(u);
    assert whole[..|whole| - 1] == init && whole[|whole| - 1] == Peers(u.peers);
    SettingsAreSettings(u);
    hide SettingsOf;
    assert NoPeers(init);
    NoPeersInSettings(init);
  }

  /** The whole update, sent as one message, configures the device as asked. */
  lemma WholeConfigures(d: Device, name: Attribute, u: Update)
    requires name.IfName?
    ensures ApplyMessage(d, Whole(name, u)) == Configured(d, u)
  {
    WholeSettings(d, name, u);
    WholePeers(name, u);
    SettingsConfigure(d, u);
    SettingsAreParts(u);
    hide ApplySettings, SettingsOf, ApplyPeers, PeersIn, Whole, Keep;
  }

  lemma {:induction false} NoPeersInSettings(m: Message)
    requires NoPeers(m)
    ensures PeersIn(m) == []
  {
    if |m| > 0 {
      NoPeersInSettings(m[..|m| - 1]);
    }
  }

  /**
    Splitting preserves meaning. The packer succeeds exactly when each part fits into a
    message of its own; then no message is too long, and sending them in order does to
    any device what the whole update would have done in one message, and configures it
    as the update asks.
  */
  method Apply(nameSize: nat, u: Update, maxLength: nat) returns (result: Result<seq<Message>, Unit>)
    ensures result.Ok? <==> Fits(IfName(nameSize), u, maxLength)
    ensures result.Ok? ==> forall m :: m in result.value ==> Sendable(m, maxLength)
    ensures result.Ok? ==> AllItems(result.value) == Items(SettingsOf(u)) + PeerItems(u.peers)
    ensures result.Ok? ==> forall d :: ApplyMessages(d, result.value) == ApplyMessage(d, Whole(IfName(nameSize), u))
    ensures result.Ok? ==> forall d :: ApplyMessages(d, result.value) == Configured(d, u)
  {
    hide Items, AllItems, PeerItems, ApplyMessage, ApplyMessages, SettingsOf, ApplyItems, Configured;
    var payload := new ApplyPayload(nameSize, maxLength);
    var name := IfName(nameSize);
    SettingsAreSettings(u);
    NoItems();
    var settings := SettingsOf(u);
    for i := 0 to |settings|
      invariant fresh(payload) && payload.Valid() && payload.name == name && payload.maxLength == maxLength && NoPeers(payload.nlas)
      invariant payload.Pushed() == Items(settings[..i])
      invariant forall j :: 0 <= j < i ==> Length(name) + Length(settings[j]) <= maxLength
    {
      assert settings[..i + 1] == settings[..i] + [settings[i]];
      ItemsAppended(settings[..i], settings[i]);
      var pushed := payload.Push(settings[i]);
      if pushed.Err? { return Err(Unit); }
    }
    assert settings[..|settings|] == settings;
    NoPeerItems();
    for i := 0 to |u.peers|
      invariant fresh(payload) && payload.Valid() && payload.name == name && payload.maxLength == maxLength
      invariant payload.Pushed() == Items(settings) + PeerItems(u.peers[..i])
      invariant forall j :: 0 <= j < i ==> Length(name) + HEADER + u.peers[j].size <= maxLength
    {
      assert u.peers[..i + 1] == u.peers[..i] + [u.peers[i]];
      PeerItemAppended(u.peers[..i], u.peers[i]);
      var pushed := payload.PushPeer(u.peers[i]);
      if pushed.Err? { return Err(Unit); }
    }
    assert u.peers[..|u.peers|] == u.peers;
    var messages := payload.Finish();
    WholeItems(name, u);
    forall d
      ensures ApplyMessages(d, messages) == ApplyMessage(d, Whole(name, u)) == Configured(d, u)
    {
      WholeConfigures(d, name, u);
      MessagesAreItems(d, messages);
      WholeIsShaped(name, u);
      MessageIsItems(d, Whole(name, u));
    }
    return Ok(messages);
  }
}
