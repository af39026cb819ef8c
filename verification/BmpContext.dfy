/** What the BMP decoder remembers about each monitored peer, over whole sessions and whole byte streams. */
module BmpContext {
  import opened Sequences
  import opened BgpOpen
  import opened BmpNegotiation
  import opened BmpFraming

  // ----- Peers

  datatype PeerKind = GlobalInstance | RdInstance | LocalInstance | LocRib | Experimental(code: nat)

  datatype Header = Header(address: Option<nat>, kind: PeerKind, flags: nat, rd: Option<nat>, asn: nat, bgpId: nat)

  /** Peers are told apart by everything in their header but the flags of their type. */
  datatype Key = Key(address: Option<nat>, kind: PeerKind, rd: Option<nat>, asn: nat, bgpId: nat)

  function KeyOf(h: Header): Key {
    Key(h.address, h.kind, h.rd, h.asn, h.bgpId)
  }

  /** The same peer under the identifier it announces in its own OPEN. */
  function AliasOf(h: Header, received: OpenMessage): Key {
    KeyOf(h).(bgpId := received.bgpId)
  }

  // ----- Messages

  /** The messages that touch the context. The messages a Peer Up carries need not be OPENs. */
  datatype BmpMessage =
    | PeerUp(header: Header, sent: Option<OpenMessage>, received: Option<OpenMessage>)
    | PeerDown(header: Header)
    | Termination
    | Unrelated

  type Context = map<Key, Entry>

  function Lookup(ctx: Context, k: Key): Entry {
    if k in ctx then ctx[k] else DEFAULT_ENTRY
  }

  function Extended(e: Entry, more: Entry): Entry {
    Entry(Families(e.addPath.send + more.addPath.send, e.addPath.receive + more.addPath.receive),
      e.labels + more.labels)
  }

  predicate Opens(m: BmpMessage) {
    m.PeerUp? && m.sent.Some? && m.received.Some?
  }

  function Brought(m: BmpMessage): Entry
    requires Opens(m)
  {
    Negotiated(m.sent.value, m.received.value, m.header.kind.LocRib?)
  }

  /** A Peer Up replaces what is known of a peer under both its names; for a Loc-RIB it adds to what is known. */
  function Updated(ctx: Context, m: BmpMessage): Context {
    match m
    case PeerDown(h) => ctx - {KeyOf(h)}
    case Termination => map[]
    case Unrelated => ctx
    case PeerUp(h, _, _) =>
      if !Opens(m) then ctx
      else if h.kind.LocRib? then ctx[KeyOf(h) := Extended(Lookup(ctx, KeyOf(h)), Brought(m))]
      else ctx[KeyOf(h) := Brought(m)][AliasOf(h, m.received.value) := Brought(m)]
  }

  /** The parsing context, updated in place. */
  class ParsingContext {
    var peers: Context

    constructor ()
      ensures peers == map[]
    {
      peers := map[];
    }

    /** The entry of a peer, created if it is not there. */
    method EntryOf(k: Key) returns (e: Entry)
      modifies this
      ensures peers == old(peers)[k := e] && e == Lookup(old(peers), k)
    {
      if k !in peers {
        peers := peers[k := DEFAULT_ENTRY];
      }
      e := peers[k];
    }

    method Assign(k: Key, add: Entry, clear: bool)
      modifies this
      ensures peers == old(peers)[k := if clear then add else Extended(Lookup(old(peers), k), add)]
    {
      var e := EntryOf(k);
      if clear {
        e := DEFAULT_ENTRY;
      }
      e := Entry(Families(e.addPath.send + add.addPath.send, e.addPath.receive + add.addPath.receive),
        e.labels + add.labels);
      peers := peers[k := e];
      assert clear ==> e.addPath.send == add.addPath.send && e.addPath.receive == add.addPath.receive;
      assert clear ==> e.labels == add.labels;
    }

    method HandlePeerUp(m: BmpMessage)
      requires m.PeerUp?
      modifies this
      ensures peers == Updated(old(peers), m)
    {
      hide NegotiatedLabels, Support, AddPaths, Labels;
      if m.sent.None? || m.received.None? {
        return;
      }
      var sent, received, locRib := m.sent.value, m.received.value, m.header.kind.LocRib?;
      var addPath := Present(AddPaths(sent));
      if !locRib {
        var ours := CollectSupport(AddPaths(sent));
        var theirs := CollectSupport(AddPaths(received));
        addPath := Matched(ours, theirs);
      }
      var labels := NegotiateMultipleLabels(Labels(sent), Labels(received));
      var negotiated := Entry(addPath, labels);
      Assign(KeyOf(m.header), negotiated, !locRib);
      if !locRib {
        Assign(AliasOf(m.header, received), negotiated, true);
      }
    }

    method Update(m: BmpMessage)
      modifies this
      ensures peers == Updated(old(peers), m)
    {
      match m {
        case PeerDown(h) => peers := peers - {KeyOf(h)};
        case Termination => peers := map[];
        case PeerUp(_, _, _) => HandlePeerUp(m);
        case Unrelated =>
      }
    }
  }

  // ----- Replay

  /** Parsing creates missing entries before a message takes effect; a session mixes both. */
  datatype Step = Touch(key: Key) | Receive(message: BmpMessage)

  function Stepped(ctx: Context, s: Step): Context {
    match s
    case Touch(k) => ctx[k := Lookup(ctx, k)]
    case Receive(m) => Updated(ctx, m)
  }

  function Played(steps: seq<Step>): Context {
    if steps == [] then map[] else Stepped(Played(steps[..|steps| - 1]), steps[|steps| - 1])
  }

  predicate Removes(s: Step, k: Key) {
    s.Receive? && (s.message.Termination? || (s.message.PeerDown? && KeyOf(s.message.header) == k))
  }

  /** A Peer Up names a peer by its header and, unless it is a Loc-RIB, by the identifier the peer announces. */
  predicate Ups(s: Step, k: Key) {
    && s.Receive? && Opens(s.message)
    && (KeyOf(s.message.header) == k || (!k.kind.LocRib? && AliasOf(s.message.header, s.message.received.value) == k))
  }

  /** The last step that satisfies `p`. */
  ghost function LastIndex(steps: seq<Step>, p: Step -> bool): (i: Option<nat>)
    ensures i.Some? ==> i.value < |steps| && p(steps[i.value]) && forall j :: i.value < j < |steps| ==> !p(steps[j])
    ensures i.None? ==> forall j :: 0 <= j < |steps| ==> !p(steps[j])
  {
    if steps == [] then None
    else if p(steps[|steps| - 1]) then Some(|steps| - 1)
    else LastIndex(steps[..|steps| - 1], p)
  }

  /** After any session a peer that is not a Loc-RIB is known by what the last Peer Up naming it negotiated, and by
      nothing if it has not been named since it was last removed. */
  lemma {:induction false} ContextIsReplay(steps: seq<Step>, k: Key)
    requires !k.kind.LocRib?
    ensures Lookup(Played(steps), k) ==
      match LastIndex(steps, s => Ups(s, k) || Removes(s, k))
      case Some(i) => if Ups(steps[i], k) then Brought(steps[i].message) else DEFAULT_ENTRY
      case None => DEFAULT_ENTRY
  {
    hide Negotiated;
    if steps != [] {
      ContextIsReplay(steps[..|steps| - 1], k);
    }
  }

  // ----- Loc-RIBs accumulate

  /** One thing an entry can know. */
  datatype Fact = Sends(family: nat) | Receives(family: nat) | Limited(family: nat, limits: Limits)

  predicate Knows(e: Entry, f: Fact) {
    match f
    case Sends(a) => a in e.addPath.send
    case Receives(a) => a in e.addPath.receive
    case Limited(a, l) => a in e.labels && e.labels[a] == l
  }

  /** A Peer Up of `k` that says something about `f`: that it holds, or other limits for its family. */
  predicate Speaks(s: Step, k: Key, f: Fact) {
    && Ups(s, k)
    && (Knows(Brought(s.message), f) || (f.Limited? && f.family in Brought(s.message).labels))
  }

  /** What is known of a Loc-RIB is everything that any Peer Up has said since it was last removed; later label limits
      replace earlier ones. */
  lemma {:induction false} LocRibIsReplay(steps: seq<Step>, k: Key, f: Fact)
    requires k.kind.LocRib?
    ensures Knows(Lookup(Played(steps), k), f) <==>
      match LastIndex(steps, s => Speaks(s, k, f) || Removes(s, k))
      case Some(i) => Speaks(steps[i], k, f) && Knows(Brought(steps[i].message), f)
      case None => false
  {
    hide Negotiated;
    if steps != [] {
      LocRibIsReplay(steps[..|steps| - 1], k, f);
    }
  }

  /** So its families only grow until it is removed. */
  lemma {:induction false} LocRibFamiliesGrow(ctx: Context, s: Step, k: Key)
    requires k.kind.LocRib? && !Removes(s, k)
    ensures var before, after := Lookup(ctx, k), Lookup(Stepped(ctx, s), k);
      && before.addPath.send <= after.addPath.send && before.addPath.receive <= after.addPath.receive
      && before.labels.Keys <= after.labels.Keys
  {
  }

  /** A Peer Up followed by the Peer Down of the same header leaves the peer behind under its announced identifier,
      exactly if that is a different one. */
  lemma {:induction false} PeerDownForgetsIff(ctx: Context, m: BmpMessage, down: Header)
    requires Opens(m) && !m.header.kind.LocRib? && KeyOf(down) == KeyOf(m.header)
    ensures var after := Updated(Updated(ctx, m), PeerDown(down));
      && KeyOf(m.header) !in after
      && (AliasOf(m.header, m.received.value) !in after <==> m.received.value.bgpId == m.header.bgpId)
  {
  }

  // ----- From OPENs to what is known

  /** Two headers name the same peer exactly if they agree in everything but the flags. */
  lemma {:induction false} SamePeerIff(h: Header, g: Header)
    ensures KeyOf(h) == KeyOf(g) <==>
      h.address == g.address && h.kind == g.kind && h.rd == g.rd && h.asn == g.asn && h.bgpId == g.bgpId
  {
  }

  /** The other name of a peer is that of the same header with the identifier of its OPEN. */
  lemma {:induction false} SameAliasIff(h: Header, open: OpenMessage, g: Header)
    ensures AliasOf(h, open) == KeyOf(g) <==>
      h.address == g.address && h.kind == g.kind && h.rd == g.rd && h.asn == g.asn && open.bgpId == g.bgpId
  {
  }

  /** What the two OPENs of a Peer Up say, read off their parameters. */
  ghost predicate Announced(m: BmpMessage, f: Fact)
    requires Opens(m)
  {
    var sent, received := m.sent.value, m.received.value;
    match f
    case Sends(a) =>
      if m.header.kind.LocRib? then Mentions(sent, a) else OffersToSend(sent, a) && OffersToReceive(received, a)
    case Receives(a) =>
      if m.header.kind.LocRib? then Mentions(sent, a) else OffersToReceive(sent, a) && OffersToSend(received, a)
    case Limited(a, limits) => Allows(sent, a, limits.inbound) && Allows(received, a, limits.outbound)
  }

  ghost predicate SetsLimits(m: BmpMessage, family: nat)
    requires Opens(m)
  {
    exists limits: Limits ::
      Allows(m.sent.value, family, limits.inbound) && Allows(m.received.value, family, limits.outbound)
  }

  lemma {:induction false} BroughtIff(m: BmpMessage, f: Fact)
    requires Opens(m)
    ensures Knows(Brought(m), f) <==> Announced(m, f)
  {
    hide Negotiated, Mentions, OffersToSend, OffersToReceive, Allows;
    var sent, received, locRib := m.sent.value, m.received.value, m.header.kind.LocRib?;
    match f {
      case Sends(a) => AddPathNegotiatedIff(sent, received, locRib, a);
      case Receives(a) => AddPathNegotiatedIff(sent, received, locRib, a);
      case Limited(a, limits) => LabelsNegotiatedIff(sent, received, locRib, a, limits);
    }
  }

  lemma {:induction false} LimitsAreSetIff(m: BmpMessage, family: nat)
    requires Opens(m)
    ensures family in Brought(m).labels <==> SetsLimits(m, family)
  {
    hide Negotiated, Allows;
    var labels := Brought(m).labels;
    if family in labels {
      LabelsNegotiatedIff(m.sent.value, m.received.value, m.header.kind.LocRib?, family, labels[family]);
    }
    if SetsLimits(m, family) {
      var limits: Limits :|
        Allows(m.sent.value, family, limits.inbound) && Allows(m.received.value, family, limits.outbound);
      LabelsNegotiatedIff(m.sent.value, m.received.value, m.header.kind.LocRib?, family, limits);
    }
  }

  /** A step that says `f` of peer `k`. */
  ghost predicate Tells(s: Step, k: Key, f: Fact) {
    Ups(s, k) && Announced(s.message, f)
  }

  /** A step after which `f` is not known of peer `k` unless the step says it: its removal, a Peer Up that replaces what
      is known, or one that sets other limits for a family of a Loc-RIB. */
  ghost predicate Overrides(s: Step, k: Key, f: Fact) {
    Removes(s, k) || (Ups(s, k) && (k.kind.LocRib? ==> f.Limited? && SetsLimits(s.message, f.family)))
  }

  lemma {:induction false} SteppedKnowsIff(ctx: Context, s: Step, k: Key, f: Fact)
    ensures Knows(Lookup(Stepped(ctx, s), k), f) <==>
      Tells(s, k, f) || (Knows(Lookup(ctx, k), f) && !Overrides(s, k, f))
  {
    hide Negotiated, Announced, SetsLimits;
    if s.Receive? && Opens(s.message) {
      BroughtIff(s.message, f);
      if f.Limited? {
        LimitsAreSetIff(s.message, f.family);
      }
    }
  }

  /** After any session, a peer is known to have `f` exactly if some step said so and no later one overrode it. */
  lemma {:induction false} KnownIffTold(steps: seq<Step>, k: Key, f: Fact)
    ensures Knows(Lookup(Played(steps), k), f) <==>
      exists i :: 0 <= i < |steps| && Tells(steps[i], k, f) &&
        forall j :: i < j < |steps| ==> !Overrides(steps[j], k, f)
  {
    hide Stepped, Tells, Overrides;
    if steps == [] {
      NothingIsKnown(k, f);
    } else {
      var n := |steps| - 1;
      KnownIffTold(steps[..n], k, f);
      SteppedKnowsIff(Played(steps[..n]), steps[n], k, f);
    }
  }

  lemma {:induction false} NothingIsKnown(k: Key, f: Fact)
    ensures !Knows(Lookup(map[], k), f)
  {
  }

  // ----- Whole byte streams

  ghost predicate SameLookups(c: Context, d: Context) {
    forall k: Key :: Lookup(c, k) == Lookup(d, k)
  }

  /** A grammar for BMP: parsing only creates missing entries, and messages take effect as above. */
  ghost predicate IsBmp(g: Grammar<Context, BmpMessage>) {
    && (forall version: nat, body: seq<Byte>, c: Context :: SameLookups(c, g.parse(version, body, c).0))
    && (forall c: Context, m: BmpMessage :: g.update(c, m) == Updated(c, m))
  }

  /** The messages among the items, as a session. */
  ghost function Session(items: seq<Item<BmpMessage>>): seq<Step> {
    if items == [] then []
    else (if items[0].Message? then [Receive(items[0].message)] else []) + Session(items[1..])
  }

  ghost function PlayedOn(c: Context, steps: seq<Step>): Context
    decreases |steps|
  {
    if steps == [] then c else PlayedOn(Stepped(c, steps[0]), steps[1..])
  }

  lemma {:induction false} UpdateKeepsLookups(c: Context, d: Context, m: BmpMessage)
    requires SameLookups(c, d)
    ensures SameLookups(Updated(c, m), Updated(d, m))
  {
    hide Negotiated;
    forall k: Key ensures Lookup(Updated(c, m), k) == Lookup(Updated(d, m), k) {
      assert Lookup(c, k) == Lookup(d, k);
      if m.PeerUp? {
        assert Lookup(c, KeyOf(m.header)) == Lookup(d, KeyOf(m.header));
      }
    }
  }

  lemma {:induction false} PlayedOnKeepsLookups(c: Context, d: Context, steps: seq<Step>)
    requires SameLookups(c, d)
    requires forall i :: 0 <= i < |steps| ==> steps[i].Receive?
    ensures SameLookups(PlayedOn(c, steps), PlayedOn(d, steps))
    decreases |steps|
  {
    hide Updated, SameLookups;
    if steps != [] {
      UpdateKeepsLookups(c, d, steps[0].message);
      PlayedOnKeepsLookups(Stepped(c, steps[0]), Stepped(d, steps[0]), steps[1..]);
    }
  }

  lemma {:induction false} PlayedOnSnoc(c: Context, steps: seq<Step>, s: Step)
    ensures PlayedOn(c, steps + [s]) == Stepped(PlayedOn(c, steps), s)
    decreases |steps|
  {
    hide Stepped;
    if steps == [] {
      assert steps + [s] == [s];
    } else {
      assert (steps + [s])[1..] == steps[1..] + [s];
      PlayedOnSnoc(Stepped(c, steps[0]), steps[1..], s);
    }
  }

  lemma {:induction false} PlayedIsPlayedOn(steps: seq<Step>)
    ensures Played(steps) == PlayedOn(map[], steps)
  {
    hide Stepped;
    if steps != [] {
      var n := |steps| - 1;
      PlayedIsPlayedOn(steps[..n]);
      PlayedOnSnoc(map[], steps[..n], steps[n]);
      assert steps == steps[..n] + [steps[n]];
    }
  }

  lemma {:induction false} SessionReceives(items: seq<Item<BmpMessage>>)
    ensures forall i :: 0 <= i < |Session(items)| ==> Session(items)[i].Receive?
  {
    if items != [] {
      SessionReceives(items[1..]);
    }
  }

  lemma {:induction false} LookupsCompose(c: Context, d: Context, e: Context)
    requires SameLookups(c, d) && SameLookups(d, e)
    ensures SameLookups(c, e)
  {
  }

  /** One item plays one step, or none. */
  lemma {:induction false} DecodedPlays(g: Grammar<Context, BmpMessage>, s: Stream<Context>)
    requires IsBmp(g) && Valid(s) && Decoded(g, s).1.Some?
    ensures var (t, item) := Decoded(g, s);
      SameLookups(t.ctx, if item.value.Message? then Updated(s.ctx, item.value.message) else s.ctx)
  {
    hide Updated, ReadU32, Lookup;
    LookupsAreReflexive(s.ctx);
    if IsVersion(s.buf[0]) && Length(s.buf) >= HEADER {
      var (c, parse) := g.parse(s.buf[0], s.buf[HEADER..Length(s.buf)], s.ctx);
      assert SameLookups(s.ctx, c);
      LookupsAreSymmetric(s.ctx, c);
      if parse.Parsed? {
        UpdateKeepsLookups(c, s.ctx, parse.message);
      }
    }
  }

  lemma {:induction false} LookupsAreReflexive(c: Context)
    ensures SameLookups(c, c)
  {
  }

  lemma {:induction false} LookupsAreSymmetric(c: Context, d: Context)
    requires SameLookups(c, d)
    ensures SameLookups(d, c)
  {
  }

  lemma {:induction false} DrainedPlays(g: Grammar<Context, BmpMessage>, s: Stream<Context>)
    requires IsBmp(g) && Valid(s)
    ensures var (t, items) := Drained(g, s); SameLookups(t.ctx, PlayedOn(s.ctx, Session(items)))
    decreases |s.buf|
  {
    hide Decoded, IsBmp, Updated, SameLookups, PlayedOn;
    var (t, item) := Decoded(g, s);
    if item.None? {
      LookupsAreReflexive(s.ctx);
      assert PlayedOn(s.ctx, []) == s.ctx by { PlayedOnNothing(s.ctx); }
    } else {
      DecodedPlays(g, s);
      DrainedPlays(g, t);
      var (u, items) := Drained(g, t);
      SessionReceives(items);
      var next := if item.value.Message? then Updated(s.ctx, item.value.message) else s.ctx;
      PlayedOnKeepsLookups(t.ctx, next, Session(items));
      LookupsCompose(u.ctx, PlayedOn(t.ctx, Session(items)), PlayedOn(next, Session(items)));
      SessionCons(s.ctx, item.value, items);
    }
  }

  lemma {:induction false} PlayedOnNothing(c: Context)
    ensures PlayedOn(c, []) == c
  {
  }

  lemma {:induction false} SessionCons(c: Context, item: Item<BmpMessage>, items: seq<Item<BmpMessage>>)
    ensures PlayedOn(c, Session([item] + items)) ==
      PlayedOn(if item.Message? then Updated(c, item.message) else c, Session(items))
  {
    hide Updated;
    assert ([item] + items)[1..] == items;
    if item.Message? {
      var steps := [Receive(item.message)] + Session(items);
      assert steps[1..] == Session(items);
    } else {
      assert [] + Session(items) == Session(items);
    }
  }

  /** However a byte stream is cut into chunks, each peer is known at its end by what the messages decoded from it say,
      whatever else was in the stream. */
  lemma {:induction false} StreamContextIsReplay(g: Grammar<Context, BmpMessage>, chunks: seq<seq<Byte>>, k: Key)
    requires IsBmp(g) && chunks != [] && !k.kind.LocRib?
    ensures var (t, items) := FedInChunks(g, Stream([], false, map[]), chunks);
      var steps := Session(items);
      Lookup(t.ctx, k) ==
        match LastIndex(steps, s => Ups(s, k) || Removes(s, k))
        case Some(i) => if Ups(steps[i], k) then Brought(steps[i].message) else DEFAULT_ENTRY
        case None => DEFAULT_ENTRY
  {
    hide Drained, FedInChunks, IsBmp, LastIndex, Ups, Removes, PlayedOn;
    var s := Stream([], false, map[]);
    ChunksDoNotMatter(g, s, chunks);
    DrainedPlays(g, Fed(s, Flatten(chunks)));
    var steps := Session(FedInChunks(g, s, chunks).1);
    PlayedIsPlayedOn(steps);
    ContextIsReplay(steps, k);
  }

  lemma {:induction false} KnowsSame(c: Context, d: Context, k: Key)
    requires SameLookups(c, d)
    ensures Lookup(c, k) == Lookup(d, k)
  {
  }

  /** The same holds of every Loc-RIB, for everything that can be known of it. */
  lemma {:induction false} StreamLocRibIsReplay(
    g: Grammar<Context, BmpMessage>, chunks: seq<seq<Byte>>, k: Key, f: Fact)
    requires IsBmp(g) && chunks != [] && k.kind.LocRib?
    ensures var (t, items) := FedInChunks(g, Stream([], false, map[]), chunks);
      var steps := Session(items);
      Knows(Lookup(t.ctx, k), f) <==>
        match LastIndex(steps, s => Speaks(s, k, f) || Removes(s, k))
        case Some(i) => Speaks(steps[i], k, f) && Knows(Brought(steps[i].message), f)
        case None => false
  {
    hide Drained, FedInChunks, IsBmp, LastIndex, Speaks, Removes, PlayedOn, SameLookups, Knows;
    var s := Stream([], false, map[]);
    ChunksDoNotMatter(g, s, chunks);
    DrainedPlays(g, Fed(s, Flatten(chunks)));
    var (t, items) := FedInChunks(g, s, chunks);
    PlayedIsPlayedOn(Session(items));
    KnowsSame(t.ctx, Played(Session(items)), k);
    LocRibIsReplay(Session(items), k, f);
  }

  /** However a byte stream is cut into chunks, what is known of a peer at its end is what the OPENs of the decoded Peer
      Ups say in their parameters and nothing later overrides. */
  lemma {:induction false} StreamKnowsIffTold(
    g: Grammar<Context, BmpMessage>, chunks: seq<seq<Byte>>, k: Key, f: Fact)
    requires IsBmp(g) && chunks != []
    ensures var (t, items) := FedInChunks(g, Stream([], false, map[]), chunks);
      var steps := Session(items);
      Knows(Lookup(t.ctx, k), f) <==>
        exists i :: 0 <= i < |steps| && Tells(steps[i], k, f) &&
          forall j :: i < j < |steps| ==> !Overrides(steps[j], k, f)
  {
    hide Drained, FedInChunks, IsBmp, Tells, Overrides, PlayedOn, SameLookups, Knows;
    var s := Stream([], false, map[]);
    ChunksDoNotMatter(g, s, chunks);
    DrainedPlays(g, Fed(s, Flatten(chunks)));
    var (t, items) := FedInChunks(g, s, chunks);
    PlayedIsPlayedOn(Session(items));
    KnowsSame(t.ctx, Played(Session(items)), k);
    KnownIffTold(Session(items), k, f);
  }
}
