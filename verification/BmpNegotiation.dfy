/** What two OPENs negotiate: the ADD-PATH families and the label limits of each direction. */
module BmpNegotiation {
  import opened Sequences
  import opened BgpOpen

  // ----- Negotiation

  datatype Families = Families(send: set<nat>, receive: set<nat>)

  datatype Limits = Limits(inbound: nat, outbound: nat)

  datatype Entry = Entry(addPath: Families, labels: map<nat, Limits>)

  const NO_FAMILIES := Families({}, {})
  const DEFAULT_ENTRY := Entry(NO_FAMILIES, map[])

  function AddPathsOf(c: Capability): Option<seq<AddPathFamily>> {
    if c.AddPath? then Some(c.families) else None
  }

  function LabelsOf(c: Capability): Option<seq<LabelCount>> {
    if c.MultipleLabels? then Some(c.labels) else None
  }

  /** Every ADD-PATH family of every ADD-PATH capability of an OPEN. */
  function AddPaths(open: OpenMessage): seq<AddPathFamily> {
    Flatten(Pick(Capabilities(open), AddPathsOf))
  }

  /** The first multiple-labels capability of an OPEN. */
  function Labels(open: OpenMessage): Option<seq<LabelCount>> {
    var all := Pick(Capabilities(open), LabelsOf);
    if all == [] then None else Some(all[0])
  }

  function Support(fs: seq<AddPathFamily>): Families {
    Families(set f | f in fs && f.send :: f.family, set f | f in fs && f.receive :: f.family)
  }

  /** Sending needs a peer that receives, receiving one that sends. */
  function Matched(local: Families, remote: Families): Families {
    Families(local.send * remote.receive, local.receive * remote.send)
  }

  /** For a Loc-RIB the presence of a family is enough, whatever its direction. */
  function Present(fs: seq<AddPathFamily>): Families {
    var all := set f | f in fs :: f.family;
    Families(all, all)
  }

  function NegotiatedAddPath(sent: OpenMessage, received: OpenMessage, locRib: bool): Families {
    if locRib then Present(AddPaths(sent)) else Matched(Support(AddPaths(sent)), Support(AddPaths(received)))
  }

  /** The limit of the first entry of a family. */
  function FirstCount(labels: seq<LabelCount>, family: nat): Option<nat> {
    if labels == [] then None
    else if labels[0].family == family then Some(labels[0].count)
    else FirstCount(labels[1..], family)
  }

  function FamiliesOf(labels: seq<LabelCount>): set<nat> {
    set l | l in labels :: l.family
  }

  function NegotiatedLabels(sent: Option<seq<LabelCount>>, received: Option<seq<LabelCount>>): map<nat, Limits> {
    if sent.None? || received.None? then map[]
    else
      map f | f in FamiliesOf(sent.value) && FirstCount(sent.value, f).Some? && FirstCount(received.value, f).Some? ::
        Limits(FirstCount(sent.value, f).value, FirstCount(received.value, f).value)
  }

  function Negotiated(sent: OpenMessage, received: OpenMessage, locRib: bool): Entry {
    Entry(NegotiatedAddPath(sent, received, locRib), NegotiatedLabels(Labels(sent), Labels(received)))
  }

  function Mirror(e: Entry): Entry {
    Entry(Families(e.addPath.receive, e.addPath.send),
          map f | f in e.labels :: Limits(e.labels[f].outbound, e.labels[f].inbound))
  }

  /** Collecting families one by one. */
  method CollectSupport(fs: seq<AddPathFamily>) returns (r: Families)
    ensures r == Support(fs)
  {
    r := NO_FAMILIES;
    for i := 0 to |fs|
      invariant r == Support(fs[..i])
    {
      var f := fs[i];
      assert fs[..i + 1] == fs[..i] + [f];
      if f.send {
        r := r.(send := r.send + {f.family});
      }
      if f.receive {
        r := r.(receive := r.receive + {f.family});
      }
    }
    assert fs[..|fs|] == fs;
  }

  method FindLabel(labels: seq<LabelCount>, family: nat) returns (r: Option<nat>)
    ensures r == FirstCount(labels, family)
  {
    for i := 0 to |labels|
      invariant FirstCount(labels, family) == FirstCount(labels[i..], family)
    {
      if labels[i].family == family {
        return Some(labels[i].count);
      }
    }
    r := None;
  }

  method NegotiateMultipleLabels(sent: Option<seq<LabelCount>>, received: Option<seq<LabelCount>>)
    returns (negotiated: map<nat, Limits>)
    ensures negotiated == NegotiatedLabels(sent, received)
  {
    negotiated := map[];
    if sent.None? || received.None? {
      return;
    }
    var labels := sent.value;
    for i := 0 to |labels|
      invariant negotiated == NegotiatedLabels(Some(labels[..i]), received)
    {
      var local := labels[i];
      var remote := FindLabel(received.value, local.family);
      FirstCountSnoc(labels[..i], local);
      assert labels[..i + 1] == labels[..i] + [local];
      if remote.Some? && local.family !in negotiated {
        negotiated := negotiated[local.family := Limits(local.count, remote.value)];
      }
    }
    assert labels[..|labels|] == labels;
  }

  lemma {:induction false} FirstCountSome(labels: seq<LabelCount>, family: nat)
    ensures FirstCount(labels, family).Some? <==> family in FamiliesOf(labels)
  {
    if labels != [] {
      FirstCountSome(labels[1..], family);
      assert labels == [labels[0]] + labels[1..];
    }
  }

  /** The first entry of a family stays first when another entry follows. */
  ghost function CountWith(labels: seq<LabelCount>, l: LabelCount, family: nat): Option<nat> {
    if FirstCount(labels, family).Some? then FirstCount(labels, family)
    else if l.family == family then Some(l.count)
    else None
  }

  lemma {:induction false} FirstCountAppends(labels: seq<LabelCount>, l: LabelCount, family: nat)
    ensures FirstCount(labels + [l], family) == CountWith(labels, l, family)
  {
    if labels == [] {
      assert labels + [l] == [l];
    } else {
      assert (labels + [l])[1..] == labels[1..] + [l];
      FirstCountAppends(labels[1..], l, family);
    }
  }

  lemma {:induction false} FirstCountSnoc(labels: seq<LabelCount>, l: LabelCount)
    ensures forall f: nat :: FirstCount(labels + [l], f) == CountWith(labels, l, f)
    ensures forall f: nat :: FirstCount(labels, f).Some? <==> f in FamiliesOf(labels)
    ensures FamiliesOf(labels + [l]) == FamiliesOf(labels) + {l.family}
  {
    forall f: nat ensures FirstCount(labels + [l], f) == CountWith(labels, l, f) {
      FirstCountAppends(labels, l, f);
    }
    forall f: nat ensures FirstCount(labels, f).Some? <==> f in FamiliesOf(labels) {
      FirstCountSome(labels, f);
    }
  }

  // ----- Laws of negotiation

  /** Entry `n` of capability `j` of parameter `i` is an ADD-PATH entry. */
  ghost predicate IsEntryAt(open: OpenMessage, i: nat, j: nat, n: nat) {
    IsAt(open.params, i, j) && open.params[i][j].AddPath? && n < |open.params[i][j].families|
  }

  ghost function EntryAt(open: OpenMessage, i: nat, j: nat, n: nat): AddPathFamily
    requires IsEntryAt(open, i, j, n)
  {
    open.params[i][j].families[n]
  }

  /** Some ADD-PATH capability of an OPEN offers to send a family. */
  ghost predicate OffersToSend(open: OpenMessage, family: nat) {
    exists i: nat, j: nat, n: nat ::
      IsEntryAt(open, i, j, n) && EntryAt(open, i, j, n).family == family && EntryAt(open, i, j, n).send
  }

  ghost predicate OffersToReceive(open: OpenMessage, family: nat) {
    exists i: nat, j: nat, n: nat ::
      IsEntryAt(open, i, j, n) && EntryAt(open, i, j, n).family == family && EntryAt(open, i, j, n).receive
  }

  ghost predicate Mentions(open: OpenMessage, family: nat) {
    exists i: nat, j: nat, n: nat :: IsEntryAt(open, i, j, n) && EntryAt(open, i, j, n).family == family
  }

  lemma {:induction false} EntryIsRead(open: OpenMessage, i: nat, j: nat, n: nat)
    requires IsEntryAt(open, i, j, n)
    ensures EntryAt(open, i, j, n) in AddPaths(open)
  {
    hide Pick, Flatten;
    var cap, lists := open.params[i][j], Pick(Capabilities(open), AddPathsOf);
    FlattenedAt(open.params, i, j);
    PickedInto(Capabilities(open), AddPathsOf, cap);
    var a: nat :| a < |lists| && lists[a] == cap.families;
    FlattenedAt(lists, a, n);
  }

  lemma {:induction false} ReadEntryIsThere(open: OpenMessage, e: AddPathFamily) returns (i: nat, j: nat, n: nat)
    requires e in AddPaths(open)
    ensures IsEntryAt(open, i, j, n) && EntryAt(open, i, j, n) == e
  {
    hide Pick, Flatten;
    var lists := Pick(Capabilities(open), AddPathsOf);
    var a, b := PositionOf(lists, e);
    var cap := PickedFrom(Capabilities(open), AddPathsOf, lists[a]);
    i, j := PositionOf(open.params, cap);
    n := b;
  }

  lemma {:induction false} OffersAreRead(open: OpenMessage, family: nat)
    ensures family in Support(AddPaths(open)).send <==> OffersToSend(open, family)
    ensures family in Support(AddPaths(open)).receive <==> OffersToReceive(open, family)
    ensures family in Present(AddPaths(open)).send <==> Mentions(open, family)
    ensures family in Present(AddPaths(open)).receive <==> Mentions(open, family)
  {
    hide AddPaths;
    var fs := AddPaths(open);
    forall e | e in fs
      ensures exists i: nat, j: nat, n: nat :: IsEntryAt(open, i, j, n) && EntryAt(open, i, j, n) == e
    {
      var i, j, n := ReadEntryIsThere(open, e);
    }
    forall i: nat, j: nat, n: nat | IsEntryAt(open, i, j, n) ensures EntryAt(open, i, j, n) in fs {
      EntryIsRead(open, i, j, n);
    }
  }

  /** ADD-PATH is used to send a family exactly if some capability of our OPEN offers to send it and some capability of
      the peer's to receive it, and the other way round; on a Loc-RIB, exactly if our OPEN mentions it. */
  lemma {:induction false} AddPathNegotiatedIff(sent: OpenMessage, received: OpenMessage, locRib: bool, family: nat)
    ensures var r := Negotiated(sent, received, locRib).addPath;
      if locRib then (family in r.send <==> Mentions(sent, family)) && (family in r.receive <==> Mentions(sent, family))
      else
        && (family in r.send <==> OffersToSend(sent, family) && OffersToReceive(received, family))
        && (family in r.receive <==> OffersToReceive(sent, family) && OffersToSend(received, family))
  {
    hide AddPaths, Support, Present, OffersToSend, OffersToReceive, Mentions, NegotiatedLabels, Labels;
    OffersAreRead(sent, family);
    OffersAreRead(received, family);
  }

  /** The first multiple-labels capability of an OPEN, in the order of its parameters. */
  ghost predicate IsFirstLabels(open: OpenMessage, i: nat, j: nat) {
    && IsAt(open.params, i, j) && open.params[i][j].MultipleLabels?
    && forall i': nat, j': nat ::
      IsAt(open.params, i', j') && Precedes(i', j', i, j) ==> !open.params[i'][j'].MultipleLabels?
  }

  ghost predicate IsFirstEntry(labels: seq<LabelCount>, family: nat, n: nat) {
    && n < |labels| && labels[n].family == family
    && forall m :: 0 <= m < n ==> labels[m].family != family
  }

  /** The limit an OPEN sets for a family: the first entry of it in the first multiple-labels capability counts. */
  ghost predicate Allows(open: OpenMessage, family: nat, limit: nat) {
    exists i: nat, j: nat, n: nat ::
      && IsFirstLabels(open, i, j) && IsFirstEntry(open.params[i][j].labels, family, n)
      && open.params[i][j].labels[n].count == limit
  }

  lemma {:induction false} FirstLabelsAre(open: OpenMessage, i: nat, j: nat)
    requires IsFirstLabels(open, i, j)
    ensures Labels(open) == Some(open.params[i][j].labels)
  {
    hide Pick, Flatten;
    assert Pick(Capabilities(open), LabelsOf) != [] by {
      if Pick(Capabilities(open), LabelsOf) == [] {
        NothingPicked(open.params, LabelsOf, i, j);
      }
    }
    var i', j' := FirstPicked(open.params, LabelsOf);
    assert IsFirstAt(open.params, LabelsOf, i, j);
    FirstIsUnique(open.params, LabelsOf, i, j, i', j');
  }

  lemma {:induction false} LabelsAreFirst(open: OpenMessage) returns (i: nat, j: nat)
    requires Labels(open).Some?
    ensures IsFirstLabels(open, i, j) && Labels(open) == Some(open.params[i][j].labels)
  {
    hide Pick, Flatten;
    i, j := FirstPicked(open.params, LabelsOf);
  }

  lemma {:induction false} FirstCountIs(labels: seq<LabelCount>, family: nat, limit: nat)
    ensures FirstCount(labels, family) == Some(limit) <==>
      exists n: nat :: IsFirstEntry(labels, family, n) && labels[n].count == limit
  {
    if labels != [] {
      var rest := labels[1..];
      FirstCountIs(rest, family, limit);
      if labels[0].family == family {
        assert labels[0].count == limit ==> IsFirstEntry(labels, family, 0);
      } else {
        if n: nat :| IsFirstEntry(rest, family, n) && rest[n].count == limit {
          assert IsFirstEntry(labels, family, n + 1);
        }
        if n: nat :| IsFirstEntry(labels, family, n) && labels[n].count == limit {
          assert IsFirstEntry(rest, family, n - 1);
        }
      }
    }
  }

  lemma {:induction false} AllowedIff(open: OpenMessage, family: nat, limit: nat)
    ensures Allows(open, family, limit) <==>
      Labels(open).Some? && FirstCount(Labels(open).value, family) == Some(limit)
  {
    hide Labels, FirstCount;
    if Allows(open, family, limit) {
      var i: nat, j: nat, n: nat :|
        && IsFirstLabels(open, i, j) && IsFirstEntry(open.params[i][j].labels, family, n)
        && open.params[i][j].labels[n].count == limit;
      FirstLabelsAre(open, i, j);
      FirstCountIs(open.params[i][j].labels, family, limit);
    }
    if Labels(open).Some? && FirstCount(Labels(open).value, family) == Some(limit) {
      var i, j := LabelsAreFirst(open);
      FirstCountIs(open.params[i][j].labels, family, limit);
    }
  }

  /** A family has label limits exactly if both OPENs set one: what we receive is limited by ours, what we send by the
      peer's. */
  lemma {:induction false} LabelsNegotiatedIff(
    sent: OpenMessage, received: OpenMessage, locRib: bool, family: nat, limits: Limits)
    ensures var r := Negotiated(sent, received, locRib).labels;
      family in r && r[family] == limits <==>
        Allows(sent, family, limits.inbound) && Allows(received, family, limits.outbound)
  {
    hide NegotiatedAddPath, Labels, FirstCount, Allows;
    AllowedIff(sent, family, limits.inbound);
    AllowedIff(received, family, limits.outbound);
    if Labels(sent).Some? {
      FirstCountSome(Labels(sent).value, family);
    }
  }

  /** What one side negotiates is what the other does, with the directions exchanged. */
  lemma {:induction false} NegotiationIsMirrored(sent: OpenMessage, received: OpenMessage)
    ensures Negotiated(received, sent, false) == Mirror(Negotiated(sent, received, false))
  {
    hide AddPaths, Labels, Support, FirstCount;
    var a, b := Labels(sent), Labels(received);
    if a.Some? && b.Some? {
      forall f: nat ensures f in NegotiatedLabels(b, a) <==> f in NegotiatedLabels(a, b) {
        FirstCountSome(a.value, f);
        FirstCountSome(b.value, f);
      }
    }
  }
}
