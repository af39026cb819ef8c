/** BGP OPEN messages, their capabilities, and the policy that builds them and echoes a peer's capabilities. */
module BgpOpen {
  import opened Sequences

  const AS_TRANS: nat := 23456
  const U16_MAX: nat := 65535

  datatype AddPathFamily = AddPathFamily(family: nat, send: bool, receive: bool)

  datatype LabelCount = LabelCount(family: nat, count: nat)

  datatype Capability =
    | FourOctetAs(asn4: nat)
    | AddPath(families: seq<AddPathFamily>)
    | MultipleLabels(labels: seq<LabelCount>)
    | OtherCapability(code: nat, value: seq<nat>)

  /** Optional parameters are lists of capabilities. */
  datatype OpenMessage = OpenMessage(myAs: nat, holdTime: nat, bgpId: nat, params: seq<seq<Capability>>)

  /** All capabilities of all parameters. */
  function Capabilities(open: OpenMessage): seq<Capability> {
    Flatten(open.params)
  }

  function AsnOf(cap: Capability): Option<nat> {
    if cap.FourOctetAs? then Some(cap.asn4) else None
  }

  /** The last four-octet AS number of a capability list, if any. */
  function LastAsn4(caps: seq<Capability>): Option<nat> {
    var asns := Pick(caps, AsnOf);
    if asns == [] then None else Some(asns[|asns| - 1])
  }

  /** The AS number an OPEN announces: the last four-octet AS capability, or the two-octet field. */
  function MyAsn4(open: OpenMessage): nat {
    var asn := LastAsn4(Capabilities(open));
    if asn.Some? then asn.value else open.myAs
  }

  /** Configuration and memory of the capability-echoing policy. */
  datatype Echo = Echo(
    myAsn: nat,
    sendAsn4: bool,
    myBgpId: nat,
    holdTime: nat,
    capabilities: seq<Capability>,
    rejected: seq<Capability>,
    peerCapabilities: seq<Capability>,
    remoteAs: Option<nat>)

  function OwnCapabilities(p: Echo): seq<Capability> {
    var own := FourOctetAs(p.myAsn);
    if (p.sendAsn4 || HeaderAs(p) == AS_TRANS) && own !in p.capabilities then [own] + p.capabilities else p.capabilities
  }

  function HeaderAs(p: Echo): nat {
    if p.myAsn > U16_MAX then AS_TRANS else p.myAsn
  }

  /** Capabilities of the peer that are neither configured nor rejected. */
  function Echoed(p: Echo, caps: seq<Capability>): seq<Capability> {
    Pick(caps, (c: Capability) => if c !in p.capabilities && c !in p.rejected then Some(c) else None)
  }

  function OpenOf(p: Echo): OpenMessage {
    var caps := OwnCapabilities(p) + Echoed(p, p.peerCapabilities);
    OpenMessage(HeaderAs(p), p.holdTime, p.myBgpId, if caps == [] then [] else [caps])
  }

  function Echoable(cap: Capability): Option<Capability> {
    if cap.FourOctetAs? then None else Some(cap)
  }

  /** What the policy remembers of a received OPEN: its AS number and its capabilities except four-octet AS. */
  function Learned(p: Echo, open: OpenMessage): Echo {
    p.(remoteAs := Some(MyAsn4(open)),
       peerCapabilities := Pick(Capabilities(open), Echoable))
  }

  ghost function LearnedAll(p: Echo, opens: seq<OpenMessage>): Echo {
    if opens == [] then p else Learned(LearnedAll(p, opens[..|opens| - 1]), opens[|opens| - 1])
  }

  /** The policy object. */
  class EchoPolicy {
    var state: Echo

    constructor (
      myAsn: nat, sendAsn4: bool, myBgpId: nat, holdTime: nat, capabilities: seq<Capability>,
      rejected: seq<Capability>)
      ensures state == Echo(myAsn, sendAsn4, myBgpId, holdTime, capabilities, rejected, [], None)
    {
      state := Echo(myAsn, sendAsn4, myBgpId, holdTime, capabilities, rejected, [], None);
    }

    method BuildOpen() returns (open: OpenMessage)
      ensures open == OpenOf(state)
    {
      var myAs := if state.myAsn > U16_MAX then AS_TRANS else state.myAsn;
      var asn4Cap := FourOctetAs(state.myAsn);
      var capabilities := state.capabilities;
      if (state.sendAsn4 || myAs == AS_TRANS) && asn4Cap !in capabilities {
        capabilities := [asn4Cap] + capabilities;
      }
      ghost var own := capabilities;
      var peer := state.peerCapabilities;
      for i := 0 to |peer|
        invariant capabilities + Echoed(state, peer[i..]) == own + Echoed(state, peer)
      {
        assert peer[i..] == [peer[i]] + peer[i + 1..];
        if peer[i] !in state.capabilities && peer[i] !in state.rejected {
          capabilities := capabilities + [peer[i]];
        }
      }
      assert peer[|peer|..] == [] && capabilities + [] == capabilities;
      assert own == OwnCapabilities(state);
      open := OpenMessage(myAs, state.holdTime, state.myBgpId, if |capabilities| == 0 then [] else [capabilities]);
    }

    /** The hook that runs before a received OPEN is handled. */
    method Learn(open: OpenMessage)
      modifies this
      ensures state == Learned(old(state), open)
    {
      hide MyAsn4, Capabilities;
      state := state.(remoteAs := Some(MyAsn4(open)));
      var kept := [];
      var caps := Capabilities(open);
      for i := 0 to |caps|
        invariant kept + Pick(caps[i..], Echoable) ==
                  Pick(caps, Echoable)
      {
        ghost var rest := Pick(caps[i + 1..], Echoable);
        assert caps[i..][1..] == caps[i + 1..];
        if !caps[i].FourOctetAs? {
          assert kept + ([caps[i]] + rest) == (kept + [caps[i]]) + rest;
          kept := kept + [caps[i]];
        } else {
          assert [] + rest == rest;
        }
      }
      assert caps[|caps|..] == [];
      state := state.(peerCapabilities := kept);
    }
  }

  // ----- AS numbers round-trip

  lemma {:induction false} KeptHaveNoAsn4(caps: seq<Capability>)
    ensures Pick(Pick(caps, Echoable), AsnOf) == []
  {
    if caps != [] {
      KeptHaveNoAsn4(caps[1..]);
      var rest := Pick(caps[1..], Echoable);
      if caps[0].FourOctetAs? {
        assert Pick(caps, Echoable) == rest;
      } else {
        assert Pick(caps, Echoable) == [caps[0]] + rest;
        PickConcat([caps[0]], rest, AsnOf);
        PickOne(caps[0], AsnOf);
      }
    }
  }

  lemma {:induction false} EchoedHaveNoAsn4(p: Echo, caps: seq<Capability>)
    requires Pick(caps, AsnOf) == []
    ensures Pick(Echoed(p, caps), AsnOf) == []
  {
    if caps != [] {
      assert AsnOf(caps[0]).None? && Pick(caps[1..], AsnOf) == [];
      EchoedHaveNoAsn4(p, caps[1..]);
      var rest := Echoed(p, caps[1..]);
      if caps[0] !in p.capabilities && caps[0] !in p.rejected {
        assert Echoed(p, caps) == [caps[0]] + rest;
        PickConcat([caps[0]], rest, AsnOf);
        PickOne(caps[0], AsnOf);
      } else {
        assert Echoed(p, caps) == rest;
      }
    }
  }

  lemma {:induction false} LearnedKeeps(p: Echo, opens: seq<OpenMessage>)
    requires p.peerCapabilities == []
    ensures var q := LearnedAll(p, opens);
      && Pick(q.peerCapabilities, AsnOf) == []
      && q == p.(peerCapabilities := q.peerCapabilities, remoteAs := q.remoteAs)
  {
    if opens != [] {
      LearnedKeeps(p, opens[..|opens| - 1]);
      KeptHaveNoAsn4(Capabilities(opens[|opens| - 1]));
    }
  }

  /** Whatever OPENs were learned before, the OPEN the policy builds announces the local AS number exactly when
      the configured capabilities end with no other four-octet AS number. */
  lemma {:induction false} AsnRoundTripsIff(p: Echo, opens: seq<OpenMessage>)
    requires p.peerCapabilities == []
    ensures MyAsn4(OpenOf(LearnedAll(p, opens))) == p.myAsn <==>
            LastAsn4(p.capabilities) == None || LastAsn4(p.capabilities) == Some(p.myAsn)
  {
    var q := LearnedAll(p, opens);
    LearnedKeeps(p, opens);
    EchoedHaveNoAsn4(q, q.peerCapabilities);
    AnnouncedAsn(q);
  }

  lemma {:induction false} FlattenOne<T>(caps: seq<T>)
    ensures Flatten(if caps == [] then [] else [caps]) == caps
  {
  }

  lemma {:induction false} AnnouncedAsn(q: Echo)
    requires Pick(Echoed(q, q.peerCapabilities), AsnOf) == []
    ensures MyAsn4(OpenOf(q)) == q.myAsn <==>
            LastAsn4(q.capabilities) == None || LastAsn4(q.capabilities) == Some(q.myAsn)
  {
    var own, echoed := OwnCapabilities(q), Echoed(q, q.peerCapabilities);
    FlattenOne(own + echoed);
    PickConcat(own, echoed, AsnOf);
    PickConcat([FourOctetAs(q.myAsn)], q.capabilities, AsnOf);
    PickOne(FourOctetAs(q.myAsn), AsnOf);
    if LastAsn4(q.capabilities) == None {
      HasAsn4(q.capabilities, q.myAsn);
    }
  }

  lemma {:induction false} HasAsn4(caps: seq<Capability>, asn: nat)
    requires Pick(caps, AsnOf) == []
    ensures FourOctetAs(asn) !in caps
  {
    if caps != [] {
      HasAsn4(caps[1..], asn);
      assert caps == [caps[0]] + caps[1..];
    }
  }

  // ----- Capabilities are echoed

  lemma {:induction false} PickedMembers(caps: seq<Capability>, f: Capability -> Option<Capability>, cap: Capability)
    requires forall c :: f(c) == None || f(c) == Some(c)
    ensures cap in Pick(caps, f) <==> cap in caps && f(cap).Some?
  {
    if caps != [] {
      PickedMembers(caps[1..], f, cap);
      assert caps == [caps[0]] + caps[1..];
    }
  }

  /** After an OPEN has been learned, the next one we build carries our configured capabilities, our AS number where it
      is needed, and the peer's capabilities except its AS number and those we reject; and nothing else. */
  lemma {:induction false} CapabilitiesAreEchoedIff(p: Echo, open: OpenMessage, cap: Capability)
    ensures cap in Capabilities(OpenOf(Learned(p, open))) <==>
            || cap in p.capabilities
            || (cap == FourOctetAs(p.myAsn) && (p.sendAsn4 || p.myAsn > 65535 || p.myAsn == 23456))
            || (cap in Capabilities(open) && !cap.FourOctetAs? && cap !in p.rejected)
  {
    var q := Learned(p, open);
    var own, echoed := OwnCapabilities(q), Echoed(q, q.peerCapabilities);
    FlattenOne(own + echoed);
    PickedMembers(Capabilities(open), Echoable, cap);
    PickedMembers(q.peerCapabilities,
                  (c: Capability) => if c !in q.capabilities && c !in q.rejected then Some(c) else None, cap);
  }

  // ----- What an OPEN says

  /** The last four-octet AS number of an OPEN, in the order of its parameters. */
  ghost predicate IsLastAsn4(open: OpenMessage, i: nat, j: nat) {
    && IsAt(open.params, i, j) && open.params[i][j].FourOctetAs?
    && forall i': nat, j': nat ::
      IsAt(open.params, i', j') && Precedes(i, j, i', j') ==> !open.params[i'][j'].FourOctetAs?
  }

  /** An OPEN announces its last four-octet AS number, or the two-octet one if it has none. */
  lemma {:induction false} AnnouncedAsnIs(open: OpenMessage, asn: nat)
    ensures MyAsn4(open) == asn <==>
      || (exists i: nat, j: nat :: IsLastAsn4(open, i, j) && open.params[i][j].asn4 == asn)
      || (open.myAs == asn && forall i: nat, j: nat :: IsAt(open.params, i, j) ==> !open.params[i][j].FourOctetAs?)
  {
    if Pick(Capabilities(open), AsnOf) == [] {
      forall i: nat, j: nat | IsAt(open.params, i, j) ensures !open.params[i][j].FourOctetAs? {
        NothingPicked(open.params, AsnOf, i, j);
      }
    } else {
      var i, j := LastPicked(open.params, AsnOf);
      assert IsLastAsn4(open, i, j);
      forall i': nat, j': nat | IsLastAsn4(open, i', j') ensures i' == i && j' == j {
        assert IsLastAt(open.params, AsnOf, i', j');
        LastIsUnique(open.params, AsnOf, i, j, i', j');
      }
    }
  }

  /** Whatever has been learned, the OPEN that is built carries the configured hold time and identifier and the local AS
      number, or 23456 if that does not fit two octets. Its capabilities are in one parameter, if there are any: the AS
      number where it is needed, the configured ones as they are, then echoed ones. Of the peer, the AS number of its
      last OPEN is remembered. */
  lemma {:induction false} OpenIsOurs(p: Echo, opens: seq<OpenMessage>)
    requires p.peerCapabilities == []
    ensures var q := LearnedAll(p, opens);
      var open := OpenOf(q);
      var first := (p.sendAsn4 || p.myAsn > 65535 || p.myAsn == 23456) && FourOctetAs(p.myAsn) !in p.capabilities;
      && open.holdTime == p.holdTime && open.bgpId == p.myBgpId
      && open.myAs == (if p.myAsn > 65535 then 23456 else p.myAsn)
      && |open.params| <= 1 && (|open.params| == 1 ==> open.params[0] != [])
      && (if first then [FourOctetAs(p.myAsn)] else []) + p.capabilities <= Capabilities(open)
      && q.remoteAs == if opens == [] then p.remoteAs else Some(MyAsn4(opens[|opens| - 1]))
  {
    hide MyAsn4, Pick;
    LearnedKeeps(p, opens);
    var q := LearnedAll(p, opens);
    FlattenOne(OwnCapabilities(q) + Echoed(q, q.peerCapabilities));
  }
}
