/**
 The BMP stream decoder: it cuts a byte stream into messages of a version octet, a four-octet length and a body. How a
 body is parsed, and how a message changes the parsing context, are parameters; parsing may change the context even if
 it fails.
 */
module BmpFraming {
  import opened Sequences

  type Byte = b: nat | b < 256

  const HEADER: nat := 5
  const U32: nat := 0x1_0000_0000

  datatype Parse<M> = Parsed(message: M) | Unparsable(code: nat)

  datatype Grammar<!C, !M> = Grammar(parse: (nat, seq<Byte>, C) -> (C, Parse<M>), update: (C, M) -> C)

  datatype Item<M> = Message(message: M) | BadVersion(version: nat) | BadLength(length: nat) | BadBody(code: nat)

  predicate IsVersion(b: nat) {
    b == 3 || b == 4
  }

  /** Four octets in network order. */
  function ReadU32(s: seq<Byte>): (n: nat)
    requires |s| == 4
    ensures n < U32
  {
    var (a: nat, b: nat, c: nat, d: nat) := (s[0], s[1], s[2], s[3]);
    a * 0x100_0000 + b * 0x1_0000 + c * 0x100 + d
  }

  function WriteU32(n: nat): (s: seq<Byte>)
    requires n < U32
    ensures |s| == 4 && ReadU32(s) == n
  {
    var (a, r) := (n / 0x100_0000, n % 0x100_0000);
    var (b, q) := (r / 0x1_0000, r % 0x1_0000);
    [a, b, q / 0x100, q % 0x100]
  }

  /** What is buffered, whether a message has been begun, and the parsing context. */
  datatype Stream<C> = Stream(buf: seq<Byte>, inMessage: bool, ctx: C)

  function Length(buf: seq<Byte>): nat
    requires |buf| >= HEADER
  {
    ReadU32(buf[1..HEADER])
  }

  /** A message has only been begun if its header is there and its version is known. */
  predicate Valid<C>(s: Stream<C>) {
    s.inMessage ==> |s.buf| >= HEADER && IsVersion(s.buf[0])
  }

  function Max(a: nat, b: nat): nat {
    if a < b then b else a
  }

  /** A complete message at the front of the buffer. */
  function Extracted<C, M>(g: Grammar<C, M>, s: Stream<C>): (Stream<C>, Item<M>)
    requires |s.buf| >= HEADER && Length(s.buf) <= |s.buf|
  {
    var length := Length(s.buf);
    var rest := s.buf[Max(HEADER, length)..];
    if length < HEADER then (Stream(rest, false, s.ctx), BadLength(length))
    else
      match g.parse(s.buf[0], s.buf[HEADER..length], s.ctx)
      case (ctx, Parsed(m)) => (Stream(rest, false, g.update(ctx, m)), Message(m))
      case (ctx, Unparsable(code)) => (Stream(rest, false, ctx), BadBody(code))
  }

  /** One call of the decoder; None if more bytes are needed. */
  function Decoded<C, M>(g: Grammar<C, M>, s: Stream<C>): (r: (Stream<C>, Option<Item<M>>))
    requires Valid(s)
    ensures Valid(r.0)
    ensures r.1.Some? ==> |r.0.buf| < |s.buf|
    ensures r.1.None? ==> r.0.buf == s.buf && r.0.ctx == s.ctx
  {
    if !s.inMessage && |s.buf| < HEADER then (s, None)
    else if !IsVersion(s.buf[0]) then (s.(buf := s.buf[1..]), Some(BadVersion(s.buf[0])))
    else if |s.buf| < Length(s.buf) then (s.(inMessage := true), None)
    else
      var (t, item) := Extracted(g, s);
      (t, Some(item))
  }

  /** Decoding until more bytes are needed. */
  function Drained<C, M>(g: Grammar<C, M>, s: Stream<C>): (Stream<C>, seq<Item<M>>)
    requires Valid(s)
    decreases |s.buf|
  {
    var (t, item) := Decoded(g, s);
    if item.None? then (t, [])
    else
      var (u, items) := Drained(g, t);
      (u, [item.value] + items)
  }

  /** Bytes arrive at the end of the buffer. */
  function Fed<C>(s: Stream<C>, bytes: seq<Byte>): Stream<C> {
    s.(buf := s.buf + bytes)
  }

  /** Bytes arrive in chunks, and the decoder is drained after each. */
  function FedInChunks<C, M>(g: Grammar<C, M>, s: Stream<C>, chunks: seq<seq<Byte>>): (Stream<C>, seq<Item<M>>)
    requires Valid(s)
    decreases |chunks|
  {
    if chunks == [] then (s, [])
    else
      var (t, items) := Drained(g, Fed(s, chunks[0]));
      DrainedIsValid(g, Fed(s, chunks[0]));
      var (u, more) := FedInChunks(g, t, chunks[1..]);
      (u, items + more)
  }

  lemma {:induction false} DrainedIsValid<C, M>(g: Grammar<C, M>, s: Stream<C>)
    requires Valid(s)
    ensures Valid(Drained(g, s).0)
    decreases |s.buf|
  {
    hide Extracted;
    var (t, item) := Decoded(g, s);
    if item.Some? {
      DrainedIsValid(g, t);
    }
  }

  // ----- Chunks do not matter

  /** A result that is ready stays the same when more bytes follow. */
  lemma {:induction false} DecodedIgnoresWhatFollows<C, M>(g: Grammar<C, M>, s: Stream<C>, more: seq<Byte>)
    requires Valid(s) && Decoded(g, s).1.Some?
    ensures Decoded(g, Fed(s, more)) == (Fed(Decoded(g, s).0, more), Decoded(g, s).1)
  {
    hide ReadU32;
    var buf := s.buf + more;
    assert buf[0] == s.buf[0] && buf[1..HEADER] == s.buf[1..HEADER];
    if !IsVersion(s.buf[0]) {
      assert buf[1..] == s.buf[1..] + more;
    } else {
      var length := Length(s.buf);
      assert buf[Max(HEADER, length)..] == s.buf[Max(HEADER, length)..] + more;
      if HEADER <= length {
        assert buf[HEADER..length] == s.buf[HEADER..length];
      }
    }
  }

  /** Having noted that a message has begun changes nothing. */
  lemma {:induction false} InMessageIsRedundant<C, M>(g: Grammar<C, M>, s: Stream<C>)
    requires Valid(s) && s.inMessage
    ensures Drained(g, s) == Drained(g, s.(inMessage := false))
  {
  }

  lemma {:induction false} DrainedInTwo<C, M>(g: Grammar<C, M>, s: Stream<C>, more: seq<Byte>)
    requires Valid(s)
    ensures Valid(Drained(g, s).0)
    ensures var (t, items) := Drained(g, s);
      var (u, rest) := Drained(g, Fed(t, more));
      Drained(g, Fed(s, more)) == (u, items + rest)
    decreases |s.buf|
  {
    hide Extracted, ReadU32;
    var (t, item) := Decoded(g, s);
    if item.Some? {
      DecodedIgnoresWhatFollows(g, s, more);
      DrainedInTwo(g, t, more);
      var (u, items) := Drained(g, t);
      var rest := Drained(g, Fed(u, more)).1;
      assert [item.value] + (items + rest) == ([item.value] + items) + rest;
    } else {
      var rest := Drained(g, Fed(t, more)).1;
      assert [] + rest == rest;
      if t.inMessage && !s.inMessage {
        InMessageIsRedundant(g, Fed(t, more));
        assert Fed(t, more).(inMessage := false) == Fed(s, more);
      }
    }
  }

  /** Splitting a byte stream in any way gives the same items, the same leftover and the same context as draining it
      in one buffer. */
  lemma {:induction false} ChunksDoNotMatter<C, M>(g: Grammar<C, M>, s: Stream<C>, chunks: seq<seq<Byte>>)
    requires Valid(s) && chunks != []
    ensures FedInChunks(g, s, chunks) == Drained(g, Fed(s, Flatten(chunks)))
    decreases |chunks|
  {
    hide Drained, Valid;
    var first := Fed(s, chunks[0]);
    assert Valid(first) by { FedIsValid(s, chunks[0]); }
    DrainedIsValid(g, first);
    var (t, items) := Drained(g, first);
    if |chunks| == 1 {
      assert chunks[1..] == [] && Flatten(chunks) == chunks[0];
      assert items + [] == items;
    } else {
      ChunksDoNotMatter(g, t, chunks[1..]);
      var rest := Flatten(chunks[1..]);
      DrainedInTwo(g, first, rest);
      assert (s.buf + chunks[0]) + rest == s.buf + (chunks[0] + rest);
      assert Fed(first, rest) == Fed(s, Flatten(chunks));
    }
  }

  lemma {:induction false} FedIsValid<C>(s: Stream<C>, bytes: seq<Byte>)
    requires Valid(s)
    ensures Valid(Fed(s, bytes))
  {
  }

  /** The number with these digits to base 256, the highest first. */
  ghost function Octets(a: nat, b: nat, c: nat, d: nat): nat {
    ((a * 256 + b) * 256 + c) * 256 + d
  }

  /** The value of the length field. */
  ghost function LengthField(buf: seq<Byte>): nat
    requires |buf| >= 5
  {
    Octets(buf[1], buf[2], buf[3], buf[4])
  }

  lemma {:induction false} LengthIs(buf: seq<Byte>)
    requires |buf| >= 5
    ensures Length(buf) == LengthField(buf)
  {
  }

  ghost predicate HasVersion(buf: seq<Byte>) {
    buf != [] && (buf[0] == 3 || buf[0] == 4)
  }

  /** After draining, a message is noted as begun exactly if its header is buffered, and then it is incomplete. */
  lemma {:induction false} DrainedLeftover<C, M>(g: Grammar<C, M>, s: Stream<C>)
    requires Valid(s)
    ensures var t := Drained(g, s).0;
      && t.inMessage == (|t.buf| >= 5)
      && (t.inMessage ==> HasVersion(t.buf) && |t.buf| < LengthField(t.buf))
    decreases |s.buf|
  {
    hide Extracted, ReadU32, LengthField;
    var (t, item) := Decoded(g, s);
    if item.Some? {
      DrainedLeftover(g, t);
    } else if |s.buf| >= 5 {
      LengthIs(s.buf);
    }
  }

  // ----- What one call gives

  /** Nothing is decoded as long as fewer than five bytes are there, or fewer than the length of a message of version 3
      or 4. Another version is an error and costs one byte. A length below five is an error and costs the header. Else
      the bytes after the header, up to the length, are parsed, and the message is consumed. */
  lemma {:induction false} DecodedIff<C, M>(g: Grammar<C, M>, s: Stream<C>)
    requires Valid(s)
    ensures var (t, item) := Decoded(g, s);
      && (item.None? <==> |s.buf| < 5 || (HasVersion(s.buf) && |s.buf| < LengthField(s.buf)))
      && (item.Some? && item.value.BadVersion? <==> |s.buf| >= 5 && !HasVersion(s.buf))
      && (item.Some? && item.value.BadVersion? ==> item == Some(BadVersion(s.buf[0])) && t == s.(buf := s.buf[1..]))
      && (item.Some? && item.value.BadLength? <==>
            |s.buf| >= 5 && HasVersion(s.buf) && LengthField(s.buf) < 5)
      && (item.Some? && item.value.BadLength? ==>
            item == Some(BadLength(LengthField(s.buf))) && t == Stream(s.buf[5..], false, s.ctx))
      && (item.Some? && (item.value.Message? || item.value.BadBody?) ==>
            && 5 <= LengthField(s.buf) <= |s.buf| && t.buf == s.buf[LengthField(s.buf)..] && !t.inMessage
            && var (ctx, parse) := g.parse(s.buf[0], s.buf[5..LengthField(s.buf)], s.ctx);
            if parse.Parsed? then item == Some(Message(parse.message)) && t.ctx == g.update(ctx, parse.message)
            else item == Some(BadBody(parse.code)) && t.ctx == ctx)
  {
    hide ReadU32, LengthField;
    if |s.buf| >= 5 {
      LengthIs(s.buf);
    }
  }

  // ----- Framing is exact

  datatype Frame = Frame(version: nat, body: seq<Byte>)

  predicate WellFormed(f: Frame) {
    (f.version == 3 || f.version == 4) && 5 + |f.body| < 0x1_0000_0000
  }

  function Encoded(f: Frame): seq<Byte>
    requires WellFormed(f)
  {
    [f.version] + WriteU32(HEADER + |f.body|) + f.body
  }

  function EncodedAll(fs: seq<Frame>): seq<Byte>
    requires forall i :: 0 <= i < |fs| ==> WellFormed(fs[i])
  {
    if fs == [] then [] else Encoded(fs[0]) + EncodedAll(fs[1..])
  }

  /** What the frames of a stream stand for: each body is parsed once, in order, whether or not it can be parsed. */
  function Interpreted<C, M>(g: Grammar<C, M>, ctx: C, fs: seq<Frame>): (C, seq<Item<M>>) {
    if fs == [] then (ctx, [])
    else
      match g.parse(fs[0].version, fs[0].body, ctx)
      case (c, Parsed(m)) =>
        var (d, items) := Interpreted(g, g.update(c, m), fs[1..]);
        (d, [Message(m)] + items)
      case (c, Unparsable(code)) =>
        var (d, items) := Interpreted(g, c, fs[1..]);
        (d, [BadBody(code)] + items)
  }

  lemma {:induction false} FrameIsDecoded<C, M>(g: Grammar<C, M>, ctx: C, f: Frame, rest: seq<Byte>)
    requires WellFormed(f)
    ensures var (t, item) := Decoded(g, Stream(Encoded(f) + rest, false, ctx));
      match g.parse(f.version, f.body, ctx)
      case (c, Parsed(m)) => t == Stream(rest, false, g.update(c, m)) && item == Some(Message(m))
      case (c, Unparsable(code)) => t == Stream(rest, false, c) && item == Some(BadBody(code))
  {
  }

  /** A stream of well-formed frames gives exactly one item for each frame and leaves nothing behind; a body that cannot
      be parsed does not disturb the frames after it. */
  lemma {:induction false} FramesAreDecoded<C, M>(g: Grammar<C, M>, ctx: C, fs: seq<Frame>)
    requires forall i :: 0 <= i < |fs| ==> WellFormed(fs[i])
    ensures var (c, items) := Interpreted(g, ctx, fs);
      Drained(g, Stream(EncodedAll(fs), false, ctx)) == (Stream([], false, c), items)
    decreases |fs|
  {
    hide Decoded, Encoded;
    if fs == [] {
      NothingToDecode(g, ctx);
    } else {
      FrameIsDecoded(g, ctx, fs[0], EncodedAll(fs[1..]));
      var t := Decoded(g, Stream(EncodedAll(fs), false, ctx)).0;
      FramesAreDecoded(g, t.ctx, fs[1..]);
    }
  }

  lemma {:induction false} NothingToDecode<C, M>(g: Grammar<C, M>, ctx: C)
    ensures Decoded(g, Stream([], false, ctx)) == (Stream([], false, ctx), None)
  {
  }

  // ----- In place

  /** The codec with the buffer it is given. */
  class Codec<C, M> {
    const grammar: Grammar<C, M>
    var inMessage: bool
    var ctx: C
    var buf: seq<Byte>

    ghost function View(): Stream<C>
      reads this
    {
      Stream(buf, inMessage, ctx)
    }

    constructor (grammar: Grammar<C, M>, ctx: C)
      ensures View() == Stream([], false, ctx) && this.grammar == grammar
    {
      this.grammar, this.ctx := grammar, ctx;
      inMessage, buf := false, [];
    }

    method Feed(bytes: seq<Byte>)
      modifies this`buf
      ensures View() == Fed(old(View()), bytes)
    {
      buf := buf + bytes;
    }

    method Advance(n: nat)
      requires n <= |buf|
      modifies this`buf
      ensures buf == old(buf)[n..]
    {
      buf := buf[n..];
    }

    method Decode() returns (item: Option<Item<M>>)
      requires Valid(View())
      modifies this
      ensures View() == Decoded(grammar, old(View())).0 && item == Decoded(grammar, old(View())).1
    {
      if !(inMessage || |buf| >= HEADER) {
        return None;
      }
      var version := buf[0];
      if !IsVersion(version) {
        Advance(1);
        return Some(BadVersion(version));
      }
      var length := ReadU32(buf[1..HEADER]);
      if |buf| < length {
        inMessage := true;
        return None;
      }
      inMessage := false;
      if length < HEADER {
        Advance(HEADER);
        return Some(BadLength(length));
      }
      var (after, parsed) := grammar.parse(version, buf[HEADER..length], ctx);
      ctx := after;
      match parsed {
        case Parsed(m) =>
          ctx := grammar.update(ctx, m);
          Advance(length);
          item := Some(Message(m));
        case Unparsable(code) =>
          Advance(length);
          item := Some(BadBody(code));
      }
    }

    /** Decodes until more bytes are needed. Every item consumes bytes, so this ends. */
    method Drain() returns (items: seq<Item<M>>)
      requires Valid(View())
      modifies this
      ensures View() == Drained(grammar, old(View())).0 && items == Drained(grammar, old(View())).1
    {
      hide Decoded;
      items := [];
      ghost var all := Drained(grammar, View());
      var item := Decode();
      while item.Some?
        invariant Valid(View())
        invariant all.0 == if item.None? then View() else Drained(grammar, View()).0
        invariant all.1 == items + if item.None? then [] else [item.value] + Drained(grammar, View()).1
        decreases |buf|, item.Some?
      {
        ghost var rest := Drained(grammar, View()).1;
        assert items + ([item.value] + rest) == (items + [item.value]) + rest;
        items := items + [item.value];
        item := Decode();
      }
      assert items + [] == items;
    }
  }
}
