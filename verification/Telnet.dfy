/** honeypot/listeners/telnet.py: the option-negotiation filter and the line reader. */
module Telnet {
  import opened Basics

  newtype byte = b: int | 0 <= b < 256

  const IAC: byte := 0xFF
  const WILL: byte := 0xFB
  const WONT: byte := 0xFC
  const DO: byte := 0xFD
  const DONT: byte := 0xFE
  const SB: byte := 0xFA
  const SE: byte := 0xF0
  const LF: byte := 0x0A
  const CR: byte := 0x0D
  const MAX_LINE_BYTES: nat := 8192

  datatype FilterState = Normal | GotIac | GotCmd | InSubneg | SubnegIac

  // ---------------------------------------------------------------- the filter as a function

  function Next(state: FilterState, b: byte): FilterState {
    match state
    case Normal => if b == IAC then GotIac else Normal
    case GotIac =>
      if b == IAC then Normal
      else if b == WILL || b == WONT || b == DO || b == DONT then GotCmd
      else if b == SB then InSubneg
      else Normal
    case GotCmd => Normal
    case InSubneg => if b == IAC then SubnegIac else InSubneg
    case SubnegIac => if b == SE then Normal else InSubneg
  }

  function Emits(state: FilterState, b: byte): Option<byte> {
    if state == Normal && b != IAC then Some(b)
    else if state == GotIac && b == IAC then Some(IAC)
    else None
  }

  function Feeds(state: FilterState, bytes: seq<byte>): FilterState
    decreases bytes
  {
    if bytes == [] then state else Feeds(Next(state, bytes[0]), bytes[1..])
  }

  function Cleaned(state: FilterState, bytes: seq<byte>): seq<byte>
    decreases bytes
  {
    if bytes == [] then [] else
      var rest := Cleaned(Next(state, bytes[0]), bytes[1..]);
      match Emits(state, bytes[0])
      case Some(b) => [b] + rest
      case None => rest
  }

  /** `_IacFilter`. */
  class IacFilter {
    var state: FilterState

    constructor ()
      ensures state == Normal
    {
      state := Normal;
    }

    method Feed(b: byte) returns (cleaned: Option<byte>)
      modifies this
      ensures state == Next(old(state), b) && cleaned == Emits(old(state), b)
    {
      var was := state;
      if was == Normal {
        if b == IAC {
          state := GotIac;
          return None;
        }
        return Some(b);
      }
      if was == GotIac {
        if b == IAC {
          state := Normal;
          return Some(IAC);
        }
        if b == WILL || b == WONT || b == DO || b == DONT {
          state := GotCmd;
          return None;
        }
        if b == SB {
          state := InSubneg;
          return None;
        }
        state := Normal;
        return None;
      }
      if was == GotCmd {
        state := Normal;
        return None;
      }
      if was == InSubneg {
        if b == IAC {
          state := SubnegIac;
        }
        return None;
      }
      state := if b == SE then Normal else InSubneg;
      return None;
    }
  }

  lemma {:induction false} FilterAppend(state: FilterState, a: seq<byte>, b: seq<byte>)
    ensures Feeds(state, a + b) == Feeds(Feeds(state, a), b)
    ensures Cleaned(state, a + b) == Cleaned(state, a) + Cleaned(Feeds(state, a), b)
    decreases a
  {
    if a == [] {
      assert a + b == b;
    } else {
      assert (a + b)[0] == a[0] && (a + b)[1..] == a[1..] + b;
      FilterAppend(Next(state, a[0]), a[1..], b);
    }
  }

  // ---------------------------------------------------------------- what a client may send

  /** One element of a stream in the TELNET COMMAND STRUCTURE of RFC 854. */
  datatype Item =
    | Data(b: byte)
    | Command(code: byte)               // IAC code, where IAC is 0xFF
    | Negotiation(verb: byte, option: byte) // IAC WILL/WONT/DO/DONT option
    | Subnegotiation(body: seq<byte>)   // IAC SB body IAC SE, where SB is 0xFA and SE is 0xF0

  /** WILL, WONT, DO and DONT. */
  predicate Negotiates(b: byte) { 0xFB <= b <= 0xFE }

  predicate WellFormed(item: Item) {
    match item
    case Command(code) => code != 0xFF && code != 0xFA && !Negotiates(code)
    case Negotiation(verb, _) => Negotiates(verb)
    case _ => true
  }

  function Doubled(bytes: seq<byte>): seq<byte> {
    if bytes == [] then []
    else (if bytes[0] == 0xFF then [0xFF, 0xFF] else [bytes[0]]) + Doubled(bytes[1..])
  }

  function EncodeItem(item: Item): seq<byte> {
    match item
    case Data(b) => Doubled([b])
    case Command(code) => [0xFF, code]
    case Negotiation(verb, option) => [0xFF, verb, option]
    case Subnegotiation(body) => [0xFF, 0xFA] + Doubled(body) + [0xFF, 0xF0]
  }

  function Encode(items: seq<Item>): seq<byte> {
    if items == [] then [] else EncodeItem(items[0]) + Encode(items[1..])
  }

  function DataOf(items: seq<Item>): seq<byte> {
    if items == [] then []
    else if items[0].Data? then [items[0].b] + DataOf(items[1..]) else DataOf(items[1..])
  }

  function Concat(chunks: seq<seq<byte>>): seq<byte> {
    if chunks == [] then [] else chunks[0] + Concat(chunks[1..])
  }

  lemma Feed1(state: FilterState, a: byte)
    ensures Feeds(state, [a]) == Next(state, a)
    ensures Cleaned(state, [a]) == match Emits(state, a) case Some(b) => [b] case None => []
  {
    assert [a][1..] == [];
    assert Feeds(Next(state, a), []) == Next(state, a);
  }

  lemma Feed2(state: FilterState, a: byte, b: byte)
    ensures Feeds(state, [a, b]) == Next(Next(state, a), b)
    ensures Cleaned(state, [a, b]) == Cleaned(state, [a]) + Cleaned(Next(state, a), [b])
  {
    assert [a, b] == [a] + [b];
    FilterAppend(state, [a], [b]);
    Feed1(state, a);
    Feed1(Next(state, a), b);
  }

  lemma {:induction false} BodySwallowed(body: seq<byte>)
    ensures Feeds(InSubneg, Doubled(body)) == InSubneg && Cleaned(InSubneg, Doubled(body)) == []
  {
    if body != [] {
      var first := if body[0] == IAC then [IAC, IAC] else [body[0]];
      FilterAppend(InSubneg, first, Doubled(body[1..]));
      Feed1(InSubneg, body[0]);
      Feed2(InSubneg, IAC, IAC);
      Feed1(SubnegIac, IAC);
      BodySwallowed(body[1..]);
    }
  }

  lemma ItemFiltered(item: Item)
    requires WellFormed(item)
    ensures Feeds(Normal, EncodeItem(item)) == Normal
    ensures Cleaned(Normal, EncodeItem(item)) == if item.Data? then [item.b] else []
  {
    match item
    case Data(b) =>
      assert [b][1..] == [];
      assert Doubled([b]) == if b == IAC then [IAC, IAC] else [b];
      Feed1(Normal, b);
      Feed2(Normal, IAC, IAC);
      Feed1(GotIac, IAC);
    case Command(code) =>
      Feed2(Normal, IAC, code);
      Feed1(Normal, IAC);
      Feed1(GotIac, code);
    case Negotiation(verb, option) =>
      assert [IAC, verb, option] == [IAC, verb] + [option];
      FilterAppend(Normal, [IAC, verb], [option]);
      Feed2(Normal, IAC, verb);
      Feed1(Normal, IAC);
      Feed1(GotIac, verb);
      Feed1(GotCmd, option);
    case Subnegotiation(body) =>
      FilterAppend(Normal, [IAC, SB] + Doubled(body), [IAC, SE]);
      FilterAppend(Normal, [IAC, SB], Doubled(body));
      Feed2(Normal, IAC, SB);
      Feed1(Normal, IAC);
      Feed1(GotIac, SB);
      BodySwallowed(body);
      Feed2(InSubneg, IAC, SE);
      Feed1(InSubneg, IAC);
      Feed1(SubnegIac, SE);
  }

  /** Exactly the data bytes of a well-formed stream come through, and the filter is back
      in its normal state at the end. */
  lemma {:induction false} StreamFiltered(items: seq<Item>)
    requires forall i :: 0 <= i < |items| ==> WellFormed(items[i])
    ensures Feeds(Normal, Encode(items)) == Normal && Cleaned(Normal, Encode(items)) == DataOf(items)
  {
    if items != [] {
      ItemFiltered(items[0]);
      FilterAppend(Normal, EncodeItem(items[0]), Encode(items[1..]));
      StreamFiltered(items[1..]);
    }
  }

  /** What a sequence of reads delivers, one chunk after the other. */
  function CleanedChunks(state: FilterState, chunks: seq<seq<byte>>): seq<byte>
    decreases chunks
  {
    if chunks == [] then [] else Cleaned(state, chunks[0]) + CleanedChunks(Feeds(state, chunks[0]), chunks[1..])
  }

  lemma {:induction false} ChunksFiltered(state: FilterState, chunks: seq<seq<byte>>)
    ensures CleanedChunks(state, chunks) == Cleaned(state, Concat(chunks))
    decreases chunks
  {
    if chunks != [] {
      FilterAppend(state, chunks[0], Concat(chunks[1..]));
      ChunksFiltered(Feeds(state, chunks[0]), chunks[1..]);
    }
  }

  /** However the network cuts a well-formed stream into reads, the same data come out. */
  lemma AnyChunking(items: seq<Item>, chunks: seq<seq<byte>>)
    requires forall i :: 0 <= i < |items| ==> WellFormed(items[i])
    requires Concat(chunks) == Encode(items)
    ensures CleanedChunks(Normal, chunks) == DataOf(items)
  {
    ChunksFiltered(Normal, chunks);
    StreamFiltered(items);
  }

  // ---------------------------------------------------------------- the line reader

  /** What one chunk does: it runs out, or it completes a line, or the line is too long.
      Whatever follows the byte that ends the call is dropped. */
  datatype Read = More(state: FilterState, buf: seq<byte>)
                | Line(state: FilterState, line: seq<byte>)
                | TooLong(state: FilterState, buf: seq<byte>)

  function ReadChunk(state: FilterState, buf: seq<byte>, data: seq<byte>): Read
    decreases data
  {
    if data == [] then More(state, buf) else
      var state' := Next(state, data[0]);
      match Emits(state, data[0])
      case None => ReadChunk(state', buf, data[1..])
      case Some(b) =>
        if b == LF then Line(state', buf)
        else if b == CR then ReadChunk(state', buf, data[1..])
        else if |buf| >= MAX_LINE_BYTES then TooLong(state', buf)
        else ReadChunk(state', buf + [b], data[1..])
  }

  /** One `read_line` call: the line if there is one, and the connection afterwards. */
  datatype Call = Call(line: Option<seq<byte>>, state: FilterState, buf: seq<byte>, chunks: seq<seq<byte>>)

  function ReadLineCall(state: FilterState, buf: seq<byte>, chunks: seq<seq<byte>>): Call
    decreases chunks
  {
    if chunks == [] then Call(None, state, buf, [])
    else if chunks[0] == [] then Call(None, state, buf, chunks[1..])
    else
      match ReadChunk(state, buf, chunks[0])
      case More(s, b) => ReadLineCall(s, b, chunks[1..])
      case Line(s, l) => Call(Some(l), s, [], chunks[1..])
      case TooLong(s, b) => Call(None, s, b, chunks[1..])
  }

  /** A connection: the filter, the line buffer, and the reads still to come.  An empty
      read, or none left, is the end of the stream. */
  class Connection {
    const filter: IacFilter
    var linebuf: seq<byte>
    var chunks: seq<seq<byte>>

    constructor (chunks: seq<seq<byte>>)
      ensures fresh(filter) && filter.state == Normal && linebuf == [] && this.chunks == chunks
    {
      filter := new IacFilter();
      linebuf := [];
      this.chunks := chunks;
    }

    /** `reader.read(4096)`. */
    method Receive() returns (data: seq<byte>)
      modifies this`chunks
      ensures old(chunks) == [] ==> data == [] && chunks == []
      ensures old(chunks) != [] ==> data == old(chunks)[0] && chunks == old(chunks)[1..]
    {
      if chunks == [] { return []; }
      data, chunks := chunks[0], chunks[1..];
    }

    method ReadLine() returns (line: Option<seq<byte>>)
      requires |linebuf| <= 8192
      modifies this`linebuf, this`chunks, filter
      ensures Call(line, filter.state, linebuf, chunks) == ReadLineCall(old(filter.state), old(linebuf), old(chunks))
      ensures |linebuf| <= 8192
    {
      while true
        invariant |linebuf| <= MAX_LINE_BYTES
        invariant ReadLineCall(filter.state, linebuf, chunks) == ReadLineCall(old(filter.state), old(linebuf), old(chunks))
        decreases |chunks|
      {
        var data := Receive();
        if data == [] { return None; }
        ghost var state0, buf0, rest := filter.state, linebuf, chunks;
        var i := 0;
        while i < |data|
          invariant i <= |data| && |linebuf| <= MAX_LINE_BYTES && chunks == rest
          invariant ReadChunk(filter.state, linebuf, data[i..]) == ReadChunk(state0, buf0, data)
        {
          assert data[i..][1..] == data[i + 1..];
          var cleaned := filter.Feed(data[i]);
          i := i + 1;
          if cleaned == None { continue; }
          if cleaned.value == LF {
            line := Some(linebuf);
            linebuf := [];
            return;
          }
          if cleaned.value != CR {
            if |linebuf| >= MAX_LINE_BYTES { return None; }
            linebuf := linebuf + [cleaned.value];
          }
        }
      }
    }
  }

  // ---------------------------------------------------------------- lines over a whole stream

  /** All the lines successive `read_line` calls return, until one returns None. */
  function AllLines(state: FilterState, buf: seq<byte>, chunks: seq<seq<byte>>): seq<seq<byte>>
    decreases |chunks|
  {
    CallsShrink(state, buf, chunks);
    var c := ReadLineCall(state, buf, chunks);
    if c.line == None then [] else [c.line.value] + AllLines(c.state, c.buf, c.chunks)
  }

  lemma {:induction false} CallsShrink(state: FilterState, buf: seq<byte>, chunks: seq<seq<byte>>)
    ensures var c := ReadLineCall(state, buf, chunks); c.line != None ==> |c.chunks| < |chunks|
    decreases |chunks|
  {
    if chunks != [] && chunks[0] != [] {
      match ReadChunk(state, buf, chunks[0])
      case More(s, b) => CallsShrink(s, b, chunks[1..]);
      case _ =>
    }
  }

  /** The bytes of a chunk up to and including the one that comes out as its first line
      feed: all `read_line` looks at. */
  function Kept(state: FilterState, data: seq<byte>): seq<byte>
    decreases data
  {
    if data == [] then []
    else if Emits(state, data[0]) == Some(LF) then [data[0]]
    else [data[0]] + Kept(Next(state, data[0]), data[1..])
  }

  function KeptChunks(state: FilterState, chunks: seq<seq<byte>>): seq<seq<byte>>
    decreases |chunks|
  {
    if chunks == [] then [] else
      var kept := Kept(state, chunks[0]);
      [kept] + KeptChunks(Feeds(state, kept), chunks[1..])
  }

  // The plain meaning of a stream of data bytes: cut it at line feeds, drop carriage
  // returns, and stop at the first line that does not fit.

  function CompleteLines(data: seq<byte>): seq<seq<byte>> { CutLines([], data) }

  function CutLines(open: seq<byte>, data: seq<byte>): seq<seq<byte>>
    decreases data
  {
    if data == [] then []
    else if data[0] == 0x0A then [open] + CutLines([], data[1..])
    else CutLines(open + [data[0]], data[1..])
  }

  function WithoutCr(line: seq<byte>): seq<byte> {
    if line == [] then [] else
      var before := WithoutCr(line[..|line| - 1]);
      if line[|line| - 1] == 0x0D then before else before + [line[|line| - 1]]
  }

  function FittingLines(lines: seq<seq<byte>>): seq<seq<byte>> {
    if lines == [] || |WithoutCr(lines[0])| > 8192 then []
    else [WithoutCr(lines[0])] + FittingLines(lines[1..])
  }

  lemma WithoutCrSnoc(line: seq<byte>, b: byte)
    ensures WithoutCr(line + [b]) == if b == CR then WithoutCr(line) else WithoutCr(line) + [b]
  {
    assert (line + [b])[..|line|] == line;
  }

  /** A line already past the limit stays past it: nothing more is delivered. */
  lemma {:induction false} OversizeStops(open: seq<byte>, data: seq<byte>)
    requires |WithoutCr(open)| > MAX_LINE_BYTES
    ensures FittingLines(CutLines(open, data)) == []
    decreases data
  {
    if data != [] && data[0] != LF {
      WithoutCrSnoc(open, data[0]);
      OversizeStops(open + [data[0]], data[1..]);
    }
  }

  /** One chunk, read against the data that follow it in the stream. */
  lemma {:induction false} ChunkMeaning(state: FilterState, open: seq<byte>, chunk: seq<byte>, later: seq<byte>)
    requires |WithoutCr(open)| <= MAX_LINE_BYTES
    ensures var kept := Kept(state, chunk);
            var meaning := FittingLines(CutLines(open, Cleaned(state, kept) + later));
            match ReadChunk(state, WithoutCr(open), chunk)
            case More(s, b) =>
              && s == Feeds(state, kept) && |b| <= MAX_LINE_BYTES && b == WithoutCr(OpenAfter(open, Cleaned(state, kept)))
              && meaning == FittingLines(CutLines(OpenAfter(open, Cleaned(state, kept)), later))
            case Line(s, l) => s == Feeds(state, kept) && meaning == [l] + FittingLines(CutLines([], later))
            case TooLong(_, _) => meaning == []
    decreases chunk
  {
    if chunk == [] {
      assert [] + later == later;
    } else {
      var b, rest, next := chunk[0], chunk[1..], Next(state, chunk[0]);
      var kept := Kept(state, chunk);
      assert kept[0] == b;
      match Emits(state, b)
      case None =>
        assert kept[1..] == Kept(next, rest);
        ChunkMeaning(next, open, rest, later);
      case Some(c) =>
        if c == LF {
          assert kept == [b] && Cleaned(state, [b]) == [LF] by { Feed1(state, b); }
          assert ([LF] + later)[1..] == later;
          Feed1(state, b);
        } else {
          assert kept[1..] == Kept(next, rest);
          OrdinaryByte(state, open, kept, later, c);
          WithoutCrSnoc(open, c);
          if |WithoutCr(open + [c])| > MAX_LINE_BYTES {
            OversizeStops(open + [c], Cleaned(next, kept[1..]) + later);
          } else {
            ChunkMeaning(next, open + [c], rest, later);
          }
        }
    }
  }

  lemma OrdinaryByte(state: FilterState, open: seq<byte>, kept: seq<byte>, later: seq<byte>, c: byte)
    requires kept != [] && Emits(state, kept[0]) == Some(c) && c != LF
    ensures var cleaned := Cleaned(Next(state, kept[0]), kept[1..]);
            && CutLines(open, Cleaned(state, kept) + later) == CutLines(open + [c], cleaned + later)
            && OpenAfter(open, Cleaned(state, kept)) == OpenAfter(open + [c], cleaned)
  {
    var cleaned := Cleaned(Next(state, kept[0]), kept[1..]);
    assert ([c] + cleaned + later)[1..] == cleaned + later;
    assert ([c] + cleaned)[1..] == cleaned;
  }

  function OpenAfter(open: seq<byte>, data: seq<byte>): seq<byte>
    decreases data
  {
    if data == [] then open else OpenAfter(if data[0] == LF then [] else open + [data[0]], data[1..])
  }

  /** Over a whole connection, `read_line` delivers exactly the lines of the data it looks
      at: of each read, the part up to its first line feed. */
  lemma {:induction false} LinesDelivered(state: FilterState, open: seq<byte>, chunks: seq<seq<byte>>)
    requires |WithoutCr(open)| <= MAX_LINE_BYTES
    requires forall i :: 0 <= i < |chunks| ==> chunks[i] != []
    ensures AllLines(state, WithoutCr(open), chunks)
         == FittingLines(CutLines(open, CleanedChunks(state, KeptChunks(state, chunks))))
    decreases |chunks|
  {
    if chunks != [] {
      var kept := Kept(state, chunks[0]);
      var later := CleanedChunks(Feeds(state, kept), KeptChunks(Feeds(state, kept), chunks[1..]));
      assert CleanedChunks(state, KeptChunks(state, chunks)) == Cleaned(state, kept) + later by {
        assert KeptChunks(state, chunks)[0] == kept;
        assert KeptChunks(state, chunks)[1..] == KeptChunks(Feeds(state, kept), chunks[1..]);
      }
      ChunkMeaning(state, open, chunks[0], later);
      match ReadChunk(state, WithoutCr(open), chunks[0])
      case More(s, b) => LinesDelivered(s, OpenAfter(open, Cleaned(state, kept)), chunks[1..]);
      case Line(s, l) => LinesDelivered(s, [], chunks[1..]);
      case TooLong(_, _) =>
    }
  }

  /** When every read ends at its first line feed, that is every line the client sent, up
      to the first one longer than the limit. */
  lemma LineByLine(items: seq<Item>, chunks: seq<seq<byte>>)
    requires forall i :: 0 <= i < |items| ==> WellFormed(items[i])
    requires forall i :: 0 <= i < |chunks| ==> chunks[i] != []
    requires Concat(chunks) == Encode(items) && KeptChunks(Normal, chunks) == chunks
    ensures AllLines(Normal, [], chunks) == FittingLines(CompleteLines(DataOf(items)))
  {
    LinesDelivered(Normal, [], chunks);
    AnyChunking(items, chunks);
  }

  // ---------------------------------------------------------------- when dropping loses nothing

  /** The lines of a stream, given the start of the first. */
  function Lines(open: seq<byte>, data: seq<byte>): seq<seq<byte>> { FittingLines(CutLines(open, data)) }

  /** Nothing but complete commands and carriage returns. */
  predicate Quiet(bytes: seq<byte>) { Feeds(Normal, bytes) == Normal && WithoutCr(Cleaned(Normal, bytes)) == [] }

  /** Whatever a read holds after its first line feed is quiet. */
  predicate QuietDrops(state: FilterState, chunks: seq<seq<byte>>)
    decreases |chunks|
  {
    chunks == [] ||
      var kept := Kept(state, chunks[0]);
      KeptWithin(state, chunks[0]);
      Quiet(chunks[0][|kept|..]) && QuietDrops(Feeds(state, kept), chunks[1..])
  }

  lemma {:induction false} KeptWithin(state: FilterState, data: seq<byte>)
    ensures var kept := Kept(state, data); kept <= data && (|kept| < |data| ==> Feeds(state, kept) == Normal)
    decreases data
  {
    if data != [] {
      var kept := Kept(state, data);
      assert kept[0] == data[0];
      if Emits(state, data[0]) != Some(LF) {
        KeptWithin(Next(state, data[0]), data[1..]);
        assert kept[1..] == Kept(Next(state, data[0]), data[1..]);
      } else {
        assert [data[0]][1..] == [];
      }
    }
  }

  lemma {:induction false} LinesIgnoreCr(open: seq<byte>, other: seq<byte>, data: seq<byte>)
    requires WithoutCr(open) == WithoutCr(other)
    ensures Lines(open, data) == Lines(other, data)
    decreases data
  {
    hide WithoutCr;
    if data != [] && data[0] != LF {
      WithoutCrSnoc(open, data[0]);
      WithoutCrSnoc(other, data[0]);
      LinesIgnoreCr(open + [data[0]], other + [data[0]], data[1..]);
    } else if data != [] {
      var rest := CutLines([], data[1..]);
      assert ([open] + rest)[1..] == rest && ([other] + rest)[1..] == rest;
    }
  }

  lemma {:induction false} CrsSkipped(open: seq<byte>, crs: seq<byte>, data: seq<byte>)
    requires WithoutCr(crs) == []
    ensures Lines(open, crs + data) == Lines(open, data)
    decreases crs
  {
    hide FittingLines;
    if crs == [] {
      assert crs + data == data;
    } else {
      CrFirst(crs[0], crs[1..]);
      assert [crs[0]] + crs[1..] == crs;
      assert (crs + data)[1..] == crs[1..] + data;
      CrsSkipped(open + [CR], crs[1..], data);
      WithoutCrSnoc(open, CR);
      LinesIgnoreCr(open + [CR], open, data);
    }
  }

  ghost predicate SameLines(x: seq<byte>, y: seq<byte>) { forall open {:trigger Lines(open, x)} :: Lines(open, x) == Lines(open, y) }

  lemma {:induction false} SameAfter(prefix: seq<byte>, x: seq<byte>, y: seq<byte>)
    requires SameLines(x, y)
    ensures SameLines(prefix + x, prefix + y)
    decreases prefix
  {
    hide WithoutCr;
    if prefix == [] {
      assert prefix + x == x && prefix + y == y;
    } else {
      SameAfter(prefix[1..], x, y);
      assert (prefix + x)[1..] == prefix[1..] + x && (prefix + y)[1..] == prefix[1..] + y;
      forall open ensures Lines(open, prefix + x) == Lines(open, prefix + y) {
        var c, u, v := prefix[0], prefix[1..] + x, prefix[1..] + y;
        if c == LF {
          assert Lines([], u) == Lines([], v);
          assert ([open] + CutLines([], u))[1..] == CutLines([], u) && ([open] + CutLines([], v))[1..] == CutLines([], v);
        } else {
          assert Lines(open + [c], u) == Lines(open + [c], v);
        }
      }
    }
  }

  lemma {:induction false} QuietDropsLoseNothing(state: FilterState, chunks: seq<seq<byte>>)
    requires QuietDrops(state, chunks)
    ensures SameLines(CleanedChunks(state, KeptChunks(state, chunks)), CleanedChunks(state, chunks))
    decreases |chunks|
  {
    hide Lines, WithoutCr, Cleaned, Feeds, Kept;
    if chunks != [] {
      var kept := Kept(state, chunks[0]);
      KeptWithin(state, chunks[0]);
      var dropped, next := chunks[0][|kept|..], Feeds(state, kept);
      assert chunks[0] == kept + dropped;
      FilterAppend(state, kept, dropped);
      if dropped == [] { FedNothing(next); }
      QuietDropsLoseNothing(next, chunks[1..]);
      var seen, all := CleanedChunks(next, KeptChunks(next, chunks[1..])), CleanedChunks(next, chunks[1..]);
      var quiet := Cleaned(next, dropped);
      assert SameLines(seen, quiet + all) by {
        forall open ensures Lines(open, seen) == Lines(open, quiet + all) { CrsSkipped(open, quiet, all); }
      }
      SameAfter(Cleaned(state, kept), seen, quiet + all);
      assert CleanedChunks(state, chunks) == Cleaned(state, kept) + (quiet + all);
      assert KeptChunks(state, chunks)[1..] == KeptChunks(next, chunks[1..]);
    }
  }

  lemma FedNothing(state: FilterState)
    ensures Feeds(state, []) == state && Cleaned(state, []) == [] && WithoutCr([]) == []
  {
  }

  /** A connection loses nothing as long as whatever its reads hold after their first line feed is quiet: every
      line the client sent is delivered, up to the first one longer than the limit. */
  lemma NoLineLost(items: seq<Item>, chunks: seq<seq<byte>>)
    requires forall i :: 0 <= i < |items| ==> WellFormed(items[i])
    requires forall i :: 0 <= i < |chunks| ==> chunks[i] != []
    requires Concat(chunks) == Encode(items) && QuietDrops(Normal, chunks)
    ensures AllLines(Normal, [], chunks) == FittingLines(CompleteLines(DataOf(items)))
  {
    LinesDelivered(Normal, [], chunks);
    QuietDropsLoseNothing(Normal, chunks);
    AnyChunking(items, chunks);
    assert Lines([], CleanedChunks(Normal, KeptChunks(Normal, chunks))) == Lines([], CleanedChunks(Normal, chunks));
  }

  /** Two commands in one read: the second is lost. */
  lemma SecondLineLost()
    ensures AllLines(Normal, [], [[0x61, LF, 0x62, LF]]) == [[0x61]]
    ensures FittingLines(CompleteLines(Cleaned(Normal, [0x61, LF, 0x62, LF]))) == [[0x61], [0x62]]
  {
    var bytes: seq<byte> := [0x61, LF, 0x62, LF];
    assert bytes[1..] == [LF, 0x62, LF] && bytes[1..][1..] == [0x62, LF] && bytes[1..][1..][1..] == [LF];
    assert ReadChunk(Normal, [], bytes) == Line(Normal, [0x61]);
    assert AllLines(Normal, [], [bytes][1..]) == [];
    assert Cleaned(Normal, [LF]) == [LF];
    assert Cleaned(Normal, [0x62, LF]) == [0x62, LF];
    assert Cleaned(Normal, bytes[1..]) == [LF, 0x62, LF];
    assert Cleaned(Normal, bytes) == bytes;
    var first: seq<byte>, second: seq<byte> := [0x61], [0x62];
    assert [LF][1..] == [] && CutLines([], []) == [];
    assert CutLines(second, [LF]) == [second] + CutLines([], []);
    assert CutLines([], [0x62, LF]) == CutLines([] + second, [LF]) by { assert [0x62, LF][1..] == [LF]; }
    assert [] + second == second && [] + first == first;
    assert CutLines(first, [LF, 0x62, LF]) == [first] + CutLines([], [0x62, LF]) by { assert [LF, 0x62, LF][1..] == [0x62, LF]; }
    assert CutLines([], bytes) == CutLines([] + first, bytes[1..]);
    WithoutCrSnoc([], 0x61);
    WithoutCrSnoc([], 0x62);
    var lines := [first] + [second];
    assert lines[0] == first && lines[1..] == [second] && [second][1..] == [];
    assert FittingLines([second]) == [second];
    assert FittingLines(lines) == [first] + FittingLines(lines[1..]);
  }

  /** Bytes `dropped` after a line feed in one read may be thrown away exactly when they
      hold nothing but complete commands and carriage returns. */
  lemma DropHarmless(dropped: seq<byte>)
    requires dropped != []
    ensures (forall later :: AllLines(Normal, [], [dropped] + later) == AllLines(Normal, [], later))
       <==> Feeds(Normal, dropped) == Normal && WithoutCr(Cleaned(Normal, dropped)) == []
  {
    if Feeds(Normal, dropped) == Normal && WithoutCr(Cleaned(Normal, dropped)) == [] {
      QuietChunk(Normal, dropped);
      forall later ensures AllLines(Normal, [], [dropped] + later) == AllLines(Normal, [], later) {
        assert ([dropped] + later)[1..] == later;
      }
    } else {
      ProbeDrop(dropped);
      assert AllLines(Normal, [], [dropped] + [[LF]]) != AllLines(Normal, [], [[LF]]);
    }
  }

  lemma {:induction false} QuietChunk(state: FilterState, chunk: seq<byte>)
    requires WithoutCr(Cleaned(state, chunk)) == []
    ensures ReadChunk(state, [], chunk) == More(Feeds(state, chunk), [])
    decreases chunk
  {
    if chunk != [] {
      match Emits(state, chunk[0])
      case None => QuietChunk(Next(state, chunk[0]), chunk[1..]);
      case Some(c) =>
        CrFirst(c, Cleaned(Next(state, chunk[0]), chunk[1..]));
        QuietChunk(Next(state, chunk[0]), chunk[1..]);
    }
  }

  lemma {:induction false} CrFirst(c: byte, rest: seq<byte>)
    ensures WithoutCr([c] + rest) == if c == CR then WithoutCr(rest) else [c] + WithoutCr(rest)
  {
    if rest == [] {
      assert [c] + rest == [c];
      assert WithoutCr([c][..0]) == [];
    } else {
      var init, last := rest[..|rest| - 1], rest[|rest| - 1];
      assert [c] + rest == ([c] + init) + [last];
      WithoutCrSnoc([c] + init, last);
      CrFirst(c, init);
    }
  }

  /** A single line feed sent next shows whether anything was there. */
  lemma ProbeDrop(dropped: seq<byte>)
    requires dropped != []
    ensures AllLines(Normal, [], [[LF]]) == [[]]
    ensures AllLines(Normal, [], [dropped] + [[LF]]) == [[]]
        ==> Feeds(Normal, dropped) == Normal && WithoutCr(Cleaned(Normal, dropped)) == []
  {
    OneLineFeed(Normal, []);
    var chunks := [dropped] + [[LF]];
    assert chunks[0] == dropped && chunks[1..] == [[LF]];
    match ReadChunk(Normal, [], dropped)
    case More(s, b) =>
      MoreMeansAll(Normal, [], dropped);
      OneLineFeed(s, b);
      assert [] + Cleaned(Normal, dropped) == Cleaned(Normal, dropped);
    case Line(s, l) =>
      assert |AllLines(Normal, [], chunks)| == 1 + |AllLines(s, [], [[LF]])|;
      LineEndsNormal(Normal, [], dropped);
    case TooLong(_, _) =>
  }

  lemma OneLineFeed(state: FilterState, buf: seq<byte>)
    ensures AllLines(state, buf, [[LF]]) == if state == Normal then [buf] else []
  {
    assert [LF][1..] == [] && [[LF]][1..] == [];
    assert AllLines(Next(state, LF), [], []) == [];
    assert ReadChunk(state, buf, [LF]) == if state == Normal then Line(Normal, buf) else More(Next(state, LF), buf);
    assert ReadLineCall(Next(state, LF), buf, []).line == None;
  }

  lemma {:induction false} LineEndsNormal(state: FilterState, buf: seq<byte>, chunk: seq<byte>)
    ensures ReadChunk(state, buf, chunk).Line? ==> ReadChunk(state, buf, chunk).state == Normal
    decreases chunk
  {
    if chunk != [] {
      match Emits(state, chunk[0])
      case None => LineEndsNormal(Next(state, chunk[0]), buf, chunk[1..]);
      case Some(c) =>
        LineEndsNormal(Next(state, chunk[0]), buf, chunk[1..]);
        LineEndsNormal(Next(state, chunk[0]), buf + [c], chunk[1..]);
    }
  }

  lemma {:induction false} MoreMeansAll(state: FilterState, open: seq<byte>, chunk: seq<byte>)
    requires ReadChunk(state, WithoutCr(open), chunk).More?
    ensures ReadChunk(state, WithoutCr(open), chunk) == More(Feeds(state, chunk), WithoutCr(open + Cleaned(state, chunk)))
    decreases chunk
  {
    hide WithoutCr, Next, Emits;
    if chunk == [] {
      assert open + [] == open;
    } else {
      match Emits(state, chunk[0])
      case None => MoreMeansAll(Next(state, chunk[0]), open, chunk[1..]);
      case Some(c) =>
        WithoutCrSnoc(open, c);
        MoreMeansAll(Next(state, chunk[0]), open + [c], chunk[1..]);
        var rest := Cleaned(Next(state, chunk[0]), chunk[1..]);
        assert open + [c] + rest == open + ([c] + rest);
    }
  }
}
