/** honeypot/shell/commands.py, `split_command_line`: cutting one input line at `;`, newline,
    `&&` and `||` outside quotes. */
module CommandLine {
  import opened Basics

  const MAX_CHAIN_SEGMENTS: int := 30

  datatype Op = Seq | And | Or

  datatype Segment = Segment(op: Op, text: string)

  /** `str.isspace`. */
  predicate IsSpace(c: char) {
    || ('\t' <= c <= '\r') || ('\U{1c}' <= c <= ' ') || c == '\U{85}' || c == '\U{a0}'
    || c == '\U{1680}' || ('\U{2000}' <= c <= '\U{200a}') || c == '\U{2028}' || c == '\U{2029}'
    || c == '\U{202f}' || c == '\U{205f}' || c == '\U{3000}'
  }

  function LStrip(s: string): (r: string)
    ensures |r| <= |s|
    ensures r != "" ==> !IsSpace(r[0])
  {
    if s != "" && IsSpace(s[0]) then LStrip(s[1..]) else s
  }

  function RStrip(s: string): (r: string)
    ensures |r| <= |s|
    ensures r != "" ==> !IsSpace(r[|r| - 1])
  {
    if s != "" && IsSpace(s[|s| - 1]) then RStrip(s[..|s| - 1]) else s
  }

  function Strip(s: string): string { RStrip(LStrip(s)) }

  predicate AllSpace(s: string) { forall i :: 0 <= i < |s| ==> IsSpace(s[i]) }

  predicate Trimmed(s: string) { s != "" && !IsSpace(s[0]) && !IsSpace(s[|s| - 1]) }

  // ---------------------------------------------------------------- one lexical step

  datatype Token =
    | Text(width: nat, quote: Option<char>)  // characters kept, and the quote open after them
    | Separator(width: nat, op: Op)

  predicate IsQuote(quote: Option<char>) { quote == None || quote == Some('\'') || quote == Some('"') }

  function Lex(quote: Option<char>, s: string): (t: Token)
    requires s != ""
    ensures 1 <= t.width <= |s| && t.width <= 2
  {
    var c := s[0];
    if quote.Some? then
      if c == quote.value then Text(1, None)
      else if c == '\\' && quote.value == '"' && |s| > 1 then Text(2, quote)
      else Text(1, quote)
    else if c == '\'' || c == '"' then Text(1, Some(c))
    else if c == '\\' && |s| > 1 then Text(2, None)
    else if c == ';' || c == '\n' then Separator(1, Seq)
    else if c == '&' && |s| > 1 && s[1] == '&' then Separator(2, And)
    else if c == '|' && |s| > 1 && s[1] == '|' then Separator(2, Or)
    else Text(1, None)
  }

  /** A stretch of input up to a separator, with the separator as it was written. */
  datatype Piece = Piece(text: string, separator: string, next: Op)

  /** The whole line as pieces; `buf` is the text of the current one so far. */
  function Pieces(quote: Option<char>, buf: string, s: string): (ps: seq<Piece>)
    ensures ps != []
    decreases |s|
  {
    if s == "" then [Piece(buf, "", Seq)] else
      match Lex(quote, s)
      case Text(n, q) => Pieces(q, buf + s[..n], s[n..])
      case Separator(n, op) => [Piece(buf, s[..n], op)] + Pieces(None, "", s[n..])
  }

  /** The non-empty pieces, each with the operator in force before it. */
  function Assemble(started: bool, op: Op, pieces: seq<Piece>): seq<Segment>
    decreases |pieces|
  {
    if pieces == [] then [] else
      var text := Strip(pieces[0].text);
      if text != "" then [Segment(op, text)] + Assemble(true, pieces[0].next, pieces[1..])
      else Assemble(started, if started then pieces[0].next else op, pieces[1..])
  }

  function SplitAll(raw: string): seq<Segment> {
    Assemble(false, Seq, Pieces(None, "", raw))
  }

  function Take<T>(xs: seq<T>, limit: int): seq<T> {
    if limit <= 0 then [] else if limit < |xs| then xs[..limit] else xs
  }

  // ---------------------------------------------------------------- the scanner

  /** The inner `flush`. */
  function Flush(segments: seq<Segment>, op: Op, buf: string, next: Op): (seq<Segment>, Op) {
    var seg := Strip(buf);
    if seg != "" then (segments + [Segment(op, seg)], next)
    else if segments != [] then (segments, next)
    else (segments, op)
  }

  /** `split_command_line`: stopping at the limit gives the first entries of what no limit, and so of what any
      larger one, gives. */
  method SplitCommandLine(raw: string, limit: int) returns (segments: seq<Segment>)
    ensures segments == Take(SplitAll(raw), limit)
    ensures forall larger :: limit <= larger ==> segments == Take(Take(SplitAll(raw), larger), limit)
  {
    hide Assemble, Strip, Take, Flush;
    TakeTwice(SplitAll(raw), limit);
    segments := [];
    var buf, op, quote: Option<char> := "", Seq, None;
    var i := 0;
    assert raw[0..] == raw;
    while i < |raw| && |segments| < limit
      invariant i <= |raw|
      invariant |segments| <= limit || (limit <= 0 && segments == [])
      invariant |segments| >= limit ==> buf == ""
      invariant SplitAll(raw) == segments + Assemble(segments != [], op, Pieces(quote, buf, raw[i..]))
      decreases |raw| - i
    {
      i, segments, op, buf, quote := ScanOne(raw, i, segments, op, buf, quote);
    }
    assert i == |raw| ==> raw[i..] == "";
    LastFlush(segments, op, quote, buf, raw[i..], limit);
    var flushed := Flush(segments, op, buf, Seq);
    segments := Take(flushed.0, limit);
  }

  /** One turn of the scanning loop: it consumes one lexical step, and what is collected so
      far together with what the rest of the line will give stays the same. */
  method ScanOne(raw: string, i0: nat, segments0: seq<Segment>, op0: Op, buf0: string, quote0: Option<char>)
    returns (i: nat, segments: seq<Segment>, op: Op, buf: string, quote: Option<char>)
    requires i0 < |raw|
    ensures i0 < i <= |raw|
    ensures |segments0| <= |segments| <= |segments0| + 1
    ensures |segments| > |segments0| ==> buf == ""
    ensures segments0 + Assemble(segments0 != [], op0, Pieces(quote0, buf0, raw[i0..]))
         == segments + Assemble(segments != [], op, Pieces(quote, buf, raw[i..]))
  {
    hide Assemble, Strip, Flush, Pieces;
    i, segments, op, buf, quote := i0, segments0, op0, buf0, quote0;
    ghost var token := Lex(quote, raw[i..]);
    TextStep(quote, buf, raw, i);
    var c := raw[i];
    if quote.Some? {
      buf := buf + [c];
      if c == quote.value {
        quote := None;
      } else if c == '\\' && quote.value == '"' && i + 1 < |raw| {
        i := i + 1;
        buf := buf + [raw[i]];
      }
    } else if c == '\'' || c == '"' {
      quote := Some(c);
      buf := buf + [c];
    } else if c == '\\' && i + 1 < |raw| {
      buf := buf + [c];
      i := i + 1;
      buf := buf + [raw[i]];
    } else if c == ';' || c == '\n' {
      segments, op := FlushInto(segments, op, buf, raw, i0, Seq);
      buf := "";
    } else if c == '&' && i + 1 < |raw| && raw[i + 1] == '&' {
      segments, op := FlushInto(segments, op, buf, raw, i0, And);
      buf := "";
      i := i + 1;
    } else if c == '|' && i + 1 < |raw| && raw[i + 1] == '|' {
      segments, op := FlushInto(segments, op, buf, raw, i0, Or);
      buf := "";
      i := i + 1;
    } else {
      buf := buf + [c];
    }
    i := i + 1;
    assert i == i0 + token.width;
    assert token.Text? ==> buf == buf0 + raw[i0..i];
  }

  /** After the loop: either the input is used up, or the limit is reached with nothing
      buffered, and cutting the list at the limit hides the rest. */
  lemma LastFlush(segments: seq<Segment>, op: Op, quote: Option<char>, buf: string, s: string, limit: int)
    requires s == "" || |segments| >= limit
    requires |segments| <= limit || (limit <= 0 && segments == [])
    requires |segments| >= limit ==> buf == ""
    ensures Take(Flush(segments, op, buf, Seq).0, limit)
         == Take(segments + Assemble(segments != [], op, Pieces(quote, buf, s)), limit)
  {
    hide Assemble, Strip;
    var rest := Assemble(segments != [], op, Pieces(quote, buf, s));
    if |segments| >= limit {
      StripEmpty();
      TakeFull(segments, rest, limit);
    } else {
      var last := Piece(buf, "", Seq);
      FlushPiece(segments, op, last, []);
      assert [last] + [] == [last];
      AssembleNothing(Flush(segments, op, buf, Seq).0, Flush(segments, op, buf, Seq).1);
    }
  }

  lemma TakeTwice<T>(xs: seq<T>, limit: int)
    ensures forall larger :: limit <= larger ==> Take(Take(xs, larger), limit) == Take(xs, limit)
  {
  }

  lemma StripEmpty()
    ensures Strip("") == ""
  {
  }

  lemma TakeFull<T>(xs: seq<T>, more: seq<T>, limit: int)
    requires |xs| >= limit && (|xs| <= limit || (limit <= 0 && xs == []))
    ensures Take(xs + more, limit) == Take(xs, limit) == xs
  {
  }

  lemma AssembleNothing(segments: seq<Segment>, op: Op)
    ensures segments + Assemble(segments != [], op, []) == segments
  {
  }

  lemma TextStep(quote: Option<char>, buf: string, raw: string, i: nat)
    requires i < |raw|
    ensures var t := Lex(quote, raw[i..]);
            t.Text? ==> Pieces(quote, buf, raw[i..]) == Pieces(t.quote, buf + raw[i..i + t.width], raw[i + t.width..])
  {
    var n := Lex(quote, raw[i..]).width;
    assert raw[i..][..n] == raw[i..i + n] && raw[i..][n..] == raw[i + n..];
  }

  method FlushInto(segments: seq<Segment>, op: Op, buf: string, ghost raw: string, ghost i: nat, next: Op)
    returns (segments': seq<Segment>, op': Op)
    requires i < |raw| && Lex(None, raw[i..]).Separator? && Lex(None, raw[i..]).op == next
    ensures |segments| <= |segments'| <= |segments| + 1
    ensures segments + Assemble(segments != [], op, Pieces(None, buf, raw[i..]))
         == segments' + Assemble(segments' != [], op', Pieces(None, "", raw[i + Lex(None, raw[i..]).width..]))
  {
    hide Assemble, Pieces, Strip;
    FlushMeaning(segments, op, buf, raw[i..], next);
    var flushed := Flush(segments, op, buf, next);
    segments', op' := flushed.0, flushed.1;
    ghost var n := Lex(None, raw[i..]).width;
    assert raw[i..][n..] == raw[i + n..];
  }

  lemma FlushMeaning(segments: seq<Segment>, op: Op, buf: string, s: string, next: Op)
    requires s != "" && Lex(None, s).Separator? && Lex(None, s).op == next
    ensures var f := Flush(segments, op, buf, next);
            segments + Assemble(segments != [], op, Pieces(None, buf, s))
            == f.0 + Assemble(f.0 != [], f.1, Pieces(None, "", s[Lex(None, s).width..]))
  {
    var n := Lex(None, s).width;
    FlushPiece(segments, op, Piece(buf, s[..n], next), Pieces(None, "", s[n..]));
  }

  lemma FlushPiece(segments: seq<Segment>, op: Op, p: Piece, rest: seq<Piece>)
    ensures var f := Flush(segments, op, p.text, p.next);
            segments + Assemble(segments != [], op, [p] + rest) == f.0 + Assemble(f.0 != [], f.1, rest)
  {
    var started := segments != [];
    assert ([p] + rest)[0] == p && ([p] + rest)[1..] == rest;
    var seg := Strip(p.text);
    if seg != "" {
      AppendAssociates(segments, [Segment(op, seg)], Assemble(true, p.next, rest));
    }
  }

  // ---------------------------------------------------------------- what a segment is

  /** How a text ends when it is read on its own: outside quotes, on a backslash that would
      escape whatever came next, inside quotes, or not as one segment at all. */
  datatype End = Closed | Dangling | Unclosed | Broken

  function EndOf(quote: Option<char>, t: string): End
    decreases |t|
  {
    if t == "" then if quote.Some? then Unclosed else Closed
    else if t == "\\" && quote == None then Dangling
    else
      match Lex(quote, t)
      case Text(n, q) => EndOf(q, t[n..])
      case Separator(_, _) => Broken
  }

  predicate Whole(e: End) { e == Closed || e == Dangling }

  /** A list `split_command_line` could have returned: trimmed texts without separators,
      quotes closed in all but the last. */
  ghost predicate GoodList(segs: seq<Segment>) {
    && (forall i {:trigger segs[i]} :: 0 <= i < |segs| ==> Trimmed(segs[i].text) && EndOf(None, segs[i].text) != Broken)
    && (forall i {:trigger segs[i]} :: 0 <= i < |segs| - 1 ==> Whole(EndOf(None, segs[i].text)))
  }

  function OpText(op: Op): string {
    match op case Seq => ";" case And => "&&" case Or => "||"
  }

  function PrintRest(segs: seq<Segment>): string {
    if segs == [] then "" else " " + OpText(segs[0].op) + (" " + segs[0].text + PrintRest(segs[1..]))
  }

  function Print(segs: seq<Segment>): string {
    if segs == [] then "" else segs[0].text + PrintRest(segs[1..])
  }

  // ---------------------------------------------------------------- reading a printed list back

  lemma StripPadded(before: string, t: string, after: string)
    requires AllSpace(before) && AllSpace(after) && Trimmed(t)
    ensures Strip(before + t + after) == t
  {
    hide LStrip, RStrip;
    assert before + t + after == before + (t + after);
    assert (t + after)[0] == t[0];
    LStripPadded(before, t + after);
    RStripPadded(t, after);
  }

  lemma {:induction false} LStripPadded(before: string, s: string)
    requires AllSpace(before) && s != "" && !IsSpace(s[0])
    ensures LStrip(before + s) == s
    decreases |before|
  {
    if before == "" { assert before + s == s; }
    else {
      assert (before + s)[1..] == before[1..] + s;
      LStripPadded(before[1..], s);
    }
  }

  lemma {:induction false} RStripPadded(s: string, after: string)
    requires AllSpace(after) && s != "" && !IsSpace(s[|s| - 1])
    ensures RStrip(s + after) == s
    decreases |after|
  {
    if after == "" { assert s + after == s; }
    else {
      assert (s + after)[..|s + after| - 1] == s + after[..|after| - 1];
      RStripPadded(s, after[..|after| - 1]);
    }
  }

  /** A whole text followed by a printed operator is one piece. */
  lemma {:induction false} PieceThenOp(quote: Option<char>, buf: string, t: string, op: Op, rest: string)
    requires IsQuote(quote) && Whole(EndOf(quote, t))
    ensures Pieces(quote, buf, t + (" " + OpText(op) + rest)) == [Piece(buf + t + " ", OpText(op), op)] + Pieces(None, "", rest)
    decreases |t|
  {
    hide Lex, OpText;
    var tail := " " + OpText(op) + rest;
    if t == "" || (t == "\\" && quote == None) {
      BlankThenOp(buf, t, op, rest);
    } else if t == "\\" {
      BackslashInQuote(quote);
    } else {
      var token := Lex(quote, t);
      var n := token.width;
      LexSame(quote, t, tail);
      LexQuote(quote, t);
      assert (t + tail)[..n] == t[..n] && (t + tail)[n..] == t[n..] + tail;
      PieceThenOp(token.quote, buf + t[..n], t[n..], op, rest);
      assert buf + t[..n] + t[n..] + " " == buf + t + " ";
    }
  }

  lemma BackslashInQuote(quote: Option<char>)
    requires IsQuote(quote) && quote.Some?
    ensures EndOf(quote, "\\") == Unclosed
  {
    assert "\\"[1..] == "" && EndOf(quote, "\\") == EndOf(quote, "");
  }

  /** The blank before an operator is kept as text, escaped or not. */
  lemma BlankThenOp(buf: string, t: string, op: Op, rest: string)
    requires t == "" || t == "\\"
    ensures Pieces(None, buf, t + (" " + OpText(op) + rest)) == [Piece(buf + t + " ", OpText(op), op)] + Pieces(None, "", rest)
  {
    hide OpText;
    var s := t + (" " + OpText(op) + rest);
    assert s[|t| + 1..] == OpText(op) + rest && s[..|t| + 1] == t + " ";
    assert Lex(None, s) == Text(|t| + 1, None);
    assert buf + (t + " ") == buf + t + " ";
    OpNext(buf + t + " ", op, rest);
  }

  lemma OpNext(buf: string, op: Op, rest: string)
    ensures Pieces(None, buf, OpText(op) + rest) == [Piece(buf, OpText(op), op)] + Pieces(None, "", rest)
  {
    var s, n := OpText(op) + rest, |OpText(op)|;
    assert s[..n] == OpText(op) && s[n..] == rest;
    assert s[0] == OpText(op)[0];
    assert Lex(None, s) == Separator(n, op) by {
      if n == 2 { assert s[1] == OpText(op)[1]; }
    }
  }

  lemma LexQuote(quote: Option<char>, s: string)
    requires s != "" && IsQuote(quote)
    ensures Lex(quote, s).Text? ==> IsQuote(Lex(quote, s).quote)
  {
  }

  /** What follows a blank cannot change how a whole text is read. */
  lemma LexSame(quote: Option<char>, t: string, tail: string)
    requires t != "" && !(t == "\\") && tail != "" && tail[0] == ' '
    ensures Lex(quote, t + tail) == Lex(quote, t)
  {
    assert (t + tail)[0] == t[0];
    if |t| > 1 {
      assert (t + tail)[..2] == t[..2];
    } else {
      assert (t + tail)[1] == ' ';
    }
  }

  /** A text that is not broken, up to the end of the line, is one piece. */
  lemma {:induction false} LastPiece(quote: Option<char>, buf: string, t: string)
    requires EndOf(quote, t) != Broken
    ensures Pieces(quote, buf, t) == [Piece(buf + t, "", Seq)]
    decreases |t|
  {
    if t == "" {
      assert buf + t == buf;
    } else {
      var token := Lex(quote, t);
      var n := token.width;
      LastPiece(token.quote, buf + t[..n], t[n..]);
      assert buf + t[..n] + t[n..] == buf + t;
    }
  }

  lemma AssembleFirst(started: bool, op: Op, p: Piece, rest: seq<Piece>, t: string)
    requires Strip(p.text) == t != ""
    ensures Assemble(started, op, [p] + rest) == [Segment(op, t)] + Assemble(true, p.next, rest)
  {
    assert ([p] + rest)[1..] == rest;
  }

  lemma LeadingBlank(lead: string, t: string)
    requires lead == "" || lead == " "
    ensures EndOf(None, lead + t) == EndOf(None, t)
  {
    if lead == "" { assert lead + t == t; } else { assert (lead + t)[1..] == t; }
  }

  lemma {:induction false} ReadBack(started: bool, lead: string, segs: seq<Segment>)
    requires lead == "" || lead == " "
    requires segs != [] && GoodList(segs)
    ensures Assemble(started, segs[0].op, Pieces(None, "", lead + segs[0].text + PrintRest(segs[1..]))) == segs
    decreases |segs|
  {
    hide Strip, Lex, Pieces, Assemble;
    var t, rest := segs[0].text, segs[1..];
    LeadingBlank(lead, t);
    if rest == [] {
      assert lead + t + PrintRest(rest) == lead + t;
      LastPiece(None, "", lead + t);
      assert "" + (lead + t) == lead + t;
      assert lead + t == lead + t + "";
      StripPadded(lead, t, "");
      var p := Piece(lead + t, "", Seq);
      AssembleFirst(started, segs[0].op, p, [], t);
      assert [p] + [] == [p];
      AssembleNothing([segs[0]], Seq);
      assert segs == [segs[0]];
    } else {
      var op, later := rest[0].op, " " + rest[0].text + PrintRest(rest[1..]);
      assert PrintRest(rest) == " " + OpText(op) + later;
      PieceThenOp(None, "", lead + t, op, later);
      assert "" + (lead + t) + " " == lead + t + " ";
      StripPadded(lead, t, " ");
      AssembleFirst(started, segs[0].op, Piece(lead + t + " ", OpText(op), op), Pieces(None, "", later), t);
      assert forall i :: 0 <= i < |rest| ==> rest[i] == segs[i + 1];
      ReadBack(true, " ", rest);
      assert segs == [segs[0]] + rest;
    }
  }

  /** Printing a good list and splitting the result gives the list back. */
  lemma PrintThenSplit(segs: seq<Segment>)
    requires GoodList(segs) && (segs != [] ==> segs[0].op == Seq)
    ensures SplitAll(Print(segs)) == segs
  {
    hide Strip, Lex, EndOf;
    if segs == [] {
      StripEmpty();
      assert Pieces(None, "", "") == [Piece("", "", Seq)];
    } else {
      hide Assemble, Pieces;
      assert "" + segs[0].text == segs[0].text;
      ReadBack(false, "", segs);
    }
  }

  // ---------------------------------------------------------------- what splitting returns

  /** The first piece of a line takes up a prefix of it, and that prefix reads as one
      text; only the last piece can end inside quotes.  The other pieces are those of what
      follows the separator. */
  lemma {:induction false} FirstPiece(quote: Option<char>, buf: string, s: string) returns (u: string, rest: string)
    ensures var ps := Pieces(quote, buf, s);
            && ps[0].text == buf + u && EndOf(quote, u) != Broken
            && s == u + ps[0].separator + rest
            && (|ps| == 1 ==> u == s)
            && (|ps| > 1 ==> EndOf(quote, u) == Closed && ps[1..] == Pieces(None, "", rest) && |rest| < |s|)
    decreases |s|
  {
    hide Lex, EndOf;
    if s == "" {
      u, rest := "", "";
      assert buf + "" == buf && s == "" + "" + "";
      EmptyEnd(quote);
    } else {
      match Lex(quote, s)
      case Text(n, q) =>
        var v, r := FirstPiece(q, buf + s[..n], s[n..]);
        u, rest := s[..n] + v, r;
        AppendAssociates(buf, s[..n], v);
        PieceText(quote, s, n, q, v, Pieces(q, buf + s[..n], s[n..])[0].separator, r);
      case Separator(n, op) =>
        u, rest := "", s[n..];
        assert buf + "" == buf;
        SeparatorOutside(quote, s);
        EmptyEnd(quote);
        assert s == "" + s[..n] + s[n..];
    }
  }

  lemma EmptyEnd(quote: Option<char>)
    ensures EndOf(quote, "") == if quote.Some? then Unclosed else Closed
  {
  }

  lemma PieceText(quote: Option<char>, s: string, n: nat, q: Option<char>, v: string, separator: string, rest: string)
    requires s != "" && Lex(quote, s) == Text(n, q)
    requires EndOf(q, v) != Broken && s[n..] == v + separator + rest
    ensures EndOf(quote, s[..n] + v) == (if quote == None && s[..n] + v == "\\" then Dangling else EndOf(q, v))
    ensures quote == None && s[..n] + v == "\\" ==> s == "\\"
    ensures s == s[..n] + v + separator + rest
  {
    hide Lex;
    var u := s[..n] + v;
    assert s == s[..n] + s[n..];
    AppendAssociates(s[..n], v, separator + rest);
    AppendAssociates(v, separator, rest);
    AppendAssociates(u, separator, rest);
    assert u <= s;
    if quote == None { LoneBackslash(s, n, q); }
    PrefixLex(quote, s, u, n);
    assert u[n..] == v;
  }

  lemma LoneBackslash(s: string, n: nat, q: Option<char>)
    requires s != "" && Lex(None, s) == Text(n, q)
    ensures s[0] == '\\' && n == 1 ==> s == "\\"
  {
  }

  lemma SeparatorOutside(quote: Option<char>, s: string)
    requires s != "" && Lex(quote, s).Separator?
    ensures quote == None
  {
  }

  /** A prefix that keeps the whole first step is read the same way. */
  lemma PrefixLex(quote: Option<char>, s: string, u: string, n: nat)
    requires s != "" && Lex(quote, s).Text? && Lex(quote, s).width == n
    requires n <= |u| && u <= s
    requires u == "\\" && quote == None ==> s == "\\"
    ensures Lex(quote, u) == Lex(quote, s)
  {
    assert u[0] == s[0];
    if |u| > 1 { assert u[1] == s[1]; }
  }

  /** Trimming a text that reads as one segment leaves one that does. */
  lemma StripEnds(u: string)
    requires EndOf(None, u) != Broken
    ensures EndOf(None, Strip(u)) != Broken
    ensures Whole(EndOf(None, u)) ==> Whole(EndOf(None, Strip(u)))
  {
    LStripEnds(u);
    RStripEnds(LStrip(u));
  }

  lemma {:induction false} LStripEnds(u: string)
    requires EndOf(None, u) != Broken
    ensures EndOf(None, LStrip(u)) == EndOf(None, u)
    decreases |u|
  {
    if u != "" && IsSpace(u[0]) {
      assert Lex(None, u) == Text(1, None);
      LStripEnds(u[1..]);
    }
  }

  lemma {:induction false} RStripEnds(u: string)
    requires EndOf(None, u) != Broken
    ensures EndOf(None, RStrip(u)) != Broken
    ensures Whole(EndOf(None, u)) ==> Whole(EndOf(None, RStrip(u)))
    decreases |u|
  {
    if u != "" && IsSpace(u[|u| - 1]) {
      var t := u[..|u| - 1];
      assert u == t + [u[|u| - 1]];
      DropBlank(None, t, u[|u| - 1]);
      RStripEnds(t);
    }
  }

  lemma {:induction false} DropBlank(quote: Option<char>, t: string, c: char)
    requires IsQuote(quote) && IsSpace(c) && EndOf(quote, t + [c]) != Broken
    ensures EndOf(quote, t) != Broken
    ensures Whole(EndOf(quote, t + [c])) ==> Whole(EndOf(quote, t))
    decreases |t|
  {
    var s := t + [c];
    if t == "" {
      assert s == [c] && s[1..] == "";
    } else if t == "\\" {
      assert t[1..] == "" && s[2..] == "" && s[1..] == [c];
      if quote.Some? { BackslashInQuote(quote); DropBlank(quote, "", c); assert "" + [c] == [c]; }
    } else {
      LexBlank(quote, t, c);
      LexQuote(quote, t);
      var n := Lex(quote, t).width;
      assert s[n..] == t[n..] + [c];
      if Lex(quote, t).Text? { DropBlank(Lex(quote, t).quote, t[n..], c); }
    }
  }

  lemma LexBlank(quote: Option<char>, t: string, c: char)
    requires t != "" && t != "\\" && IsSpace(c)
    ensures Lex(quote, t + [c]) == Lex(quote, t)
  {
    assert (t + [c])[0] == t[0];
    if |t| > 1 { assert (t + [c])[1] == t[1]; } else { assert (t + [c])[1] == c; }
  }

  lemma {:induction false} AssembledGood(started: bool, op: Op, s: string)
    ensures GoodList(Assemble(started, op, Pieces(None, "", s)))
    decreases |s|
  {
    hide Lex, EndOf, Strip;
    var ps := Pieces(None, "", s);
    var u, rest := FirstPiece(None, "", s);
    assert "" + u == u;
    StripEnds(u);
    StripTrimmed(u);
    if |ps| == 1 {
      assert Assemble(true, ps[0].next, ps[1..]) == [];
    } else {
      AssembledGood(true, ps[0].next, rest);
      AssembledGood(started, if started then ps[0].next else op, rest);
      if Strip(u) != "" { GoodCons(Segment(op, Strip(u)), Assemble(true, ps[0].next, ps[1..])); }
    }
  }

  lemma StripTrimmed(u: string)
    ensures Strip(u) != "" ==> Trimmed(Strip(u))
  {
    RStripHead(LStrip(u));
  }

  lemma {:induction false} RStripHead(u: string)
    ensures RStrip(u) != "" ==> u != "" && RStrip(u)[0] == u[0]
  {
    if u != "" && IsSpace(u[|u| - 1]) { RStripHead(u[..|u| - 1]); }
  }

  lemma GoodCons(first: Segment, rest: seq<Segment>)
    requires GoodList(rest) && Trimmed(first.text) && Whole(EndOf(None, first.text))
    ensures GoodList([first] + rest)
  {
    var all := [first] + rest;
    forall i | 0 <= i < |all| ensures Trimmed(all[i].text) && EndOf(None, all[i].text) != Broken {
      if i > 0 { assert all[i] == rest[i - 1]; }
    }
    forall i | 0 <= i < |all| - 1 ensures Whole(EndOf(None, all[i].text)) {
      if i > 0 { assert all[i] == rest[i - 1]; }
    }
  }

  lemma {:induction false} FirstOp(op: Op, pieces: seq<Piece>)
    ensures Assemble(false, op, pieces) != [] ==> Assemble(false, op, pieces)[0].op == op
    decreases |pieces|
  {
    if pieces != [] { FirstOp(op, pieces[1..]); }
  }

  /** Every list the splitter returns is trimmed, non-empty in every segment, quote-closed
      in all but the last, and starts with ";". */
  lemma SplitGood(raw: string, limit: int)
    ensures var segs := Take(SplitAll(raw), limit);
            && GoodList(segs) && (segs != [] ==> segs[0].op == Seq)
  {
    AssembledGood(false, Seq, raw);
    FirstOp(Seq, Pieces(None, "", raw));
  }

  /** Printing what was split, and splitting it again with the same limit, changes nothing. */
  lemma SplitPrintSplit(raw: string, limit: int)
    ensures var segs := Take(SplitAll(raw), limit); Take(SplitAll(Print(segs)), limit) == segs
  {
    hide SplitAll, Print;
    SplitGood(raw, limit);
    PrintThenSplit(Take(SplitAll(raw), limit));
  }

  /** The same for any list of good segments that fits the limit. */
  lemma PrintSplit(segs: seq<Segment>, limit: int)
    requires GoodList(segs) && (segs != [] ==> segs[0].op == Seq) && |segs| <= limit
    ensures Take(SplitAll(Print(segs)), limit) == segs
  {
    PrintThenSplit(segs);
  }

  /** A segment splits to itself alone. */
  lemma SegmentAlone(raw: string, k: nat, limit: int)
    requires k < |SplitAll(raw)| && limit >= 1
    ensures Take(SplitAll(SplitAll(raw)[k].text), limit) == [Segment(Seq, SplitAll(raw)[k].text)]
  {
    hide SplitAll;
    var t := SplitAll(raw)[k].text;
    var alone := [Segment(Seq, t)];
    SplitGood(raw, |SplitAll(raw)|);
    assert Take(SplitAll(raw), |SplitAll(raw)|) == SplitAll(raw);
    assert alone[1..] == [] && Print(alone) == t + "" == t;
    PrintThenSplit(alone);
  }

  /** The segments are disjoint stretches of the line, in order. */
  ghost predicate InOrder(s: string, segs: seq<Segment>)
    decreases |segs|
  {
    segs == [] || exists before, after :: s == before + segs[0].text + after && InOrder(after, segs[1..])
  }

  lemma InOrderLater(x: string, s: string, segs: seq<Segment>)
    requires InOrder(s, segs)
    ensures InOrder(x + s, segs)
  {
    if segs != [] {
      var before, after :| s == before + segs[0].text + after && InOrder(after, segs[1..]);
      assert x + s == (x + before) + segs[0].text + after;
    }
  }

  lemma StripWithin(u: string) returns (before: string, after: string)
    ensures u == before + Strip(u) + after
  {
    before := LStripWithin(u);
    after := RStripWithin(LStrip(u));
    assert u == before + (Strip(u) + after);
  }

  lemma {:induction false} LStripWithin(u: string) returns (before: string)
    ensures u == before + LStrip(u)
  {
    before := "";
    if u != "" && IsSpace(u[0]) {
      var b := LStripWithin(u[1..]);
      before := [u[0]] + b;
      assert u == [u[0]] + u[1..];
    }
  }

  lemma {:induction false} RStripWithin(u: string) returns (after: string)
    ensures u == RStrip(u) + after
  {
    after := "";
    if u != "" && IsSpace(u[|u| - 1]) {
      var a := RStripWithin(u[..|u| - 1]);
      after := a + [u[|u| - 1]];
      assert u == u[..|u| - 1] + [u[|u| - 1]];
    }
  }

  lemma {:induction false} AssembledInOrder(started: bool, op: Op, s: string)
    ensures InOrder(s, Assemble(started, op, Pieces(None, "", s)))
    decreases |s|
  {
    hide Lex, EndOf, Strip, InOrder, Assemble;
    var ps := Pieces(None, "", s);
    var u, rest := FirstPiece(None, "", s);
    assert "" + u == u;
    if |ps| == 1 {
      NothingInOrder(rest, true, ps[0].next, ps[1..]);
      NothingInOrder(rest, started, if started then ps[0].next else op, ps[1..]);
    } else {
      AssembledInOrder(true, ps[0].next, rest);
      AssembledInOrder(started, if started then ps[0].next else op, rest);
    }
    PieceInOrder(started, op, ps, u, rest);
  }

  lemma NothingInOrder(rest: string, started: bool, op: Op, pieces: seq<Piece>)
    requires pieces == []
    ensures InOrder(rest, Assemble(started, op, pieces))
  {
  }

  lemma PieceInOrder(started: bool, op: Op, ps: seq<Piece>, u: string, rest: string)
    requires ps != [] && ps[0].text == u
    requires InOrder(rest, Assemble(true, ps[0].next, ps[1..]))
    requires InOrder(rest, Assemble(started, if started then ps[0].next else op, ps[1..]))
    ensures InOrder(u + ps[0].separator + rest, Assemble(started, op, ps))
  {
    hide Strip, InOrder;
    var separator := ps[0].separator;
    if Strip(u) != "" {
      var before, after := StripWithin(u);
      InOrderLater(after + separator, rest, Assemble(true, ps[0].next, ps[1..]));
      InOrderCons(before, Strip(u), after + separator + rest, op, Assemble(true, ps[0].next, ps[1..]));
      assert u + separator + rest == before + Strip(u) + (after + separator + rest);
    } else {
      InOrderLater(u + separator, rest, Assemble(started, if started then ps[0].next else op, ps[1..]));
    }
  }

  lemma InOrderCons(before: string, text: string, after: string, op: Op, segs: seq<Segment>)
    requires InOrder(after, segs)
    ensures InOrder(before + text + after, [Segment(op, text)] + segs)
  {
    var all := [Segment(op, text)] + segs;
    assert all[0].text == text && all[1..] == segs;
    assert before + text + after == before + all[0].text + after && InOrder(after, all[1..]);
  }

  lemma {:induction false} InOrderPrefix(s: string, segs: seq<Segment>, n: nat)
    requires InOrder(s, segs) && n <= |segs|
    ensures InOrder(s, segs[..n])
    decreases n
  {
    if n > 0 {
      var before, after :| s == before + segs[0].text + after && InOrder(after, segs[1..]);
      InOrderPrefix(after, segs[1..], n - 1);
      assert segs[..n][1..] == segs[1..][..n - 1];
    }
  }

  /** Whatever the limit, the segments are disjoint stretches of the line, in order. */
  lemma SplitInOrder(raw: string, limit: int)
    ensures InOrder(raw, Take(SplitAll(raw), limit))
  {
    AssembledInOrder(false, Seq, raw);
    InOrderPrefix(raw, SplitAll(raw), |Take(SplitAll(raw), limit)|);
  }
}
