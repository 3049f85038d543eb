/** What quotes, backslashes and separators mean to `split_command_line` of honeypot/shell/commands.py, stated on
    lines built from their parts. */
module CommandLaws {
  import opened Basics
  import opened CommandLine

  /** A part of a double-quoted text. */
  datatype Inner = Bare(c: char) | Slashed(c: char)

  /** A part of a command: a character that means itself, one behind a backslash, a quoted text, or a lone `&` or
      `|` with the character after it. */
  datatype Atom = Plain(c: char) | Escaped(c: char) | Single(text: string) | Double(inner: seq<Inner>) | Lone(c: char, next: char)

  predicate IsPlain(c: char) {
    c != '\'' && c != '"' && c != '\\' && c != ';' && c != '\n' && c != '&' && c != '|'
  }

  predicate InnerOk(part: Inner) { part.Bare? ==> part.c != '"' && part.c != '\\' }

  predicate Ok(atom: Atom) {
    match atom
    case Plain(c) => IsPlain(c)
    case Escaped(_) => true
    case Single(text) => '\'' !in text
    case Double(inner) => forall i :: 0 <= i < |inner| ==> InnerOk(inner[i])
    case Lone(c, next) => (c == '&' || c == '|') && IsPlain(next)
  }

  function WriteInner(inner: seq<Inner>): string {
    if inner == [] then "" else (match inner[0] case Bare(c) => [c] case Slashed(c) => ['\\', c]) + WriteInner(inner[1..])
  }

  function WriteAtom(atom: Atom): string {
    match atom
    case Plain(c) => [c]
    case Escaped(c) => ['\\', c]
    case Single(text) => "'" + text + "'"
    case Double(inner) => "\"" + WriteInner(inner) + "\""
    case Lone(c, next) => [c, next]
  }

  function Write(atoms: seq<Atom>): string {
    if atoms == [] then "" else WriteAtom(atoms[0]) + Write(atoms[1..])
  }

  predicate AllOk(atoms: seq<Atom>) { forall i :: 0 <= i < |atoms| ==> Ok(atoms[i]) }

  // ---------------------------------------------------------------- reading one part

  /** One lexical step of plain text. */
  lemma Step(quote: Option<char>, buf: string, text: string, rest: string, after: Option<char>)
    requires text != "" && Lex(quote, text + rest) == Text(|text|, after)
    ensures Pieces(quote, buf, text + rest) == Pieces(after, buf + text, rest)
  {
    assert (text + rest)[..|text|] == text && (text + rest)[|text|..] == rest;
  }

  lemma {:induction false} ReadSingle(buf: string, text: string, rest: string)
    requires '\'' !in text
    ensures Pieces(Some('\''), buf, text + ("'" + rest)) == Pieces(None, buf + text + "'", rest)
    decreases |text|
  {
    hide Pieces;
    if text == "" {
      assert text + ("'" + rest) == "'" + rest && buf + text == buf;
      Step(Some('\''), buf, "'", rest, None);
    } else {
      var c, more := text[0], text[1..] + ("'" + rest);
      assert text + ("'" + rest) == [c] + more && text == [c] + text[1..];
      Step(Some('\''), buf, [c], more, Some('\''));
      ReadSingle(buf + [c], text[1..], rest);
      assert buf + [c] + text[1..] == buf + text;
    }
  }

  lemma {:induction false} ReadDouble(buf: string, inner: seq<Inner>, rest: string)
    requires forall i :: 0 <= i < |inner| ==> InnerOk(inner[i])
    ensures Pieces(Some('"'), buf, WriteInner(inner) + ("\"" + rest)) == Pieces(None, buf + WriteInner(inner) + "\"", rest)
    decreases |inner|
  {
    hide Pieces;
    if inner == [] {
      assert WriteInner(inner) + ("\"" + rest) == "\"" + rest && buf + "" == buf;
      Step(Some('"'), buf, "\"", rest, None);
    } else {
      var first := match inner[0] case Bare(c) => [c] case Slashed(c) => ['\\', c];
      var more := WriteInner(inner[1..]) + ("\"" + rest);
      assert WriteInner(inner) + ("\"" + rest) == first + more;
      Step(Some('"'), buf, first, more, Some('"'));
      ReadDouble(buf + first, inner[1..], rest);
      assert buf + first + WriteInner(inner[1..]) == buf + WriteInner(inner);
    }
  }

  lemma Quoted(mark: string, text: string, buf: string, rest: string)
    ensures (mark + text + mark) + rest == mark + (text + (mark + rest))
    ensures buf + mark + text + mark == buf + (mark + text + mark)
  {
  }

  lemma ReadAtom(buf: string, atom: Atom, rest: string)
    requires Ok(atom)
    ensures Pieces(None, buf, WriteAtom(atom) + rest) == Pieces(None, buf + WriteAtom(atom), rest)
  {
    hide Pieces;
    match atom
    case Plain(c) => Step(None, buf, [c], rest, None);
    case Escaped(c) => Step(None, buf, ['\\', c], rest, None);
    case Single(text) =>
      Quoted("'", text, buf, rest);
      Step(None, buf, "'", text + ("'" + rest), Some('\''));
      ReadSingle(buf + "'", text, rest);
    case Double(inner) =>
      Quoted("\"", WriteInner(inner), buf, rest);
      Step(None, buf, "\"", WriteInner(inner) + ("\"" + rest), Some('"'));
      ReadDouble(buf + "\"", inner, rest);
    case Lone(c, next) =>
      assert [c, next] + rest == [c] + ([next] + rest);
      Step(None, buf, [c], [next] + rest, None);
      Step(None, buf + [c], [next], rest, None);
      assert buf + [c] + [next] == buf + [c, next];
  }

  /** Whatever is built from these parts is read as text, with no separator in it and no quote left open. */
  lemma {:induction false} ReadAtoms(buf: string, atoms: seq<Atom>, rest: string)
    requires AllOk(atoms)
    ensures Pieces(None, buf, Write(atoms) + rest) == Pieces(None, buf + Write(atoms), rest)
    decreases |atoms|
  {
    hide Pieces, WriteAtom, Ok;
    if atoms == [] {
      assert "" + rest == rest && buf + "" == buf;
    } else {
      assert Ok(atoms[0]) && forall i :: 0 <= i < |atoms[1..]| ==> atoms[1..][i] == atoms[i + 1];
      var first, more := WriteAtom(atoms[0]), Write(atoms[1..]);
      assert Write(atoms) + rest == first + (more + rest);
      ReadAtom(buf, atoms[0], more + rest);
      ReadAtoms(buf + first, atoms[1..], rest);
      assert buf + first + more == buf + Write(atoms);
    }
  }

  // ---------------------------------------------------------------- whole lines

  datatype Separator = Semicolon | Newline | AndAnd | OrOr

  function SeparatorText(sep: Separator): string {
    match sep case Semicolon => ";" case Newline => "\n" case AndAnd => "&&" case OrOr => "||"
  }

  function OpOf(sep: Separator): Op {
    match sep case Semicolon => Seq case Newline => Seq case AndAnd => And case OrOr => Or
  }

  /** A command behind a separator. */
  datatype Chunk = Chunk(sep: Separator, atoms: seq<Atom>)

  function WriteChunks(chunks: seq<Chunk>): string {
    if chunks == [] then "" else SeparatorText(chunks[0].sep) + (Write(chunks[0].atoms) + WriteChunks(chunks[1..]))
  }

  function PiecesFor(text: string, chunks: seq<Chunk>): seq<Piece>
    decreases |chunks|
  {
    if chunks == [] then [Piece(text, "", Seq)]
    else [Piece(text, SeparatorText(chunks[0].sep), OpOf(chunks[0].sep))] + PiecesFor(Write(chunks[0].atoms), chunks[1..])
  }

  ghost predicate ChunksOk(chunks: seq<Chunk>) { forall i {:trigger chunks[i]} :: 0 <= i < |chunks| ==> AllOk(chunks[i].atoms) }

  lemma {:induction false} ReadChunks(text: string, chunks: seq<Chunk>)
    requires ChunksOk(chunks)
    ensures Pieces(None, text, WriteChunks(chunks)) == PiecesFor(text, chunks)
    decreases |chunks|
  {
    hide Write, AllOk;
    if chunks != [] {
      var sep, written, more := SeparatorText(chunks[0].sep), Write(chunks[0].atoms), WriteChunks(chunks[1..]);
      var s := sep + (written + more);
      assert WriteChunks(chunks) == s;
      assert Lex(None, s) == Separator(|sep|, OpOf(chunks[0].sep)) && s[..|sep|] == sep && s[|sep|..] == written + more;
      ReadAtoms("", chunks[0].atoms, more);
      assert "" + written == written;
      assert forall i :: 0 <= i < |chunks[1..]| ==> chunks[1..][i] == chunks[i + 1];
      ReadChunks(written, chunks[1..]);
    }
  }

  /** The commands of a line, with the operator before each. */
  function SegmentsFor(op: Op, text: string, chunks: seq<Chunk>): seq<Segment>
    decreases |chunks|
  {
    [Segment(op, Strip(text))]
    + if chunks == [] then [] else SegmentsFor(OpOf(chunks[0].sep), Write(chunks[0].atoms), chunks[1..])
  }

  ghost predicate NoneBlank(text: string, chunks: seq<Chunk>) {
    Strip(text) != "" && forall i {:trigger chunks[i]} :: 0 <= i < |chunks| ==> Strip(Write(chunks[i].atoms)) != ""
  }

  lemma {:induction false} AssembleChunks(started: bool, op: Op, text: string, chunks: seq<Chunk>)
    requires NoneBlank(text, chunks)
    ensures Assemble(started, op, PiecesFor(text, chunks)) == SegmentsFor(op, text, chunks)
    decreases |chunks|
  {
    hide Strip, Write;
    var ps := PiecesFor(text, chunks);
    if chunks == [] {
      assert ps[1..] == [];
    } else {
      assert ps[1..] == PiecesFor(Write(chunks[0].atoms), chunks[1..]);
      assert forall i :: 0 <= i < |chunks[1..]| ==> chunks[1..][i] == chunks[i + 1];
      AssembleChunks(true, OpOf(chunks[0].sep), Write(chunks[0].atoms), chunks[1..]);
    }
  }

  /** A line splits exactly at its `;`, newlines, `&&` and `||` outside quotes and not behind a backslash, into its
      commands without the blanks around them. */
  lemma LineSplits(first: seq<Atom>, chunks: seq<Chunk>)
    requires AllOk(first) && ChunksOk(chunks) && NoneBlank(Write(first), chunks)
    ensures SplitAll(Write(first) + WriteChunks(chunks)) == SegmentsFor(Seq, Write(first), chunks)
  {
    hide Pieces, Assemble, Strip, Write;
    ReadAtoms("", first, WriteChunks(chunks));
    assert "" + Write(first) == Write(first);
    ReadChunks(Write(first), chunks);
    AssembleChunks(false, Seq, Write(first), chunks);
  }

  /** A blank command drops out, and what follows it keeps the operator nearest to it. */
  lemma BlankDropped(first: seq<Atom>, before: Separator, blank: seq<Atom>, after: Separator, last: seq<Atom>)
    requires AllOk(first) && AllOk(blank) && AllOk(last)
    requires Strip(Write(first)) != "" && Strip(Write(blank)) == "" && Strip(Write(last)) != ""
    ensures SplitAll(Write(first) + WriteChunks([Chunk(before, blank), Chunk(after, last)]))
         == [Segment(Seq, Strip(Write(first))), Segment(OpOf(after), Strip(Write(last)))]
  {
    hide Pieces, Assemble, Strip, Write;
    var chunks := [Chunk(before, blank), Chunk(after, last)];
    ReadAtoms("", first, WriteChunks(chunks));
    assert "" + Write(first) == Write(first);
    ReadChunks(Write(first), chunks);
    assert chunks[1..] == [Chunk(after, last)] && chunks[1..][1..] == [];
    assert PiecesFor(Write(last), []) == [Piece(Write(last), "", Seq)];
    DropsOut(Write(first), before, Write(blank), after, Write(last));
  }

  lemma DropsOut(first: string, before: Separator, blank: string, after: Separator, last: string)
    requires Strip(first) != "" && Strip(blank) == "" && Strip(last) != ""
    ensures Assemble(false, Seq, [Piece(first, SeparatorText(before), OpOf(before))]
                                 + ([Piece(blank, SeparatorText(after), OpOf(after))] + [Piece(last, "", Seq)]))
         == [Segment(Seq, Strip(first)), Segment(OpOf(after), Strip(last))]
  {
    hide Strip, SeparatorText, OpOf;
    var c := [Piece(last, "", Seq)];
    var b := [Piece(blank, SeparatorText(after), OpOf(after))] + c;
    var a := [Piece(first, SeparatorText(before), OpOf(before))] + b;
    assert a[1..] == b && b[1..] == c && c[1..] == [];
    assert Assemble(true, OpOf(after), c) == [Segment(OpOf(after), Strip(last))] + Assemble(true, Seq, []);
  }
}
