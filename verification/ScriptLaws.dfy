/** What honeypot/fetcher/script_scan.py makes of variables, wrapped commands, loops and comments, stated on scripts
    built from their parts. */
module ScriptLaws {
  import opened Basics
  import opened CommandLine
  import opened ScriptScan
  import CommandLaws

  // ---------------------------------------------------------------- references to variables

  predicate NameChar(c: char) { 'A' <= c <= 'Z' || 'a' <= c <= 'z' || c == '_' || '0' <= c <= '9' }

  /** The names a variable can have. */
  ghost predicate Name(n: string) {
    n != "" && !('0' <= n[0] <= '9') && forall i :: 0 <= i < |n| ==> NameChar(n[i])
  }

  lemma {:induction false} PartLenAll(n: string)
    requires forall i :: 0 <= i < |n| ==> NameChar(n[i])
    ensures PartLen(n) == |n|
  {
    if n != "" { PartLenAll(n[1..]); }
  }

  lemma NameEnds(n: string, tail: string)
    requires Name(n) && (tail == "" || !NameChar(tail[0]))
    ensures IsIdent(n) && IdentLen(n + tail) == |n|
  {
    PartLenAll(n);
    PartLenWhole(n, tail);
    assert (n + tail)[0] == n[0];
  }

  lemma {:induction false} ExpandFront(a: string, rest: string, vars: Vars)
    requires '$' !in a
    ensures Expand(a + rest, vars) == a + Expand(rest, vars)
    decreases |a|
  {
    hide IdentLen, Lookup;
    if a == "" {
      assert a + rest == rest;
    } else {
      assert (a + rest)[0] == a[0] && (a + rest)[1..] == a[1..] + rest;
      ExpandFront(a[1..], rest, vars);
      assert a == [a[0]] + a[1..];
    }
  }

  lemma ExpandName(n: string, b: string, vars: Vars)
    requires Name(n) && (b == "" || !NameChar(b[0]))
    ensures Expand("$" + n + b, vars) == (if n in vars then vars[n] else "$" + n) + Expand(b, vars)
  {
    var text := "$" + n + b;
    NameEnds(n, b);
    assert text[1..] == n + b && text[1] == n[0] && text[1..1 + |n|] == n && text[..1 + |n|] == "$" + n && text[1 + |n|..] == b;
  }

  lemma ExpandBraced(n: string, b: string, vars: Vars)
    requires Name(n)
    ensures Expand("${" + n + "}" + b, vars) == (if n in vars then vars[n] else "${" + n + "}") + Expand(b, vars)
  {
    var text := "${" + n + "}" + b;
    NameEnds(n, "}" + b);
    assert text[2..] == n + ("}" + b) && text[2 + |n|] == '}';
    assert text[2..2 + |n|] == n && text[..3 + |n|] == "${" + n + "}" && text[3 + |n|..] == b;
  }

  /** How a variable is referred to. */
  function Reference(n: string, braced: bool): string { if braced then "${" + n + "}" else "$" + n }

  /** A reference to a variable that has a value is replaced by the value, one to any other stays as written, and
      the text before and behind it is treated on its own. */
  lemma ExpandReference(a: string, n: string, braced: bool, b: string, vars: Vars)
    requires '$' !in a && Name(n) && (braced || b == "" || !NameChar(b[0]))
    ensures Expand(a + Reference(n, braced) + b, vars)
         == a + (if n in vars then vars[n] else Reference(n, braced)) + Expand(b, vars)
  {
    hide Expand, Name, NameChar;
    AppendAssociates(a, Reference(n, braced), b);
    ExpandFront(a, Reference(n, braced) + b, vars);
    if braced { ExpandBraced(n, b, vars); } else { ExpandName(n, b, vars); }
    AppendAssociates(a, if n in vars then vars[n] else Reference(n, braced), Expand(b, vars));
  }

  lemma ExpandAlone(n: string, braced: bool, vars: Vars)
    requires Name(n)
    ensures Expand(Reference(n, braced), vars) == if n in vars then vars[n] else Reference(n, braced)
  {
    hide Expand;
    ExpandReference("", n, braced, "", vars);
    assert "" + Reference(n, braced) + "" == Reference(n, braced);
    NothingToExpand("", vars);
    var value := if n in vars then vars[n] else Reference(n, braced);
    assert "" + value + "" == value;
  }

  // ---------------------------------------------------------------- words and arguments

  lemma {:induction false} WordEnds(w: string, tail: string)
    requires (forall i :: 0 <= i < |w| ==> !IsSpace(w[i])) && (tail == "" || IsSpace(tail[0]))
    ensures WordLen(w + tail) == |w|
    decreases |w|
  {
    if w == "" {
      assert w + tail == tail;
    } else {
      assert (w + tail)[1..] == w[1..] + tail;
      WordEnds(w[1..], tail);
    }
  }

  /** The first word of a segment is what stands before its first blank. */
  lemma FirstWordIs(before: string, w: string, tail: string)
    requires AllSpace(before) && w != "" && (forall i :: 0 <= i < |w| ==> !IsSpace(w[i])) && (tail == "" || IsSpace(tail[0]))
    ensures FirstWord(before + w + tail) == w && AfterFirstWord(before + w + tail) == LStrip(tail)
  {
    hide LStrip;
    assert before + w + tail == before + (w + tail) && (w + tail)[0] == w[0];
    LStripPadded(before, w + tail);
    WordEnds(w, tail);
    assert (w + tail)[..|w|] == w && (w + tail)[|w|..] == tail;
  }

  /** Words with a blank before each. */
  function Spaced(ws: seq<string>): string { if ws == [] then "" else " " + ws[0] + Spaced(ws[1..]) }

  lemma WordsStep(text: string, s: string)
    requires LStrip(text) == s && WordLen(s) > 0
    ensures Words(text) == [s[..WordLen(s)]] + Words(s[WordLen(s)..])
  {
  }

  lemma OneWord(w: string, more: string)
    requires w != "" && (forall i :: 0 <= i < |w| ==> !IsSpace(w[i])) && (more == "" || more[0] == ' ')
    ensures Words(" " + w + more) == [w] + Words(more)
  {
    hide Words, WordLen, LStrip;
    var s, text := w + more, " " + w + more;
    assert text == " " + s && s[0] == w[0];
    LStripPadded(" ", s);
    WordEnds(w, more);
    assert s[..|w|] == w && s[|w|..] == more;
    WordsStep(text, s);
  }

  /** `split()` gives back the words of a text. */
  lemma {:induction false} WordsAre(ws: seq<string>)
    requires forall k :: 0 <= k < |ws| ==> ws[k] != "" && forall i :: 0 <= i < |ws[k]| ==> !IsSpace(ws[k][i])
    ensures Words(Spaced(ws)) == ws
  {
    if ws != [] {
      var w, more := ws[0], Spaced(ws[1..]);
      OneWord(w, more);
      WordsAre(ws[1..]);
    }
  }

  predicate StandsAt(s: string, t: string, i: nat) { i + |t| <= |s| && s[i..i + |t|] == t }

  lemma NotAtFront(s: string, t: string)
    ensures StandsAt(s, t, 0) <==> t <= s
  {
    if StandsAt(s, t, 0) { assert s[..|t|] == s[0..0 + |t|]; }
  }

  lemma StandsLater(s: string, t: string, i: nat)
    requires s != ""
    ensures StandsAt(s, t, i + 1) <==> StandsAt(s[1..], t, i)
  {
    if i + 1 + |t| <= |s| { assert s[1..][i..i + |t|] == s[i + 1..i + 1 + |t|]; }
  }

  lemma {:induction false} ContainsIs(s: string, t: string)
    ensures Contains(s, t) <==> exists i: nat :: StandsAt(s, t, i)
  {
    hide StandsAt;
    NotAtFront(s, t);
    if s != "" {
      ContainsIs(s[1..], t);
      if i: nat :| StandsAt(s[1..], t, i) { StandsLater(s, t, i); }
      if i: nat :| StandsAt(s, t, i) {
        if i > 0 { StandsLater(s, t, i - 1); }
      }
    } else {
      NothingAt(t);
    }
  }

  lemma NothingAt(t: string)
    ensures forall i: nat :: StandsAt("", t, i) ==> i == 0
  {
  }

  /** The URL of a command is its last argument that holds "://". */
  lemma {:induction false} LastUrlIs(args: seq<string>)
    ensures match LastUrl(args)
            case None => forall k :: 0 <= k < |args| ==> !Contains(args[k], "://")
            case Some(url) => exists k :: 0 <= k < |args| && args[k] == url && Contains(url, "://")
                                          && forall j :: k < j < |args| ==> !Contains(args[j], "://")
  {
    hide Contains;
    if args != [] && !Contains(args[|args| - 1], "://") { LastUrlIs(args[..|args| - 1]); }
  }

  /** `tftp -r FILE -g HOST` and `tftp HOST -c get FILE` both name HOST. */
  lemma TftpHosts(file: string, host: string)
    requires host != "" && host[0] != '-'
    ensures TftpHost(["-r", file, "-g", host]) == Some(host) && TftpHost(["-l", file, "-g", host]) == Some(host)
    ensures TftpHost([host, "-c", "get", file]) == Some(host) && TftpHost(["-c", "get", file, host]) == Some(host)
  {
    assert host != "-l" && host != "-r" && host != "-b" && host != "-c" && !("-" <= host);
    assert ["-g", host][1..] == [host] && "-" <= "-g";
    assert TftpHost(["-g", host]) == TftpHost([host]) == Some(host);
    assert ["-r", file, "-g", host][2..] == ["-g", host] && ["-l", file, "-g", host][2..] == ["-g", host];
    assert ["-c", "get", file, host][3..] == [host];
  }

  // ---------------------------------------------------------------- wrapped commands

  /** What may stand before a command: shell keywords, assignments, and `busybox` by any path. */
  ghost predicate Lead(lead: seq<string>) {
    || lead == [] || lead == ["export"]
    || (|lead| >= 1 && (lead[0] == "do" || lead[0] == "then" || lead[0] == "else") && (lead == [lead[0]] || lead == [lead[0], "export"]))
  }

  ghost predicate Assignment(token: string) {
    exists n: string, v: string {:trigger n + "=" + v} :: Name(n) && token == n + "=" + v
  }

  ghost predicate BusyboxPath(token: string) {
    token == "busybox" || (exists dir: string {:trigger dir + "/busybox"} :: token == dir + "/busybox" && '=' !in dir)
  }

  lemma AssignmentIs(token: string)
    requires Assignment(token)
    ensures IsAssignment(token) && token != "do" && token != "then" && token != "else" && token != "export"
  {
    var n: string, v: string :| Name(n) && token == n + "=" + v;
    assert token == n + ("=" + v);
    NameEnds(n, "=" + v);
    assert token[|n|] == '=' && '=' in token;
  }

  /** Nothing else is an assignment. */
  lemma OnlyAssignments(token: string)
    requires IsAssignment(token)
    ensures Assignment(token)
  {
    var k := IdentLen(token);
    var n, v := token[..k], token[k + 1..];
    assert token == n + "=" + v;
    assert forall i :: 0 <= i < |n| ==> n[i] == token[i] && IdentPart(token[i]);
    assert Name(n);
  }

  lemma NoAssignment(token: string)
    requires '=' !in token
    ensures !IsAssignment(token)
  {
  }

  lemma {:induction false} AssignmentsDropped(assigns: seq<string>, rest: seq<string>)
    requires (forall i :: 0 <= i < |assigns| ==> Assignment(assigns[i])) && rest != [] && '=' !in rest[0]
    ensures AfterAssignments(assigns + rest) == rest
    decreases |assigns|
  {
    if assigns == [] {
      NoAssignment(rest[0]);
      assert assigns + rest == rest;
    } else {
      AssignmentIs(assigns[0]);
      assert (assigns + rest)[1..] == assigns[1..] + rest;
      AssignmentsDropped(assigns[1..], rest);
    }
  }

  lemma {:induction false} BusyboxDropped(boxes: seq<string>, command: string, args: seq<string>)
    requires (forall i :: 0 <= i < |boxes| ==> BusyboxPath(boxes[i])) && !IsBusybox(command)
    ensures AfterBusybox(boxes + [command] + args) == [command] + args
    decreases |boxes|
  {
    var all := boxes + [command] + args;
    if boxes == [] {
      assert all == [command] + args && all[0] == command;
    } else {
      assert all[0] == boxes[0] && all[1..] == boxes[1..] + [command] + args;
      BusyboxIs(boxes[0]);
      BusyboxDropped(boxes[1..], command, args);
    }
  }

  lemma BusyboxIs(token: string)
    requires BusyboxPath(token)
    ensures IsBusybox(token) && '=' !in token
  {
    if token != "busybox" {
      var dir: string :| token == dir + "/busybox" && '=' !in dir;
      assert token[|token| - 8..] == "/busybox";
    }
  }

  lemma {:induction false} BaseNameIs(dir: string, cmd: string)
    requires '/' !in cmd && (dir == "" || dir[|dir| - 1] == '/')
    ensures BaseName(dir + cmd) == cmd
    decreases |dir|
  {
    if dir == "" {
      assert dir + cmd == cmd;
    } else {
      assert (dir + cmd)[|dir| - 1] == '/' && (dir + cmd)[1..] == dir[1..] + cmd;
      BaseNameIs(dir[1..], cmd);
    }
  }

  /** Whatever wraps it, a `wget` or `curl` downloads the last of its arguments that is a URL once the variables are
      replaced: it is listed if that is http or https, counted as skipped if it is not, or if some argument still
      holds `$` or a backquote, and ignored if there is none. */
  lemma WrappedDownload(lib: Library, segment: string, lead: seq<string>, assigns: seq<string>, boxes: seq<string>,
                        dir: string, cmd: string, args: seq<string>, env: Vars)
    requires lib.tokenize(segment) == lead + (assigns + (boxes + [dir + cmd] + args))
    requires Lead(lead) && (forall i :: 0 <= i < |assigns| ==> Assignment(assigns[i])) && (forall i :: 0 <= i < |boxes| ==> BusyboxPath(boxes[i]))
    requires (cmd == "wget" || cmd == "curl") && '=' !in dir && (dir == "" || dir[|dir| - 1] == '/')
    ensures var given := ExpandAll(args, EnvAfter(lib, segment, env));
            VerdictOf(lib, segment, env)
            == if exists i :: 0 <= i < |given| && ('$' in given[i] || '`' in given[i]) then Skipped
               else match LastUrl(given)
                    case None => Nothing
                    case Some(url) =>
                      if lib.scheme(url) == "" || lib.scheme(url) == "http" || lib.scheme(url) == "https" then Url(url) else Skipped
  {
    hide Expand, LastUrl, BaseName, AfterBusybox, AfterAssignments, Assigned;
    var command := boxes + [dir + cmd] + args;
    NotBusybox(dir, cmd);
    LeadDropped(lead, assigns + command, assigns, boxes, dir + cmd, args);
    if boxes != [] { BusyboxIs(boxes[0]); }
    AssignmentsDropped(assigns, command);
    BusyboxDropped(boxes, dir + cmd, args);
    BaseNameIs(dir, cmd);
    assert ([dir + cmd] + args)[1..] == args;
    assert CommandTokens(lib, segment) == [dir + cmd] + args;
  }

  /** `tftp` is never fetched: it is counted as skipped if it names a host, or leaves an argument unresolved. */
  lemma TftpSkipped(lib: Library, segment: string, args: seq<string>, env: Vars)
    requires lib.tokenize(segment) == ["tftp"] + args
    ensures EnvAfter(lib, segment, env) == env
    ensures var given := ExpandAll(args, env);
            VerdictOf(lib, segment, env)
            == if (exists i :: 0 <= i < |given| && ('$' in given[i] || '`' in given[i])) || TftpHost(given).Some? then Skipped else Nothing
  {
    hide Expand, TftpHost;
    NoAssignment("tftp");
    BareCommand(lib, segment, "tftp", args, env);
    assert "tftp" != "wget" && "tftp" != "curl";
  }

  /** Any other command downloads nothing. */
  lemma OtherCommand(lib: Library, segment: string, command: string, args: seq<string>, env: Vars)
    requires lib.tokenize(segment) == [command] + args
    requires command != "wget" && command != "curl" && command != "tftp" && '/' !in command && '=' !in command
    requires command != "do" && command != "then" && command != "else" && command != "export" && command != "busybox"
    ensures VerdictOf(lib, segment, env) == Nothing && EnvAfter(lib, segment, env) == env
  {
    hide Expand;
    NoAssignment(command);
    BareCommand(lib, segment, command, args, env);
  }

  lemma EndsWith(s: string, t: string)
    requires 0 < |t| <= |s| && s[|s| - |t|..] == t
    ensures t[0] in s
  {
    assert s[|s| - |t|] == t[0];
  }

  lemma BareCommand(lib: Library, segment: string, command: string, args: seq<string>, env: Vars)
    requires lib.tokenize(segment) == [command] + args && !IsAssignment(command)
    requires command != "do" && command != "then" && command != "else" && command != "export" && command != "busybox" && '/' !in command
    ensures CommandTokens(lib, segment) == [command] + args && EnvAfter(lib, segment, env) == env && BaseName(command) == command
    ensures ([command] + args)[1..] == args
  {
    var tokens := [command] + args;
    assert tokens[0] == command && tokens[1..] == args;
    if |command| >= 8 && command[|command| - 8..] == "/busybox" { EndsWith(command, "/busybox"); }
    assert DropLead(tokens) == tokens && AfterAssignments(tokens) == tokens && AfterBusybox(tokens) == tokens;
  }

  lemma NotBusybox(dir: string, cmd: string)
    requires (cmd == "wget" || cmd == "curl") && (dir == "" || dir[|dir| - 1] == '/')
    ensures !IsBusybox(dir + cmd)
    ensures dir + cmd != "do" && dir + cmd != "then" && dir + cmd != "else" && dir + cmd != "export"
  {
    var token := dir + cmd;
    assert token[|token| - 4] == cmd[0] && "export"[2] != cmd[0];
    assert token[|token| - 1] == cmd[3] && cmd[3] != 'x';
    if |token| >= 8 { assert token[|token| - 8..][7] == cmd[3] && "/busybox"[7] == 'x'; }
    assert "busybox"[6] == 'x';
  }

  lemma LeadDropped(lead: seq<string>, rest: seq<string>, assigns: seq<string>, boxes: seq<string>, command: string, args: seq<string>)
    requires Lead(lead) && rest == assigns + (boxes + [command] + args) && (forall i :: 0 <= i < |assigns| ==> Assignment(assigns[i]))
    requires (forall i :: 0 <= i < |boxes| ==> BusyboxPath(boxes[i]))
    requires command != "do" && command != "then" && command != "else" && command != "export"
    ensures DropLead(lead + rest) == rest
  {
    var first := rest[0];
    if assigns != [] {
      assert first == assigns[0];
      AssignmentIs(first);
    } else if boxes != [] {
      assert first == boxes[0];
      BusyboxIs(first);
    } else {
      assert first == command;
    }
    assert first != "do" && first != "then" && first != "else" && first != "export";
    if lead == [] {
      assert lead + rest == rest;
    } else if |lead| == 1 {
      assert (lead + rest)[1..] == rest;
    } else {
      assert (lead + rest)[1..] == [lead[1]] + rest && ([lead[1]] + rest)[1..] == rest;
    }
  }

  /** An assignment sets its variable to its value with the variables in it replaced, unless something in it is left
      unresolved; the next one sees the result. */
  lemma AssignmentSets(n: string, v: string, rest: seq<string>, env: Vars)
    requires Name(n)
    ensures var value := Expand(v, env);
            Assigned([n + "=" + v] + rest, env) == Assigned(rest, if '$' in value || '`' in value then env else env[n := value])
  {
    hide Expand;
    var token := n + "=" + v;
    assert token == n + ("=" + v);
    NameEnds(n, "=" + v);
    assert token[|n|] == '=' && token[..|n|] == n && token[|n| + 1..] == v;
    assert ([token] + rest)[1..] == rest;
  }

  // ---------------------------------------------------------------- whole scripts

  /** A line without blanks at its ends that holds one command. */
  ghost predicate OneCommand(line: string) {
    line != "" && !IsSpace(line[0]) && !IsSpace(line[|line| - 1]) && line[0] != '#' && SplitAll(line) == [CommandLine.Segment(Seq, line)]
  }

  /** A line of plain characters is one command. */
  lemma PlainLine(line: string)
    requires line != "" && !IsSpace(line[0]) && !IsSpace(line[|line| - 1]) && line[0] != '#'
    requires forall i :: 0 <= i < |line| ==> CommandLaws.IsPlain(line[i])
    ensures OneCommand(line)
  {
    hide SplitAll, Strip;
    var atoms := seq(|line|, i requires 0 <= i < |line| => CommandLaws.Plain(line[i]));
    PlainWritten(line, atoms);
    TrimmedStays(line);
    CommandLaws.LineSplits(atoms, []);
    assert CommandLaws.Write(atoms) + CommandLaws.WriteChunks([]) == line;
    assert CommandLaws.SegmentsFor(Seq, line, []) == [CommandLine.Segment(Seq, line)];
  }

  lemma {:induction false} PlainWritten(line: string, atoms: seq<CommandLaws.Atom>)
    requires |atoms| == |line| && forall i :: 0 <= i < |line| ==> atoms[i] == CommandLaws.Plain(line[i])
    ensures CommandLaws.Write(atoms) == line
    decreases |line|
  {
    if line != "" {
      assert line == [line[0]] + line[1..] && atoms[1..] == atoms[1..];
      PlainWritten(line[1..], atoms[1..]);
    }
  }

  lemma TrimmedStays(line: string)
    requires line != "" && !IsSpace(line[0]) && !IsSpace(line[|line| - 1])
    ensures Strip(line) == line
  {
    assert LStrip(line) == line && RStrip(line) == line;
  }

  lemma {:induction false} OneCommandEach(lines: seq<string>, segments: seq<string>)
    requires (forall i :: 0 <= i < |lines| ==> OneCommand(lines[i])) && |segments| + |lines| < 20000
    ensures ScriptSegments(lines, segments) == segments + lines
    decreases |lines|
  {
    hide Strip, SplitAll;
    if lines == [] {
      assert segments + lines == segments;
    } else {
      var line := lines[0];
      assert OneCommand(line);
      TrimmedStays(line);
      var parts := [CommandLine.Segment(Seq, line)];
      assert Take(parts, 500) == parts && parts[1..] == [] && Texts(parts) == [line];
      OneCommandEach(lines[1..], segments + [line]);
      assert segments + [line] + lines[1..] == segments + lines;
    }
  }

  /** A comment or an empty line adds nothing to a script. */
  lemma {:induction false} CommentIgnored(before: seq<string>, comment: string, after: seq<string>, segments: seq<string>)
    requires Strip(comment) == "" || Strip(comment)[0] == '#'
    ensures ScriptSegments(before + [comment] + after, segments) == ScriptSegments(before + after, segments)
    decreases |before|
  {
    hide Strip, SplitAll, Texts;
    var lines := before + [comment] + after;
    if before == [] {
      assert lines[0] == comment && lines[1..] == after && before + after == after;
    } else {
      assert lines[0] == before[0] && lines[1..] == before[1..] + [comment] + after;
      assert (before + after)[0] == before[0] && (before + after)[1..] == before[1..] + after;
      var more := segments + Texts(Take(SplitAll(Strip(before[0])), 500));
      CommentIgnored(before[1..], comment, after, segments);
      CommentIgnored(before[1..], comment, after, more);
    }
  }

  lemma FirstWordPlain(line: string)
    requires line != "" && forall i :: 0 <= i < |line| ==> !IsSpace(line[i])
    ensures FirstWord(line) == line
  {
    FirstWordIs("", line, "");
    assert "" + line + "" == line;
  }

  lemma WgetEnv(lib: Library, arg: string, env: Vars)
    requires lib.tokenize("wget " + arg) == ["wget", arg]
    ensures EnvAfter(lib, "wget " + arg, env) == env
  {
    NoAssignment("wget");
    assert DropLead(["wget", arg]) == ["wget", arg];
  }

  lemma WgetTokens(arg: string)
    ensures var none: seq<string> := []; ["wget", arg] == none + (none + (none + ["" + "wget"] + [arg]))
  {
    assert "" + "wget" == "wget";
    var none: seq<string> := [];
    assert none + ["wget"] + [arg] == ["wget", arg];
  }

  /** `wget` with one argument. */
  lemma WgetOf(lib: Library, arg: string, env: Vars)
    requires lib.tokenize("wget " + arg) == ["wget", arg]
    ensures EnvAfter(lib, "wget " + arg, env) == env
    ensures var x := Expand(arg, env);
            VerdictOf(lib, "wget " + arg, env)
            == if '$' in x || '`' in x then Skipped
               else if !Contains(x, "://") then Nothing
               else if lib.scheme(x) == "" || lib.scheme(x) == "http" || lib.scheme(x) == "https" then Url(x) else Skipped
  {
    hide Expand, VerdictOf, LastUrl, Contains, EnvAfter;
    WgetEnv(lib, arg, env);
    WgetTokens(arg);
    WrappedDownload(lib, "wget " + arg, [], [], [], "", "wget", [arg], env);
    var given := ExpandAll([arg], env);
    assert given == [Expand(arg, env)] && given[0] == Expand(arg, env);
    LastOfOne(Expand(arg, env));
  }

  lemma WgetFirst(arg: string)
    ensures FirstWord("wget " + arg) == "wget"
  {
    assert "wget " + arg == "" + "wget" + (" " + arg);
    FirstWordIs("", "wget", " " + arg);
  }

  /** `wget REFERENCE` in a given environment. */
  lemma DownloadOf(lib: Library, n: string, braced: bool, env: Vars)
    requires Name(n) && lib.tokenize("wget " + Reference(n, braced)) == ["wget", Reference(n, braced)]
    ensures var line := "wget " + Reference(n, braced);
            && EnvAfter(lib, line, env) == env && FirstWord(line) == "wget"
            && (n !in env ==> VerdictOf(lib, line, env) == Skipped)
            && (n in env && '$' !in env[n] && '`' !in env[n] && Contains(env[n], "://")
                && (lib.scheme(env[n]) == "http" || lib.scheme(env[n]) == "https")
                ==> VerdictOf(lib, line, env) == Url(env[n]))
  {
    hide Expand, VerdictOf, EnvAfter, FirstWord, Contains, Reference;
    WgetOf(lib, Reference(n, braced), env);
    WgetFirst(Reference(n, braced));
    ExpandAlone(n, braced, env);
    ReferenceUnresolved(n, braced);
  }

  lemma ReferenceUnresolved(n: string, braced: bool)
    ensures '$' in Reference(n, braced)
  {
    assert Reference(n, braced)[0] == '$';
  }

  lemma LastOfOne(u: string)
    ensures LastUrl([u]) == if Contains(u, "://") then Some(u) else None
  {
  }

  /** One segment of the main loop that starts no loop. */
  lemma PlainRun(lib: Library, cap: int, segs: seq<string>, i: nat, vars: Vars, acc: Acc)
    requires i < |segs| && !Full(cap, acc) && FirstWord(segs[i]) != "for"
    ensures var next := Record(cap, acc, VerdictOf(lib, segs[i], vars));
            && RunFrom(lib, cap, segs, i, vars, acc) == RunFrom(lib, cap, segs, i + 1, EnvAfter(lib, segs[i], vars), next)
            && (i + 1 == |segs| ==> RunFrom(lib, cap, segs, i, vars, acc) == next)
  {
    hide VerdictOf, EnvAfter, FirstWord, ReadLoop, Record;
  }

  /** The first segment of a script that assigns a variable. */
  lemma AssignmentRun(lib: Library, cap: int, n: string, url: string, more: seq<string>)
    requires Name(n) && url != "" && '$' !in url && '`' !in url && (forall i :: 0 <= i < |url| ==> !IsSpace(url[i])) && cap >= 1
    requires lib.tokenize(n + "=" + url) == [n + "=" + url]
    ensures RunFrom(lib, cap, [n + "=" + url] + more, 0, map[], Acc([], 0, 0))
         == RunFrom(lib, cap, [n + "=" + url] + more, 1, map[n := url], Acc([], 0, 1))
  {
    hide VerdictOf, EnvAfter, FirstWord, RunFrom;
    var first := n + "=" + url;
    NameEnds(n, "");
    assert n + "" == n && map[][n := url] == map[n := url];
    AssignmentSegment(lib, first, n, url, map[]);
    FirstWordPlain(first) by {
      assert forall i :: 0 <= i < |n| ==> NameChar(n[i]);
      assert forall i :: 0 <= i < |first| ==> !IsSpace(first[i]);
    }
    assert '=' in first && '=' !in "for" by { assert first[|n|] == '='; }
    PlainRun(lib, cap, [first] + more, 0, map[], Acc([], 0, 0));
  }

  /** A script that assigns a URL to a variable and then downloads what the variable stands for lists that URL, and
      skips nothing: for every name, written `$NAME` or `${NAME}`, and every URL. */
  lemma AssignedThenDownloaded(lib: Library, n: string, url: string, braced: bool, cap: int)
    requires Name(n) && url != "" && '$' !in url && '`' !in url && forall i :: 0 <= i < |url| ==> !IsSpace(url[i])
    requires (lib.scheme(url) == "http" || lib.scheme(url) == "https") && Contains(url, "://") && cap >= 1
    requires OneCommand(n + "=" + url)
    requires lib.tokenize(n + "=" + url) == [n + "=" + url]
    requires lib.tokenize("wget " + Reference(n, braced)) == ["wget", Reference(n, braced)]
    ensures var found := Scan(lib, [n + "=" + url, "wget " + Reference(n, braced)], cap);
            found.urls == [url] && found.skipped == 0
  {
    hide VerdictOf, EnvAfter, FirstWord, Contains, Scan, OneCommand, RunFrom, Reference;
    DownloadLine(n, braced);
    AssignmentRun(lib, cap, n, url, ["wget " + Reference(n, braced)]);
    DownloadOf(lib, n, braced, map[n := url]);
    SecondLineListed(lib, cap, n + "=" + url, "wget " + Reference(n, braced), map[n := url], url);
  }

  lemma SecondLineListed(lib: Library, cap: int, first: string, second: string, env: Vars, url: string)
    requires OneCommand(first) && OneCommand(second) && cap >= 1 && FirstWord(second) != "for"
    requires RunFrom(lib, cap, [first] + [second], 0, map[], Acc([], 0, 0)) == RunFrom(lib, cap, [first] + [second], 1, env, Acc([], 0, 1))
    requires VerdictOf(lib, second, env) == Url(url)
    ensures var found := Scan(lib, [first, second], cap); found.urls == [url] && found.skipped == 0
  {
    hide VerdictOf, EnvAfter, FirstWord, ScriptSegments, OneCommand, RunFrom;
    var lines := [first, second];
    OneCommandEach(lines, []);
    assert [] + lines == lines && [first] + [second] == lines;
    PlainRun(lib, cap, lines, 1, env, Acc([], 0, 1));
  }

  lemma DownloadLine(n: string, braced: bool)
    requires Name(n)
    ensures OneCommand("wget " + Reference(n, braced))
  {
    var line := "wget " + Reference(n, braced);
    assert forall i :: 0 <= i < |n| ==> NameChar(n[i]);
    PlainLine(line);
  }

  /** A download of a variable that has no value is counted as skipped. */
  lemma UnknownSkipped(lib: Library, n: string, braced: bool, cap: int)
    requires Name(n) && cap >= 1 && lib.tokenize("wget " + Reference(n, braced)) == ["wget", Reference(n, braced)]
    ensures var found := Scan(lib, ["wget " + Reference(n, braced)], cap); found.urls == [] && found.skipped == 1
  {
    hide Expand, VerdictOf, EnvAfter, FirstWord, ScriptSegments, OneCommand, RunFrom, Reference;
    var line := "wget " + Reference(n, braced);
    DownloadLine(n, braced);
    OneCommandEach([line], []);
    assert [] + [line] == [line];
    DownloadOf(lib, n, braced, map[]);
    PlainRun(lib, cap, [line], 0, map[], Acc([], 0, 0));
  }

  // ---------------------------------------------------------------- loops

  /** `for NAME in WORDS`, then `do COMMAND`, is a loop over the words its words stand for, at most 64 of them and none
      at all if one stays unresolved; without `in`, or without `do`, it is none. */
  lemma LoopRead(lib: Library, segs: seq<string>, i: nat, n: string, keyword: string, words: seq<string>, vars: Vars)
    requires i + 1 < |segs| && words != [] && lib.tokenize(segs[i]) == ["for", n, keyword] + words
    ensures var loop := ReadLoop(lib, segs, i, vars);
            && (loop.Loop? <==> keyword == "in" && FirstWord(segs[i + 1]) == "do")
            && (loop.Loop? ==>
                  && loop.name == n
                  && (var (given, values) := (ExpandAll(words, vars), loop.values);
                      && ((exists k :: 0 <= k < |given| && ('$' in given[k] || '`' in given[k])) ==> values == [])
                      && (!(exists k :: 0 <= k < |given| && ('$' in given[k] || '`' in given[k])) ==>
                            values <= AllWords(given) && (|values| == |AllWords(given)| || |values| == 64))))
  {
    hide FirstWord, AfterFirstWord, CollectBody, Expand, AllWords;
    var header := ["for", n, keyword] + words;
    assert header[1] == n && header[2] == keyword && header[3..] == words;
  }

  /** A loop over downloads lists, for each of its values, the URL with the value in the place of the variable. */
  lemma {:induction false} LoopDownloads(lib: Library, cap: int, n: string, braced: bool, before: string, after: string, values: seq<string>, vars: Vars, acc: Acc)
    requires Name(n) && '$' !in before && '`' !in before && '$' !in after && '`' !in after && (braced || after == "" || !NameChar(after[0]))
    requires var arg := before + Reference(n, braced) + after; lib.tokenize("wget " + arg) == ["wget", arg]
    requires forall v :: v in values ==>
               var url := before + v + after;
               && '$' !in v && '`' !in v && Contains(url, "://") && (lib.scheme(url) == "http" || lib.scheme(url) == "https")
    ensures var r := LoopAcc(lib, cap, ["wget " + (before + Reference(n, braced) + after)], n, values, vars, acc);
            && acc.urls <= r.urls && (|r.urls| < cap ==> forall v :: v in values ==> before + v + after in r.urls)
    decreases |values|
  {
    hide VerdictOf, Contains, EnvAfter, Record;
    var body := ["wget " + (before + Reference(n, braced) + after)];
    LoopKeeps(lib, cap, body, n, values, vars, acc);
    if values != [] && !Full(cap, acc) {
      var v, env := values[0], vars[n := values[0]];
      LoopVerdict(lib, n, braced, before, after, v, env);
      var next := BodyAcc(lib, cap, body, env, acc);
      assert body[1..] == [] && VerdictOf(lib, body[0], env) == Url(before + v + after);
      assert next == BodyAcc(lib, cap, [], EnvAfter(lib, body[0], env), Record(cap, acc, VerdictOf(lib, body[0], env)));
      Recorded(cap, acc, before + v + after);
      LoopDownloads(lib, cap, n, braced, before, after, values[1..], vars, next);
      var r := LoopAcc(lib, cap, body, n, values, vars, acc);
      assert next.urls <= r.urls && before + v + after in r.urls;
      assert values == [v] + values[1..];
    }
  }

  lemma Recorded(cap: int, acc: Acc, url: string)
    requires !Full(cap, acc)
    ensures var r := Record(cap, acc, Url(url)); url in r.urls && acc.urls <= r.urls
  {
  }

  lemma LoopVerdict(lib: Library, n: string, braced: bool, before: string, after: string, v: string, env: Vars)
    requires Name(n) && '$' !in before && '`' !in before && '$' !in after && '`' !in after && (braced || after == "" || !NameChar(after[0]))
    requires var arg := before + Reference(n, braced) + after; lib.tokenize("wget " + arg) == ["wget", arg]
    requires n in env && env[n] == v && '$' !in v && '`' !in v
    requires var url := before + v + after; Contains(url, "://") && (lib.scheme(url) == "http" || lib.scheme(url) == "https")
    ensures VerdictOf(lib, "wget " + (before + Reference(n, braced) + after), env) == Url(before + v + after)
  {
    hide Expand, VerdictOf, EnvAfter, Contains, Reference;
    WgetOf(lib, before + Reference(n, braced) + after, env);
    ExpandReference(before, n, braced, after, env);
    NothingToExpand(after, env);
  }

  /** How many loops have been opened, and not yet closed, between two segments. */
  ghost function Opened(segs: seq<string>, start: nat, stop: nat): int
    requires start <= stop <= |segs|
    decreases stop
  {
    if stop == start then 0
    else
      var word := FirstWord(segs[stop - 1]);
      Opened(segs, start, stop - 1) + (if word == "for" || word == "while" || word == "until" then 1 else if word == "done" then -1 else 0)
  }

  lemma OneMore<T>(body: seq<T>, segs: seq<T>, j: nat, end: nat)
    requires j < end <= |segs|
    ensures body + [segs[j]] + segs[j + 1..end] == body + segs[j..end]
  {
  }

  lemma OpenedStep(segs: seq<string>, start: nat, j: nat)
    requires start <= j < |segs|
    ensures var word := FirstWord(segs[j]);
            Opened(segs, start, j + 1)
            == Opened(segs, start, j) + (if word == "for" || word == "while" || word == "until" then 1 else if word == "done" then -1 else 0)
  {
    hide FirstWord;
  }

  /** The segment is no `done`, or one that closes a loop opened since `start`. */
  ghost predicate Inside(segs: seq<string>, start: nat, k: nat)
    requires start <= k < |segs|
  {
    FirstWord(segs[k]) == "done" ==> Opened(segs, start, k) > 0
  }

  ghost predicate AllInside(segs: seq<string>, start: nat, stop: nat)
    requires start <= stop <= |segs|
  {
    forall k {:trigger Inside(segs, start, k)} :: start <= k < stop ==> Inside(segs, start, k)
  }

  /** The body of a loop ends at the first `done` that closes no loop opened inside it, or at the end of the script,
      or at 200 segments. */
  lemma {:induction false} BodyEndsAtItsDone(segs: seq<string>, start: nat, j: nat, depth: nat, body: seq<string>)
    requires start <= j <= |segs| && depth == Opened(segs, start, j) && AllInside(segs, start, j)
    ensures var (r, end) := CollectBody(segs, j, depth, body);
            && j <= end <= |segs| && r == body + segs[j..end] && AllInside(segs, start, end)
            && (end == |segs| || |r| >= 200 || (FirstWord(segs[end]) == "done" && Opened(segs, start, end) == 0))
    decreases |segs| - j
  {
    hide FirstWord, Opened;
    if j < |segs| && |body| < 200 {
      var word := FirstWord(segs[j]);
      OpenedStep(segs, start, j);
      if IsLoopKeyword(word) {
        BodyEndsAtItsDone(segs, start, j + 1, depth + 1, body + [segs[j]]);
      } else if word == "done" {
        if depth > 0 { BodyEndsAtItsDone(segs, start, j + 1, depth - 1, body + [segs[j]]); }
      } else {
        BodyEndsAtItsDone(segs, start, j + 1, depth, body + [segs[j]]);
      }
      var end := CollectBody(segs, j, depth, body).1;
      if end > j { OneMore(body, segs, j, end); }
    }
    assert body + segs[j..j] == body;
  }
}
