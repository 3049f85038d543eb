/** honeypot/fetcher/script_scan.py: listing the URLs a script would download, by reading it. */
module ScriptScan {
  import opened Basics
  import opened CommandLine

  const MAX_LINES: nat := 5000
  const MAX_SEGMENTS: nat := 20000
  const SEGMENTS_PER_LINE: int := 500
  const MAX_LOOP_VALUES: nat := 64
  const MAX_LOOP_BODY: nat := 200

  type Vars = map<string, string>

  /** The library calls: `tokenize` (shlex, or a plain split) and `urlsplit(url).scheme`. */
  datatype Library = Library(tokenize: string -> seq<string>, scheme: string -> string)

  // ---------------------------------------------------------------- words and variables

  function HasUnresolved(text: string): bool { '$' in text || '`' in text }

  predicate IdentStart(c: char) { 'A' <= c <= 'Z' || 'a' <= c <= 'z' || c == '_' }
  predicate IdentPart(c: char) { IdentStart(c) || '0' <= c <= '9' }

  function PartLen(s: string): (n: nat)
    ensures n <= |s| && forall i :: 0 <= i < n ==> IdentPart(s[i])
    ensures n < |s| ==> !IdentPart(s[n])
  {
    if s != "" && IdentPart(s[0]) then 1 + PartLen(s[1..]) else 0
  }

  /** The length of the longest variable name at the start of `s`; 0 if there is none. */
  function IdentLen(s: string): (n: nat)
    ensures n <= |s|
  {
    if s != "" && IdentStart(s[0]) then PartLen(s) else 0
  }

  predicate IsIdent(s: string) { s != "" && IdentLen(s) == |s| }

  function Lookup(vars: Vars, name: string, default: string): string {
    if name in vars then vars[name] else default
  }

  /** `_expand`: every `$NAME` and `${NAME}` that has a value, replaced once, left to right. */
  function Expand(text: string, vars: Vars): string
    decreases |text|
  {
    if text == "" then ""
    else if text[0] == '$' && |text| > 1 && text[1] == '{' then
      var n := IdentLen(text[2..]);
      if n > 0 && 2 + n < |text| && text[2 + n] == '}'
      then Lookup(vars, text[2..2 + n], text[..3 + n]) + Expand(text[3 + n..], vars)
      else "$" + Expand(text[1..], vars)
    else if text[0] == '$' && IdentLen(text[1..]) > 0 then
      var n := IdentLen(text[1..]);
      Lookup(vars, text[1..1 + n], text[..1 + n]) + Expand(text[1 + n..], vars)
    else [text[0]] + Expand(text[1..], vars)
  }

  function ExpandAll(words: seq<string>, vars: Vars): (r: seq<string>)
    ensures |r| == |words|
  {
    seq(|words|, i requires 0 <= i < |words| => Expand(words[i], vars))
  }

  predicate AllResolved(words: seq<string>) { forall i :: 0 <= i < |words| ==> !HasUnresolved(words[i]) }

  /** The first word of a stripped text, and what follows it. */
  function WordLen(s: string): (n: nat)
    ensures n <= |s|
  {
    if s != "" && !IsSpace(s[0]) then 1 + WordLen(s[1..]) else 0
  }

  function FirstWord(segment: string): string {
    var s := LStrip(segment);
    s[..WordLen(s)]
  }

  /** `segment.split(None, 1)[1]`, when there is such a part. */
  function AfterFirstWord(segment: string): string {
    var s := LStrip(segment);
    LStrip(s[WordLen(s)..])
  }

  /** `text.split()`. */
  function Words(text: string): seq<string>
    decreases |text|
  {
    var s := LStrip(text);
    var n := WordLen(s);
    if n == 0 then [] else [s[..n]] + Words(s[n..])
  }

  function AllWords(texts: seq<string>): seq<string> {
    if texts == [] then [] else Words(texts[0]) + AllWords(texts[1..])
  }

  // ---------------------------------------------------------------- download commands

  predicate Contains(s: string, t: string) { t <= s || (s != "" && Contains(s[1..], t)) }

  /** The last argument holding "://". */
  function LastUrl(args: seq<string>): Option<string> {
    if args == [] then None
    else if Contains(args[|args| - 1], "://") then Some(args[|args| - 1])
    else LastUrl(args[..|args| - 1])
  }

  /** The first argument that is neither an option nor an option's value. */
  function TftpHost(args: seq<string>): Option<string>
    decreases |args|
  {
    if args == [] then None
    else if args[0] == "-l" || args[0] == "-r" || args[0] == "-b" then TftpHost(if |args| < 2 then [] else args[2..])
    else if args[0] == "-c" then TftpHost(if |args| < 3 then [] else args[3..])
    else if "-" <= args[0] then TftpHost(args[1..])
    else Some(args[0])
  }

  datatype Request = Request(protocol: string, url: string)

  function Protocol(lib: Library, url: string): string {
    if lib.scheme(url) == "" then "http" else lib.scheme(url)
  }

  /** `parse_download_args`, without the file name. */
  function ParseDownload(lib: Library, cmd: string, args: seq<string>): Option<Request> {
    if cmd == "tftp" then
      match TftpHost(args) case None => None case Some(host) => Some(Request("tftp", host))
    else
      match LastUrl(args) case None => None case Some(url) => Some(Request(Protocol(lib, url), url))
  }

  predicate IsDownload(cmd: string) { cmd == "wget" || cmd == "curl" || cmd == "tftp" }

  // ---------------------------------------------------------------- one segment

  /** What a segment amounts to. */
  datatype Verdict = Nothing | Skipped | Url(url: string)

  function DropLead(tokens: seq<string>): (r: seq<string>) {
    var ts := if tokens != [] && (tokens[0] == "do" || tokens[0] == "then" || tokens[0] == "else") then tokens[1..] else tokens;
    if ts != [] && ts[0] == "export" then ts[1..] else ts
  }

  predicate IsAssignment(token: string) {
    var n := IdentLen(token);
    n > 0 && n < |token| && token[n] == '='
  }

  function AssignOne(token: string, env: Vars): Vars
    requires IsAssignment(token)
  {
    var n := IdentLen(token);
    var value := Expand(token[n + 1..], env);
    if HasUnresolved(value) then env else env[token[..n] := value]
  }

  /** `NAME=value [NAME=value ...] [command ...]`: the variables after the assignments. */
  function Assigned(tokens: seq<string>, env: Vars): Vars {
    if tokens != [] && IsAssignment(tokens[0]) then Assigned(tokens[1..], AssignOne(tokens[0], env)) else env
  }

  function AfterAssignments(tokens: seq<string>): seq<string> {
    if tokens != [] && IsAssignment(tokens[0]) then AfterAssignments(tokens[1..]) else tokens
  }

  predicate IsBusybox(token: string) {
    token == "busybox" || (|token| >= 8 && token[|token| - 8..] == "/busybox")
  }

  function AfterBusybox(tokens: seq<string>): seq<string> {
    if tokens != [] && IsBusybox(tokens[0]) then AfterBusybox(tokens[1..]) else tokens
  }

  /** `token.rsplit("/", 1)[-1]`. */
  function BaseName(token: string): string {
    if '/' !in token then token else BaseName(token[1..])
  }

  function CommandTokens(lib: Library, segment: string): seq<string> {
    AfterBusybox(AfterAssignments(DropLead(lib.tokenize(segment))))
  }

  function EnvAfter(lib: Library, segment: string, env: Vars): Vars {
    Assigned(DropLead(lib.tokenize(segment)), env)
  }

  function CommandVerdict(lib: Library, tokens: seq<string>, env: Vars): Verdict {
    if tokens == [] || !IsDownload(BaseName(tokens[0])) then Nothing else
      var args := ExpandAll(tokens[1..], env);
      if !AllResolved(args) then Skipped else
        match ParseDownload(lib, BaseName(tokens[0]), args)
        case None => Nothing
        case Some(req) => if req.protocol == "http" || req.protocol == "https" then Url(req.url) else Skipped
  }

  function VerdictOf(lib: Library, segment: string, env: Vars): Verdict {
    CommandVerdict(lib, CommandTokens(lib, segment), EnvAfter(lib, segment, env))
  }

  // ---------------------------------------------------------------- whole scripts

  /** The scan so far; `evals` counts the segments looked at. */
  datatype Acc = Acc(urls: seq<string>, skipped: nat, evals: nat)

  predicate Full(cap: int, acc: Acc) { |acc.urls| >= cap }

  function Record(cap: int, acc: Acc, v: Verdict): Acc {
    var a := acc.(evals := acc.evals + 1);
    match v
    case Nothing => a
    case Skipped => a.(skipped := a.skipped + 1)
    case Url(u) => if u !in a.urls && !Full(cap, a) then a.(urls := a.urls + [u]) else a
  }

  function BodyEnv(lib: Library, body: seq<string>, env: Vars): Vars {
    if body == [] then env else BodyEnv(lib, body[1..], EnvAfter(lib, body[0], env))
  }

  /** The segments of a loop body, in one iteration. */
  function BodyAcc(lib: Library, cap: int, body: seq<string>, env: Vars, acc: Acc): Acc
    decreases |body|
  {
    if body == [] then acc
    else BodyAcc(lib, cap, body[1..], EnvAfter(lib, body[0], env), Record(cap, acc, VerdictOf(lib, body[0], env)))
  }

  /** Each value in turn, on a fresh copy of the outer variables. */
  function LoopAcc(lib: Library, cap: int, body: seq<string>, name: string, values: seq<string>, vars: Vars, acc: Acc): Acc
    decreases |values|
  {
    if values == [] || Full(cap, acc) then acc
    else LoopAcc(lib, cap, body, name, values[1..], vars, BodyAcc(lib, cap, body, vars[name := values[0]], acc))
  }

  predicate IsLoopKeyword(word: string) { word == "for" || word == "while" || word == "until" }

  /** The body of the loop from `segs[j]` on, up to its own `done`, and where that is. */
  function CollectBody(segs: seq<string>, j: nat, depth: nat, body: seq<string>): (seq<string>, nat)
    requires j <= |segs|
    decreases |segs| - j
  {
    if j >= |segs| || |body| >= 200 then (body, j)
    else if IsLoopKeyword(FirstWord(segs[j])) then CollectBody(segs, j + 1, depth + 1, body + [segs[j]])
    else if FirstWord(segs[j]) == "done" then
      if depth == 0 then (body, j) else CollectBody(segs, j + 1, depth - 1, body + [segs[j]])
    else CollectBody(segs, j + 1, depth, body + [segs[j]])
  }

  /** A loop as read: its variable, its values, its body, and the index after it. */
  datatype Loop = Loop(name: string, values: seq<string>, body: seq<string>, next: nat) | Malformed

  function LoopValues(words: seq<string>, vars: Vars): seq<string> {
    var expanded := ExpandAll(words, vars);
    if !AllResolved(expanded) then [] else
      var values := AllWords(expanded);
      if |values| > 64 then values[..64] else values
  }

  function ReadLoop(lib: Library, segs: seq<string>, start: nat, vars: Vars): Loop
    requires start < |segs|
  {
    var header := lib.tokenize(segs[start]);
    if |header| < 4 || header[2] != "in" then Malformed
    else if start + 1 >= |segs| || FirstWord(segs[start + 1]) != "do" then Malformed
    else
      var first := AfterFirstWord(segs[start + 1]);
      var (body, j) := CollectBody(segs, start + 2, 0, if first != "" then [first] else []);
      Loop(header[1], LoopValues(header[3..], vars), body, j + 1)
  }

  /** The main loop from segment `i` on. */
  function RunFrom(lib: Library, cap: int, segs: seq<string>, i: nat, vars: Vars, acc: Acc): Acc
    decreases |segs| - i
  {
    if i >= |segs| || Full(cap, acc) then acc
    else if FirstWord(segs[i]) == "for" then
      match ReadLoop(lib, segs, i, vars)
      case Malformed => RunFrom(lib, cap, segs, i + 1, vars, acc)
      case Loop(name, values, body, next) =>
        LoopNext(lib, segs, i, vars);
        RunFrom(lib, cap, segs, next, vars, LoopAcc(lib, cap, body, name, values, vars, acc))
    else
      RunFrom(lib, cap, segs, i + 1, EnvAfter(lib, segs[i], vars), Record(cap, acc, VerdictOf(lib, segs[i], vars)))
  }

  lemma {:induction false} CollectBodyBounds(segs: seq<string>, j: nat, depth: nat, body: seq<string>)
    requires j <= |segs|
    ensures var r := CollectBody(segs, j, depth, body); j <= r.1 <= |segs| && |r.0| == |body| + (r.1 - j)
    decreases |segs| - j
  {
    if j < |segs| && |body| < MAX_LOOP_BODY {
      if IsLoopKeyword(FirstWord(segs[j])) {
        CollectBodyBounds(segs, j + 1, depth + 1, body + [segs[j]]);
      } else if FirstWord(segs[j]) == "done" {
        if depth > 0 { CollectBodyBounds(segs, j + 1, depth - 1, body + [segs[j]]); }
      } else {
        CollectBodyBounds(segs, j + 1, depth, body + [segs[j]]);
      }
    }
  }

  /** A loop takes up more segments than its body holds. */
  lemma LoopNext(lib: Library, segs: seq<string>, start: nat, vars: Vars)
    requires start < |segs|
    ensures var loop := ReadLoop(lib, segs, start, vars);
            loop.Loop? ==> start + |loop.body| < loop.next <= |segs| + 1 && |loop.values| <= MAX_LOOP_VALUES
  {
    if start + 1 < |segs| {
      var first := AfterFirstWord(segs[start + 1]);
      CollectBodyBounds(segs, start + 2, 0, if first != "" then [first] else []);
    }
  }

  // ---------------------------------------------------------------- the scanner

  class Scanner {
    const lib: Library
    const maxUrls: int
    var variables: Vars
    var urls: seq<string>
    var skipped: nat
    ghost var evals: nat

    constructor (lib: Library, maxUrls: int)
      ensures this.lib == lib && this.maxUrls == maxUrls
      ensures variables == map[] && Found() == Acc([], 0, 0)
    {
      this.lib, this.maxUrls := lib, maxUrls;
      variables, urls, skipped, evals := map[], [], 0, 0;
    }

    ghost function Found(): Acc
      reads this
    {
      Acc(urls, skipped, evals)
    }

    /** `_segment`: what one segment adds, and the variables after it. */
    method Segment(segment: string, env: Vars) returns (env': Vars)
      modifies this`urls, this`skipped, this`evals
      ensures env' == EnvAfter(lib, segment, env)
      ensures Found() == Record(maxUrls, old(Found()), VerdictOf(lib, segment, env))
    {
      hide BaseName, ParseDownload;
      evals := evals + 1;
      env' := env;
      var tokens := DropLead(lib.tokenize(segment));
      ghost var start := tokens;
      while tokens != []
        invariant Assigned(start, env) == Assigned(tokens, env')
        invariant AfterAssignments(start) == AfterAssignments(tokens)
        decreases |tokens|
      {
        if !IsAssignment(tokens[0]) { break; }
        env' := AssignOne(tokens[0], env');
        tokens := tokens[1..];
      }
      ghost var command := tokens;
      while tokens != [] && IsBusybox(tokens[0])
        invariant AfterBusybox(command) == AfterBusybox(tokens)
        decreases |tokens|
      {
        tokens := tokens[1..];
      }
      if tokens == [] { return; }
      var cmd := BaseName(tokens[0]);
      if !IsDownload(cmd) { return; }
      var args := ExpandAll(tokens[1..], env');
      if !AllResolved(args) {
        skipped := skipped + 1;
        return;
      }
      var req := ParseDownload(lib, cmd, args);
      if req == None { return; }
      if req.value.protocol != "http" && req.value.protocol != "https" {
        skipped := skipped + 1;
        return;
      }
      if req.value.url !in urls && !(|urls| >= maxUrls) {
        urls := urls + [req.value.url];
      }
    }

    /** The part of `_for_loop` that reads the body. */
    method ReadBody(segments: seq<string>, start: nat) returns (body: seq<string>, j: nat)
      requires start < |segments|
      ensures var first := AfterFirstWord(segments[start]);
              (body, j) == CollectBody(segments, start + 1, 0, if first != "" then [first] else [])
    {
      hide FirstWord, AfterFirstWord;
      var first := AfterFirstWord(segments[start]);
      body := if first != "" then [first] else [];
      ghost var all := CollectBody(segments, start + 1, 0, body);
      j := start + 1;
      var depth: nat := 0;
      while j < |segments| && |body| < MAX_LOOP_BODY
        invariant j <= |segments|
        invariant all == CollectBody(segments, j, depth, body)
      {
        var word := FirstWord(segments[j]);
        if IsLoopKeyword(word) {
          depth := depth + 1;
        } else if word == "done" {
          if depth == 0 { break; }
          depth := depth - 1;
        }
        body := body + [segments[j]];
        j := j + 1;
      }
    }

    /** `_for_loop`: the outer variables stay as they were. */
    method ForLoop(segments: seq<string>, start: nat) returns (next: nat)
      requires start < |segments|
      modifies this`urls, this`skipped, this`evals
      ensures match ReadLoop(lib, segments, start, variables)
              case Malformed => next == start + 1 && Found() == old(Found())
              case Loop(name, values, body, after) =>
                next == after && Found() == LoopAcc(lib, maxUrls, body, name, values, variables, old(Found()))
    {
      hide FirstWord, AfterFirstWord, Record, VerdictOf, CollectBody, EnvAfter, Expand, AllWords, AllResolved;
      var header := lib.tokenize(segments[start]);
      if |header| < 4 || header[2] != "in" { return start + 1; }
      var words := ExpandAll(header[3..], variables);
      var all := if AllResolved(words) then AllWords(words) else [];
      var values := if |all| > MAX_LOOP_VALUES then all[..MAX_LOOP_VALUES] else all;
      if start + 1 >= |segments| || FirstWord(segments[start + 1]) != "do" { return start + 1; }
      var body, j := ReadBody(segments, start + 1);
      var k := 0;
      assert values[0..] == values;
      while k < |values|
        invariant k <= |values|
        invariant LoopAcc(lib, maxUrls, body, header[1], values, variables, old(Found()))
               == LoopAcc(lib, maxUrls, body, header[1], values[k..], variables, Found())
      {
        if |urls| >= maxUrls { break; }
        assert values[k..][1..] == values[k + 1..];
        RunBody(body, variables[header[1] := values[k]]);
        k := k + 1;
      }
      next := j + 1;
    }

    /** One iteration of a loop. */
    method RunBody(body: seq<string>, env0: Vars)
      modifies this`urls, this`skipped, this`evals
      ensures Found() == BodyAcc(lib, maxUrls, body, env0, old(Found()))
    {
      hide Record, VerdictOf, EnvAfter;
      var env, i := env0, 0;
      assert body[0..] == body;
      while i < |body|
        invariant i <= |body|
        invariant BodyAcc(lib, maxUrls, body, env0, old(Found())) == BodyAcc(lib, maxUrls, body[i..], env, Found())
      {
        assert body[i..][1..] == body[i + 1..];
        env := Segment(body[i], env);
        i := i + 1;
      }
    }

    method Run(segments: seq<string>)
      modifies this
      ensures Found() == RunFrom(lib, maxUrls, segments, 0, old(variables), old(Found()))
    {
      hide FirstWord, Record, VerdictOf, ReadLoop, LoopAcc, EnvAfter;
      var i := 0;
      while i < |segments| && |urls| < maxUrls
        invariant RunFrom(lib, maxUrls, segments, 0, old(variables), old(Found()))
               == RunFrom(lib, maxUrls, segments, i, variables, Found())
        decreases |segments| - i
      {
        if FirstWord(segments[i]) == "for" {
          LoopNext(lib, segments, i, variables);
          i := ForLoop(segments, i);
        } else {
          variables := Segment(segments[i], variables);
          i := i + 1;
        }
      }
    }
  }

  /** The segments of the first lines of a script, without comments. */
  function ScriptSegments(lines: seq<string>, segments: seq<string>): seq<string>
    decreases |lines|
  {
    if lines == [] then segments
    else
      var line := Strip(lines[0]);
      if line == "" || line[0] == '#' then ScriptSegments(lines[1..], segments)
      else
        var more := segments + Texts(Take(SplitAll(line), 500));
        if |more| >= 20000 then more else ScriptSegments(lines[1..], more)
  }

  function Texts(segs: seq<CommandLine.Segment>): seq<string> {
    if segs == [] then [] else [segs[0].text] + Texts(segs[1..])
  }

  function FirstLines(lines: seq<string>): seq<string> {
    if |lines| > 5000 then lines[..5000] else lines
  }

  /** A whole scan. */
  function Scan(lib: Library, lines: seq<string>, maxUrls: int): Acc {
    RunFrom(lib, maxUrls, ScriptSegments(FirstLines(lines), []), 0, map[], Acc([], 0, 0))
  }

  /** `scan_script`, for a text already cut into lines. */
  method ScanScript(lib: Library, lines: seq<string>, maxUrls: int) returns (urls: seq<string>, skipped: nat)
    ensures urls == Scan(lib, lines, maxUrls).urls && skipped == Scan(lib, lines, maxUrls).skipped
  {
    hide SplitAll, Strip, RunFrom, Texts;
    var kept := if |lines| > MAX_LINES then lines[..MAX_LINES] else lines;
    var segments: seq<string> := [];
    var i := 0;
    ghost var all := ScriptSegments(kept, []);
    assert kept[0..] == kept;
    while i < |kept|
      invariant i <= |kept|
      invariant all == ScriptSegments(kept[i..], segments)
    {
      assert kept[i..][1..] == kept[i + 1..];
      var line := Strip(kept[i]);
      i := i + 1;
      if line == "" || line[0] == '#' { continue; }
      var split := SplitCommandLine(line, SEGMENTS_PER_LINE);
      segments := segments + Texts(split);
      if |segments| >= MAX_SEGMENTS { break; }
    }
    assert all == segments;
    var scanner := new Scanner(lib, maxUrls);
    scanner.Run(segments);
    urls, skipped := scanner.urls, scanner.skipped;
  }

  // ---------------------------------------------------------------- what every scan lists

  predicate Distinct(urls: seq<string>) { forall i, j :: 0 <= i < j < |urls| ==> urls[i] != urls[j] }

  ghost predicate Listed(lib: Library, urls: seq<string>) {
    && Distinct(urls)
    && (forall i {:trigger urls[i]} :: 0 <= i < |urls| ==>
          '$' !in urls[i] && '`' !in urls[i]
          && (lib.scheme(urls[i]) == "" || lib.scheme(urls[i]) == "http" || lib.scheme(urls[i]) == "https"))
  }

  lemma {:induction false} LastUrlAmong(args: seq<string>)
    ensures LastUrl(args).Some? ==> LastUrl(args).value in args
  {
    if args != [] && !Contains(args[|args| - 1], "://") { LastUrlAmong(args[..|args| - 1]); }
  }

  lemma VerdictListed(lib: Library, segment: string, env: Vars)
    ensures var v := VerdictOf(lib, segment, env);
            v.Url? ==> '$' !in v.url && '`' !in v.url && (lib.scheme(v.url) == "" || lib.scheme(v.url) == "http" || lib.scheme(v.url) == "https")
  {
    hide BaseName, EnvAfter, CommandTokens;
    var tokens := CommandTokens(lib, segment);
    if tokens != [] { LastUrlAmong(ExpandAll(tokens[1..], EnvAfter(lib, segment, env))); }
  }

  lemma RecordListed(lib: Library, cap: int, acc: Acc, segment: string, env: Vars)
    requires Listed(lib, acc.urls) && |acc.urls| <= (if cap < 0 then 0 else cap)
    ensures var r := Record(cap, acc, VerdictOf(lib, segment, env));
            && Listed(lib, r.urls) && |r.urls| <= (if cap < 0 then 0 else cap)
            && r.evals == acc.evals + 1 && acc.urls <= r.urls
  {
    hide VerdictOf, HasUnresolved;
    VerdictListed(lib, segment, env);
  }

  lemma {:induction false} BodyListed(lib: Library, cap: int, body: seq<string>, env: Vars, acc: Acc)
    requires Listed(lib, acc.urls) && |acc.urls| <= (if cap < 0 then 0 else cap)
    ensures var r := BodyAcc(lib, cap, body, env, acc);
            && Listed(lib, r.urls) && |r.urls| <= (if cap < 0 then 0 else cap)
            && r.evals == acc.evals + |body| && acc.urls <= r.urls
    decreases |body|
  {
    hide VerdictOf, Listed, Record, EnvAfter;
    if body != [] {
      RecordListed(lib, cap, acc, body[0], env);
      BodyListed(lib, cap, body[1..], EnvAfter(lib, body[0], env), Record(cap, acc, VerdictOf(lib, body[0], env)));
    }
  }

  lemma {:induction false} LoopListed(lib: Library, cap: int, body: seq<string>, name: string, values: seq<string>, vars: Vars, acc: Acc)
    requires Listed(lib, acc.urls) && |acc.urls| <= (if cap < 0 then 0 else cap)
    ensures var r := LoopAcc(lib, cap, body, name, values, vars, acc);
            && Listed(lib, r.urls) && |r.urls| <= (if cap < 0 then 0 else cap)
            && r.evals <= acc.evals + |values| * |body| && acc.urls <= r.urls
    decreases |values|
  {
    hide Listed, BodyAcc;
    if values != [] && !Full(cap, acc) {
      var env := vars[name := values[0]];
      BodyListed(lib, cap, body, env, acc);
      LoopListed(lib, cap, body, name, values[1..], vars, BodyAcc(lib, cap, body, env, acc));
      assert |values| * |body| == |body| + |values[1..]| * |body|;
    }
  }

  /** Every list a scan produces is duplicate-free, within the cap, http or https only and
      fully resolved, at the cost of at most 64 looks at each segment. */
  lemma {:induction false} RunListed(lib: Library, cap: int, segs: seq<string>, i: nat, vars: Vars, acc: Acc)
    requires Listed(lib, acc.urls) && |acc.urls| <= (if cap < 0 then 0 else cap) && i <= |segs| + 1
    ensures var r := RunFrom(lib, cap, segs, i, vars, acc);
            && Listed(lib, r.urls) && |r.urls| <= (if cap < 0 then 0 else cap)
            && r.evals <= acc.evals + MAX_LOOP_VALUES * (if i <= |segs| then |segs| - i else 0)
    decreases |segs| - i
  {
    hide Listed, VerdictOf, Record, EnvAfter, ReadLoop, FirstWord;
    if i < |segs| && !Full(cap, acc) {
      if FirstWord(segs[i]) == "for" {
        LoopNext(lib, segs, i, vars);
        match ReadLoop(lib, segs, i, vars)
        case Malformed => RunListed(lib, cap, segs, i + 1, vars, acc);
        case Loop(name, values, body, next) =>
          LoopListed(lib, cap, body, name, values, vars, acc);
          RunListed(lib, cap, segs, next, vars, LoopAcc(lib, cap, body, name, values, vars, acc));
          LooksBound(|values|, |body|, i, next, |segs|);
      } else {
        RecordListed(lib, cap, acc, segs[i], vars);
        RunListed(lib, cap, segs, i + 1, EnvAfter(lib, segs[i], vars), Record(cap, acc, VerdictOf(lib, segs[i], vars)));
      }
    }
  }

  lemma LooksBound(values: nat, body: nat, i: nat, next: nat, n: nat)
    requires values <= MAX_LOOP_VALUES && i + body < next <= n + 1 && i < n
    ensures values * body + MAX_LOOP_VALUES * (if next <= n then n - next else 0) <= MAX_LOOP_VALUES * (n - i)
  {
    assert values * body <= MAX_LOOP_VALUES * body;
  }

  lemma ScanListed(lib: Library, lines: seq<string>, maxUrls: int)
    ensures var r := Scan(lib, lines, maxUrls);
            && Listed(lib, r.urls) && |r.urls| <= (if maxUrls < 0 then 0 else maxUrls)
            && r.evals <= 64 * |ScriptSegments(FirstLines(lines), [])|
  {
    RunListed(lib, maxUrls, ScriptSegments(FirstLines(lines), []), 0, map[], Acc([], 0, 0));
  }

  // ---------------------------------------------------------------- the cap only truncates

  /** Two scans in step: the smaller list is the larger one cut at the smaller cap. */
  ghost predicate InStep(k: int, small: Acc, large: Acc) {
    small.urls == Take(large.urls, k)
  }

  lemma RecordInStep(k: int, larger: int, small: Acc, large: Acc, v: Verdict)
    requires k <= larger && InStep(k, small, large)
    ensures InStep(k, Record(k, small, v), Record(larger, large, v))
  {
  }

  lemma RecordKeeps(cap: int, acc: Acc, v: Verdict)
    ensures acc.urls <= Record(cap, acc, v).urls
    ensures Full(cap, acc) ==> Record(cap, acc, v).urls == acc.urls
  {
  }

  lemma {:induction false} BodyKeeps(lib: Library, cap: int, body: seq<string>, env: Vars, acc: Acc)
    ensures acc.urls <= BodyAcc(lib, cap, body, env, acc).urls
    ensures Full(cap, acc) ==> BodyAcc(lib, cap, body, env, acc).urls == acc.urls
    decreases |body|
  {
    hide VerdictOf, Record, EnvAfter;
    if body != [] {
      RecordKeeps(cap, acc, VerdictOf(lib, body[0], env));
      BodyKeeps(lib, cap, body[1..], EnvAfter(lib, body[0], env), Record(cap, acc, VerdictOf(lib, body[0], env)));
    }
  }

  lemma {:induction false} LoopKeeps(lib: Library, cap: int, body: seq<string>, name: string, values: seq<string>, vars: Vars, acc: Acc)
    ensures acc.urls <= LoopAcc(lib, cap, body, name, values, vars, acc).urls
    decreases |values|
  {
    hide BodyAcc;
    if values != [] && !Full(cap, acc) {
      BodyKeeps(lib, cap, body, vars[name := values[0]], acc);
      LoopKeeps(lib, cap, body, name, values[1..], vars, BodyAcc(lib, cap, body, vars[name := values[0]], acc));
    }
  }

  lemma {:induction false} RunKeeps(lib: Library, cap: int, segs: seq<string>, i: nat, vars: Vars, acc: Acc)
    ensures acc.urls <= RunFrom(lib, cap, segs, i, vars, acc).urls
    decreases |segs| - i
  {
    hide VerdictOf, Record, EnvAfter, ReadLoop, FirstWord, LoopAcc;
    if i < |segs| && !Full(cap, acc) {
      if FirstWord(segs[i]) == "for" {
        LoopNext(lib, segs, i, vars);
        match ReadLoop(lib, segs, i, vars)
        case Malformed => RunKeeps(lib, cap, segs, i + 1, vars, acc);
        case Loop(name, values, body, next) =>
          LoopKeeps(lib, cap, body, name, values, vars, acc);
          RunKeeps(lib, cap, segs, next, vars, LoopAcc(lib, cap, body, name, values, vars, acc));
      } else {
        RecordKeeps(cap, acc, VerdictOf(lib, segs[i], vars));
        RunKeeps(lib, cap, segs, i + 1, EnvAfter(lib, segs[i], vars), Record(cap, acc, VerdictOf(lib, segs[i], vars)));
      }
    }
  }

  /** Once the smaller list is full, whatever the other scan appends is cut off. */
  lemma FullStaysInStep(k: int, small: Acc, large: Acc, later: Acc)
    requires InStep(k, small, large) && Full(k, small) && large.urls <= later.urls
    ensures InStep(k, small, later)
  {
  }

  lemma NotFullInStep(k: int, larger: int, small: Acc, large: Acc)
    requires k <= larger && InStep(k, small, large) && !Full(k, small)
    ensures !Full(larger, large)
  {
  }

  lemma {:induction false} BodyInStep(lib: Library, k: int, larger: int, body: seq<string>, env: Vars, small: Acc, large: Acc)
    requires k <= larger && InStep(k, small, large)
    ensures InStep(k, BodyAcc(lib, k, body, env, small), BodyAcc(lib, larger, body, env, large))
    decreases |body|
  {
    hide VerdictOf, Record, EnvAfter, InStep;
    if body != [] {
      var v := VerdictOf(lib, body[0], env);
      RecordInStep(k, larger, small, large, v);
      BodyInStep(lib, k, larger, body[1..], EnvAfter(lib, body[0], env), Record(k, small, v), Record(larger, large, v));
    }
  }

  lemma {:induction false} LoopInStep(lib: Library, k: int, larger: int, body: seq<string>, name: string, values: seq<string>,
                                      vars: Vars, small: Acc, large: Acc)
    requires k <= larger && InStep(k, small, large)
    ensures InStep(k, LoopAcc(lib, k, body, name, values, vars, small), LoopAcc(lib, larger, body, name, values, vars, large))
    decreases |values|
  {
    hide BodyAcc, InStep, Full;
    if values != [] {
      if Full(k, small) {
        LoopKeeps(lib, larger, body, name, values, vars, large);
        FullStaysInStep(k, small, large, LoopAcc(lib, larger, body, name, values, vars, large));
      } else {
        NotFullInStep(k, larger, small, large);
        var env := vars[name := values[0]];
        BodyInStep(lib, k, larger, body, env, small, large);
        LoopInStep(lib, k, larger, body, name, values[1..], vars, BodyAcc(lib, k, body, env, small), BodyAcc(lib, larger, body, env, large));
      }
    }
  }

  lemma {:induction false} RunInStep(lib: Library, k: int, larger: int, segs: seq<string>, i: nat, vars: Vars, small: Acc, large: Acc)
    requires k <= larger && InStep(k, small, large)
    ensures InStep(k, RunFrom(lib, k, segs, i, vars, small), RunFrom(lib, larger, segs, i, vars, large))
    decreases |segs| - i
  {
    hide VerdictOf, Record, EnvAfter, ReadLoop, FirstWord, LoopAcc, InStep, Full;
    if i < |segs| {
      if Full(k, small) {
        RunKeeps(lib, larger, segs, i, vars, large);
        FullStaysInStep(k, small, large, RunFrom(lib, larger, segs, i, vars, large));
      } else {
        NotFullInStep(k, larger, small, large);
        if FirstWord(segs[i]) == "for" {
          LoopNext(lib, segs, i, vars);
          match ReadLoop(lib, segs, i, vars)
          case Malformed => RunInStep(lib, k, larger, segs, i + 1, vars, small, large);
          case Loop(name, values, body, next) =>
            LoopInStep(lib, k, larger, body, name, values, vars, small, large);
            RunInStep(lib, k, larger, segs, next, vars, LoopAcc(lib, k, body, name, values, vars, small),
                      LoopAcc(lib, larger, body, name, values, vars, large));
        } else {
          var v := VerdictOf(lib, segs[i], vars);
          RecordInStep(k, larger, small, large, v);
          RunInStep(lib, k, larger, segs, i + 1, EnvAfter(lib, segs[i], vars), Record(k, small, v), Record(larger, large, v));
        }
      }
    }
  }

  /** Scanning with a cap gives the first URLs of scanning with any larger cap. */
  lemma CapTruncates(lib: Library, lines: seq<string>, k: int, larger: int)
    requires k <= larger
    ensures Scan(lib, lines, k).urls == Take(Scan(lib, lines, larger).urls, k)
  {
    RunInStep(lib, k, larger, ScriptSegments(FirstLines(lines), []), 0, map[], Acc([], 0, 0), Acc([], 0, 0));
  }

  // ---------------------------------------------------------------- loops mean their expansion

  lemma {:induction false} NothingToExpand(text: string, vars: Vars)
    requires '$' !in text
    ensures Expand(text, vars) == text
    decreases |text|
  {
    if text != "" {
      assert text == [text[0]] + text[1..];
      NothingToExpand(text[1..], vars);
    }
  }

  lemma {:induction false} PartLenWhole(name: string, tail: string)
    requires PartLen(name) == |name| && (tail != "" ==> !IdentPart(tail[0]))
    ensures PartLen(name + tail) == |name|
    decreases |name|
  {
    if name == "" { assert name + tail == tail; }
    else {
      assert (name + tail)[1..] == name[1..] + tail;
      PartLenWhole(name[1..], tail);
    }
  }

  /** `NAME=value` as a segment sets the variable and downloads nothing. */
  lemma AssignmentSegment(lib: Library, segment: string, name: string, value: string, env: Vars)
    requires IsIdent(name) && !HasUnresolved(value) && lib.tokenize(segment) == [name + "=" + value]
    ensures EnvAfter(lib, segment, env) == env[name := value] && VerdictOf(lib, segment, env) == Nothing
  {
    var token := name + "=" + value;
    assert token == name + ("=" + value);
    PartLenWhole(name, "=" + value);
    assert token[0] == name[0] && token[|name|] == '=' && token[..|name|] == name && token[|name| + 1..] == value;
    assert '=' in token && '=' !in "do" && '=' !in "then" && '=' !in "else" && '=' !in "export";
    assert DropLead([token]) == [token];
    NothingToExpand(value, env);
    assert [token][1..] == [];
    assert AssignOne(token, env) == env[name := value];
    assert AfterAssignments([token]) == AfterAssignments([]) == [];
    assert Assigned([token], env) == Assigned([], env[name := value]) == env[name := value];
  }

  /** A body segment that neither assigns nor starts a loop. */
  ghost predicate Plain(lib: Library, segment: string) {
    && !IsLoopKeyword(FirstWord(segment))
    && (var tokens := DropLead(lib.tokenize(segment)); tokens == [] || !IsAssignment(tokens[0]))
  }

  /** The loop written out: for each value an assignment, then the body. */
  function Unrolled(assign: string -> string, values: seq<string>, body: seq<string>): seq<string> {
    if values == [] then [] else [assign(values[0])] + body + Unrolled(assign, values[1..], body)
  }

  lemma {:induction false} PlainBody(lib: Library, cap: int, body: seq<string>, env: Vars, acc: Acc, segs: seq<string>, i: nat)
    requires i + |body| <= |segs| && segs[i..i + |body|] == body
    requires forall k :: 0 <= k < |body| ==> Plain(lib, body[k])
    ensures RunFrom(lib, cap, segs, i, env, acc).urls
         == RunFrom(lib, cap, segs, i + |body|, env, BodyAcc(lib, cap, body, env, acc)).urls
    decreases |body|
  {
    hide VerdictOf, Record, ReadLoop, FirstWord, Plain, EnvAfter;
    if body != [] {
      if Full(cap, acc) {
        BodyKeeps(lib, cap, body, env, acc);
      } else {
        assert segs[i] == segs[i..i + |body|][0] == body[0];
        PlainStep(lib, body[0], env);
        assert segs[i + 1..i + 1 + |body[1..]|] == segs[i..i + |body|][1..];
        PlainBody(lib, cap, body[1..], env, Record(cap, acc, VerdictOf(lib, body[0], env)), segs, i + 1);
      }
    }
  }

  lemma PlainStep(lib: Library, segment: string, env: Vars)
    requires Plain(lib, segment)
    ensures FirstWord(segment) != "for" && EnvAfter(lib, segment, env) == env
  {
  }

  /** A segment that sets the loop variable to a value.  A loop may also run over a name no `$` reference can
      mention; the segment is then an empty one. */
  ghost predicate Assigns(lib: Library, assign: string -> string, name: string, values: seq<string>) {
    forall k {:trigger values[k]} :: 0 <= k < |values| ==>
      && FirstWord(assign(values[k])) != "for"
      && lib.tokenize(assign(values[k])) == if IsIdent(name) then [name + "=" + values[k]] else []
  }

  /** The same value for every name a `$` reference can mention. */
  ghost predicate Agree(a: Vars, b: Vars) {
    forall x {:trigger x in a} {:trigger x in b} :: IsIdent(x) ==> (x in a <==> x in b) && (x in a ==> a[x] == b[x])
  }

  lemma {:induction false} PartLenPrefix(s: string)
    ensures PartLen(s[..PartLen(s)]) == PartLen(s)
  {
    if s != "" && IdentPart(s[0]) {
      assert s[..PartLen(s)][1..] == s[1..][..PartLen(s[1..])];
      PartLenPrefix(s[1..]);
    }
  }

  lemma NameIsIdent(s: string)
    requires IdentLen(s) > 0
    ensures IsIdent(s[..IdentLen(s)])
  {
    PartLenPrefix(s);
  }

  /** How much of a text one replacement, or one character, takes up. */
  function StepLen(text: string): (n: nat)
    requires text != ""
    ensures 1 <= n <= |text|
  {
    if text[0] != '$' then 1
    else if |text| > 1 && text[1] == '{' then
      var n := IdentLen(text[2..]);
      if n > 0 && 2 + n < |text| && text[2 + n] == '}' then 3 + n else 1
    else 1 + IdentLen(text[1..])
  }

  lemma BracedSame(text: string, a: Vars, b: Vars, n: nat)
    requires Agree(a, b) && 2 <= |text| && n == IdentLen(text[2..]) && n > 0 && 2 + n < |text|
    ensures Lookup(a, text[2..2 + n], text[..3 + n]) == Lookup(b, text[2..2 + n], text[..3 + n])
  {
    hide Agree, IsIdent, Lookup, PartLen, IdentLen;
    NameIsIdent(text[2..]);
    assert text[2..2 + n] == text[2..][..n];
    SameLookup(a, b, text[2..2 + n], text[..3 + n]);
  }

  lemma NamedSame(text: string, a: Vars, b: Vars, n: nat)
    requires Agree(a, b) && 1 <= |text| && n == IdentLen(text[1..]) && n > 0
    ensures Lookup(a, text[1..1 + n], text[..1 + n]) == Lookup(b, text[1..1 + n], text[..1 + n])
  {
    hide Agree, IsIdent, Lookup, PartLen, IdentLen;
    NameIsIdent(text[1..]);
    assert text[1..1 + n] == text[1..][..n];
    SameLookup(a, b, text[1..1 + n], text[..1 + n]);
  }

  lemma ExpandStep(text: string, a: Vars, b: Vars)
    requires Agree(a, b) && text != ""
    requires Expand(text[StepLen(text)..], a) == Expand(text[StepLen(text)..], b)
    ensures Expand(text, a) == Expand(text, b)
  {
    hide Agree, Lookup, IdentLen;
    if text[0] == '$' && |text| > 1 && text[1] == '{' {
      var n := IdentLen(text[2..]);
      if n > 0 && 2 + n < |text| && text[2 + n] == '}' { BracedSame(text, a, b, n); }
    } else if text[0] == '$' && IdentLen(text[1..]) > 0 {
      NamedSame(text, a, b, IdentLen(text[1..]));
    }
  }

  lemma {:induction false} ExpandAgrees(text: string, a: Vars, b: Vars)
    requires Agree(a, b)
    ensures Expand(text, a) == Expand(text, b)
    decreases |text|
  {
    hide Agree, StepLen;
    if text != "" {
      hide Expand;
      ExpandAgrees(text[StepLen(text)..], a, b);
      ExpandStep(text, a, b);
    }
  }

  lemma SameLookup(a: Vars, b: Vars, name: string, default: string)
    requires Agree(a, b) && IsIdent(name)
    ensures Lookup(a, name, default) == Lookup(b, name, default)
  {
  }

  lemma {:induction false} AssignedAgrees(tokens: seq<string>, a: Vars, b: Vars)
    requires Agree(a, b)
    ensures Agree(Assigned(tokens, a), Assigned(tokens, b))
    decreases |tokens|
  {
    if tokens != [] && IsAssignment(tokens[0]) {
      ExpandAgrees(tokens[0][IdentLen(tokens[0]) + 1..], a, b);
      AssignedAgrees(tokens[1..], AssignOne(tokens[0], a), AssignOne(tokens[0], b));
    }
  }

  /** A segment cannot tell two agreeing sets of variables apart. */
  lemma SegmentAgrees(lib: Library, segment: string, a: Vars, b: Vars)
    requires Agree(a, b)
    ensures Agree(EnvAfter(lib, segment, a), EnvAfter(lib, segment, b)) && VerdictOf(lib, segment, a) == VerdictOf(lib, segment, b)
  {
    hide Agree, Assigned, Expand, ParseDownload;
    AssignedAgrees(DropLead(lib.tokenize(segment)), a, b);
    var a', b', tokens := EnvAfter(lib, segment, a), EnvAfter(lib, segment, b), CommandTokens(lib, segment);
    if tokens != [] {
      var args := tokens[1..];
      forall i | 0 <= i < |args| ensures ExpandAll(args, a')[i] == ExpandAll(args, b')[i] { ExpandAgrees(args[i], a', b'); }
      assert ExpandAll(args, a') == ExpandAll(args, b');
    }
  }

  /** Which URLs are added depends neither on the counters nor on names no reference can mention. */
  lemma {:induction false} BodySameUrls(lib: Library, cap: int, body: seq<string>, env: Vars, other: Vars, a: Acc, b: Acc)
    requires a.urls == b.urls && Agree(env, other)
    ensures BodyAcc(lib, cap, body, env, a).urls == BodyAcc(lib, cap, body, other, b).urls
    decreases |body|
  {
    hide VerdictOf, EnvAfter, Agree;
    if body != [] {
      SegmentAgrees(lib, body[0], env, other);
      var v := VerdictOf(lib, body[0], env);
      BodySameUrls(lib, cap, body[1..], EnvAfter(lib, body[0], env), EnvAfter(lib, body[0], other), Record(cap, a, v), Record(cap, b, v));
    }
  }

  /** What the assignment before one round of the unrolled body does. */
  lemma AssignSegment(lib: Library, assign: string -> string, name: string, values: seq<string>, vars: Vars, current: Vars)
    requires Assigns(lib, assign, name, values) && AllResolved(values) && values != []
    requires current == vars || (IsIdent(name) && name in current && current == vars[name := current[name]])
    ensures FirstWord(assign(values[0])) != "for" && VerdictOf(lib, assign(values[0]), current) == Nothing
    ensures var env := EnvAfter(lib, assign(values[0]), current);
            && Agree(vars[name := values[0]], env)
            && (env == vars || (IsIdent(name) && name in env && env == vars[name := env[name]]))
            && (!IsIdent(name) && current == vars ==> env == vars)
  {
    hide VerdictOf, EnvAfter, FirstWord, IsIdent, HasUnresolved;
    var segment := assign(values[0]);
    assert AllResolved(values) ==> !HasUnresolved(values[0]);
    if IsIdent(name) {
      AssignmentSegment(lib, segment, name, values[0], current);
      assert current[name := values[0]] == vars[name := values[0]];
    } else {
      EmptySegment(lib, segment, current);
    }
  }

  lemma EmptySegment(lib: Library, segment: string, env: Vars)
    requires lib.tokenize(segment) == []
    ensures EnvAfter(lib, segment, env) == env && VerdictOf(lib, segment, env) == Nothing
  {
  }

  /** A `for` loop with a plain body lists exactly the URLs of the script that sets the
      variable to each value in turn and repeats the body. */
  lemma {:induction false} LoopUnrolls(lib: Library, cap: int, assign: string -> string, name: string, values: seq<string>,
                                       body: seq<string>, vars: Vars, current: Vars, a: Acc, b: Acc, segs: seq<string>, i: nat)
    requires Assigns(lib, assign, name, values) && AllResolved(values) && a.urls == b.urls
    requires forall k :: 0 <= k < |body| ==> Plain(lib, body[k])
    requires current == vars || (IsIdent(name) && name in current && current == vars[name := current[name]])
    requires i <= |segs| && segs[i..] == Unrolled(assign, values, body)
    ensures LoopAcc(lib, cap, body, name, values, vars, a).urls == RunFrom(lib, cap, segs, i, current, b).urls
    decreases |values|
  {
    hide VerdictOf, ReadLoop, FirstWord, BodyAcc, EnvAfter, Plain, IsIdent, Agree;
    if values != [] && !Full(cap, a) {
      var value, rest := values[0], Unrolled(assign, values[1..], body);
      var env := vars[name := value];
      UnrolledAt(assign, values, body, segs, i);
      AssignSegment(lib, assign, name, values, vars, current);
      var bound := EnvAfter(lib, segs[i], current);
      var b1 := Record(cap, b, Nothing);
      PlainBody(lib, cap, body, bound, b1, segs, i + 1);
      BodySameUrls(lib, cap, body, env, bound, a, b1);
      assert forall k :: 0 <= k < |values[1..]| ==> values[1..][k] == values[k + 1];
      LoopUnrolls(lib, cap, assign, name, values[1..], body, vars, bound, BodyAcc(lib, cap, body, env, a),
                  BodyAcc(lib, cap, body, bound, b1), segs, i + 1 + |body|);
    }
  }

  lemma UnrolledAt(assign: string -> string, values: seq<string>, body: seq<string>, segs: seq<string>, i: nat)
    requires values != [] && i <= |segs| && segs[i..] == Unrolled(assign, values, body)
    ensures i + 1 + |body| <= |segs| && segs[i] == assign(values[0])
    ensures segs[i + 1..i + 1 + |body|] == body && segs[i + 1 + |body|..] == Unrolled(assign, values[1..], body)
  {
    SuffixParts(segs, i, assign(values[0]), body, Unrolled(assign, values[1..], body));
  }

  lemma SuffixParts<T>(s: seq<T>, i: nat, x: T, body: seq<T>, rest: seq<T>)
    requires i <= |s| && s[i..] == [x] + body + rest
    ensures i + 1 + |body| <= |s| && s[i] == x
    ensures s[i + 1..i + 1 + |body|] == body && s[i + 1 + |body|..] == rest
  {
    var t := s[i..];
    assert |t| == 1 + |body| + |rest|;
    assert forall k :: 0 <= k < |t| ==> s[i + k] == t[k];
  }

  lemma {:induction false} WordsResolved(text: string)
    requires !HasUnresolved(text)
    ensures AllResolved(Words(text))
    decreases |text|
  {
    var s := LStrip(text);
    LStripChars(text);
    var n := WordLen(s);
    if n > 0 { WordsResolved(s[n..]); }
  }

  lemma {:induction false} LStripChars(text: string)
    ensures forall c :: c in LStrip(text) ==> c in text
    decreases |text|
  {
    if text != "" && IsSpace(text[0]) { LStripChars(text[1..]); }
  }

  lemma {:induction false} AllWordsResolved(texts: seq<string>)
    requires AllResolved(texts)
    ensures AllResolved(AllWords(texts))
  {
    hide Words, HasUnresolved;
    if texts != [] {
      WordsResolved(texts[0]);
      AllWordsResolved(texts[1..]);
    }
  }

  lemma ReadLoopValues(lib: Library, segs: seq<string>, i: nat, vars: Vars)
    requires i < |segs|
    ensures var loop := ReadLoop(lib, segs, i, vars);
            loop.Loop? ==> |lib.tokenize(segs[i])| >= 4 && loop.values == LoopValues(lib.tokenize(segs[i])[3..], vars)
  {
  }

  lemma ResolvedMeans(words: seq<string>)
    requires AllResolved(words)
    ensures forall v :: v in words ==> '$' !in v && '`' !in v
  {
  }

  lemma ValuesResolved(words: seq<string>, vars: Vars)
    ensures AllResolved(LoopValues(words, vars)) && |LoopValues(words, vars)| <= 64
    ensures forall v :: v in LoopValues(words, vars) ==> '$' !in v && '`' !in v
  {
    hide AllWords, HasUnresolved, ExpandAll;
    if AllResolved(ExpandAll(words, vars)) { AllWordsResolved(ExpandAll(words, vars)); }
    ResolvedMeans(LoopValues(words, vars));
  }

  lemma LoopFull(lib: Library, cap: int, body: seq<string>, name: string, values: seq<string>, vars: Vars, acc: Acc)
    requires Full(cap, acc)
    ensures LoopAcc(lib, cap, body, name, values, vars, acc) == acc
  {
  }

  /** The same from the main loop: a loop lists what its expansion lists, for the first 64 of
      its values, and the scan goes on after it with the outer variables unchanged. */
  lemma ForLoopMeansExpansion(lib: Library, cap: int, segs: seq<string>, i: nat, vars: Vars, acc: Acc, assign: string -> string)
    requires i < |segs| && FirstWord(segs[i]) == "for"
    requires var loop := ReadLoop(lib, segs, i, vars);
             && loop.Loop? && Assigns(lib, assign, loop.name, loop.values)
             && (forall k :: 0 <= k < |loop.body| ==> Plain(lib, loop.body[k]))
    ensures var loop := ReadLoop(lib, segs, i, vars);
            var after := LoopAcc(lib, cap, loop.body, loop.name, loop.values, vars, acc);
            && RunFrom(lib, cap, segs, i, vars, acc) == RunFrom(lib, cap, segs, loop.next, vars, after)
            && after.urls == RunFrom(lib, cap, Unrolled(assign, loop.values, loop.body), 0, vars, acc).urls
  {
    hide VerdictOf, ReadLoop, FirstWord, LoopAcc, EnvAfter, Plain, IsIdent, Record;
    var loop := ReadLoop(lib, segs, i, vars);
    LoopNext(lib, segs, i, vars);
    if Full(cap, acc) { LoopFull(lib, cap, loop.body, loop.name, loop.values, vars, acc); }
    ReadLoopValues(lib, segs, i, vars);
    ValuesResolved(lib.tokenize(segs[i])[3..], vars);
    var written := Unrolled(assign, loop.values, loop.body);
    assert written[0..] == written;
    LoopUnrolls(lib, cap, assign, loop.name, loop.values, loop.body, vars, vars, acc, acc, written, 0);
  }
}
