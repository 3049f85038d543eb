/** honeypot/session/manager.py: running one input line, and the per-session download cap. */
module Session {
  import opened Basics
  import opened CommandLine

  datatype Download = Download(url: string, protocol: string, filename: string)

  /** `CommandResult` of honeypot/shell/commands.py. */
  datatype CommandResult = CommandResult(
    output: string,
    download: Option<Download>,
    execution: Option<string>,
    exitSession: bool,
    status: int)

  /** A command that dispatch answered, the answer's text and status once any download it
      asked for is done, and the session afterwards. */
  datatype Ran<F> = Ran(text: string, output: string, status: int, after: Shell<F>)

  datatype Event =
    | ExecutionAttempt(command: string, target: string)
    | Requested(n: nat, download: Download)
    | LimitReached(n: nat, download: Download)
    | Outcome(n: nat, download: Download, success: bool)

  /** What the commands of a session see and change; `F` is the fake file system. Several channels may share it:
      each runs `_run_segment`, and while one waits for a fetch any other may run. `inFlight` holds the fetches
      under way. */
  datatype Shell<F> = Shell(fs: F, shouldExit: bool, downloads: nat, events: seq<Event>, inFlight: map<nat, Download>)

  /** What a channel does without letting another one run in between. */
  datatype Step<F> =
    | Dispatched(fs: F, exits: bool, execution: Option<Event>)
    | Begin(download: Download)
    | Finish(n: nat, success: bool)

  /** The parts of the system a session calls: `dispatch`, the fetcher's verdict on the n-th download, the text of a
      reply, and the configured cap; and what the other channels do while the n-th download is waited for, which is
      any list of steps, those not possible being skipped. */
  datatype Host<!F> = Host(
    dispatch: (string, F) -> (F, CommandResult),
    fetch: (nat, Download) -> bool,
    reply: (Download, bool) -> string,
    others: (Shell<F>, nat) -> seq<Step<F>>,
    maxDownloads: int)

  // ---------------------------------------------------------------- one command

  /** `_download_count` and the event written at once: nothing else runs in between. */
  function Attempt<F>(s: Shell<F>, d: Download, cap: int): Shell<F> {
    var n := s.downloads + 1;
    if n > cap then s.(downloads := n, events := s.events + [LimitReached(n, d)])
    else s.(downloads := n, events := s.events + [Requested(n, d)], inFlight := s.inFlight[n := d])
  }

  function Complete<F>(s: Shell<F>, n: nat, d: Download, success: bool): Shell<F> {
    s.(events := s.events + [Outcome(n, d, success)], inFlight := s.inFlight - {n})
  }

  predicate Enabled<F>(s: Shell<F>, step: Step<F>) {
    match step
    case Dispatched(_, _, execution) => execution.Some? ==> execution.value.ExecutionAttempt?
    case Begin(_) => true
    case Finish(n, _) => n in s.inFlight
  }

  function Apply<F>(s: Shell<F>, step: Step<F>, cap: int): Shell<F>
    requires Enabled(s, step)
  {
    match step
    case Dispatched(fs, exits, execution) =>
      var s1 := s.(fs := fs, shouldExit := s.shouldExit || exits);
      if execution.Some? then s1.(events := s1.events + [execution.value]) else s1
    case Begin(d) => Attempt(s, d, cap)
    case Finish(n, success) => Complete(s, n, s.inFlight[n], success)
  }

  ghost predicate CanRun<F>(s: Shell<F>, steps: seq<Step<F>>, cap: int)
    decreases |steps|
  {
    steps == [] || (Enabled(s, steps[0]) && CanRun(Apply(s, steps[0], cap), steps[1..], cap))
  }

  function Run<F>(s: Shell<F>, steps: seq<Step<F>>, cap: int): Shell<F>
    requires CanRun(s, steps, cap)
    decreases |steps|
  {
    if steps == [] then s else Run(Apply(s, steps[0], cap), steps[1..], cap)
  }

  /** Those of `steps` that channels other than the one waiting for download `n` can take, one after the other. */
  function Possible<F>(s: Shell<F>, n: nat, steps: seq<Step<F>>, cap: int): (r: seq<Step<F>>)
    ensures CanRun(s, r, cap)
    decreases |steps|
  {
    if steps == [] then []
    else if Enabled(s, steps[0]) && !(steps[0].Finish? && steps[0].n == n)
    then
      var rest := Possible(Apply(s, steps[0], cap), n, steps[1..], cap);
      assert ([steps[0]] + rest)[1..] == rest;
      [steps[0]] + rest
    else Possible(s, n, steps[1..], cap)
  }

  /** What the other channels have made of the session when the n-th fetch is done. */
  function Meanwhile<F>(host: Host<F>, s: Shell<F>, n: nat): Shell<F> {
    Run(s, Possible(s, n, host.others(s, n), host.maxDownloads), host.maxDownloads)
  }

  /** The session when dispatch has answered. */
  function Answered<F>(host: Host<F>, s: Shell<F>, text: string): Shell<F> {
    var (fs, result) := host.dispatch(text, s.fs);
    var s1 := s.(fs := fs, shouldExit := s.shouldExit || result.exitSession);
    if result.execution.Some? then s1.(events := s1.events + [ExecutionAttempt(text, result.execution.value)]) else s1
  }

  /** A download asked for: the reply, the status and the session afterwards. */
  function Downloaded<F>(host: Host<F>, s: Shell<F>, d: Download): (string, int, Shell<F>) {
    var s1 := Attempt(s, d, host.maxDownloads);
    var n := s1.downloads;
    if n > host.maxDownloads then (host.reply(d, false), 1, s1) else
      var ok := host.fetch(n, d);
      (host.reply(d, ok), if ok then 0 else 1, Complete(Meanwhile(host, s1, n), n, d, ok))
  }

  function RunOne<F>(host: Host<F>, s: Shell<F>, text: string): Ran<F> {
    var result := host.dispatch(text, s.fs).1;
    var s1 := Answered(host, s, text);
    if result.download == None then Ran(text, result.output, result.status, s1)
    else
      var (output, status, after) := Downloaded(host, s1, result.download.value);
      Ran(text, output, status, after)
  }

  // ---------------------------------------------------------------- AND-OR lists

  /** Section 2.9.3 of the POSIX.1-2017 Shell Command Language: `&&` and `||` associate to
      the left, with equal precedence. */
  datatype AndOr = Command(text: string) | AndThen(left: AndOr, text: string) | OrElse(left: AndOr, text: string)

  /** The commands an AND-OR list runs, in order, and its exit status: that of the last
      command it ran. */
  function EvalAndOr<F>(host: Host<F>, s: Shell<F>, list: AndOr): (r: seq<Ran<F>>)
    ensures r != []
    decreases list
  {
    match list
    case Command(text) => [RunOne(host, s, text)]
    case AndThen(left, text) =>
      var ran := EvalAndOr(host, s, left);
      if Status(ran) == 0 then ran + [RunOne(host, After(ran), text)] else ran
    case OrElse(left, text) =>
      var ran := EvalAndOr(host, s, left);
      if Status(ran) != 0 then ran + [RunOne(host, After(ran), text)] else ran
  }

  function Status<F>(ran: seq<Ran<F>>): int
    requires ran != []
  {
    ran[|ran| - 1].status
  }

  function After<F>(ran: seq<Ran<F>>): Shell<F>
    requires ran != []
  {
    ran[|ran| - 1].after
  }

  /** AND-OR lists separated by `;`, one after the other. */
  function EvalLists<F>(host: Host<F>, s: Shell<F>, lists: seq<AndOr>): seq<Ran<F>>
    decreases |lists|
  {
    if lists == [] then [] else
      var ran := EvalAndOr(host, s, lists[0]);
      ran + EvalLists(host, After(ran), lists[1..])
  }

  /** The segments of a line, read as AND-OR lists; `open` is the one being built. */
  function ParseLists(open: AndOr, segs: seq<Segment>): seq<AndOr>
    decreases |segs|
  {
    if segs == [] then [open] else
      match segs[0].op
      case Seq => [open] + ParseLists(Command(segs[0].text), segs[1..])
      case And => ParseLists(AndThen(open, segs[0].text), segs[1..])
      case Or => ParseLists(OrElse(open, segs[0].text), segs[1..])
  }

  /** The commands up to and including the first after which the session is over. */
  function CutAtExit<F>(ran: seq<Ran<F>>): seq<Ran<F>> {
    if ran == [] then [] else if ran[0].after.shouldExit then [ran[0]] else [ran[0]] + CutAtExit(ran[1..])
  }

  function Outputs<F>(ran: seq<Ran<F>>): seq<string> {
    if ran == [] then [] else
      var before := Outputs(ran[..|ran| - 1]);
      if ran[|ran| - 1].output != "" then before + [ran[|ran| - 1].output] else before
  }

  /** `"\n".join(outputs)`. */
  function Join(lines: seq<string>): string {
    if lines == [] then "" else if |lines| == 1 then lines[0] else lines[0] + "\n" + Join(lines[1..])
  }

  // ---------------------------------------------------------------- the flat loop

  predicate Skips(op: Op, status: int) { (op == And && status != 0) || (op == Or && status == 0) }

  /** What the loop still has to run, were it never to stop early. */
  function FlatRun<F>(host: Host<F>, s: Shell<F>, status: int, segs: seq<Segment>): seq<Ran<F>>
    decreases |segs|
  {
    if segs == [] then []
    else if Skips(segs[0].op, status) then FlatRun(host, s, status, segs[1..])
    else
      var r := RunOne(host, s, segs[0].text);
      [r] + FlatRun(host, r.after, r.status, segs[1..])
  }

  /** The loop over operators and the recursive reading of the line run the same commands. */
  lemma {:induction false} FlatIsStructured<F>(host: Host<F>, s: Shell<F>, open: AndOr, segs: seq<Segment>)
    ensures var ran := EvalAndOr(host, s, open);
            EvalLists(host, s, ParseLists(open, segs)) == ran + FlatRun(host, After(ran), Status(ran), segs)
    decreases |segs|
  {
    var ran := EvalAndOr(host, s, open);
    if segs == [] {
      assert [open][1..] == [];
      assert EvalLists(host, s, [open]) == ran + [];
    } else {
      var text, rest := segs[0].text, segs[1..];
      match segs[0].op
      case Seq =>
        var next := Command(text);
        FlatIsStructured(host, After(ran), next, rest);
        assert ([open] + ParseLists(next, rest))[1..] == ParseLists(next, rest);
      case And =>
        FlatIsStructured(host, s, AndThen(open, text), rest);
        RunAppends(host, ran, text, rest);
      case Or =>
        FlatIsStructured(host, s, OrElse(open, text), rest);
        RunAppends(host, ran, text, rest);
    }
  }

  lemma RunAppends<F>(host: Host<F>, ran: seq<Ran<F>>, text: string, rest: seq<Segment>)
    requires ran != []
    ensures var r := RunOne(host, After(ran), text);
            (ran + [r]) + FlatRun(host, r.after, r.status, rest) == ran + ([r] + FlatRun(host, r.after, r.status, rest))
  {
  }

  // ---------------------------------------------------------------- the session object

  class SessionManager<F> {
    const host: Host<F>
    var fs: F
    var shouldExit: bool
    var downloadCount: nat
    var events: seq<Event>
    /** The downloads that some channel is waiting for. */
    var inFlight: map<nat, Download>

    constructor (host: Host<F>, fs: F)
      ensures this.host == host && Now() == Fresh(fs) && Valid()
    {
      this.host, this.fs, shouldExit, downloadCount, events, inFlight := host, fs, false, 0, [], map[];
      new;
      FreshSession(fs, host.maxDownloads);
    }

    function Now(): Shell<F>
      reads this
    {
      Shell(fs, shouldExit, downloadCount, events, inFlight)
    }

    /** The log accounts for every download attempt so far, on whatever channel. */
    ghost predicate Valid()
      reads this
    {
      CapHolds(Now(), host.maxDownloads)
    }

    /** Waiting for the n-th fetch: the other channels of the session go on. */
    method Await(n: nat)
      modifies this
      ensures Now() == Meanwhile(host, old(Now()), n)
    {
      var later := Meanwhile(host, Now(), n);
      fs, shouldExit, downloadCount, events, inFlight := later.fs, later.shouldExit, later.downloads, later.events, later.inFlight;
    }

    /** The first half of `_run_segment`: a command is dispatched and what it tried to execute is logged. */
    method Dispatch(raw: string) returns (result: CommandResult)
      modifies this
      ensures result == host.dispatch(raw, old(fs)).1 && Now() == Answered(host, old(Now()), raw)
      ensures downloadCount == old(downloadCount)
    {
      var (fs', answer) := host.dispatch(raw, fs);
      result, fs := answer, fs';
      if result.exitSession {
        shouldExit := true;
      }
      if result.execution.Some? {
        events := events + [ExecutionAttempt(raw, result.execution.value)];
      }
    }

    /** `_run_segment`: this channel's steps, with any steps of other channels while it waits for its fetch. */
    method RunSegment(raw: string) returns (output: string, status: int)
      requires Valid()
      modifies this
      ensures Valid() && Ran(raw, output, status, Now()) == RunOne(host, old(Now()), raw)
      ensures var steps := SegmentSteps(host, old(Now()), raw);
              CanRun(old(Now()), steps, host.maxDownloads) && Now() == Run(old(Now()), steps, host.maxDownloads)
      // a download ends with status 0 exactly when it is within the cap and its fetch succeeds, and with 1 otherwise
      ensures var (answer, n) := (host.dispatch(raw, old(fs)).1, old(downloadCount) + 1);
              match answer.download
              case None => status == answer.status && output == answer.output
              case Some(d) =>
                status == (if n <= host.maxDownloads && host.fetch(n, d) then 0 else 1) && output == host.reply(d, status == 0)
    {
      hide CapHolds, Run, CanRun, Possible, Meanwhile, SegmentSteps, Answered, Downloaded;
      SegmentIsRun(host, Now(), raw);
      RunKeepsCap(Now(), SegmentSteps(host, Now(), raw), host.maxDownloads);
      var result := Dispatch(raw);
      if result.download.Some? {
        output, status := Fetch(result.download.value);
        return;
      }
      return result.output, result.status;
    }

    /** The second half of `_run_segment`: a download is counted, and fetched unless the cap is reached. */
    method Fetch(req: Download) returns (output: string, status: int)
      modifies this
      ensures (output, status, Now()) == Downloaded(host, old(Now()), req)
      ensures var n := old(downloadCount) + 1;
              status == (if n <= host.maxDownloads && host.fetch(n, req) then 0 else 1) && output == host.reply(req, status == 0)
    {
      hide Meanwhile;
      downloadCount := downloadCount + 1;
      if downloadCount > host.maxDownloads {
        events := events + [LimitReached(downloadCount, req)];
        return host.reply(req, false), 1;
      }
      var n := downloadCount;
      events := events + [Requested(n, req)];
      inFlight := inFlight[n := req];
      Await(n);
      var success := host.fetch(n, req);
      inFlight := inFlight - {n};
      events := events + [Outcome(n, req, success)];
      return host.reply(req, success), if success then 0 else 1;
    }

    /** The loop of `handle_command`. */
    method RunLine(segments: seq<Segment>) returns (outputs: seq<string>, ghost ran: seq<Ran<F>>)
      requires Valid() && segments != [] && segments[0].op == Seq
      modifies this
      ensures Valid() && ran == CutAtExit(FlatRun(host, old(Now()), 0, segments))
      ensures ran != [] && Now() == After(ran) && outputs == Outputs(ran)
    {
      hide RunOne, CapHolds, SegmentSteps, CanRun, Run;
      ghost var whole := CutAtExit(FlatRun(host, Now(), 0, segments));
      var status := 0;
      outputs, ran := [], [];
      var i := 0;
      assert segments[0..] == segments;
      while i < |segments|
        invariant i <= |segments| && Valid()
        invariant i == 0 ==> ran == [] && status == 0
        invariant i > 0 ==> ran != [] && Now() == After(ran)
        invariant outputs == Outputs(ran)
        invariant whole == ran + CutAtExit(FlatRun(host, Now(), status, segments[i..]))
      {
        var op, segment := segments[i].op, segments[i].text;
        assert segments[i..][0] == segments[i] && segments[i..][1..] == segments[i + 1..];
        i := i + 1;
        if (op == And && status != 0) || (op == Or && status == 0) { continue; }
        var output: string;
        output, status := RunSegment(segment);
        ghost var r := Ran(segment, output, status, Now());
        StepCuts(ran, r, FlatRun(host, r.after, r.status, segments[i..]));
        OutputsSnoc(ran, r);
        ran := ran + [r];
        if output != "" {
          outputs := outputs + [output];
        }
        if shouldExit { return; }
      }
      assert segments[i..] == [];
      assert ran + [] == ran;
    }

    /** `handle_command`, after the line has been logged: the commands that run are those of
        the line's AND-OR lists, up to the one that ends the session. */
    method HandleCommand(raw: string) returns (reply: string, ghost ran: seq<Ran<F>>)
      requires Valid()
      modifies this
      ensures Valid()
      ensures var segs := LineSegments(raw);
              ran == CutAtExit(EvalLists(host, old(Now()), ParseLists(Command(segs[0].text), segs[1..])))
      ensures ran != [] && Now() == After(ran) && reply == Join(Outputs(ran))
    {
      hide SplitAll, EvalLists, EvalAndOr, ParseLists, RunOne, GoodList, CapHolds;
      var line := SplitCommandLine(ChompLine(raw), MAX_CHAIN_SEGMENTS);
      SplitGood(ChompLine(raw), MAX_CHAIN_SEGMENTS);
      var segments := if line == [] then [Segment(Seq, "")] else line;
      LineIsStructured(host, Now(), segments);
      var outputs;
      outputs, ran := RunLine(segments);
      reply := Join(outputs);
    }
  }

  /** `wget ... && right` runs its right arm exactly when the download is within the cap and its fetch succeeds, and
      `wget ... || right` exactly when it is refused or its fetch fails. */
  lemma DownloadChained<F>(host: Host<F>, s: Shell<F>, left: string, op: Op, right: string)
    requires op != Seq && host.dispatch(left, s.fs).1.download.Some?
    ensures var (n, d) := (s.downloads + 1, host.dispatch(left, s.fs).1.download.value);
            var (fetched, first) := (n <= host.maxDownloads && host.fetch(n, d), RunOne(host, s, left));
            FlatRun(host, s, 0, [Segment(Seq, left), Segment(op, right)])
            == if (op == And) == fetched then [first, RunOne(host, first.after, right)] else [first]
  {
    hide Meanwhile;
    var segs := [Segment(Seq, left), Segment(op, right)];
    assert segs[1..] == [Segment(op, right)] && segs[1..][1..] == [];
    var first := RunOne(host, s, left);
    assert FlatRun(host, s, 0, segs) == [first] + FlatRun(host, first.after, first.status, segs[1..]);
    assert FlatRun(host, first.after, first.status, segs[1..])
        == if Skips(op, first.status) then FlatRun(host, first.after, first.status, [])
           else [RunOne(host, first.after, right)] + FlatRun(host, RunOne(host, first.after, right).after, RunOne(host, first.after, right).status, []);
  }

  /** A whole line: its first operator is always `;`, and the status starts at 0. */
  lemma LineIsStructured<F>(host: Host<F>, s: Shell<F>, segs: seq<Segment>)
    requires segs != [] && segs[0].op == Seq
    ensures FlatRun(host, s, 0, segs) == EvalLists(host, s, ParseLists(Command(segs[0].text), segs[1..]))
  {
    FlatIsStructured(host, s, Command(segs[0].text), segs[1..]);
  }

  /** The two `rstrip` calls on the input line. */
  function ChompLine(raw: string): string { ChompChar(ChompChar(raw, '\n'), '\r') }

  function ChompChar(s: string, c: char): string {
    if s != "" && s[|s| - 1] == c then ChompChar(s[..|s| - 1], c) else s
  }

  lemma {:induction false} ChompedChars(s: string, c: char, tail: string)
    requires (forall i :: 0 <= i < |tail| ==> tail[i] == c) && (s == "" || s[|s| - 1] != c)
    ensures ChompChar(s + tail, c) == s
    decreases |tail|
  {
    if tail == "" {
      assert s + tail == s;
    } else {
      assert (s + tail)[..|s + tail| - 1] == s + tail[..|tail| - 1];
      ChompedChars(s, c, tail[..|tail| - 1]);
    }
  }

  /** Only line feeds at the very end, and then carriage returns, are cut off a line. */
  lemma LineChomped(line: string, crs: string, lfs: string)
    requires (line == "" || (line[|line| - 1] != '\r' && (crs != "" || line[|line| - 1] != '\n')))
    requires (forall i :: 0 <= i < |crs| ==> crs[i] == '\r') && (forall i :: 0 <= i < |lfs| ==> lfs[i] == '\n')
    ensures ChompLine(line + crs + lfs) == line
  {
    ChompedChars(line + crs, '\n', lfs);
    ChompedChars(line, '\r', crs);
  }

  /** A reply is the outputs with a line feed between each two. */
  lemma {:induction false} JoinSnoc(lines: seq<string>, last: string)
    requires lines != []
    ensures Join(lines + [last]) == Join(lines) + "\n" + last
  {
    if |lines| == 1 {
      assert (lines + [last])[1..] == [last];
    } else {
      assert (lines + [last])[1..] == lines[1..] + [last] && (lines + [last])[0] == lines[0];
      JoinSnoc(lines[1..], last);
    }
  }

  function LineSegments(raw: string): (segs: seq<Segment>)
    ensures segs != []
  {
    var segs := Take(SplitAll(ChompLine(raw)), 30);
    if segs == [] then [Segment(Seq, "")] else segs
  }

  lemma StepCuts<F>(ran: seq<Ran<F>>, r: Ran<F>, rest: seq<Ran<F>>)
    ensures ran + CutAtExit([r] + rest) == ran + [r] + (if r.after.shouldExit then [] else CutAtExit(rest))
  {
    assert ([r] + rest)[1..] == rest;
  }

  lemma OutputsSnoc<F>(ran: seq<Ran<F>>, r: Ran<F>)
    ensures Outputs(ran + [r]) == if r.output != "" then Outputs(ran) + [r.output] else Outputs(ran)
  {
    assert (ran + [r])[..|ran|] == ran;
  }

  // ---------------------------------------------------------------- many channels, one session

  /** All the steps taken while one channel runs a segment: its own, and those of the others while it waits. */
  function SegmentSteps<F>(host: Host<F>, s: Shell<F>, text: string): seq<Step<F>> {
    var (fs, result) := host.dispatch(text, s.fs);
    var execution := if result.execution.Some? then Some(ExecutionAttempt(text, result.execution.value)) else None;
    var first := Dispatched(fs, result.exitSession, execution);
    if result.download == None then [first]
    else
      var (n, d) := (s.downloads + 1, result.download.value);
      if n > host.maxDownloads then [first, Begin(d)]
      else
        var begun := Attempt(Apply(s, first, host.maxDownloads), d, host.maxDownloads);
        [first, Begin(d)] + Possible(begun, n, host.others(begun, n), host.maxDownloads) + [Finish(n, host.fetch(n, d))]
  }

  /** The others leave a download under way alone, apart from ending their own, and no download gets its number. */
  lemma {:induction false} PossibleLeaves<F>(s: Shell<F>, n: nat, steps: seq<Step<F>>, cap: int)
    requires n in s.inFlight && n <= s.downloads
    ensures var t := Run(s, Possible(s, n, steps, cap), cap);
            n in t.inFlight && t.inFlight[n] == s.inFlight[n] && s.events <= t.events && s.downloads <= t.downloads
    decreases |steps|
  {
    if steps != [] {
      if Enabled(s, steps[0]) && !(steps[0].Finish? && steps[0].n == n) {
        var t := Apply(s, steps[0], cap);
        PossibleLeaves(t, n, steps[1..], cap);
        var rest := Possible(t, n, steps[1..], cap);
        assert ([steps[0]] + rest)[1..] == rest;
      } else {
        PossibleLeaves(s, n, steps[1..], cap);
      }
    }
  }

  /** Running a segment is a run of the shared session: this channel's steps, in order, and in the one place where
      it waits any steps of the others, which leave its own download under way. */
  lemma SegmentIsRun<F>(host: Host<F>, s: Shell<F>, text: string)
    ensures var (steps, cap) := (SegmentSteps(host, s, text), host.maxDownloads);
            CanRun(s, steps, cap) && Run(s, steps, cap) == RunOne(host, s, text).after
  {
    hide Possible;
    var steps, cap := SegmentSteps(host, s, text), host.maxDownloads;
    var s1 := Apply(s, steps[0], cap);
    if |steps| == 1 {
      OneStep(s, steps[0], cap);
      assert steps == [steps[0]];
    } else if s.downloads + 1 > cap {
      OneStep(s1, steps[1], cap);
      assert steps[1..] == [steps[1]];
    } else {
      var n, begun := s.downloads + 1, Apply(s1, steps[1], cap);
      var among := Possible(begun, n, host.others(begun, n), cap);
      PossibleLeaves(begun, n, host.others(begun, n), cap);
      var last := steps[|steps| - 1];
      OneStep(Run(begun, among, cap), last, cap);
      RunJoins(begun, among, [last], cap);
      assert steps[1..][1..] == among + [last] && steps[1..][0] == steps[1];
      assert CanRun(s1, steps[1..], cap);
    }
  }

  /** Past the cap nothing is fetched, and so nothing is waited for. */
  lemma RefusedUnfetched<F>(host: Host<F>, s: Shell<F>, text: string)
    requires s.downloads >= host.maxDownloads
    ensures forall step {:trigger step in SegmentSteps(host, s, text)} :: step in SegmentSteps(host, s, text) ==> !step.Finish?
  {
  }

  lemma OneStep<F>(s: Shell<F>, step: Step<F>, cap: int)
    requires Enabled(s, step)
    ensures CanRun(s, [step], cap) && Run(s, [step], cap) == Apply(s, step, cap)
  {
    assert [step][1..] == [];
  }

  lemma {:induction false} RunJoins<F>(s: Shell<F>, a: seq<Step<F>>, b: seq<Step<F>>, cap: int)
    requires CanRun(s, a, cap) && CanRun(Run(s, a, cap), b, cap)
    ensures CanRun(s, a + b, cap) && Run(s, a + b, cap) == Run(Run(s, a, cap), b, cap)
    decreases |a|
  {
    if a == [] {
      assert a + b == b;
    } else {
      RunJoins(Apply(s, a[0], cap), a[1..], b, cap);
      assert (a + b)[1..] == a[1..] + b;
    }
  }

  /** What to look for in the log. */
  datatype Kind = RequestOf(n: nat) | RefusalOf(n: nat) | OutcomeOf(n: nat) | AnyRequest | AnyRefusal

  predicate Matches(kind: Kind, e: Event) {
    match kind
    case RequestOf(n) => e.Requested? && e.n == n
    case RefusalOf(n) => e.LimitReached? && e.n == n
    case OutcomeOf(n) => e.Outcome? && e.n == n
    case AnyRequest => e.Requested?
    case AnyRefusal => e.LimitReached?
  }

  function Count(events: seq<Event>, kind: Kind): nat {
    if events == [] then 0 else
      Count(events[..|events| - 1], kind) + (if Matches(kind, events[|events| - 1]) then 1 else 0)
  }

  lemma CountSnoc(events: seq<Event>, e: Event, kind: Kind)
    ensures Count(events + [e], kind) == Count(events, kind) + (if Matches(kind, e) then 1 else 0)
  {
    assert (events + [e])[..|events|] == events;
  }

  function Allowed(attempts: nat, cap: int): nat {
    if cap < 0 then 0 else if attempts < cap then attempts else cap
  }

  /** What the log says about the n-th attempt. */
  ghost predicate AttemptLogged<F>(s: Shell<F>, cap: int, n: nat) {
    var (events, started, allowed) := (s.events, 1 <= n <= s.downloads, n <= cap);
    && Count(events, RequestOf(n)) == (if started && allowed then 1 else 0)
    && Count(events, RefusalOf(n)) == (if started && !allowed then 1 else 0)
    && Count(events, OutcomeOf(n)) == (if started && allowed && n !in s.inFlight then 1 else 0)
    && (n in s.inFlight ==> started && allowed)
  }

  ghost predicate CapHolds<F>(s: Shell<F>, cap: int) {
    && Count(s.events, AnyRequest) == Allowed(s.downloads, cap)
    && Count(s.events, AnyRefusal) == s.downloads - Allowed(s.downloads, cap)
    && (forall n: nat {:trigger AttemptLogged(s, cap, n)} :: AttemptLogged(s, cap, n))
  }

  /** The event a step writes. */
  function Written<F>(s: Shell<F>, step: Step<F>, cap: int): Event
    requires Enabled(s, step) && (step.Dispatched? ==> step.execution.Some?)
  {
    match step
    case Dispatched(_, _, execution) => execution.value
    case Begin(d) => if s.downloads + 1 > cap then LimitReached(s.downloads + 1, d) else Requested(s.downloads + 1, d)
    case Finish(n, success) => Outcome(n, s.inFlight[n], success)
  }

  lemma StepKeepsCap<F>(s: Shell<F>, step: Step<F>, cap: int)
    requires CapHolds(s, cap) && Enabled(s, step)
    ensures CapHolds(Apply(s, step, cap), cap)
  {
    hide Count, AttemptLogged;
    var t := Apply(s, step, cap);
    if step.Dispatched? && step.execution == None {
      QuietKept(s, t, cap);
      return;
    }
    var e := Written(s, step, cap);
    assert t.events == s.events + [e];
    CountSnoc(s.events, e, AnyRequest);
    CountSnoc(s.events, e, AnyRefusal);
    if step.Finish? { assert AttemptLogged(s, cap, step.n); }
    forall n: nat ensures AttemptLogged(t, cap, n) {
      assert AttemptLogged(s, cap, n);
      AttemptKept(s, step, cap, n);
    }
  }

  lemma QuietKept<F>(s: Shell<F>, t: Shell<F>, cap: int)
    requires CapHolds(s, cap) && t.inFlight == s.inFlight
    requires t.events == s.events && t.downloads == s.downloads
    ensures CapHolds(t, cap)
  {
    hide Count;
    forall n: nat ensures AttemptLogged(t, cap, n) { assert AttemptLogged(s, cap, n); }
  }

  lemma AttemptKept<F>(s: Shell<F>, step: Step<F>, cap: int, n: nat)
    requires Enabled(s, step) && (step.Dispatched? ==> step.execution.Some?)
    requires AttemptLogged(s, cap, n) && (step.Finish? ==> AttemptLogged(s, cap, step.n))
    ensures AttemptLogged(Apply(s, step, cap), cap, n)
  {
    hide Count;
    var e := Written(s, step, cap);
    assert Apply(s, step, cap).events == s.events + [e];
    CountSnoc(s.events, e, RequestOf(n));
    CountSnoc(s.events, e, RefusalOf(n));
    CountSnoc(s.events, e, OutcomeOf(n));
  }

  lemma {:induction false} RunKeepsCap<F>(s: Shell<F>, steps: seq<Step<F>>, cap: int)
    requires CapHolds(s, cap) && CanRun(s, steps, cap)
    ensures CapHolds(Run(s, steps, cap), cap)
    decreases |steps|
  {
    hide CapHolds;
    if steps != [] {
      StepKeepsCap(s, steps[0], cap);
      RunKeepsCap(Apply(s, steps[0], cap), steps[1..], cap);
    }
  }

  function Fresh<F>(fs: F): Shell<F> { Shell(fs, false, 0, [], map[]) }

  lemma FreshSession<F>(fs: F, cap: int)
    ensures CapHolds(Fresh(fs), cap)
  {
    var s := Fresh(fs);
    assert forall n: nat :: AttemptLogged(s, cap, n);
  }

  /** In every interleaving of a fresh session's channels: as many requests as the cap lets through, one refusal
      for each later attempt, and for each attempt let through, once its fetch is done, exactly one outcome. */
  lemma DownloadCap<F>(fs: F, steps: seq<Step<F>>, cap: int)
    requires CanRun(Fresh(fs), steps, cap)
    ensures var s := Run(Fresh(fs), steps, cap);
            var (events, attempts) := (s.events, s.downloads);
            && Count(events, AnyRequest) == Allowed(attempts, cap)
            && Count(events, AnyRefusal) == attempts - Allowed(attempts, cap)
            && (forall n: nat {:trigger Count(events, OutcomeOf(n))} :: 1 <= n <= attempts ==>
                  && Count(events, RequestOf(n)) == (if n <= cap then 1 else 0)
                  && Count(events, RefusalOf(n)) == (if n <= cap then 0 else 1)
                  && Count(events, OutcomeOf(n)) == (if n <= cap && n !in s.inFlight then 1 else 0))
            && (forall n {:trigger n in s.inFlight} :: n in s.inFlight ==> 1 <= n <= Allowed(attempts, cap))
  {
    hide Count, Run, CanRun;
    FreshSession(fs, cap);
    RunKeepsCap(Fresh(fs), steps, cap);
    var s := Run(Fresh(fs), steps, cap);
    forall n: nat | 1 <= n <= s.downloads
      ensures Count(s.events, RequestOf(n)) == (if n <= cap then 1 else 0)
      ensures Count(s.events, RefusalOf(n)) == (if n <= cap then 0 else 1)
      ensures Count(s.events, OutcomeOf(n)) == (if n <= cap && n !in s.inFlight then 1 else 0)
    {
      assert AttemptLogged(s, cap, n);
    }
    forall n | n in s.inFlight ensures 1 <= n <= Allowed(s.downloads, cap) { assert AttemptLogged(s, cap, n); }
  }
}
