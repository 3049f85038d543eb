/** The quarantine of honeypot/fetcher/fetcher.py: a directory that only grows, in which a payload is filed
    under its own digest, fed by any number of fetches whose downloads interleave.  The digest, the static
    detector and the network are parameters. */
module Quarantine {

  newtype Byte = x: int | 0 <= x < 256
  type Bytes = seq<Byte>
  type Id = nat
  type Digest = string

  datatype Config = Config(digest: Bytes -> Digest, detect: Bytes -> string, allowed: set<string>, maxSize: nat)

  datatype Job = Job(id: Id, url: string, protocol: string, session: string, filename: string, depth: nat, parent: Digest)

  datatype Result = Refused | HttpError(status: nat) | Broken | TooLarge
                  | Captured(digest: Digest, size: nat, detected: string, status: nat)

  /** One fetch under way; `hashed` is what has gone through the digest so far. */
  datatype Phase = Waiting(job: Job) | Streaming(job: Job, status: nat, hashed: Bytes, size: nat) | Ended(job: Job, result: Result)

  datatype Sidecar = Sidecar(job: Job, time: real, size: nat, digest: Digest, detected: string, status: nat)

  /** A payload that arrived whole. */
  datatype Capture = Capture(job: Job, content: Bytes, status: nat, time: real)

  datatype State = State(tmp: map<Id, Bytes>, bins: map<Digest, Bytes>, sidecars: map<Digest, Sidecar>,
                         fetches: map<Id, Phase>, captures: seq<Capture>)

  datatype Step = Start(job: Job) | Answer(id: Id, status: nat) | Chunk(id: Id, bytes: Bytes) | Break(id: Id) | Finish(id: Id, time: real)

  const Empty := State(map[], map[], map[], map[], [])

  function Take(b: Bytes, n: nat): Bytes { if |b| <= n then b else b[..n] }

  function LowerChar(c: char): char { if 'A' <= c <= 'Z' then ((c as int) + 32) as char else c }

  function Lower(s: string): string { seq(|s|, i requires 0 <= i < |s| => LowerChar(s[i])) }

  /** Capitals become small letters, and nothing else changes. */
  lemma LowerIs(s: string)
    ensures |Lower(s)| == |s|
    ensures forall i :: 0 <= i < |s| ==>
              if 'A' <= s[i] <= 'Z' then 'a' <= Lower(s)[i] <= 'z' && Lower(s)[i] as int - 'a' as int == s[i] as int - 'A' as int
              else Lower(s)[i] == s[i]
  {
  }

  predicate Permitted(cfg: Config, job: Job) {
    Lower(job.protocol) in cfg.allowed && (Lower(job.protocol) == "http" || Lower(job.protocol) == "https")
  }

  function JobOf(s: Step): Id {
    match s case Start(job) => job.id case Answer(id, _) => id case Chunk(id, _) => id case Break(id) => id case Finish(id, _) => id
  }

  /** Job ids are never used twice, and a fetch goes on only from where it stands. */
  predicate Enabled(s: State, step: Step) {
    match step
    case Start(job) => job.id !in s.fetches
    case Answer(id, _) => id in s.fetches && s.fetches[id].Waiting?
    case Chunk(id, _) => id in s.fetches && s.fetches[id].Streaming?
    case Break(id) => id in s.fetches && !s.fetches[id].Ended?
    case Finish(id, _) => id in s.fetches && s.fetches[id].Streaming?
  }

  function End(s: State, id: Id, result: Result): State
    requires id in s.fetches
  {
    s.(tmp := s.tmp - {id}, fetches := s.fetches[id := Ended(s.fetches[id].job, result)])
  }

  function TmpOf(s: State, id: Id): Bytes { if id in s.tmp then s.tmp[id] else [] }

  /** From the digest to the returned result nothing else runs. */
  function Place(cfg: Config, s: State, id: Id, time: real): State
    requires id in s.fetches && s.fetches[id].Streaming?
  {
    var f := s.fetches[id];
    var digest := cfg.digest(f.hashed);
    var s1 := if digest in s.bins then s else s.(bins := s.bins[digest := TmpOf(s, id)]);
    var detected := cfg.detect(Take(s1.bins[digest], 64));
    var s2 := if digest in s.bins then s1
              else s1.(sidecars := s1.sidecars[digest := Sidecar(f.job, time, f.size, digest, detected, f.status)]);
    End(s2, id, Captured(digest, f.size, detected, f.status)).(captures := s.captures + [Capture(f.job, f.hashed, f.status, time)])
  }

  function Apply(cfg: Config, s: State, step: Step): State
    requires Enabled(s, step)
  {
    match step
    case Start(job) => s.(fetches := s.fetches[job.id := if Permitted(cfg, job) then Waiting(job) else Ended(job, Refused)])
    case Answer(id, status) =>
      if status >= 400 then End(s, id, HttpError(status))
      else s.(tmp := s.tmp[id := []], fetches := s.fetches[id := Streaming(s.fetches[id].job, status, [], 0)])
    case Chunk(id, bytes) =>
      var f := s.fetches[id];
      if f.size + |bytes| > cfg.maxSize then End(s, id, TooLarge)
      else s.(tmp := s.tmp[id := TmpOf(s, id) + bytes],
              fetches := s.fetches[id := f.(hashed := f.hashed + bytes, size := f.size + |bytes|)])
    case Break(id) => End(s, id, Broken)
    case Finish(id, time) => Place(cfg, s, id, time)
  }

  // ---------------------------------------------------------------- what every state keeps

  /** Where the first capture with this digest stands among the captures. */
  function FirstOf(cfg: Config, captures: seq<Capture>, d: Digest): (i: nat)
    ensures i <= |captures|
    ensures i < |captures| ==> cfg.digest(captures[i].content) == d
    ensures forall k {:trigger captures[k]} :: 0 <= k < i ==> cfg.digest(captures[k].content) != d
  {
    if captures == [] then 0
    else if cfg.digest(captures[0].content) == d then 0
    else 1 + FirstOf(cfg, captures[1..], d)
  }

  function SidecarOf(cfg: Config, c: Capture): Sidecar {
    Sidecar(c.job, c.time, |c.content|, cfg.digest(c.content), cfg.detect(if |c.content| <= 64 then c.content else c.content[..64]), c.status)
  }

  /** A stored payload is the first one captured with its digest, and so is its description. */
  ghost predicate Filed(cfg: Config, s: State, d: Digest) {
    d in s.bins ==>
      var i := FirstOf(cfg, s.captures, d);
      && i < |s.captures| && d in s.sidecars
      && s.bins[d] == s.captures[i].content && s.sidecars[d] == SidecarOf(cfg, s.captures[i])
  }

  ghost predicate CaptureFiled(cfg: Config, s: State, c: Capture) {
    |c.content| <= cfg.maxSize && c.status < 400 && Permitted(cfg, c.job) && cfg.digest(c.content) in s.bins
  }

  /** A fetch owns a temporary file exactly while it streams, and that file holds what it hashed. */
  ghost predicate FetchOk(cfg: Config, s: State, id: Id) {
    && (id in s.tmp <==> id in s.fetches && s.fetches[id].Streaming?)
    && (id in s.fetches ==>
          match s.fetches[id]
          case Waiting(job) => job.id == id && Permitted(cfg, job)
          case Streaming(job, status, hashed, size) =>
            job.id == id && Permitted(cfg, job) && id in s.tmp && s.tmp[id] == hashed && size == |hashed| <= cfg.maxSize && status < 400
          case Ended(job, result) => job.id == id && (result.Captured? ==> Reported(cfg, s, job, result)))
  }

  /** A reported success stands for a payload that arrived whole and whose digest is on file. */
  ghost predicate Reported(cfg: Config, s: State, job: Job, result: Result)
    requires result.Captured?
  {
    && result.digest in s.bins && result.size <= cfg.maxSize && result.status < 400
    && (var stored := s.bins[result.digest]; result.detected == cfg.detect(if |stored| <= 64 then stored else stored[..64]))
    && exists c {:trigger c in s.captures} :: c in s.captures && c.job == job && cfg.digest(c.content) == result.digest
                                           && |c.content| == result.size && c.status == result.status
  }

  ghost predicate Inv(cfg: Config, s: State) {
    && (forall id {:trigger FetchOk(cfg, s, id)} :: FetchOk(cfg, s, id))
    && (forall d {:trigger Filed(cfg, s, d)} :: Filed(cfg, s, d))
    && s.sidecars.Keys == s.bins.Keys
    && (forall c {:trigger CaptureFiled(cfg, s, c)} :: c in s.captures ==> CaptureFiled(cfg, s, c))
  }

  ghost predicate Forward(s: State, t: State) {
    && (forall d {:trigger d in s.bins} :: d in s.bins ==> d in t.bins && t.bins[d] == s.bins[d])
    && (forall d {:trigger d in s.sidecars} :: d in s.sidecars ==> d in t.sidecars && t.sidecars[d] == s.sidecars[d])
    && s.captures <= t.captures
    && (forall id {:trigger id in s.fetches} :: id in s.fetches ==>
          id in t.fetches && t.fetches[id].job == s.fetches[id].job && (s.fetches[id].Ended? ==> t.fetches[id] == s.fetches[id]))
  }

  lemma StepForward(cfg: Config, s: State, step: Step)
    requires Inv(cfg, s) && Enabled(s, step)
    ensures Forward(s, Apply(cfg, s, step))
  {
    hide FetchOk, CaptureFiled;
    assert forall d {:trigger d in s.sidecars} :: d in s.sidecars ==> d in s.sidecars.Keys;
  }

  lemma {:induction false} FirstOfSnoc(cfg: Config, captures: seq<Capture>, c: Capture, d: Digest)
    ensures FirstOf(cfg, captures + [c], d)
         == if FirstOf(cfg, captures, d) < |captures| || cfg.digest(c.content) == d then FirstOf(cfg, captures, d) else |captures| + 1
    decreases |captures|
  {
    if captures == [] {
      assert [] + [c] == [c];
    } else {
      assert (captures + [c])[1..] == captures[1..] + [c];
      FirstOfSnoc(cfg, captures[1..], c, d);
    }
  }

  lemma FetchKept(cfg: Config, s: State, step: Step, id: Id)
    requires Inv(cfg, s) && Enabled(s, step)
    ensures FetchOk(cfg, Apply(cfg, s, step), id)
  {
    hide Filed, CaptureFiled;
    assert FetchOk(cfg, s, id);
    if id == JobOf(step) {
      OwnStepKept(cfg, s, step);
    } else {
      var t := Apply(cfg, s, step);
      StepForward(cfg, s, step);
      if id in s.fetches && s.fetches[id].Ended? && s.fetches[id].result.Captured? {
        ReportedLater(cfg, s, t, s.fetches[id].job, s.fetches[id].result);
      }
    }
  }

  lemma OwnStepKept(cfg: Config, s: State, step: Step)
    requires FetchOk(cfg, s, JobOf(step)) && Enabled(s, step)
    ensures FetchOk(cfg, Apply(cfg, s, step), JobOf(step))
  {
    if step.Finish? {
      var t, f := Apply(cfg, s, step), s.fetches[step.id];
      var c := Capture(f.job, f.hashed, f.status, step.time);
      assert t.captures[|s.captures|] == c;
      assert c in t.captures && cfg.digest(f.hashed) in t.bins;
      assert Reported(cfg, t, f.job, t.fetches[step.id].result);
    }
  }

  lemma ReportedLater(cfg: Config, s: State, t: State, job: Job, result: Result)
    requires Forward(s, t) && result.Captured? && Reported(cfg, s, job, result)
    ensures Reported(cfg, t, job, result)
  {
    var c :| c in s.captures && c.job == job && cfg.digest(c.content) == result.digest
             && |c.content| == result.size && c.status == result.status;
    assert c in t.captures;
  }

  lemma FiledKept(cfg: Config, s: State, step: Step, d: Digest)
    requires Inv(cfg, s) && Enabled(s, step)
    ensures Filed(cfg, Apply(cfg, s, step), d)
  {
    hide Reported;
    assert Filed(cfg, s, d);
    if step.Finish? {
      var f := s.fetches[step.id];
      assert FetchOk(cfg, s, step.id);
      FirstOfSnoc(cfg, s.captures, Capture(f.job, f.hashed, f.status, step.time), d);
      if d !in s.bins { FirstOfNew(cfg, s, d); }
    }
  }

  lemma FirstOfNew(cfg: Config, s: State, d: Digest)
    requires Inv(cfg, s) && d !in s.bins
    ensures FirstOf(cfg, s.captures, d) == |s.captures|
  {
    hide Inv;
    var i := FirstOf(cfg, s.captures, d);
    if i < |s.captures| { CaptureIn(cfg, s, i); }
  }

  lemma CaptureIn(cfg: Config, s: State, i: nat)
    requires Inv(cfg, s) && i < |s.captures|
    ensures CaptureFiled(cfg, s, s.captures[i])
  {
    hide FetchOk, Filed;
    assert s.captures[i] in s.captures;
  }

  lemma CapturesKept(cfg: Config, s: State, step: Step, c: Capture)
    requires Inv(cfg, s) && Enabled(s, step) && c in Apply(cfg, s, step).captures
    ensures CaptureFiled(cfg, Apply(cfg, s, step), c)
  {
    hide Reported, Filed;
    StepForward(cfg, s, step);
    if c in s.captures {
      assert CaptureFiled(cfg, s, c);
    } else {
      assert FetchOk(cfg, s, step.id);
    }
  }

  lemma StepKeeps(cfg: Config, s: State, step: Step)
    requires Inv(cfg, s) && Enabled(s, step)
    ensures Inv(cfg, Apply(cfg, s, step)) && Forward(s, Apply(cfg, s, step))
  {
    hide FetchOk, Filed, CaptureFiled;
    StepForward(cfg, s, step);
    var t := Apply(cfg, s, step);
    forall id ensures FetchOk(cfg, t, id) { FetchKept(cfg, s, step, id); }
    forall d ensures Filed(cfg, t, d) { FiledKept(cfg, s, step, d); }
    forall c | c in t.captures ensures CaptureFiled(cfg, t, c) { CapturesKept(cfg, s, step, c); }
    KeysKept(cfg, s, step);
  }

  lemma KeysKept(cfg: Config, s: State, step: Step)
    requires Inv(cfg, s) && Enabled(s, step)
    ensures Apply(cfg, s, step).sidecars.Keys == Apply(cfg, s, step).bins.Keys
  {
    assert FetchOk(cfg, s, JobOf(step));
  }

  // ---------------------------------------------------------------- runs

  ghost predicate CanRun(cfg: Config, s: State, steps: seq<Step>)
    decreases |steps|
  {
    steps == [] || (Enabled(s, steps[0]) && CanRun(cfg, Apply(cfg, s, steps[0]), steps[1..]))
  }

  ghost function Run(cfg: Config, s: State, steps: seq<Step>): State
    requires CanRun(cfg, s, steps)
    decreases |steps|
  {
    if steps == [] then s else Run(cfg, Apply(cfg, s, steps[0]), steps[1..])
  }

  lemma ForwardChains(s: State, t: State, u: State)
    requires Forward(s, t) && Forward(t, u)
    ensures Forward(s, u)
  {
  }

  lemma {:induction false} RunKeeps(cfg: Config, s: State, steps: seq<Step>)
    requires Inv(cfg, s) && CanRun(cfg, s, steps)
    ensures Inv(cfg, Run(cfg, s, steps)) && Forward(s, Run(cfg, s, steps))
    decreases |steps|
  {
    hide Inv, Forward, Apply;
    if steps != [] {
      StepKeeps(cfg, s, steps[0]);
      RunKeeps(cfg, Apply(cfg, s, steps[0]), steps[1..]);
      ForwardChains(s, Apply(cfg, s, steps[0]), Run(cfg, s, steps));
    } else {
      StillForward(s);
    }
  }

  lemma StillForward(s: State)
    ensures Forward(s, s)
  {
  }

  lemma EmptyOk(cfg: Config)
    ensures Inv(cfg, Empty)
  {
  }

  /** Whatever all the other fetches do, one finds itself where it was. */
  lemma {:induction false} OthersLeaveFetch(cfg: Config, s: State, steps: seq<Step>, id: Id)
    requires Inv(cfg, s) && CanRun(cfg, s, steps) && id in s.fetches
    requires forall i :: 0 <= i < |steps| ==> JobOf(steps[i]) != id
    ensures var t := Run(cfg, s, steps); Inv(cfg, t) && Forward(s, t) && id in t.fetches && t.fetches[id] == s.fetches[id]
    decreases |steps|
  {
    hide Inv, Forward;
    RunKeeps(cfg, s, steps);
    if steps != [] {
      StepKeeps(cfg, s, steps[0]);
      OthersLeaveFetch(cfg, Apply(cfg, s, steps[0]), steps[1..], id);
    }
  }

  /** Each file is named by the digest of what it holds, is within the cap, and belongs, with its sidecar, to
      the first capture that had this digest. */
  ghost predicate Faithful(cfg: Config, s: State) {
    && s.sidecars.Keys == s.bins.Keys
    && (forall d {:trigger d in s.bins} :: d in s.bins ==>
          && cfg.digest(s.bins[d]) == d && |s.bins[d]| <= cfg.maxSize
          && exists i {:trigger s.captures[i]} ::
               && 0 <= i < |s.captures| && s.bins[d] == s.captures[i].content
               && s.sidecars[d] == SidecarOf(cfg, s.captures[i])
               && forall k {:trigger s.captures[k]} :: 0 <= k < i ==> cfg.digest(s.captures[k].content) != d)
  }

  /** The files on disk are exactly the digests of the payloads that arrived whole. */
  ghost predicate Complete(cfg: Config, s: State) {
    forall d {:trigger d in s.bins} ::
      d in s.bins <==> exists c {:trigger c in s.captures} :: c in s.captures && cfg.digest(c.content) == d
  }

  /** Temporary files belong to downloads in progress only. */
  ghost predicate NoLeftovers(s: State) {
    forall id {:trigger id in s.tmp} :: id in s.tmp ==> id in s.fetches && s.fetches[id].Streaming?
  }

  lemma InvMeans(cfg: Config, s: State)
    requires Inv(cfg, s)
    ensures Faithful(cfg, s) && Complete(cfg, s) && NoLeftovers(s)
  {
    hide Reported;
    assert Faithful(cfg, s) by {
      forall d | d in s.bins
        ensures cfg.digest(s.bins[d]) == d && |s.bins[d]| <= cfg.maxSize && d in s.sidecars
        ensures exists i {:trigger s.captures[i]} :: 0 <= i < |s.captures| && s.bins[d] == s.captures[i].content
                  && s.sidecars[d] == SidecarOf(cfg, s.captures[i])
                  && forall k {:trigger s.captures[k]} :: 0 <= k < i ==> cfg.digest(s.captures[k].content) != d
      {
        assert Filed(cfg, s, d);
        var i := FirstOf(cfg, s.captures, d);
        assert CaptureFiled(cfg, s, s.captures[i]);
      }
    }
    forall c | c in s.captures ensures cfg.digest(c.content) in s.bins { assert CaptureFiled(cfg, s, c); }
    forall d | d in s.bins ensures exists c {:trigger c in s.captures} :: c in s.captures && cfg.digest(c.content) == d {
      assert Filed(cfg, s, d);
      assert s.captures[FirstOf(cfg, s.captures, d)] in s.captures;
    }
    forall id | id in s.tmp ensures id in s.fetches && s.fetches[id].Streaming? { assert FetchOk(cfg, s, id); }
  }

  /** Over every interleaving of fetches with distinct job ids: the store is faithful and complete, nothing
      in it ever changes once it is there, and no fetch that has ended leaves its temporary file. */
  lemma QuarantineSafety(cfg: Config, steps: seq<Step>, later: seq<Step>)
    requires CanRun(cfg, Empty, steps) && CanRun(cfg, Run(cfg, Empty, steps), later)
    ensures var s := Run(cfg, Empty, steps);
            var t := Run(cfg, s, later);
            && Faithful(cfg, s) && Complete(cfg, s) && NoLeftovers(s)
            && (forall d {:trigger d in s.bins} :: d in s.bins ==>
                  d in t.bins && d in t.sidecars && d in s.sidecars && t.bins[d] == s.bins[d] && t.sidecars[d] == s.sidecars[d])
  {
    hide Inv, Run, CanRun, Faithful, Complete, NoLeftovers;
    EmptyOk(cfg);
    RunKeeps(cfg, Empty, steps);
    var s := Run(cfg, Empty, steps);
    InvMeans(cfg, s);
    RunKeeps(cfg, s, later);
    SidecarThere(cfg, s);
  }

  lemma SidecarThere(cfg: Config, s: State)
    requires Inv(cfg, s)
    ensures forall d {:trigger d in s.bins} :: d in s.bins ==> d in s.sidecars
  {
    hide FetchOk, CaptureFiled;
    forall d | d in s.bins ensures d in s.sidecars { assert Filed(cfg, s, d); }
  }

  // ---------------------------------------------------------------- one fetch among the others

  /** What the network does with a request: the chunks may be cut off by an error. */
  datatype Response = NoAnswer | Answered(status: nat, chunks: seq<Bytes>, broken: bool)

  function Joined(chunks: seq<Bytes>): Bytes {
    if chunks == [] then [] else chunks[0] + Joined(chunks[1..])
  }

  lemma {:induction false} JoinedSnoc(chunks: seq<Bytes>, i: nat)
    requires i < |chunks|
    ensures Joined(chunks[..i + 1]) == Joined(chunks[..i]) + chunks[i]
    decreases i
  {
    if i == 0 {
      assert chunks[..1] == [chunks[0]] && chunks[..0] == [];
      assert [chunks[0]][1..] == [];
    } else {
      JoinedSnoc(chunks[1..], i - 1);
      assert chunks[1..][..i] == chunks[..i + 1][1..] && chunks[1..][..i - 1] == chunks[..i][1..];
    }
  }

  lemma {:induction false} JoinedGrows(chunks: seq<Bytes>, i: nat)
    requires i <= |chunks|
    ensures |Joined(chunks[..i])| <= |Joined(chunks)|
    decreases |chunks| - i
  {
    if i < |chunks| {
      JoinedSnoc(chunks, i);
      JoinedGrows(chunks, i + 1);
    } else {
      assert chunks[..i] == chunks;
    }
  }

  /** What one fetch reports, whatever all the others do meanwhile. */
  ghost predicate Reports(cfg: Config, job: Job, response: Response, result: Result) {
    var protocol := Lower(job.protocol);
    if protocol !in cfg.allowed || (protocol != "http" && protocol != "https") then result == Refused
    else
      match response
      case NoAnswer => result == Broken
      case Answered(status, chunks, broken) =>
        if status >= 400 then result == HttpError(status)
        else if |Joined(chunks)| > cfg.maxSize then result == TooLarge
        else if broken then result == Broken
        else result.Captured? && result.digest == cfg.digest(Joined(chunks)) && result.size == |Joined(chunks)| && result.status == status
  }

  /** The capture is among those made between the two states. */
  ghost predicate Added(s: State, t: State, c: Capture) {
    exists i {:trigger t.captures[i]} :: |s.captures| <= i < |t.captures| && t.captures[i] == c
  }

  class QuarantineDirectory {
    const cfg: Config
    var s: State

    constructor (cfg: Config)
      ensures this.cfg == cfg && s == Empty && Inv(cfg, s)
    {
      EmptyOk(cfg);
      this.cfg := cfg;
      s := Empty;
    }

    method Do(step: Step)
      requires Inv(cfg, s) && Enabled(s, step)
      modifies this
      ensures s == Apply(cfg, old(s), step) && Inv(cfg, s) && Forward(old(s), s)
    {
      StepKeeps(cfg, s, step);
      s := Apply(cfg, s, step);
    }

    /** Any number of steps of the other fetches, as they may happen at every `await`: callers learn only what
        `OthersLeaveFetch` says of every run. */
    method Others(id: Id)
      requires Inv(cfg, s) && id in s.fetches
      modifies this
      ensures Inv(cfg, s) && Forward(old(s), s) && id in s.fetches && s.fetches[id] == old(s).fetches[id]
    {
      OthersLeaveFetch(cfg, s, [], id);
    }

    /** An `await` of this fetch, and the step it takes after it. */
    method Then(id: Id, step: Step) returns (ghost mid: State)
      requires Inv(cfg, s) && id in s.fetches && Enabled(s, step) && JobOf(step) == id && !step.Start?
      modifies this
      ensures Inv(cfg, mid) && Forward(old(s), s) && id in mid.fetches && mid.fetches[id] == old(s).fetches[id]
      ensures old(s).captures <= mid.captures
      ensures Enabled(mid, step) && s == Apply(cfg, mid, step) && Inv(cfg, s) && id in s.fetches
    {
      hide Inv, Forward, Apply;
      Others(id);
      mid := s;
      Do(step);
      ForwardChains(old(s), mid, s);
      GrowsCaptures(old(s), mid);
      Known(mid, s, id);
    }

    /** `fetch_and_quarantine`. */
    method FetchAndQuarantine(job: Job, response: Response, time: real) returns (result: Result)
      requires Inv(cfg, s) && job.id !in s.fetches
      modifies this
      ensures Inv(cfg, s) && Forward(old(s), s) && job.id !in s.tmp
      ensures job.id in s.fetches && s.fetches[job.id] == Ended(job, result)
      ensures Reports(cfg, job, response, result)
      ensures result.Captured? ==> Reported(cfg, s, job, result)
      ensures result.Captured? ==> result.digest in s.bins && response.Answered?
      ensures result.Captured? ==> Added(old(s), s, Capture(job, Joined(response.chunks), response.status, time))
    {
      hide Inv, Forward, Joined, Place;
      Do(Start(job));
      if Permitted(cfg, job) {
        ghost var started := s;
        result := Download(job, response, time);
        ForwardChains(old(s), started, s);
      } else {
        result := Refused;
      }
      NoTmp(cfg, s, job.id);
    }

    method Download(job: Job, response: Response, time: real) returns (result: Result)
      requires Inv(cfg, s) && job.id in s.fetches && s.fetches[job.id] == Waiting(job) && Permitted(cfg, job)
      modifies this
      ensures Inv(cfg, s) && Forward(old(s), s)
      ensures job.id in s.fetches && s.fetches[job.id] == Ended(job, result)
      ensures Reports(cfg, job, response, result)
      ensures result.Captured? ==> result.digest in s.bins && response.Answered?
      ensures result.Captured? ==> Added(old(s), s, Capture(job, Joined(response.chunks), response.status, time))
    {
      hide Inv, Forward, Joined, Place;
      ghost var mid;
      if response.NoAnswer? {
        mid := Then(job.id, Break(job.id));
        return Broken;
      }
      mid := Then(job.id, Answer(job.id, response.status));
      if response.status >= 400 { return HttpError(response.status); }
      ghost var answered := s;
      GrowsCaptures(old(s), answered);
      result := Receive(job, response.status, response.chunks, response.broken, time);
      ForwardChains(old(s), answered, s);
    }

    /** The streaming loop, and what follows it. */
    method Receive(job: Job, status: nat, chunks: seq<Bytes>, broken: bool, time: real) returns (result: Result)
      requires Inv(cfg, s) && job.id in s.fetches && s.fetches[job.id] == Streaming(job, status, [], 0)
      requires Permitted(cfg, job) && status < 400
      modifies this
      ensures Inv(cfg, s) && Forward(old(s), s)
      ensures job.id in s.fetches && s.fetches[job.id] == Ended(job, result)
      ensures Reports(cfg, job, Answered(status, chunks, broken), result)
      ensures result.Captured? ==> result.digest in s.bins
      ensures result.Captured? ==> Added(old(s), s, Capture(job, Joined(chunks), status, time))
    {
      hide Inv, Forward, Joined, Place;
      ghost var mid;
      StillForward(s);
      JoinedNone(chunks);
      for i := 0 to |chunks|
        invariant Inv(cfg, s) && Forward(old(s), s) && job.id in s.fetches
        invariant s.fetches[job.id] == Streaming(job, status, Joined(chunks[..i]), |Joined(chunks[..i])|)
        invariant |Joined(chunks[..i])| <= cfg.maxSize
      {
        ghost var before := s;
        mid := Then(job.id, Chunk(job.id, chunks[i]));
        ForwardChains(old(s), before, s);
        JoinedSnoc(chunks, i);
        HasTmp(cfg, mid, job.id);
        if s.fetches[job.id].Ended? {
          JoinedGrows(chunks, i + 1);
          return TooLarge;
        }
      }
      assert chunks[..|chunks|] == chunks;
      ghost var before := s;
      if broken {
        mid := Then(job.id, Break(job.id));
        ForwardChains(old(s), before, s);
        return Broken;
      }
      mid := Then(job.id, Finish(job.id, time));
      ForwardChains(old(s), before, s);
      Placed(cfg, mid, job.id, time);
      GrowsCaptures(old(s), before);
      assert s.captures[|mid.captures|] == Capture(job, Joined(chunks), status, time);
      result := s.fetches[job.id].result;
    }
  }

  lemma GrowsCaptures(s: State, t: State)
    requires Forward(s, t)
    ensures s.captures <= t.captures
  {
  }

  lemma Known(s: State, t: State, id: Id)
    requires Forward(s, t) && id in s.fetches
    ensures id in t.fetches
  {
  }

  lemma NoTmp(cfg: Config, s: State, id: Id)
    requires Inv(cfg, s) && id in s.fetches && s.fetches[id].Ended?
    ensures id !in s.tmp
    ensures var f := s.fetches[id]; f.result.Captured? ==> Reported(cfg, s, f.job, f.result)
  {
    assert FetchOk(cfg, s, id);
  }

  lemma HasTmp(cfg: Config, s: State, id: Id)
    requires Inv(cfg, s) && id in s.fetches && s.fetches[id].Streaming?
    ensures id in s.tmp
  {
    assert FetchOk(cfg, s, id);
  }

  lemma JoinedNone(chunks: seq<Bytes>)
    ensures Joined(chunks[..0]) == []
  {
  }

  lemma Placed(cfg: Config, s: State, id: Id, time: real)
    requires Inv(cfg, s) && id in s.fetches && s.fetches[id].Streaming?
    ensures var t, f := Place(cfg, s, id, time), s.fetches[id];
            && t.fetches[id].Ended? && t.fetches[id].result.Captured?
            && t.fetches[id] == Ended(f.job, Captured(cfg.digest(f.hashed), f.size, t.fetches[id].result.detected, f.status))
            && t.captures == s.captures + [Capture(f.job, f.hashed, f.status, time)]
            && cfg.digest(f.hashed) in t.bins
  {
    HasTmp(cfg, s, id);
  }
}
