/** honeypot/fetcher/stage2.py, `plan_followups`: the fetches a quarantined script leads to. */
module Stage2Plan {
  import opened Basics
  import opened PyDict
  import Limiter
  import ScriptScan

  const MAX_SCRIPT_BYTES: nat := 256 * 1024

  /** Job ids are drawn from a counter: all that is assumed of them is that they differ. */
  datatype Job = Job(id: nat, session: string, url: string, depth: nat, parentSha: string)

  datatype FetchResult = FetchResult(success: bool, sha256: string, sizeBytes: nat, quarantinePath: Option<string>)

  /** A quarantined file as the planner sees it: its size, the verdict of
      `looks_like_script`, and its text cut into lines. */
  datatype Sample = Sample(size: nat, looksLikeScript: bool, lines: seq<string>)

  datatype Plan = Plan(jobs: seq<Job>, found: nat, skipped: nat)

  const EmptyPlan := Plan([], 0, 0)

  datatype Settings = Settings(enabled: bool, maxDepth: int, maxUrlsPerScript: int)

  function UrlsOf(jobs: seq<Job>): (urls: seq<string>)
    ensures |urls| == |jobs| && forall k :: 0 <= k < |jobs| ==> urls[k] == jobs[k].url
  {
    seq(|jobs|, k requires 0 <= k < |jobs| => jobs[k].url)
  }

  /** Breadth at most `b`: how many URLs one script may contribute. */
  function Breadth(maxUrls: int): nat { if maxUrls < 0 then 0 else maxUrls }

  /** Which results are looked into at all. */
  predicate Scannable(settings: Settings, job: Job, result: FetchResult) {
    && settings.enabled && result.success && result.quarantinePath.Some? && result.quarantinePath.value != ""
    && job.depth < settings.maxDepth && result.sizeBytes <= MAX_SCRIPT_BYTES
  }

  /** The text a result is scanned as, if it is scanned at all. */
  function ScriptOf(settings: Settings, quarantine: string -> Option<Sample>, job: Job, result: FetchResult): Option<seq<string>> {
    if !Scannable(settings, job, result) then None
    else
      match quarantine(result.quarantinePath.value)
      case None => None
      case Some(sample) => if sample.size <= MAX_SCRIPT_BYTES && sample.looksLikeScript then Some(sample.lines) else None
  }

  /** A plan that lists, and takes its jobs from, the URLs the scan of this very result finds: a small file that looks
      like a script, fetched above the depth limit. Anything else has an empty plan. */
  ghost predicate PlanFits(settings: Settings, lib: ScriptScan.Library, quarantine: string -> Option<Sample>,
                           job: Job, result: FetchResult, plan: Plan)
  {
    if && settings.enabled && result.success && job.depth < settings.maxDepth && result.sizeBytes <= 262144
       && result.quarantinePath.Some? && result.quarantinePath.value != "" && quarantine(result.quarantinePath.value).Some?
       && quarantine(result.quarantinePath.value).value.size <= 262144 && quarantine(result.quarantinePath.value).value.looksLikeScript
    then
      var scan := ScriptScan.Scan(lib, quarantine(result.quarantinePath.value).value.lines, settings.maxUrlsPerScript);
      && plan.found == |scan.urls| && plan.skipped == scan.skipped
      && (forall k :: 0 <= k < |plan.jobs| ==> plan.jobs[k].url in scan.urls)
    else plan == EmptyPlan
  }

  /** A moment at which a plan was made: the limiter's log and maps then, the clock, and the next job id. */
  datatype Turn = Turn(before: Limiter.Log, seen: Dict<real>, totals: Dict<nat>, recent: Dict<seq<real>>,
                       clock: real, now: real, firstId: nat)

  /** The planner with its process-wide state; other sessions use the same limiter. */
  class Planner {
    const settings: Settings
    const lib: ScriptScan.Library
    /** Reading a quarantined file; None when that fails. */
    const quarantine: string -> Option<Sample>
    const limiter: Limiter.Stage2Limiter
    var nextId: nat

    constructor (settings: Settings, cfg: Limiter.Config, lib: ScriptScan.Library, hostOf: string -> string,
                 quarantine: string -> Option<Sample>, ghost start: real)
      ensures Valid() && fresh(limiter) && this.settings == settings && this.lib == lib && this.quarantine == quarantine
      ensures nextId == 0 && limiter.log == []
    {
      this.settings, this.lib, this.quarantine := settings, lib, quarantine;
      limiter := new Limiter.Stage2Limiter(cfg, hostOf, start);
      nextId := 0;
    }

    ghost predicate Valid()
      reads this, limiter
    {
      limiter.Valid()
    }

    /** The limiter's log once it has judged every URL of the script, its pruning first. */
    ghost function LogAfter(job: Job, result: FetchResult, turn: Turn): Limiter.Log {
      match ScriptOf(settings, quarantine, job, result)
      case Some(lines) =>
        var evicted := Limiter.Evictions(turn.seen, turn.totals, turn.recent, turn.now, limiter.cfg.dedupeSeconds);
        Limiter.NaiveBatch(limiter.cfg, turn.before + evicted, job.session,
                           ScriptScan.Scan(lib, lines, settings.maxUrlsPerScript).urls, limiter.hostOf, turn.now)
      case None => turn.before
    }

    /** The plan's jobs are exactly what the limiter admitted of this result's scan at that turn, in order. */
    ghost predicate Admits(job: Job, result: FetchResult, plan: Plan, turn: Turn) {
      && Limiter.AdmittedUrls(LogAfter(job, result, turn)) == Limiter.AdmittedUrls(turn.before) + UrlsOf(plan.jobs)
      && (forall k :: 0 <= k < |plan.jobs| ==>
            plan.jobs[k] == Job(turn.firstId + k, job.session, plan.jobs[k].url, job.depth + 1, result.sha256))
      && PlanFits(settings, lib, quarantine, job, result, plan)
      && Remembers(turn)
    }

    /** The maps held what the log says, so that the rule is the limiter's own. */
    ghost predicate Remembers(turn: Turn) {
      var window := limiter.cfg.dedupeSeconds;
      && turn.clock <= turn.now && Limiter.UrlsAgree(turn.seen, turn.before, turn.clock, window)
      && Limiter.SessionsAgree(turn.totals, turn.before) && Limiter.HostsAgree(turn.recent, turn.before, turn.clock, window)
    }

    ghost function Present(now: real): Turn
      reads this, limiter
    {
      Turn(limiter.log, limiter.seenUrls, limiter.perSession, limiter.perHost, limiter.clock, now, nextId)
    }

    /** `plan_followups`: one new job, one level deeper, for each URL of the script that the
        limiter admits, in the script's order. */
    method PlanFollowups(job: Job, result: FetchResult, now: real) returns (plan: Plan)
      requires Valid() && limiter.clock <= now
      modifies this`nextId, limiter
      ensures Valid() && limiter.clock <= now && old(limiter.clock) <= limiter.clock
      ensures |plan.jobs| <= Breadth(settings.maxUrlsPerScript) && |plan.jobs| <= plan.found
      ensures plan.jobs != [] ==> job.depth < settings.maxDepth
      ensures nextId == old(nextId) + |plan.jobs|
      ensures limiter.log == LogAfter(job, result, old(Present(now))) && old(limiter.log) <= limiter.log
      ensures Admits(job, result, plan, old(Present(now)))
      // which results are looked into, and what for
      ensures if && settings.enabled && result.success && job.depth < settings.maxDepth && result.sizeBytes <= 262144
                 && result.quarantinePath.Some? && result.quarantinePath.value != "" && quarantine(result.quarantinePath.value).Some?
                 && quarantine(result.quarantinePath.value).value.size <= 262144
                 && quarantine(result.quarantinePath.value).value.looksLikeScript
              then
                var scan := ScriptScan.Scan(lib, quarantine(result.quarantinePath.value).value.lines, settings.maxUrlsPerScript);
                var evicted := Limiter.Evictions(old(limiter.seenUrls), old(limiter.perSession), old(limiter.perHost), now, limiter.cfg.dedupeSeconds);
                && plan.found == |scan.urls| && plan.skipped == scan.skipped
                && limiter.log == Limiter.NaiveBatch(limiter.cfg, old(limiter.log) + evicted, job.session, scan.urls, limiter.hostOf, now)
              else plan == EmptyPlan && limiter.log == old(limiter.log)
    {
      hide ScriptScan.Scan, Limiter.AdmittedUrls, Limiter.NaiveBatch, Limiter.UrlsAgree,
           Limiter.SessionsAgree, Limiter.HostsAgree, Limiter.Lawful, Limiter.NoneAfter, Limiter.Evictions;
      assert Limiter.AdmittedUrls(limiter.log) + UrlsOf([]) == Limiter.AdmittedUrls(limiter.log);
      if !Scannable(settings, job, result) { return EmptyPlan; }
      var sample := quarantine(result.quarantinePath.value);
      if sample == None { return EmptyPlan; }
      if sample.value.size > MAX_SCRIPT_BYTES || !sample.value.looksLikeScript { return EmptyPlan; }
      plan := PlanScript(job, result, sample.value.lines, now);
    }

    /** The part of it that scans the script and asks the limiter. */
    method PlanScript(job: Job, result: FetchResult, lines: seq<string>, now: real) returns (plan: Plan)
      requires Valid() && limiter.clock <= now && ScriptOf(settings, quarantine, job, result) == Some(lines)
      modifies this`nextId, limiter
      ensures Valid() && limiter.clock == now
      ensures |plan.jobs| <= Breadth(settings.maxUrlsPerScript) && |plan.jobs| <= plan.found
      ensures nextId == old(nextId) + |plan.jobs|
      ensures limiter.log == LogAfter(job, result, old(Present(now))) && old(limiter.log) <= limiter.log
      ensures Admits(job, result, plan, old(Present(now)))
    {
      hide ScriptScan.Scan, Limiter.AdmittedUrls, Limiter.NaiveBatch, Limiter.SetAll, Limiter.UrlsAgree, ScriptScan.Listed,
           Limiter.SessionsAgree, Limiter.HostsAgree, Limiter.Lawful, Limiter.NoneAfter, Limiter.Evictions, Limiter.PrunedUrls;
      var urls, skipped := ScriptScan.ScanScript(lib, lines, settings.maxUrlsPerScript);
      ScriptScan.ScanListed(lib, lines, settings.maxUrlsPerScript);
      ghost var turn := Present(now);
      ghost var evicted := Limiter.Evictions(turn.seen, turn.totals, turn.recent, now, limiter.cfg.dedupeSeconds);
      Limiter.BatchGrows(limiter.cfg, turn.before + evicted, job.session, urls, limiter.hostOf, now);
      var admitted := limiter.Admit(job.session, urls, now);
      var jobs := MakeJobs(job, result, admitted);
      plan := Plan(jobs, |urls|, skipped);
    }

    /** The loop over the admitted URLs. */
    method MakeJobs(job: Job, result: FetchResult, urls: seq<string>) returns (jobs: seq<Job>)
      modifies this`nextId
      ensures nextId == old(nextId) + |urls| && UrlsOf(jobs) == urls
      ensures forall k :: 0 <= k < |jobs| ==>
        jobs[k] == Job(old(nextId) + k, job.session, jobs[k].url, job.depth + 1, result.sha256)
    {
      jobs := [];
      var i := 0;
      while i < |urls|
        invariant i <= |urls| && |jobs| == i && nextId == old(nextId) + i
        invariant forall k :: 0 <= k < i ==>
          jobs[k] == Job(old(nextId) + k, job.session, urls[k], job.depth + 1, result.sha256)
      {
        jobs := jobs + [Job(nextId, job.session, urls[i], job.depth + 1, result.sha256)];
        nextId := nextId + 1;
        i := i + 1;
      }
    }

    /** What may happen while this task waits: other sessions plan with the same limiter, which
        only adds to its log, and time passes. */
    method Others(now: real) returns (later: real)
      requires Valid() && limiter.clock <= now
      modifies this`nextId, limiter
      ensures Valid() && old(nextId) <= nextId && limiter.clock <= later && now <= later
      ensures old(limiter.log) <= limiter.log
    {
      later := now;
    }
  }
}
