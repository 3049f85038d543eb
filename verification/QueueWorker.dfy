/** honeypot/fetcher/worker.py, `claim_pending_jobs`, and `_fetch_via_queue` of honeypot/session/manager.py: the
    loops of one worker and of one waiting session, run against a directory that everybody else keeps changing
    between their file operations. */
module QueueWorker {
  import opened Basics
  import opened JobQueue

  const POLL_INTERVAL := 0.3
  const RESULT_GRACE := 5.0

  /** One file operation of the process whose methods run, and the directory it met. */
  datatype Turn = Turn(before: State, step: Step)

  class SharedDirectory {
    var s: State
    ghost var trace: seq<Turn>

    constructor ()
      ensures s == Init && Inv(s) && trace == []
    {
      s, trace := Init, [];
    }

    /** One file operation of this process. */
    method Do(step: Step)
      requires Inv(s) && Enabled(s, step)
      modifies this
      ensures s == Apply(old(s), step) && Inv(s) && Forward(old(s), s)
      ensures trace == old(trace) + [Turn(old(s), step)]
    {
      trace := trace + [Turn(s, step)];
      StepKeeps(s, step);
      StepForward(s, step);
      s := Apply(s, step);
    }

    /** Any number of steps of the others: callers learn only what `OthersLeaveWorker` says of every run. */
    method Others(w: WorkerId)
      requires Inv(s) && w in s.workers
      modifies this`s
      ensures Inv(s) && Forward(old(s), s) && w in s.workers && s.workers[w] == old(s).workers[w]
      ensures OwnsNoMore(old(s), s, w)
    {
      OthersLeaveWorker(s, [], w);
    }

    /** `jobs_dir.glob("*.json")`. */
    method Glob() returns (ids: seq<Id>)
      ensures forall id :: id in ids <==> Pending(id) in s.files
    {
      ids := [];
      var left := s.files.Keys;
      while left != {}
        invariant left <= s.files.Keys
        invariant forall id :: id in ids <==> Pending(id) in s.files.Keys - left
      {
        var p :| p in left;
        left := left - {p};
        if p.Pending? { ids := ids + [p.id]; }
      }
    }

    /** `claim_pending_jobs`: whatever was waiting when the directory was listed is
        afterwards claimed, by this worker or by another; the list is what this worker took over. */
    method ClaimPendingJobs(w: WorkerId) returns (claimed: seq<Job>)
      requires Inv(s) && w in s.workers && s.workers[w] == Idle
      modifies this
      ensures Inv(s) && Forward(old(s), s)
      ensures w in s.workers && s.workers[w] == Batch(claimed)
      ensures HoldsAll(s, w, claimed) && Took(old(s), s, w, claimed)
      ensures forall id :: Pending(id) in old(s).files ==> id in s.owner
    {
      hide Inv, Forward, Took;
      ClaimListed(w);
      claimed := s.workers[w].claimed;
      ghost var before := s;
      Do(Claim(w));
      ForwardChains(old(s), before, s);
      SameOwners(before, s, w);
      TookStays(old(s), before, s, w, claimed);
      WorkerHolds(s, w);
    }

    /** The claiming loop. */
    method ClaimListed(w: WorkerId)
      requires Inv(s) && w in s.workers && s.workers[w] == Idle
      modifies this
      ensures Inv(s) && Forward(old(s), s)
      ensures w in s.workers && s.workers[w].Claiming? && s.workers[w].listing == []
      ensures Took(old(s), s, w, s.workers[w].claimed)
      ensures forall id :: Pending(id) in old(s).files ==> id in s.owner
    {
      hide Inv, Forward, Took;
      var listing := Glob();
      Do(List(w, listing));
      SameOwners(old(s), s, w);
      TookNone(old(s), s, w);
      while s.workers[w].listing != []
        invariant Inv(s) && Forward(old(s), s)
        invariant w in s.workers && s.workers[w].Claiming? && Took(old(s), s, w, s.workers[w].claimed)
        invariant forall id :: Pending(id) in old(s).files ==> id in s.workers[w].listing || id in s.owner
        decreases |s.workers[w].listing|
      {
        ghost var before, todo := s, s.workers[w].listing;
        ghost var more := ClaimOne(w);
        ForwardChains(old(s), before, s);
        TookMore(old(s), before, s, w, before.workers[w].claimed, more);
        OwnersStay(before, s);
        PendingOwnedLater(old(s), before, todo[0]);
        assert todo == [todo[0]] + todo[1..];
      }
    }

    /** One turn of the claiming loop: rename, and read the file if the rename worked.  A
        rename that fails means somebody else owns the job. */
    method ClaimOne(w: WorkerId) returns (ghost more: seq<Job>)
      requires Inv(s) && w in s.workers && s.workers[w].Claiming? && s.workers[w].listing != []
      modifies this
      ensures Inv(s) && Forward(old(s), s)
      ensures w in s.workers && s.workers[w] == Claiming(old(s).workers[w].listing[1..], old(s).workers[w].claimed + more)
      ensures Took(old(s), s, w, more)
      ensures Enqueued(old(s), old(s).workers[w].listing[0]) ==> old(s).workers[w].listing[0] in s.owner
    {
      hide Inv, Forward, OwnsNoMore, TookId, Apply;
      Others(w);
      ghost var calm, id := s, s.workers[w].listing[0];
      Do(Claim(w));
      ClaimOwns(calm, w);
      ForwardChains(old(s), calm, s);
      if Enqueued(old(s), id) { EnqueuedOwned(old(s), s, id); }
      more := [];
      if s.workers[w].Reading? {
        ghost var claimed := s;
        TookIdLate(old(s), calm, claimed, w, id);
        Others(w);
        ForwardChains(old(s), claimed, s);
        TookIdStays(old(s), claimed, s, w, id);
        ghost var interfered := s;
        ReadReady(s, w);
        Do(Read(w));
        ReadIs(interfered, w);
        ForwardChains(old(s), interfered, s);
        OwnersStay(claimed, interfered);
        more := [interfered.files[Processing(id)].job];
        TookOne(old(s), interfered, s, w, id, more[0]);
      } else {
        assert old(s).workers[w].claimed + [] == old(s).workers[w].claimed;
        OwnsChains(old(s), calm, s, w);
        TookNone(old(s), s, w);
      }
    }

    /** `process_pending`: a pass that is not cut short takes over exactly the jobs it claimed, and leaves each
        with the result its fetch gave, and every follow-up that result names in the queue. */
    method ProcessPending(w: WorkerId, fetch: (State, Job) -> Result)
      returns (processed: nat, claimed: seq<Job>, ghost met: seq<State>)
      requires Inv(s) && w in s.workers && s.workers[w] == Idle
      requires forall st, job :: NewFollowups(st, job, fetch(st, job).followups)
      modifies this
      ensures Inv(s) && Forward(old(s), s) && w in s.workers && s.workers[w] == Idle
      ensures processed == |claimed| && Distinct(claimed) && Took(old(s), s, w, claimed)
      ensures forall id :: Pending(id) in old(s).files ==> id in s.owner
      ensures forall i :: 0 <= i < |claimed| ==> Finished(s, w, claimed[i])
      ensures |met| == |claimed| && forall i :: 0 <= i < |claimed| ==> FetchGave(old(s), met[i], s, claimed[i], fetch)
    {
      hide Inv, Forward, OwnsNoMore, Took, Finished, FetchGave;
      claimed := ClaimPendingJobs(w);
      processed, met := 0, [];
      while processed < |claimed|
        invariant processed <= |claimed|
        invariant Inv(s) && Forward(old(s), s) && w in s.workers && s.workers[w] == Batch(claimed[processed..])
        invariant forall id :: Pending(id) in old(s).files ==> id in s.owner
        invariant |met| == processed
        invariant forall i :: 0 <= i < processed ==> Finished(s, w, claimed[i]) && FetchGave(old(s), met[i], s, claimed[i], fetch)
        invariant Took(old(s), s, w, claimed)
      {
        ghost var before := s;
        ghost var when := ProcessOne(w, fetch);
        ForwardChains(old(s), before, s);
        GaveEarlier(old(s), before, when, s, claimed[processed], fetch);
        TookStays(old(s), before, s, w, claimed);
        OwnersStay(before, s);
        forall i | 0 <= i < processed ensures Finished(s, w, claimed[i]) && FetchGave(old(s), met[i], s, claimed[i], fetch) {
          FinishedStays(before, s, w, claimed[i]);
          GaveLater(old(s), met[i], before, s, claimed[i], fetch);
        }
        assert claimed[processed..][1..] == claimed[processed + 1..];
        processed, met := processed + 1, met + [when];
      }
      ghost var before := s;
      Do(Fetch(w, Result(false, "", [])));
      ForwardChains(old(s), before, s);
      SameOwners(before, s, w);
      TookStays(old(s), before, s, w, claimed);
      forall i | 0 <= i < |claimed| ensures Finished(s, w, claimed[i]) && FetchGave(old(s), met[i], s, claimed[i], fetch) {
        FinishedStays(before, s, w, claimed[i]);
        GaveLater(old(s), met[i], before, s, claimed[i], fetch);
      }
    }

    /** Write the result under a temporary name, then rename it into place. */
    method PublishResult(w: WorkerId)
      requires Inv(s) && w in s.workers && s.workers[w].Publishing? && s.workers[w].phase == NotStarted
      modifies this
      ensures Inv(s) && Forward(old(s), s) && w in s.workers
      ensures var pc := old(s).workers[w];
              && s.workers[w] == Following(pc.job, pc.result.followups, NotStarted, pc.rest)
              && Holds(s, w, pc.job) && ResultOf(pc.job.id) in s.files
              && pc.job.id in s.results && s.results[pc.job.id] == pc.result
      ensures OwnsNoMore(old(s), s, w)
    {
      hide Inv, Forward, OwnsNoMore, Apply;
      WorkerHolds(s, w);
      ForwardStays(s);
      SameOwners(s, s, w);
      ghost var pc := s.workers[w];
      while s.workers[w].Publishing?
        invariant Inv(s) && Forward(old(s), s) && w in s.workers && OwnsNoMore(old(s), s, w)
        invariant s.workers[w] == Following(pc.job, pc.result.followups, NotStarted, pc.rest)
                  || (s.workers[w].Publishing? && s.workers[w] == Publishing(pc.job, pc.result, s.workers[w].phase, pc.rest))
        decreases PublishLeft(s.workers[w])
      {
        ghost var before := s;
        Others(w);
        ForwardChains(old(s), before, s);
        OwnsChains(old(s), before, s, w);
        ghost var interfered := s;
        Do(Publish(w));
        PublishIs(interfered, w);
        ForwardChains(old(s), interfered, s);
        SameOwners(interfered, s, w);
        OwnsChains(old(s), interfered, s, w);
      }
      WorkerHolds(s, w);
      ResultKept(old(s), s, pc.job.id);
    }

    /** `for followup in plan.jobs: enqueue_job(...)`. */
    method EnqueueFollowups(w: WorkerId)
      requires Inv(s) && w in s.workers && s.workers[w].Following? && s.workers[w].phase == NotStarted
      modifies this
      ensures Inv(s) && Forward(old(s), s) && w in s.workers && s.workers[w] == Batch(old(s).workers[w].rest)
      ensures forall i :: 0 <= i < |old(s).workers[w].kids| ==> Enqueued(s, old(s).workers[w].kids[i].id)
      ensures OwnsNoMore(old(s), s, w)
    {
      hide Inv, Forward, OwnsNoMore;
      ghost var kids, done := s.workers[w].kids, 0;
      ForwardStays(s);
      SameOwners(s, s, w);
      var rest := s.workers[w].rest;
      while s.workers[w].Following?
        invariant Inv(s) && Forward(old(s), s) && w in s.workers && done <= |kids| && OwnsNoMore(old(s), s, w)
        invariant (s.workers[w] == Batch(rest) && done == |kids|)
                  || (s.workers[w].Following? && s.workers[w].kids == kids[done..] && s.workers[w].rest == rest)
        invariant forall i :: 0 <= i < done ==> Enqueued(s, kids[i].id)
        decreases FollowLeft(s.workers[w])
      {
        ghost var before := s;
        Others(w);
        ForwardChains(old(s), before, s);
        OwnsChains(old(s), before, s, w);
        ghost var interfered := s;
        FollowQueues(s, w);
        Do(Follow(w));
        SameOwners(interfered, s, w);
        OwnsChains(old(s), interfered, s, w);
        ForwardChains(old(s), interfered, s);
        ForwardChains(before, interfered, s);
        QueuedStay(before, s);
        if done < |kids| && interfered.workers[w].phase == TmpWritten {
          assert kids[done..][1..] == kids[done + 1..];
          done := done + 1;
        }
      }
    }

    /** One job of the pass: fetch it, which takes any time, publish its result, then queue its follow-ups. */
    method ProcessOne(w: WorkerId, fetch: (State, Job) -> Result) returns (ghost met: State)
      requires Inv(s) && w in s.workers && s.workers[w].Batch? && s.workers[w].queue != []
      requires forall st, job :: NewFollowups(st, job, fetch(st, job).followups)
      modifies this
      ensures Inv(s) && Forward(old(s), s) && w in s.workers
      ensures s.workers[w] == Batch(old(s).workers[w].queue[1..])
      ensures Finished(s, w, old(s).workers[w].queue[0])
      ensures FetchGave(old(s), met, s, old(s).workers[w].queue[0], fetch)
      ensures OwnsNoMore(old(s), s, w)
    {
      hide Inv, Forward, OwnsNoMore;
      var job := s.workers[w].queue[0];
      Others(w);
      met := s;
      var result := fetch(s, job);
      Do(Fetch(w, result));
      ghost var fetched := s;
      SameOwners(met, s, w);
      ForwardChains(old(s), met, s);
      OwnsChains(old(s), met, s, w);
      PublishResult(w);
      ghost var published := s;
      ForwardChains(old(s), fetched, s);
      ForwardChains(met, fetched, s);
      OwnsChains(old(s), fetched, s, w);
      EnqueueFollowups(w);
      ForwardChains(old(s), published, s);
      ForwardChains(met, published, s);
      OwnsChains(old(s), published, s, w);
      PublishedStays(published, s, w, job);
    }

    /** The same for a session that has a download under way, with `OthersLeaveClient`. */
    method OthersOf(id: Id)
      requires Inv(s) && id in s.clients
      modifies this`s
      ensures Inv(s) && Forward(old(s), s) && id in s.clients && s.clients[id] == old(s).clients[id]
    {
      OthersLeaveClient(s, [], id);
    }

    /** `enqueue_job`: write under a temporary name, then rename. */
    method EnqueueJob(job: Job)
      requires Inv(s) && job.id in s.clients && s.clients[job.id] == Enqueueing(NotStarted)
      requires job.id in s.used && s.used[job.id] == job
      modifies this
      ensures Inv(s) && Forward(old(s), s) && job.id in s.clients && s.clients[job.id] == Polling
      ensures Enqueued(s, job.id)
      ensures old(trace) <= trace && |trace| == |old(trace)| + 3 && Visits(trace, |old(trace)|, old(s), s)
    {
      hide Inv, Forward, Enqueued, Apply, Visits;
      ForwardStays(s);
      NoVisits(trace, s);
      while s.clients[job.id].Enqueueing?
        invariant Inv(s) && Forward(old(s), s) && job.id in s.clients && job.id in s.used && s.used[job.id] == job
        invariant s.clients[job.id].Enqueueing? || s.clients[job.id] == Polling
        invariant old(trace) <= trace && Visits(trace, |old(trace)|, old(s), s)
        invariant |trace| == |old(trace)| + 3 - StepsLeft(s.clients[job.id])
        decreases StepsLeft(s.clients[job.id])
      {
        ghost var before, turns := s, trace;
        OthersOf(job.id);
        ForwardChains(old(s), before, s);
        StillUsed(before, s, job);
        ghost var interfered := s;
        Do(AdvanceClient(job.id));
        Advanced(interfered, job.id);
        StillUsed(interfered, s, job);
        ForwardChains(old(s), interfered, s);
        ForwardChains(before, interfered, s);
        VisitsSnoc(turns, |old(trace)|, old(s), before, s, Turn(interfered, AdvanceClient(job.id)));
      }
      PollingQueued(s, job.id);
    }

    /** A sleep, and a look for the result file. */
    method LookFor(id: Id) returns (ghost met: State)
      requires Inv(s) && id in s.clients && s.clients[id] == Polling && Enqueued(s, id)
      modifies this
      ensures Inv(s) && Forward(old(s), s) && Forward(old(s), met) && Forward(met, s) && Enqueued(s, id)
      ensures trace == old(trace) + [Turn(met, Poll(id))]
      ensures if ResultOf(id) in met.files
              then id in s.clients && id in s.results && s.clients[id] == Done(Got(s.results[id])) && ResultOf(id) in s.files
              else id in s.clients && s.clients[id] == Polling
    {
      hide Inv, Forward, Enqueued, Apply;
      OthersOf(id);
      met := s;
      Do(Poll(id));
      ForwardChains(old(s), met, s);
      QueuedStay(old(s), met);
      QueuedStay(met, s);
      Polled(met, id);
    }

    /** `_fetch_via_queue`: the session gets the result of its own job at the first look that finds it, or a
        timeout that comes only after the deadline, with every look before it in vain. */
    method FetchViaQueue(job: Job, timeout: real, clock: nat -> real) returns (outcome: Outcome, polls: nat)
      requires Inv(s) && FreshJobs(s, [job]) && job.parent == None
      requires forall i :: 0 < i ==> clock(i + 1) >= clock(i) + 0.3
      requires clock(0) <= clock(1)
      modifies this
      ensures Inv(s) && Forward(old(s), s) && Enqueued(s, job.id)
      ensures job.id in s.clients && s.clients[job.id] == Done(outcome)
      ensures outcome.Got? ==> ResultOf(job.id) in s.files && job.id in s.results && outcome.result == s.results[job.id]
      // the turns this session took: one to start, three to enqueue, one for each look, and one to give up
      ensures old(trace) <= trace && Visits(trace, |old(trace)|, old(s), s)
      ensures |trace| == |old(trace)| + 4 + polls + (if outcome.Got? then 0 else 1)
      ensures LookedFor(trace, |old(trace)| + 4, polls, job.id, outcome.Got?) && (outcome.Got? ==> polls > 0)
      ensures forall k :: 0 < k <= polls ==> clock(k) < clock(0) + timeout + 5.0
      ensures outcome.TimedOut? ==> clock(polls + 1) >= clock(0) + timeout + 5.0
      ensures timeout + 5.0 > 0.0 ==> polls as real < (timeout + 5.0) / 0.3 + 1.0
    {
      hide Inv, Forward, Enqueued, Apply, Visits, LookedFor, OwnsNoMore, ByClient;
      Started(s, job);
      ghost var start := |trace|;
      NoVisits(trace, s);
      Do(StartClient(job));
      ghost var before, turns := s, trace;
      ForwardStays(old(s));
      VisitsSnoc(old(trace), start, old(s), old(s), s, Turn(old(s), StartClient(job)));
      EnqueueJob(job);
      ForwardChains(old(s), before, s);
      VisitsJoin(turns, trace, start, old(s), before, s);
      before, turns := s, trace;
      outcome, polls := WaitForResult(job.id, timeout, clock);
      ForwardChains(old(s), before, s);
      VisitsJoin(turns, trace, start, old(s), before, s);
    }

    /** The polling loop of `_fetch_via_queue`. */
    method WaitForResult(id: Id, timeout: real, clock: nat -> real) returns (outcome: Outcome, polls: nat)
      requires Inv(s) && id in s.clients && s.clients[id] == Polling && Enqueued(s, id)
      requires forall i :: 0 < i ==> clock(i + 1) >= clock(i) + 0.3
      requires clock(0) <= clock(1)
      modifies this
      ensures Inv(s) && Forward(old(s), s) && Enqueued(s, id)
      ensures id in s.clients && s.clients[id] == Done(outcome)
      ensures outcome.Got? ==> ResultOf(id) in s.files && id in s.results && outcome.result == s.results[id]
      ensures old(trace) <= trace && Visits(trace, |old(trace)|, old(s), s)
      ensures |trace| == |old(trace)| + polls + (if outcome.Got? then 0 else 1)
      ensures LookedFor(trace, |old(trace)|, polls, id, outcome.Got?) && (outcome.Got? ==> polls > 0)
      ensures forall k :: 0 < k <= polls ==> clock(k) < clock(0) + timeout + 5.0
      ensures outcome.TimedOut? ==> clock(polls + 1) >= clock(0) + timeout + 5.0
      ensures timeout + 5.0 > 0.0 ==> polls as real < (timeout + 5.0) / 0.3 + 1.0
    {
      hide Inv, Forward, Enqueued, Apply, Visits, LookedFor, OwnsNoMore, ByClient;
      polls := 0;
      var deadline := clock(0) + timeout + RESULT_GRACE;
      ghost var start := |trace|;
      ForwardStays(s);
      NoVisits(trace, s);
      NoLooks(trace, start, id);
      while clock(polls + 1) < deadline
        invariant Inv(s) && Forward(old(s), s) && id in s.clients && s.clients[id] == Polling && Enqueued(s, id)
        invariant old(trace) <= trace && |trace| == start + polls && Visits(trace, start, old(s), s)
        invariant LookedFor(trace, start, polls, id, false)
        invariant clock(polls + 1) >= clock(0) + polls as real * POLL_INTERVAL
        invariant forall k :: 0 < k <= polls ==> clock(k) < deadline
        invariant polls > 0 ==> clock(0) + (polls - 1) as real * POLL_INTERVAL < deadline
        decreases ((timeout + RESULT_GRACE) / POLL_INTERVAL).Floor + 1 - polls
      {
        outcome := LookAgain(id, start, polls, old(s), old(trace));
        polls := polls + 1;
        if outcome.Got? { return; }
      }
      GiveUpNow(id, start, polls, old(s));
      outcome := TimedOut;
    }

    /** One more look of the wait that began at turn `start`. */
    method LookAgain(id: Id, ghost start: nat, ghost polls: nat, ghost from: State, ghost turns0: seq<Turn>) returns (outcome: Outcome)
      requires Inv(s) && Forward(from, s) && id in s.clients && s.clients[id] == Polling && Enqueued(s, id)
      requires turns0 <= trace && |trace| == start + polls && Visits(trace, start, from, s) && LookedFor(trace, start, polls, id, false)
      modifies this
      ensures Inv(s) && Forward(from, s) && Enqueued(s, id)
      ensures turns0 <= trace && |trace| == start + polls + 1 && Visits(trace, start, from, s)
      ensures LookedFor(trace, start, polls + 1, id, outcome.Got?)
      ensures if outcome.Got?
              then id in s.clients && s.clients[id] == Done(outcome)
                   && ResultOf(id) in s.files && id in s.results && outcome.result == s.results[id]
              else id in s.clients && s.clients[id] == Polling
    {
      hide Inv, Forward, Enqueued, Apply, Visits, LookedFor;
      ghost var before, turns := s, trace;
      ghost var met := LookFor(id);
      ForwardChains(from, before, s);
      ForwardChains(from, before, met);
      VisitsSnoc(turns, start, from, before, s, Turn(met, Poll(id)));
      LookSnoc(turns, start, polls, id, met);
      outcome := if s.clients[id].Done? then s.clients[id].outcome else TimedOut;
    }

    /** The last sleep, and the end of the wait. */
    method GiveUpNow(id: Id, ghost start: nat, ghost polls: nat, ghost from: State)
      requires Inv(s) && Forward(from, s) && id in s.clients && s.clients[id] == Polling && Enqueued(s, id)
      requires |trace| == start + polls && Visits(trace, start, from, s) && LookedFor(trace, start, polls, id, false)
      modifies this
      ensures Inv(s) && Forward(from, s) && Enqueued(s, id) && id in s.clients && s.clients[id] == Done(TimedOut)
      ensures old(trace) <= trace && |trace| == start + polls + 1 && Visits(trace, start, from, s)
      ensures LookedFor(trace, start, polls, id, false)
    {
      hide Inv, Forward, Enqueued, Apply, Visits, LookedFor;
      ghost var before, turns := s, trace;
      OthersOf(id);
      ghost var met := s;
      ForwardChains(from, before, met);
      QueuedStay(before, met);
      Do(GiveUp(id));
      ForwardChains(from, met, s);
      ForwardChains(before, met, s);
      QueuedStay(met, s);
      VisitsSnoc(turns, start, from, before, s, Turn(met, GiveUp(id)));
      LooksStay(turns, trace, start, polls, id);
      GaveUp(met, id);
    }
  }

  /** The job has its result in place and all the result's follow-ups are queued. */
  ghost predicate Finished(s: State, w: WorkerId, job: Job) {
    && Holds(s, w, job) && ResultOf(job.id) in s.files
    && job.id in s.results && AllQueued(s, s.results[job.id].followups)
  }

  /** What is published for the job is what its fetch gave when it met the directory `met`, between the two states. */
  ghost predicate FetchGave(s: State, met: State, t: State, job: Job, fetch: (State, Job) -> Result) {
    Forward(s, met) && Forward(met, t) && job.id in t.results && t.results[job.id] == fetch(met, job)
  }

  lemma GaveEarlier(s: State, t: State, met: State, u: State, job: Job, fetch: (State, Job) -> Result)
    requires Forward(s, t) && FetchGave(t, met, u, job, fetch)
    ensures FetchGave(s, met, u, job, fetch)
  {
    ForwardChains(s, t, met);
  }

  lemma GaveLater(s: State, met: State, t: State, u: State, job: Job, fetch: (State, Job) -> Result)
    requires FetchGave(s, met, t, job, fetch) && Forward(t, u)
    ensures FetchGave(s, met, u, job, fetch)
  {
    hide Forward;
    ForwardChains(met, t, u);
    ResultKept(t, u, job.id);
  }

  ghost predicate AllQueued(s: State, kids: seq<Job>) {
    forall i {:trigger kids[i]} :: 0 <= i < |kids| ==> Enqueued(s, kids[i].id)
  }

  /** Between the two states worker `w` took over exactly these jobs, none of which anybody owned before. */
  ghost predicate Took(s: State, t: State, w: WorkerId, jobs: seq<Job>) {
    && (forall id {:trigger id in t.owner} :: id in t.owner && t.owner[id] == w ==>
          (id in s.owner && s.owner[id] == w) || Among(jobs, id))
    && (forall i {:trigger jobs[i]} :: 0 <= i < |jobs| ==>
          jobs[i].id !in s.owner && jobs[i].id in t.owner && t.owner[jobs[i].id] == w)
  }

  ghost predicate TookId(s: State, t: State, w: WorkerId, id: Id) {
    && id !in s.owner && id in t.owner && t.owner[id] == w
    && (forall x {:trigger x in t.owner} :: x in t.owner && t.owner[x] == w ==> x == id || (x in s.owner && s.owner[x] == w))
  }

  lemma SameOwners(s: State, t: State, w: WorkerId)
    requires s.owner == t.owner
    ensures OwnsNoMore(s, t, w)
  {
  }

  lemma OwnsChains(s: State, t: State, u: State, w: WorkerId)
    requires OwnsNoMore(s, t, w) && OwnsNoMore(t, u, w)
    ensures OwnsNoMore(s, u, w)
  {
  }

  lemma ClaimOwns(s: State, w: WorkerId)
    requires Inv(s) && Enabled(s, Claim(w)) && s.workers[w].listing != []
    ensures var t := Apply(s, Claim(w));
            var pc := s.workers[w];
            && w in t.workers
            && if t.workers[w].Reading?
               then t.workers[w] == Reading(pc.listing[0], pc.listing[1..], pc.claimed) && TookId(s, t, w, pc.listing[0])
               else t.workers[w] == Claiming(pc.listing[1..], pc.claimed) && OwnsNoMore(s, t, w) && Pending(pc.listing[0]) !in t.files
  {
    var id := s.workers[w].listing[0];
    if Pending(id) in s.files { assert FileOk(s, Pending(id)); }
  }

  lemma ReadIs(s: State, w: WorkerId)
    requires Enabled(s, Read(w))
    ensures var t, pc := Apply(s, Read(w)), s.workers[w];
            && w in t.workers && t.owner == s.owner && s.files[Processing(pc.id)].JobFile?
            && t.workers[w] == Claiming(pc.listing, pc.claimed + [s.files[Processing(pc.id)].job])
  {
  }

  lemma PublishIs(s: State, w: WorkerId)
    requires Enabled(s, Publish(w))
    ensures var t, pc := Apply(s, Publish(w)), s.workers[w];
            && w in t.workers && t.owner == s.owner
            && t.workers[w] == if pc.phase == TmpWritten then Following(pc.job, pc.result.followups, NotStarted, pc.rest)
                               else Publishing(pc.job, pc.result, NextPhase(pc.phase), pc.rest)
  {
  }

  lemma TookIdLate(s: State, t: State, u: State, w: WorkerId, id: Id)
    requires Forward(s, t) && OwnsNoMore(s, t, w) && TookId(t, u, w, id)
    ensures TookId(s, u, w, id)
  {
  }

  lemma TookIdStays(s: State, t: State, u: State, w: WorkerId, id: Id)
    requires TookId(s, t, w, id) && OwnsNoMore(t, u, w) && Forward(t, u)
    ensures TookId(s, u, w, id)
  {
  }

  lemma TookOne(s: State, t: State, u: State, w: WorkerId, id: Id, job: Job)
    requires Inv(t) && TookId(s, t, w, id) && u.owner == t.owner
    requires Processing(id) in t.files && t.files[Processing(id)] == JobFile(job)
    ensures Took(s, u, w, [job])
  {
    assert FileOk(t, Processing(id));
    assert [job][0].id == id;
  }

  lemma TookNone(s: State, t: State, w: WorkerId)
    requires OwnsNoMore(s, t, w)
    ensures Took(s, t, w, [])
  {
  }

  lemma TookStays(s: State, t: State, u: State, w: WorkerId, jobs: seq<Job>)
    requires Took(s, t, w, jobs) && OwnsNoMore(t, u, w) && Forward(t, u)
    ensures Took(s, u, w, jobs)
  {
  }

  lemma TookMore(s: State, t: State, u: State, w: WorkerId, jobs: seq<Job>, more: seq<Job>)
    requires Took(s, t, w, jobs) && Took(t, u, w, more) && Forward(s, t) && Forward(t, u)
    ensures Took(s, u, w, jobs + more)
  {
    forall id | id in u.owner && u.owner[id] == w && !(id in s.owner && s.owner[id] == w)
      ensures Among(jobs + more, id)
    {
      if Among(jobs, id) {
        var i :| 0 <= i < |jobs| && jobs[i].id == id;
        assert (jobs + more)[i].id == id;
      } else {
        assert Among(more, id);
        var i :| 0 <= i < |more| && more[i].id == id;
        assert (jobs + more)[|jobs| + i].id == id;
      }
    }
  }

  function PhasesLeft(phase: Phase): nat {
    match phase case NotStarted => 3 case TmpOpen => 2 case TmpWritten => 1
  }

  function PublishLeft(pc: Worker): nat {
    if pc.Publishing? then PhasesLeft(pc.phase) else 0
  }

  function FollowLeft(pc: Worker): nat {
    if !pc.Following? then 0 else if pc.kids == [] then 1 else 1 + 3 * (|pc.kids| - 1) + PhasesLeft(pc.phase)
  }

  lemma WorkerHolds(s: State, w: WorkerId)
    requires Inv(s) && w in s.workers
    ensures WorkerOk(s, w)
  {
  }

  lemma ForwardStays(s: State)
    ensures Forward(s, s)
  {
  }

  lemma OwnersStay(s: State, t: State)
    requires Forward(s, t)
    ensures forall id {:trigger id in t.owner} {:trigger id in s.owner} :: id in s.owner ==> id in t.owner
  {
  }

  lemma QueuedStay(s: State, t: State)
    requires Forward(s, t)
    ensures forall id {:trigger Enqueued(t, id)} {:trigger Enqueued(s, id)} :: Enqueued(s, id) ==> Enqueued(t, id)
  {
  }

  lemma ResultKept(s: State, t: State, id: Id)
    requires Forward(s, t) && id in s.results
    ensures id in t.results && t.results[id] == s.results[id]
  {
  }

  /** A job once queued that is no longer pending belongs to somebody. */
  lemma EnqueuedOwned(s: State, t: State, id: Id)
    requires Forward(s, t) && Inv(t) && Enqueued(s, id)
    ensures Pending(id) in t.files || id in t.owner
  {
    assert Enqueued(t, id);
  }

  lemma PendingOwnedLater(s: State, t: State, id: Id)
    requires Forward(s, t)
    ensures Pending(id) in s.files ==> Enqueued(t, id)
  {
    assert Pending(id) in s.files ==> Enqueued(s, id);
  }

  /** The rename that ends `enqueue_job` puts the follow-up into the queue. */
  lemma FollowQueues(s: State, w: WorkerId)
    requires Inv(s) && w in s.workers && s.workers[w].Following?
    ensures var pc := s.workers[w];
            pc.kids != [] && pc.phase == TmpWritten ==> Enqueued(FollowNext(s, w), pc.kids[0].id)
  {
    assert WorkerOk(s, w);
  }

  lemma PublishedStays(s: State, t: State, w: WorkerId, job: Job)
    requires Forward(s, t) && Holds(s, w, job) && ResultOf(job.id) in s.files && job.id in s.results
    ensures Holds(t, w, job) && ResultOf(job.id) in t.files && job.id in t.results && t.results[job.id] == s.results[job.id]
  {
  }

  lemma FinishedStays(s: State, t: State, w: WorkerId, job: Job)
    requires Finished(s, w, job) && Forward(s, t)
    ensures Finished(t, w, job)
  {
  }

  lemma ReadReady(s: State, w: WorkerId)
    requires Inv(s) && w in s.workers && s.workers[w].Reading?
    ensures Enabled(s, Read(w))
  {
    assert WorkerOk(s, w);
    assert FileOk(s, Processing(s.workers[w].id));
  }

  function StepsLeft(c: Client): nat { if c.Enqueueing? then PhasesLeft(c.phase) else 0 }

  /** The directories met since turn `from`, all on the way from `s` to `t`. */
  ghost predicate Visits(trace: seq<Turn>, from: nat, s: State, t: State) {
    forall i {:trigger trace[i]} :: from <= i < |trace| ==> Forward(s, trace[i].before) && Forward(trace[i].before, t)
  }

  lemma NoVisits(trace: seq<Turn>, s: State)
    ensures Visits(trace, |trace|, s, s)
  {
  }

  lemma VisitsSnoc(trace: seq<Turn>, from: nat, s: State, t: State, u: State, turn: Turn)
    requires Visits(trace, from, s, t) && Forward(t, u) && Forward(s, turn.before) && Forward(turn.before, u)
    ensures Visits(trace + [turn], from, s, u)
  {
    hide Forward;
    forall i | from <= i < |trace| ensures Forward(trace[i].before, u) { ForwardChains(trace[i].before, t, u); }
  }

  lemma VisitsJoin(turns: seq<Turn>, trace: seq<Turn>, from: nat, s: State, t: State, u: State)
    requires turns <= trace && from <= |turns| && Visits(turns, from, s, t) && Visits(trace, |turns|, t, u)
    requires Forward(s, t) && Forward(t, u)
    ensures Visits(trace, from, s, u)
  {
    hide Forward;
    forall i | from <= i < |trace| ensures Forward(s, trace[i].before) && Forward(trace[i].before, u) {
      if i < |turns| {
        assert trace[i] == turns[i];
        ForwardChains(trace[i].before, t, u);
      } else {
        ForwardChains(s, t, trace[i].before);
      }
    }
  }

  /** `n` looks for the result of job `id` from turn `from` on; only the last may have found it. */
  ghost predicate LookedFor(trace: seq<Turn>, from: nat, n: nat, id: Id, found: bool) {
    && from + n <= |trace|
    && (forall k {:trigger trace[k]} :: from <= k < from + n ==>
          && trace[k].step == Poll(id)
          && (ResultOf(id) in trace[k].before.files <==> found && k == from + n - 1))
  }

  lemma NoLooks(trace: seq<Turn>, from: nat, id: Id)
    requires from <= |trace|
    ensures LookedFor(trace, from, 0, id, false)
  {
  }

  lemma LookSnoc(trace: seq<Turn>, from: nat, n: nat, id: Id, s: State)
    requires LookedFor(trace, from, n, id, false) && |trace| == from + n
    ensures LookedFor(trace + [Turn(s, Poll(id))], from, n + 1, id, ResultOf(id) in s.files)
  {
  }

  lemma LooksStay(turns: seq<Turn>, trace: seq<Turn>, from: nat, n: nat, id: Id)
    requires turns <= trace && LookedFor(turns, from, n, id, false)
    ensures LookedFor(trace, from, n, id, false)
  {
  }

  lemma StillUsed(s: State, t: State, job: Job)
    requires Forward(s, t) && job.id in s.used && s.used[job.id] == job
    ensures job.id in t.used && t.used[job.id] == job
  {
  }

  lemma Started(s: State, job: Job)
    requires FreshJobs(s, [job]) && job.parent == None
    ensures Enabled(s, StartClient(job))
    ensures var t := Apply(s, StartClient(job));
            job.id in t.clients && t.clients[job.id] == Enqueueing(NotStarted) && job.id in t.used && t.used[job.id] == job
  {
  }

  lemma Advanced(s: State, id: Id)
    requires Enabled(s, AdvanceClient(id))
    ensures var t := Apply(s, AdvanceClient(id));
            id in t.clients && t.clients[id] == if s.clients[id].phase == TmpWritten then Polling else Enqueueing(NextPhase(s.clients[id].phase))
  {
  }

  lemma PollingQueued(s: State, id: Id)
    requires Inv(s) && id in s.clients && s.clients[id] == Polling
    ensures Enqueued(s, id)
  {
    assert ClientOk(s, id);
  }

  /** A poll ends the wait exactly when the result file is there, with what was published for this very job. */
  lemma Polled(s: State, id: Id)
    requires Inv(s) && Enabled(s, Poll(id))
    ensures var t := Apply(s, Poll(id));
            if ResultOf(id) in s.files
            then id in t.clients && id in t.results && t.clients[id] == Done(Got(t.results[id])) && ResultOf(id) in t.files
            else t == s
  {
    if ResultOf(id) in s.files { assert FileOk(s, ResultOf(id)); }
  }

  lemma GaveUp(s: State, id: Id)
    requires Enabled(s, GiveUp(id))
    ensures var t := Apply(s, GiveUp(id)); id in t.clients && t.clients[id] == Done(TimedOut)
  {
  }
}
