/** honeypot/session/manager.py, `_run_stage2_inline`: following a tree of scripts breadth
    first, with a limiter that other sessions use at the same time. */
module Stage2Inline {
  import opened Basics
  import opened Stage2Plan
  import Limiter

  /** One logged follow-up: the job, the script that listed it, and what its fetch gave. */
  datatype Outcome = Outcome(job: Job, parent: Job, parentSha: string, result: FetchResult)

  /** An entry of the worklist. */
  datatype Fetched = Fetched(job: Job, result: FetchResult)

  function Pow(b: nat, k: nat): nat { if k == 0 then 1 else b * Pow(b, k - 1) }

  /** b + b^2 + ... + b^k. */
  function Geometric(b: nat, k: nat): nat { if k == 0 then 0 else Geometric(b, k - 1) + Pow(b, k) }

  /** The most entries a worklist entry with `k` levels below it can lead to, itself
      included. */
  function Weight(b: nat, k: nat): nat { if k == 0 then 1 else 1 + b * Weight(b, k - 1) }

  function Levels(maxDepth: int, depth: nat): nat { if depth < maxDepth then maxDepth - depth else 0 }

  function Work(b: nat, maxDepth: int, pending: seq<Fetched>): nat {
    if pending == [] then 0
    else Work(b, maxDepth, pending[..|pending| - 1]) + Weight(b, Levels(maxDepth, pending[|pending| - 1].job.depth))
  }

  lemma {:induction false} WeightIsGeometric(b: nat, k: nat)
    ensures Weight(b, k) == 1 + Geometric(b, k)
  {
    if k > 0 {
      WeightIsGeometric(b, k - 1);
      Shifted(b, k - 1);
      Distributes(b, 1, Geometric(b, k - 1));
    }
  }

  lemma {:induction false} Shifted(b: nat, k: nat)
    ensures b + b * Geometric(b, k) == Geometric(b, k + 1)
  {
    if k == 0 {
      assert Geometric(b, 1) == Geometric(b, 0) + Pow(b, 1);
      assert Pow(b, 1) == b * Pow(b, 0);
    } else {
      Shifted(b, k - 1);
      var g, p := Geometric(b, k - 1), Pow(b, k);
      assert Geometric(b, k) == g + p && Geometric(b, k + 1) == Geometric(b, k) + b * p;
      Distributes(b, g, p);
    }
  }

  lemma Distributes(b: nat, x: nat, y: nat)
    ensures b * (x + y) == b * x + b * y
  {
  }

  lemma WorkSnoc(b: nat, maxDepth: int, pending: seq<Fetched>, f: Fetched)
    ensures Work(b, maxDepth, pending + [f]) == Work(b, maxDepth, pending) + Weight(b, Levels(maxDepth, f.job.depth))
  {
    assert (pending + [f])[..|pending|] == pending;
  }

  lemma {:induction false} WorkFront(b: nat, maxDepth: int, pending: seq<Fetched>)
    requires pending != []
    ensures Work(b, maxDepth, pending) == Weight(b, Levels(maxDepth, pending[0].job.depth)) + Work(b, maxDepth, pending[1..])
    decreases |pending|
  {
    var init, last := pending[..|pending| - 1], pending[|pending| - 1];
    if init == [] {
      assert pending[1..] == [];
    } else {
      WorkFront(b, maxDepth, init);
      assert pending[1..] == init[1..] + [last];
      WorkSnoc(b, maxDepth, init[1..], last);
    }
  }

  lemma {:induction false} WorkCovers(b: nat, maxDepth: int, pending: seq<Fetched>)
    ensures Work(b, maxDepth, pending) >= |pending|
  {
    if pending != [] { WorkCovers(b, maxDepth, pending[..|pending| - 1]); }
  }

  function JobsOf(log: seq<Outcome>): seq<Job> {
    if log == [] then [] else JobsOf(log[..|log| - 1]) + [log[|log| - 1].job]
  }

  function EntriesOf(log: seq<Outcome>): seq<Fetched> {
    if log == [] then [] else EntriesOf(log[..|log| - 1]) + [Fetched(log[|log| - 1].job, log[|log| - 1].result)]
  }

  lemma EntriesSnoc(log: seq<Outcome>, o: Outcome)
    ensures EntriesOf(log + [o]) == EntriesOf(log) + [Fetched(o.job, o.result)]
  {
    assert (log + [o])[..|log|] == log;
  }

  function Planned(plans: seq<Plan>): seq<Job> {
    if plans == [] then [] else Planned(plans[..|plans| - 1]) + plans[|plans| - 1].jobs
  }

  lemma JobsSnoc(log: seq<Outcome>, o: Outcome)
    ensures JobsOf(log + [o]) == JobsOf(log) + [o.job]
  {
    assert (log + [o])[..|log|] == log;
  }

  lemma PlannedSnoc(plans: seq<Plan>, plan: Plan)
    ensures Planned(plans + [plan]) == Planned(plans) + plan.jobs
  {
    assert (plans + [plan])[..|plans|] == plans;
  }

  // ---------------------------------------------------------------- what the log promises

  /** Fetched in breadth-first order, strictly between the root's depth and the limit, each
      job under its own id. */
  ghost predicate Ordered(log: seq<Outcome>, root: Job, maxDepth: int, nextId: nat) {
    && (forall i {:trigger log[i]} :: 0 <= i < |log| ==> root.depth < log[i].job.depth <= maxDepth && log[i].job.id < nextId)
    && (forall i, j :: 0 <= i < j < |log| ==> log[i].job.depth <= log[j].job.depth && log[i].job.id < log[j].job.id)
  }

  /** Every follow-up is one level below its parent, which is the root or was logged before
      it, and carries the digest of the script that lists it. */
  ghost predicate Lineage(log: seq<Outcome>, root: Job) {
    forall i {:trigger log[i]} :: 0 <= i < |log| ==>
      && log[i].job.depth == log[i].parent.depth + 1 && log[i].job.parentSha == log[i].parentSha
      && (log[i].parent == root || exists j :: 0 <= j < i && log[j].job == log[i].parent)
  }

  /** The worklist: entries in order of depth, spanning at most two levels, none deeper than
      anything still to come is allowed to be. */
  ghost predicate Frontier(pending: seq<Fetched>, log: seq<Outcome>, root: Job) {
    && (forall i {:trigger pending[i]} :: 0 <= i < |pending| ==>
          pending[i].job == root || exists j :: 0 <= j < |log| && log[j].job == pending[i].job)
    && (forall i, j :: 0 <= i < j < |pending| ==> pending[i].job.depth <= pending[j].job.depth)
    && (forall i {:trigger pending[i]} :: 0 <= i < |pending| ==>
          root.depth <= pending[i].job.depth <= pending[0].job.depth + 1)
    && (pending != [] ==> forall i {:trigger log[i]} :: 0 <= i < |log| ==> log[i].job.depth <= pending[0].job.depth + 1)
  }

  ghost predicate KnownJob(log: seq<Outcome>, root: Job, job: Job) {
    job == root || exists j :: 0 <= j < |log| && log[j].job == job
  }

  /** In the middle of the follow-ups of `parent`, which has left the worklist. */
  ghost predicate Exploring(log: seq<Outcome>, pending: seq<Fetched>, parent: Job, root: Job, maxDepth: int, nextId: nat) {
    && Ordered(log, root, maxDepth, nextId) && Lineage(log, root) && Frontier(pending, log, root)
    && KnownJob(log, root, parent) && root.depth <= parent.depth
    && (forall i {:trigger log[i]} :: 0 <= i < |log| ==> log[i].job.depth <= parent.depth + 1)
    && (forall i {:trigger pending[i]} :: 0 <= i < |pending| ==> parent.depth <= pending[i].job.depth <= parent.depth + 1)
  }

  lemma ExploreOne(log: seq<Outcome>, pending: seq<Fetched>, parent: Job, root: Job, maxDepth: int, nextId: nat, o: Outcome)
    requires Exploring(log, pending, parent, root, maxDepth, nextId)
    requires o.parent == parent && o.job.depth == parent.depth + 1 <= maxDepth && o.job.id >= nextId && o.job.parentSha == o.parentSha
    ensures Exploring(log + [o], pending + [Fetched(o.job, o.result)], parent, root, maxDepth, o.job.id + 1)
  {
    hide Lineage, Frontier, Ordered, KnownJob;
    var log', pending' := log + [o], pending + [Fetched(o.job, o.result)];
    LineageSnoc(log, root, o);
    FrontierSnoc(log, pending, parent, root, maxDepth, nextId, o);
    KnownSnoc(log, root, parent, o);
    OrderedSnoc(log, root, maxDepth, nextId, o);
    assert forall i :: 0 <= i < |log'| ==> log'[i] == if i < |log| then log[i] else o;
    assert forall i :: 0 <= i < |pending'| ==> pending'[i] == if i < |pending| then pending[i] else Fetched(o.job, o.result);
  }

  lemma KnownSnoc(log: seq<Outcome>, root: Job, job: Job, o: Outcome)
    requires KnownJob(log, root, job)
    ensures KnownJob(log + [o], root, job)
  {
    if job != root {
      var j :| 0 <= j < |log| && log[j].job == job;
      assert (log + [o])[j].job == job;
    }
  }

  lemma OrderedSnoc(log: seq<Outcome>, root: Job, maxDepth: int, nextId: nat, o: Outcome)
    requires Ordered(log, root, maxDepth, nextId)
    requires root.depth < o.job.depth <= maxDepth && nextId <= o.job.id
    requires forall i {:trigger log[i]} :: 0 <= i < |log| ==> log[i].job.depth <= o.job.depth
    ensures Ordered(log + [o], root, maxDepth, o.job.id + 1)
  {
  }

  lemma LineageSnoc(log: seq<Outcome>, root: Job, o: Outcome)
    requires Lineage(log, root) && KnownJob(log, root, o.parent)
    requires o.job.depth == o.parent.depth + 1 && o.job.parentSha == o.parentSha
    ensures Lineage(log + [o], root)
  {
    var log' := log + [o];
    forall i | 0 <= i < |log'| ensures log'[i].parent == root || exists j :: 0 <= j < i && log'[j].job == log'[i].parent {
      if i < |log| {
        assert log'[i] == log[i];
        if log[i].parent != root {
          var j :| 0 <= j < i && log[j].job == log[i].parent;
          assert log'[j].job == log'[i].parent;
        }
      } else if o.parent != root {
        var j :| 0 <= j < |log| && log[j].job == o.parent;
        assert log'[j].job == log'[i].parent;
      }
    }
  }

  lemma FrontierSnoc(log: seq<Outcome>, pending: seq<Fetched>, parent: Job, root: Job, maxDepth: int, nextId: nat, o: Outcome)
    requires Exploring(log, pending, parent, root, maxDepth, nextId) && o.job.depth == parent.depth + 1
    ensures Frontier(pending + [Fetched(o.job, o.result)], log + [o], root)
  {
    hide Ordered, Lineage;
    var log', pending' := log + [o], pending + [Fetched(o.job, o.result)];
    forall i | 0 <= i < |pending'| ensures pending'[i].job == root || exists j :: 0 <= j < |log'| && log'[j].job == pending'[i].job {
      if i < |pending| {
        assert pending'[i] == pending[i];
        if pending[i].job != root {
          var j :| 0 <= j < |log| && log[j].job == pending[i].job;
          assert log'[j].job == pending'[i].job;
        }
      } else {
        assert log'[|log|].job == pending'[i].job;
      }
    }
  }

  /** Taking the first entry off the worklist and looking into it. */
  lemma Popped(log: seq<Outcome>, pending: seq<Fetched>, root: Job, maxDepth: int, nextId: nat)
    requires pending != [] && Ordered(log, root, maxDepth, nextId) && Lineage(log, root) && Frontier(pending, log, root)
    ensures Exploring(log, pending[1..], pending[0].job, root, maxDepth, nextId)
  {
    hide Ordered, Lineage;
    assert KnownJob(log, root, pending[0].job);
    forall i | 0 <= i < |pending[1..]| ensures pending[1..][i].job == root || exists j :: 0 <= j < |log| && log[j].job == pending[1..][i].job {
      assert pending[1..][i] == pending[i + 1];
    }
    forall i | 0 <= i < |pending[1..]| ensures pending[0].job.depth <= pending[1..][i].job.depth <= pending[0].job.depth + 1 {
      assert pending[1..][i] == pending[i + 1];
    }
  }

  lemma OrderedLater(log: seq<Outcome>, root: Job, maxDepth: int, nextId: nat, later: nat)
    requires Ordered(log, root, maxDepth, nextId) && nextId <= later
    ensures Ordered(log, root, maxDepth, later)
  {
  }

  class Driver {
    const planner: Planner
    /** The verdict of the n-th follow-up fetch. */
    const fetch: (nat, Job) -> FetchResult
    var log: seq<Outcome>
    var pending: seq<Fetched>
    var now: real

    constructor (planner: Planner, fetch: (nat, Job) -> FetchResult, now: real)
      ensures this.planner == planner && this.fetch == fetch && log == [] && pending == [] && this.now == now
    {
      this.planner, this.fetch, this.now := planner, fetch, now;
      log, pending := [], [];
    }

    ghost predicate Valid()
      reads this, planner, planner.limiter
    {
      planner.Valid() && planner.limiter.clock <= now
    }

    function Wide(): nat { Breadth(planner.settings.maxUrlsPerScript) }
    function Deep(): int { planner.settings.maxDepth }

    ghost function Left(): nat
      reads this
    {
      Work(Wide(), Deep(), pending)
    }

    /** The plan made for an entry at a turn: its jobs are what the limiter admitted then. */
    ghost predicate Fits(entry: Fetched, plan: Plan, turn: Turn) { planner.Admits(entry.job, entry.result, plan, turn) }

    ghost function End(entry: Fetched, turn: Turn): Limiter.Log { planner.LogAfter(entry.job, entry.result, turn) }

    /** Every outcome in the log is what that fetch gave. */
    ghost predicate Truthful(l: seq<Outcome>) {
      forall i {:trigger l[i]} :: 0 <= i < |l| ==> l[i].result == fetch(i, l[i].job)
    }

    /** The inner loop: fetch and log the follow-ups of one script. */
    method FetchAll(parent: Fetched, jobs: seq<Job>, ghost root: Job, ghost firstId: nat) returns (ghost added: seq<Fetched>)
      requires Valid() && (jobs != [] ==> parent.job.depth < Deep())
      requires Exploring(log, pending, parent.job, root, Deep(), firstId)
      requires forall k :: 0 <= k < |jobs| ==>
        jobs[k].id == firstId + k && jobs[k].depth == parent.job.depth + 1 && jobs[k].parentSha == parent.result.sha256
      requires firstId + |jobs| <= planner.nextId
      modifies this, planner, planner.limiter
      ensures Valid() && planner.nextId >= old(planner.nextId) && old(planner.limiter.log) <= planner.limiter.log
      ensures Exploring(log, pending, parent.job, root, Deep(), firstId + |jobs|)
      ensures |log| == |old(log)| + |jobs| && |added| == |jobs|
      ensures Truthful(old(log)) ==> Truthful(log)
      ensures pending == old(pending) + added && EntriesOf(log) == EntriesOf(old(log)) + added
      ensures JobsOf(log) == JobsOf(old(log)) + jobs
      ensures Left() == old(Left()) + |jobs| * Weight(Wide(), Levels(Deep(), parent.job.depth + 1))
    {
      hide Exploring, EntriesOf, JobsOf, Work, Weight;
      added := [];
      ghost var each := Weight(Wide(), Levels(Deep(), parent.job.depth + 1));
      var i := 0;
      assert JobsOf(log) + jobs[..0] == JobsOf(log);
      while i < |jobs|
        invariant i <= |jobs| && Valid() && planner.nextId >= old(planner.nextId)
        invariant old(planner.limiter.log) <= planner.limiter.log
        invariant Exploring(log, pending, parent.job, root, Deep(), firstId + i)
        invariant |log| == |old(log)| + i && |added| == i
        invariant Truthful(old(log)) ==> Truthful(log)
        invariant pending == old(pending) + added && EntriesOf(log) == EntriesOf(old(log)) + added
        invariant JobsOf(log) == JobsOf(old(log)) + jobs[..i]
        invariant Left() == old(Left()) + i * each
      {
        now := planner.Others(now);
        FetchOne(parent, jobs[i], root, firstId + i);
        ghost var entry := pending[|pending| - 1];
        AppendAssociates(old(pending), added, [entry]);
        AppendAssociates(EntriesOf(old(log)), added, [entry]);
        added := added + [entry];
        JobsJoin(JobsOf(old(log)), jobs, i);
        assert (i + 1) * each == i * each + each;
        i := i + 1;
      }
      assert jobs[..i] == jobs;
    }

    method FetchOne(parent: Fetched, child: Job, ghost root: Job, ghost id: nat)
      requires parent.job.depth < Deep() && Exploring(log, pending, parent.job, root, Deep(), id)
      requires child.id == id && child.depth == parent.job.depth + 1 && child.parentSha == parent.result.sha256
      modifies this`log, this`pending
      ensures log == old(log) + [Outcome(child, parent.job, parent.result.sha256, fetch(|old(log)|, child))]
      ensures pending == old(pending) + [Fetched(child, fetch(|old(log)|, child))]
      ensures Exploring(log, pending, parent.job, root, Deep(), id + 1)
      ensures JobsOf(log) == JobsOf(old(log)) + [child]
      ensures EntriesOf(log) == EntriesOf(old(log)) + [Fetched(child, fetch(|old(log)|, child))]
      ensures Left() == old(Left()) + Weight(Wide(), Levels(Deep(), parent.job.depth + 1))
    {
      hide Exploring;
      var result := fetch(|log|, child);
      ghost var o := Outcome(child, parent.job, parent.result.sha256, result);
      JobsSnoc(log, o);
      EntriesSnoc(log, o);
      WorkSnoc(Wide(), Deep(), pending, Fetched(child, result));
      ExploreOne(log, pending, parent.job, root, Deep(), id, o);
      log := log + [Outcome(child, parent.job, parent.result.sha256, result)];
      pending := pending + [Fetched(child, result)];
    }

    method PlanFirst(parent: Fetched) returns (plan: Plan, ghost turn: Turn)
      requires Valid()
      modifies this`now, planner`nextId, planner.limiter
      ensures Fits(parent, plan, turn) && turn.before == old(planner.limiter.log) && turn.firstId == old(planner.nextId)
      ensures planner.limiter.log == End(parent, turn) && old(planner.limiter.log) <= planner.limiter.log
      ensures Valid() && |plan.jobs| <= Wide() && (plan.jobs != [] ==> parent.job.depth < Deep())
      ensures planner.nextId == old(planner.nextId) + |plan.jobs|
      ensures forall k :: 0 <= k < |plan.jobs| ==>
        && plan.jobs[k].id == old(planner.nextId) + k && plan.jobs[k].depth == parent.job.depth + 1
        && plan.jobs[k].parentSha == parent.result.sha256
    {
      turn := planner.Present(now);
      plan := planner.PlanFollowups(parent.job, parent.result, now);
    }

    /** One turn of the worklist: plan the first entry's follow-ups, fetch and queue them.
        The work left goes down, and no faster than fetches are made. */
    method VisitFirst(ghost root: Job) returns (ghost plan: Plan, ghost turn: Turn, ghost added: seq<Fetched>)
      requires Valid() && pending != []
      requires Ordered(log, root, Deep(), planner.nextId) && Lineage(log, root) && Frontier(pending, log, root)
      modifies this, planner, planner.limiter
      ensures Valid()
      ensures Ordered(log, root, Deep(), planner.nextId) && Lineage(log, root) && Frontier(pending, log, root)
      ensures JobsOf(log) == JobsOf(old(log)) + plan.jobs && Fits(old(pending)[0], plan, turn)
      ensures turn.before == old(planner.limiter.log) && End(old(pending)[0], turn) <= planner.limiter.log
      ensures Truthful(old(log)) ==> Truthful(log)
      ensures pending == old(pending)[1..] + added && EntriesOf(log) == EntriesOf(old(log)) + added
      ensures Left() < old(Left())
      ensures old(planner.limiter.log) <= planner.limiter.log
      ensures |log| + Left() - |pending| <= |old(log)| + old(Left()) - |old(pending)|
    {
      hide Ordered, Lineage, Frontier, Work, Exploring, Weight, Fits, End, EntriesOf, JobsOf;
      var parent := pending[0];
      WorkFront(Wide(), Deep(), pending);
      ghost var firstId := planner.nextId;
      var p;
      p, turn := PlanFirst(parent);
      Popped(log, pending, root, Deep(), firstId);
      pending := pending[1..];
      ghost var c := |p.jobs|;
      added := FetchAll(parent, p.jobs, root, firstId);
      Settled(log, pending, parent.job, root, Deep(), firstId + c, planner.nextId);
      ChildrenWeigh(Wide(), Deep(), parent.job.depth, c);
      plan := p;
    }

    /** Each entry was planned once, in this order, at successive turns between two states of the limiter's log. */
    ghost predicate AllFit(entries: seq<Fetched>, plans: seq<Plan>, turns: seq<Turn>, from: Limiter.Log, to: Limiter.Log) {
      && |entries| == |plans| == |turns| && from <= to
      && (forall i {:trigger turns[i]} :: 0 <= i < |turns| ==>
            Fits(entries[i], plans[i], turns[i]) && from <= turns[i].before && End(entries[i], turns[i]) <= to)
      && (forall i, j {:trigger turns[i], turns[j]} :: 0 <= i < j < |turns| ==> End(entries[i], turns[i]) <= turns[j].before)
    }

    lemma FitOne(entries: seq<Fetched>, plans: seq<Plan>, turns: seq<Turn>, from: Limiter.Log, to: Limiter.Log,
                 entry: Fetched, plan: Plan, turn: Turn, later: Limiter.Log)
      requires AllFit(entries, plans, turns, from, to) && Fits(entry, plan, turn)
      requires turn.before == to && to <= later && End(entry, turn) <= later
      ensures AllFit(entries + [entry], plans + [plan], turns + [turn], from, later)
    {
      hide Fits, End;
    }

    /** `_run_stage2_inline`: it ends for every tree of scripts; it fetches at most
        B + B^2 + ... + B^D follow-ups, breadth first, none deeper than D.  The root and then every fetched
        result, in the order of the log, is looked into once; the jobs this gives, each fetched exactly once,
        are what the limiter admitted of that result's scan at that turn. */
    method RunInline(root: Job, rootResult: FetchResult) returns (ghost plans: seq<Plan>, ghost turns: seq<Turn>)
      requires Valid() && log == [] && pending == []
      modifies this, planner, planner.limiter
      ensures Valid() && pending == []
      ensures JobsOf(log) == Planned(plans) && Truthful(log)
      ensures AllFit([Fetched(root, rootResult)] + EntriesOf(log), plans, turns, old(planner.limiter.log), planner.limiter.log)
      ensures Ordered(log, root, Deep(), planner.nextId) && Lineage(log, root)
      ensures |log| <= Geometric(Wide(), Levels(Deep(), root.depth))
    {
      hide Ordered, Lineage, Frontier, Work, Weight, Geometric, JobsOf, Planned, EntriesOf, Fits, End, AllFit;
      ghost var visited: seq<Fetched> := [];
      pending := [Fetched(root, rootResult)];
      plans, turns := [], [];
      Start(root, rootResult, Wide(), Deep(), planner.nextId);
      NoneFit(planner.limiter.log);
      while pending != []
        invariant Valid()
        invariant Ordered(log, root, Deep(), planner.nextId) && Lineage(log, root) && Frontier(pending, log, root)
        invariant JobsOf(log) == Planned(plans) && Truthful(log)
        invariant AllFit(visited, plans, turns, old(planner.limiter.log), planner.limiter.log)
        invariant visited + pending == [Fetched(root, rootResult)] + EntriesOf(log)
        invariant |log| + Left() - |pending| <= Geometric(Wide(), Levels(Deep(), root.depth))
        decreases Left()
      {
        ghost var before, entries, met := pending, EntriesOf(log), planner.limiter.log;
        ghost var plan, turn, added := VisitFirst(root);
        Requeued(visited, before, [Fetched(root, rootResult)] + entries, added);
        AppendAssociates([Fetched(root, rootResult)], entries, added);
        FitOne(visited, plans, turns, old(planner.limiter.log), met, before[0], plan, turn, planner.limiter.log);
        visited := visited + [before[0]];
        PlannedSnoc(plans, plan);
        plans, turns := plans + [plan], turns + [turn];
      }
      NothingLeft(Wide(), Deep());
      assert visited + [] == visited;
    }

    lemma NoneFit(log: Limiter.Log)
      ensures AllFit([], [], [], log, log)
    {
    }
  }

  lemma Start(root: Job, result: FetchResult, b: nat, maxDepth: int, nextId: nat)
    ensures var pending := [Fetched(root, result)];
            && Ordered([], root, maxDepth, nextId) && Lineage([], root) && Frontier(pending, [], root)
            && JobsOf([]) == Planned([]) && EntriesOf([]) == []
            && Work(b, maxDepth, pending) == 1 + Geometric(b, Levels(maxDepth, root.depth))
  {
    WorkSnoc(b, maxDepth, [], Fetched(root, result));
    assert [] + [Fetched(root, result)] == [Fetched(root, result)];
    WeightIsGeometric(b, Levels(maxDepth, root.depth));
  }

  lemma NothingLeft(b: nat, maxDepth: int)
    ensures Work(b, maxDepth, []) == 0
  {
  }

  lemma Requeued<T>(visited: seq<T>, pending: seq<T>, all: seq<T>, added: seq<T>)
    requires pending != [] && visited + pending == all
    ensures (visited + [pending[0]]) + (pending[1..] + added) == all + added
  {
    assert pending == [pending[0]] + pending[1..];
  }

  lemma JobsJoin(before: seq<Job>, jobs: seq<Job>, i: nat)
    requires i < |jobs|
    ensures before + jobs[..i] + [jobs[i]] == before + jobs[..i + 1]
  {
    assert jobs[..i + 1] == jobs[..i] + [jobs[i]];
  }

  lemma Settled(log: seq<Outcome>, pending: seq<Fetched>, parent: Job, root: Job, maxDepth: int, nextId: nat, later: nat)
    requires Exploring(log, pending, parent, root, maxDepth, nextId) && nextId <= later
    ensures Ordered(log, root, maxDepth, later) && Lineage(log, root) && Frontier(pending, log, root)
  {
    OrderedLater(log, root, maxDepth, nextId, later);
  }

  /** What an entry leaves behind weighs less than the entry did. */
  lemma ChildrenWeigh(b: nat, maxDepth: int, depth: nat, children: nat)
    requires children <= b && (children > 0 ==> depth < maxDepth)
    ensures 1 + children * Weight(b, Levels(maxDepth, depth + 1)) <= Weight(b, Levels(maxDepth, depth))
  {
    if children > 0 {
      var each := Weight(b, Levels(maxDepth, depth + 1));
      assert Weight(b, Levels(maxDepth, depth)) == 1 + b * each;
      assert children * each <= b * each;
    }
  }
}
