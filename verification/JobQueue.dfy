/** honeypot/fetcher/queue.py, honeypot/fetcher/worker.py and the polling half of
    honeypot/session/manager.py: sessions and any number of workers handing jobs over
    through one shared directory.

    Every file-system call is one step, and the steps of all processes interleave freely;
    any process may stop forever between two of its steps.  A file being written is
    `Partial` until the write ends; a rename moves a whole file at once. */
module JobQueue {
  import opened Basics

  type Id = string
  type WorkerId = nat

  /** `parent` is the job whose script listed this one, if any. */
  datatype Job = Job(id: Id, session: string, url: string, depth: nat, parent: Option<Id>)

  /** A fetch outcome as the worker writes it, with the summaries of its follow-ups. */
  datatype Result = Result(success: bool, payload: string, followups: seq<Job>)

  datatype Path =
    | Tmp(id: Id)          // jobs_dir/.ID.json.tmp
    | Pending(id: Id)      // jobs_dir/ID.json
    | Processing(id: Id)   // jobs_dir/.processing/ID.json
    | ResultTmp(id: Id)    // jobs_dir/.processing/ID.result.json.tmp
    | ResultOf(id: Id)     // jobs_dir/.processing/ID.result.json

  datatype Content = Partial | JobFile(job: Job) | ResultFile(result: Result)

  datatype Outcome = Got(result: Result) | TimedOut

  /** `enqueue_job` in three file operations; the number counts those already done. */
  datatype Phase = NotStarted | TmpOpen | TmpWritten

  datatype Client =
    | Enqueueing(phase: Phase)
    | Polling
    | Done(outcome: Outcome)
    | ClientCrashed

  datatype Worker =
    | Idle
    | Claiming(listing: seq<Id>, claimed: seq<Job>)
    | Reading(id: Id, listing: seq<Id>, claimed: seq<Job>)
    | Batch(queue: seq<Job>)
    | Publishing(job: Job, result: Result, phase: Phase, rest: seq<Job>)
    | Following(job: Job, kids: seq<Job>, phase: Phase, rest: seq<Job>)
    | Crashed

  /** Who fetched which job. */
  datatype Fetched = Fetched(id: Id, worker: WorkerId)

  /** The directory and the processes; `used`, `owner`, `fetchLog` and `results` record
      what happened: every job made, who claimed it, the order of fetches, what each gave. */
  datatype State = State(
    files: map<Path, Content>,
    clients: map<Id, Client>,
    workers: map<WorkerId, Worker>,
    used: map<Id, Job>,
    owner: map<Id, WorkerId>,
    fetchLog: seq<Fetched>,
    results: map<Id, Result>)

  datatype Step =
    | StartClient(job: Job)
    | AdvanceClient(id: Id)
    | Poll(id: Id)
    | GiveUp(id: Id)
    | CrashClient(id: Id)
    | StartWorker(w: WorkerId)
    | List(w: WorkerId, listing: seq<Id>)
    | Claim(w: WorkerId)
    | Read(w: WorkerId)
    | Fetch(w: WorkerId, result: Result)
    | Publish(w: WorkerId)
    | Follow(w: WorkerId)
    | CrashWorker(w: WorkerId)

  ghost predicate Distinct(jobs: seq<Job>) {
    forall i, j :: 0 <= i < j < |jobs| ==> jobs[i].id != jobs[j].id
  }

  /** Job ids are unique: a new job never reuses one. */
  ghost predicate FreshJobs(s: State, jobs: seq<Job>) {
    && Distinct(jobs)
    && (forall i :: 0 <= i < |jobs| ==> jobs[i].id !in s.used)
  }

  /** `plan_followups`: new jobs one level below the script that lists them. */
  ghost predicate NewFollowups(s: State, parent: Job, kids: seq<Job>) {
    && FreshJobs(s, kids)
    && (forall i {:trigger kids[i]} :: 0 <= i < |kids| ==> kids[i].parent == Some(parent.id) && kids[i].depth == parent.depth + 1)
  }

  ghost predicate Enabled(s: State, step: Step) {
    match step
    case StartClient(job) => FreshJobs(s, [job]) && job.parent == None
    case AdvanceClient(id) => id in s.clients && s.clients[id].Enqueueing? && id in s.used
    case Poll(id) => id in s.clients && s.clients[id].Polling?
    case GiveUp(id) => id in s.clients && s.clients[id].Polling?
    case CrashClient(id) => id in s.clients && !s.clients[id].Done?
    case StartWorker(w) => w !in s.workers
    case List(w, listing) =>
      && w in s.workers && s.workers[w].Idle?
      && (forall id :: id in listing <==> Pending(id) in s.files)
    case Claim(w) => w in s.workers && s.workers[w].Claiming?
    case Read(w) =>
      && w in s.workers && s.workers[w].Reading?
      && Processing(s.workers[w].id) in s.files && s.files[Processing(s.workers[w].id)].JobFile?
    case Fetch(w, result) =>
      && w in s.workers && s.workers[w].Batch?
      && (s.workers[w].queue != [] ==>
            NewFollowups(s, s.workers[w].queue[0], result.followups))
    case Publish(w) => w in s.workers && s.workers[w].Publishing?
    case Follow(w) => w in s.workers && s.workers[w].Following?
    case CrashWorker(w) => w in s.workers
  }

  function Rename(files: map<Path, Content>, from: Path, to: Path): map<Path, Content>
    requires from in files
  {
    (files - {from})[to := files[from]]
  }

  /** One file operation of `enqueue_job(job)`. */
  function EnqueueFiles(files: map<Path, Content>, job: Job, phase: Phase): map<Path, Content> {
    match phase
    case NotStarted => files[Tmp(job.id) := Partial]
    case TmpOpen => files[Tmp(job.id) := JobFile(job)]
    case TmpWritten => if Tmp(job.id) in files then Rename(files, Tmp(job.id), Pending(job.id)) else files
  }

  function NextPhase(phase: Phase): Phase {
    if phase == NotStarted then TmpOpen else TmpWritten
  }

  function AddJobs(used: map<Id, Job>, jobs: seq<Job>): map<Id, Job> {
    if jobs == [] then used else AddJobs(used, jobs[..|jobs| - 1])[jobs[|jobs| - 1].id := jobs[|jobs| - 1]]
  }

  function Apply(s: State, step: Step): State
    requires Enabled(s, step)
  {
    match step
    // SessionManager._fetch_via_queue
    case StartClient(job) =>
      s.(used := s.used[job.id := job], clients := s.clients[job.id := Enqueueing(NotStarted)])
    case AdvanceClient(id) =>
      var phase := s.clients[id].phase;
      s.(files := EnqueueFiles(s.files, s.used[id], phase),
         clients := s.clients[id := if phase == TmpWritten then Polling else Enqueueing(NextPhase(phase))])
    case Poll(id) =>
      // a missing or undecodable result file means: sleep and look again
      if ResultOf(id) in s.files && s.files[ResultOf(id)].ResultFile?
      then s.(clients := s.clients[id := Done(Got(s.files[ResultOf(id)].result))])
      else s
    case GiveUp(id) => s.(clients := s.clients[id := Done(TimedOut)])
    case CrashClient(id) => s.(clients := s.clients[id := ClientCrashed])
    // worker: claim_pending_jobs
    case StartWorker(w) => s.(workers := s.workers[w := Idle])
    case List(w, listing) => s.(workers := s.workers[w := Claiming(listing, [])])
    case Claim(w) => ClaimNext(s, w)
    case Read(w) =>
      var pc := s.workers[w];
      s.(workers := s.workers[w := Claiming(pc.listing, pc.claimed + [s.files[Processing(pc.id)].job])])
    // worker: process_pending
    case Fetch(w, result) => FetchNext(s, w, result)
    case Publish(w) => PublishNext(s, w)
    case Follow(w) => FollowNext(s, w)
    case CrashWorker(w) => s.(workers := s.workers[w := Crashed])
  }

  function ClaimNext(s: State, w: WorkerId): State
    requires w in s.workers && s.workers[w].Claiming?
  {
    var pc := s.workers[w];
    if pc.listing == [] then
      s.(workers := s.workers[w := Batch(pc.claimed)])
    else
      var id := pc.listing[0];
      if Pending(id) in s.files then
        s.(files := Rename(s.files, Pending(id), Processing(id)),
           owner := s.owner[id := w],
           workers := s.workers[w := Reading(id, pc.listing[1..], pc.claimed)])
      else
        // the rename fails: another worker was first
        s.(workers := s.workers[w := Claiming(pc.listing[1..], pc.claimed)])
  }

  function FetchNext(s: State, w: WorkerId, result: Result): State
    requires w in s.workers && s.workers[w].Batch?
  {
    var queue := s.workers[w].queue;
    if queue == [] then
      s.(workers := s.workers[w := Idle])
    else
      s.(fetchLog := s.fetchLog + [Fetched(queue[0].id, w)],
         results := s.results[queue[0].id := result],
         used := AddJobs(s.used, result.followups),
         workers := s.workers[w := Publishing(queue[0], result, NotStarted, queue[1..])])
  }

  function PublishNext(s: State, w: WorkerId): State
    requires w in s.workers && s.workers[w].Publishing?
  {
    var pc := s.workers[w];
    var id := pc.job.id;
    match pc.phase
    case NotStarted =>
      s.(files := s.files[ResultTmp(id) := Partial], workers := s.workers[w := Publishing(pc.job, pc.result, TmpOpen, pc.rest)])
    case TmpOpen =>
      s.(files := s.files[ResultTmp(id) := ResultFile(pc.result)], 
         workers := s.workers[w := Publishing(pc.job, pc.result, TmpWritten, pc.rest)])
    case TmpWritten =>
      s.(files := if ResultTmp(id) in s.files then Rename(s.files, ResultTmp(id), ResultOf(id)) else s.files,
         workers := s.workers[w := Following(pc.job, pc.result.followups, NotStarted, pc.rest)])
  }

  function FollowNext(s: State, w: WorkerId): State
    requires w in s.workers && s.workers[w].Following?
  {
    var pc := s.workers[w];
    if pc.kids == [] then
      s.(workers := s.workers[w := Batch(pc.rest)])
    else
      s.(files := EnqueueFiles(s.files, pc.kids[0], pc.phase),
         workers := s.workers[w := if pc.phase == TmpWritten
                                   then Following(pc.job, pc.kids[1..], NotStarted, pc.rest)
                                   else Following(pc.job, pc.kids, NextPhase(pc.phase), pc.rest)])
  }

  const Init := State(map[], map[], map[], map[], map[], [], map[])

  // ---------------------------------------------------------------- the invariant

  ghost predicate Enqueued(s: State, id: Id) { Pending(id) in s.files || Processing(id) in s.files }

  ghost predicate FileOk(s: State, p: Path)
    requires p in s.files
  {
    match p
    case Tmp(id) =>
      id in s.used && !Enqueued(s, id) && (s.files[p] == Partial || s.files[p] == JobFile(s.used[id]))
    case Pending(id) => id in s.used && s.files[p] == JobFile(s.used[id]) && Processing(id) !in s.files
    case Processing(id) => id in s.used && s.files[p] == JobFile(s.used[id]) && Pending(id) !in s.files
    case ResultTmp(id) => id in s.results && (s.files[p] == Partial || s.files[p] == ResultFile(s.results[id]))
    case ResultOf(id) => id in s.results && s.files[p] == ResultFile(s.results[id])
  }

  ghost predicate FilesOk(s: State) {
    forall p {:trigger FileOk(s, p)} {:trigger p in s.files} :: p in s.files ==> FileOk(s, p)
  }

  /** Whatever has started to appear in the queue has its parent's result before it. */
  ghost predicate LineageOk(s: State) {
    forall id {:trigger LineageAt(s, id)} :: LineageAt(s, id)
  }

  ghost predicate LineageAt(s: State, id: Id) {
    (Tmp(id) in s.files || Enqueued(s, id)) && id in s.used && s.used[id].parent.Some? ==>
      ResultOf(s.used[id].parent.value) in s.files
  }

  ghost predicate HistoryOk(s: State) {
    && (forall id {:trigger id in s.owner} :: id in s.owner <==> Processing(id) in s.files)
    && (forall id {:trigger id in s.used} :: id in s.used ==> s.used[id].id == id)
    && (forall id {:trigger id in s.results} :: id in s.results ==> id in s.owner)
    && LogOk(s)
  }

  ghost predicate LogOk(s: State) {
    && (forall i {:trigger s.fetchLog[i]} :: 0 <= i < |s.fetchLog| ==> FetchedByOwner(s, s.fetchLog[i]))
    && (forall i, j :: 0 <= i < j < |s.fetchLog| ==> s.fetchLog[i].id != s.fetchLog[j].id)
  }

  lemma LogKept(s: State, t: State)
    requires LogOk(s) && Grows(s, t) && t.fetchLog == s.fetchLog
    ensures LogOk(t)
  {
    forall i | 0 <= i < |t.fetchLog| ensures FetchedByOwner(t, t.fetchLog[i]) { assert FetchedByOwner(s, s.fetchLog[i]); }
  }

  ghost predicate FetchedByOwner(s: State, f: Fetched) {
    f.id in s.results && f.id in s.owner && s.owner[f.id] == f.worker
  }

  /** A job on its way into the queue, with its `.tmp` file at the given stage. */
  ghost predicate Entering(s: State, job: Job, phase: Phase) {
    && job.id in s.used && s.used[job.id] == job && !Enqueued(s, job.id)
    && match phase
       case NotStarted => Tmp(job.id) !in s.files
       case TmpOpen => Tmp(job.id) in s.files
       case TmpWritten => Tmp(job.id) in s.files && s.files[Tmp(job.id)] == JobFile(job)
  }

  ghost predicate ClientOk(s: State, id: Id)
    requires id in s.clients
  {
    && id in s.used && s.used[id].parent == None && s.used[id].id == id
    && match s.clients[id]
       case Enqueueing(phase) => Entering(s, s.used[id], phase)
       case Polling => Enqueued(s, id)
       case Done(Got(r)) => id in s.results && r == s.results[id] && ResultOf(id) in s.files
       case Done(TimedOut) => true
       case ClientCrashed => true
  }

  ghost predicate ClientsOk(s: State) {
    forall id {:trigger ClientOk(s, id)} :: id in s.clients ==> ClientOk(s, id)
  }

  ghost predicate Holds(s: State, w: WorkerId, job: Job) {
    && job.id in s.used && s.used[job.id] == job
    && job.id in s.owner && s.owner[job.id] == w
  }

  ghost predicate HoldsUnfetched(s: State, w: WorkerId, job: Job) {
    Holds(s, w, job) && job.id !in s.results
  }

  ghost predicate HoldsAll(s: State, w: WorkerId, jobs: seq<Job>) {
    && Distinct(jobs)
    && (forall i {:trigger jobs[i]} :: 0 <= i < |jobs| ==> HoldsUnfetched(s, w, jobs[i]))
  }

  ghost predicate Kids(s: State, parent: Job, kids: seq<Job>, phase: Phase) {
    && Distinct(kids)
    && (forall i {:trigger kids[i]} :: 0 <= i < |kids| ==>
          kids[i].parent == Some(parent.id) && Entering(s, kids[i], if i == 0 then phase else NotStarted))
  }

  ghost predicate WorkerOk(s: State, w: WorkerId)
    requires w in s.workers
  {
    match s.workers[w]
    case Idle => true
    case Crashed => true
    case Claiming(_, claimed) => HoldsAll(s, w, claimed)
    case Reading(id, _, claimed) =>
      && HoldsAll(s, w, claimed) && id in s.used && HoldsUnfetched(s, w, s.used[id])
      && (forall i {:trigger claimed[i]} :: 0 <= i < |claimed| ==> claimed[i].id != id)
    case Batch(queue) => HoldsAll(s, w, queue)
    case Publishing(job, result, phase, rest) =>
      && Holds(s, w, job) && HoldsAll(s, w, rest)
      && job.id in s.results && s.results[job.id] == result && ResultOf(job.id) !in s.files
      && (phase == NotStarted ==> ResultTmp(job.id) !in s.files)
      && (phase == TmpOpen ==> ResultTmp(job.id) in s.files)
      && (phase == TmpWritten ==> ResultTmp(job.id) in s.files && s.files[ResultTmp(job.id)] == ResultFile(result))
      && Kids(s, job, result.followups, NotStarted)
    case Following(job, kids, phase, rest) =>
      && Holds(s, w, job) && HoldsAll(s, w, rest)
      && ResultOf(job.id) in s.files
      && Kids(s, job, kids, phase)
  }

  ghost predicate WorkersOk(s: State) {
    forall w {:trigger WorkerOk(s, w)} :: w in s.workers ==> WorkerOk(s, w)
  }

  ghost predicate Core(s: State) {
    FilesOk(s) && LineageOk(s) && HistoryOk(s) && ClientsOk(s) && WorkersOk(s)
  }

  // ---------------------------------------------------------------- frames

  ghost predicate SameFile(s: State, t: State, p: Path) {
    (p in s.files <==> p in t.files) && (p in s.files ==> s.files[p] == t.files[p])
  }

  /** Nothing already recorded is rewritten. */
  ghost predicate Grows(s: State, t: State) {
    && (forall id {:trigger id in t.used} {:trigger id in s.used} :: id in s.used ==> id in t.used && t.used[id] == s.used[id])
    && (forall id {:trigger id in t.owner} {:trigger id in s.owner} :: id in s.owner ==> id in t.owner && t.owner[id] == s.owner[id])
    && (forall id {:trigger id in t.results} {:trigger id in s.results} :: id in s.results ==> id in t.results && t.results[id] == s.results[id])
  }

  /** The step from `s` to `t` left alone everything worker `w` is responsible for. */
  ghost predicate Spares(s: State, t: State, w: WorkerId) {
    && w in t.workers && w in s.workers && t.workers[w] == s.workers[w]
    && (forall id {:trigger id in t.results} :: id in s.owner && s.owner[id] == w && id in t.results ==> id in s.results)
    && (forall id {:trigger SameFile(s, t, ResultTmp(id))} :: id in s.owner && s.owner[id] == w ==> SameFile(s, t, ResultTmp(id)))
    && (forall id {:trigger SameFile(s, t, ResultOf(id))} :: id in s.owner && s.owner[id] == w ==> SameFile(s, t, ResultOf(id)))
    && (forall id {:trigger SameEntry(s, t, id)} :: ChildOf(s, id, w) && !Enqueued(s, id) ==> SameEntry(s, t, id))
  }

  ghost predicate ChildOf(s: State, id: Id, w: WorkerId) {
    && id in s.used && s.used[id].parent.Some?
    && s.used[id].parent.value in s.owner && s.owner[s.used[id].parent.value] == w
  }

  ghost predicate SameEntry(s: State, t: State, id: Id) {
    SameFile(s, t, Tmp(id)) && SameFile(s, t, Pending(id)) && SameFile(s, t, Processing(id))
  }

  lemma KidsSpared(s: State, t: State, parent: Job, kids: seq<Job>, phase: Phase, w: WorkerId)
    requires Kids(s, parent, kids, phase) && Grows(s, t) && Spares(s, t, w) && Holds(s, w, parent)
    ensures Kids(t, parent, kids, phase)
  {
    forall i | 0 <= i < |kids| ensures Entering(t, kids[i], if i == 0 then phase else NotStarted) {
      assert kids[i].parent == Some(parent.id);
      assert SameEntry(s, t, kids[i].id);
    }
  }

  lemma HoldsSpared(s: State, t: State, jobs: seq<Job>, w: WorkerId)
    requires HoldsAll(s, w, jobs) && Grows(s, t) && Spares(s, t, w)
    ensures HoldsAll(t, w, jobs)
  {
  }

  lemma WorkerSpared(s: State, t: State, w: WorkerId)
    requires w in s.workers && WorkerOk(s, w) && Grows(s, t) && Spares(s, t, w)
    ensures WorkerOk(t, w)
  {
    match s.workers[w]
    case Idle =>
    case Crashed =>
    case Claiming(_, claimed) => HoldsSpared(s, t, claimed, w);
    case Reading(id, _, claimed) => HoldsSpared(s, t, claimed, w);
    case Batch(queue) => HoldsSpared(s, t, queue, w);
    case Publishing(job, result, phase, rest) =>
      HoldsSpared(s, t, rest, w);
      KidsSpared(s, t, job, result.followups, NotStarted, w);
      assert SameFile(s, t, ResultTmp(job.id)) && SameFile(s, t, ResultOf(job.id));
    case Following(job, kids, phase, rest) =>
      HoldsSpared(s, t, rest, w);
      KidsSpared(s, t, job, kids, phase, w);
      assert SameFile(s, t, ResultOf(job.id));
  }

  /** The step left alone everything the waiting session `id` relies on. */
  ghost predicate SparesClient(s: State, t: State, id: Id) {
    && id in s.clients && id in t.clients && t.clients[id] == s.clients[id]
    && (s.clients[id].Enqueueing? ==> SameEntry(s, t, id))
    && (Enqueued(s, id) ==> Enqueued(t, id))
    && (ResultOf(id) in s.files ==> ResultOf(id) in t.files)
  }

  lemma ClientSpared(s: State, t: State, id: Id)
    requires id in s.clients && ClientOk(s, id) && Grows(s, t) && SparesClient(s, t, id)
    ensures ClientOk(t, id)
  {
  }

  // ---------------------------------------------------------------- one step of enqueue_job

  ghost predicate EnqueuedOne(s: State, t: State, job: Job, phase: Phase) {
    && FilesOk(s) && LineageOk(s) && HistoryOk(s) && Entering(s, job, phase)
    && (job.parent.Some? ==> ResultOf(job.parent.value) in s.files)
    && t.files == EnqueueFiles(s.files, job, phase)
    && t.used == s.used && t.owner == s.owner && t.results == s.results && t.fetchLog == s.fetchLog
  }

  lemma EnqueueTouches(s: State, t: State, job: Job, phase: Phase)
    requires EnqueuedOne(s, t, job, phase)
    ensures forall p {:trigger SameFile(s, t, p)} :: p != Tmp(job.id) && p != Pending(job.id) ==> SameFile(s, t, p)
    ensures Processing(job.id) !in t.files
    ensures phase != TmpWritten ==> Entering(t, job, NextPhase(phase))
    ensures phase == TmpWritten ==> Tmp(job.id) !in t.files && Pending(job.id) in t.files && t.files[Pending(job.id)] == JobFile(job)
  {
  }

  lemma EnqueueFilesOk(s: State, t: State, job: Job, phase: Phase)
    requires EnqueuedOne(s, t, job, phase)
    ensures FilesOk(t)
  {
    EnqueueTouches(s, t, job, phase);
    forall p | p in t.files ensures FileOk(t, p) {
      if p.id != job.id || p.ResultTmp? || p.ResultOf? {
        assert SameFile(s, t, p) && SameFile(s, t, Pending(p.id)) && SameFile(s, t, Processing(p.id));
        assert FileOk(s, p);
      }
    }
  }

  lemma EnqueueLineageOk(s: State, t: State, job: Job, phase: Phase)
    requires EnqueuedOne(s, t, job, phase)
    ensures LineageOk(t)
  {
    EnqueueTouches(s, t, job, phase);
    forall id ensures LineageAt(t, id) {
      assert LineageAt(s, id);
      if id != job.id {
        assert SameFile(s, t, Tmp(id)) && SameFile(s, t, Pending(id)) && SameFile(s, t, Processing(id));
      }
      if id in s.used && s.used[id].parent.Some? {
        assert SameFile(s, t, ResultOf(s.used[id].parent.value));
      }
    }
  }

  lemma EnqueueStep(s: State, t: State, job: Job, phase: Phase)
    requires EnqueuedOne(s, t, job, phase)
    ensures FilesOk(t) && LineageOk(t) && HistoryOk(t) && Grows(s, t)
    ensures forall id {:trigger SameEntry(s, t, id)} :: id != job.id ==> SameEntry(s, t, id)
    ensures forall id {:trigger Enqueued(t, id)} :: Enqueued(s, id) ==> Enqueued(t, id)
    ensures forall id {:trigger SameFile(s, t, ResultTmp(id))} :: SameFile(s, t, ResultTmp(id))
    ensures forall id {:trigger SameFile(s, t, ResultOf(id))} :: SameFile(s, t, ResultOf(id))
    ensures phase != TmpWritten ==> Entering(t, job, NextPhase(phase))
    ensures phase == TmpWritten ==> Enqueued(t, job.id)
  {
    hide FileOk, LineageAt, LogOk;
    EnqueueTouches(s, t, job, phase);
    EnqueueFilesOk(s, t, job, phase);
    LogKept(s, t);
    EnqueueLineageOk(s, t, job, phase);
    forall id ensures id in t.owner <==> Processing(id) in t.files {
      assert SameFile(s, t, Processing(id));
    }
    forall id | Enqueued(s, id) ensures Enqueued(t, id) {
      assert SameFile(s, t, Processing(id));
      if id != job.id { assert SameFile(s, t, Pending(id)); }
    }
  }

  // ---------------------------------------------------------------- the steps of a session

  lemma AllSpared(s: State, t: State)
    requires WorkersOk(s) && Grows(s, t) && t.workers == s.workers
    requires forall w {:trigger Spares(s, t, w)} :: w in s.workers ==> Spares(s, t, w)
    ensures WorkersOk(t)
  {
    forall w | w in t.workers ensures WorkerOk(t, w) {
      assert WorkerOk(s, w) && Spares(s, t, w);
      WorkerSpared(s, t, w);
    }
  }

  lemma AdvanceClientKeeps(s: State, id: Id)
    requires Core(s) && Enabled(s, AdvanceClient(id))
    ensures Core(Apply(s, AdvanceClient(id)))
  {
    var t, job, phase := Apply(s, AdvanceClient(id)), s.used[id], s.clients[id].phase;
    assert ClientOk(s, id);
    EnqueueStep(s, t, job, phase);
    forall c | c in t.clients ensures ClientOk(t, c) {
      if c != id {
        assert ClientOk(s, c) && SameEntry(s, t, c) && SameFile(s, t, ResultOf(c));
        ClientSpared(s, t, c);
      }
    }
    forall w | w in s.workers ensures Spares(s, t, w) {
    }
    AllSpared(s, t);
  }

  ghost predicate SameDisk(s: State, t: State) {
    t.files == s.files && t.used == s.used && t.owner == s.owner && t.results == s.results && t.fetchLog == s.fetchLog
  }

  lemma SameDiskKeeps(s: State, t: State)
    requires SameDisk(s, t) && FilesOk(s) && LineageOk(s) && HistoryOk(s)
    ensures FilesOk(t) && LineageOk(t) && HistoryOk(t) && Grows(s, t)
    ensures forall w {:trigger Spares(s, t, w)} ::
      w in s.workers && w in t.workers && t.workers[w] == s.workers[w] ==> Spares(s, t, w)
    ensures forall id {:trigger SparesClient(s, t, id)} ::
      id in s.clients && id in t.clients && t.clients[id] == s.clients[id] ==> SparesClient(s, t, id)
  {
    hide LogOk;
    LogKept(s, t);
    RecordsKeep(s, t);
    QuietSpares(s, t);
  }

  lemma QuietSpares(s: State, t: State)
    requires t.files == s.files && t.results == s.results
    ensures forall w {:trigger Spares(s, t, w)} ::
      w in s.workers && w in t.workers && t.workers[w] == s.workers[w] ==> Spares(s, t, w)
    ensures forall id {:trigger SparesClient(s, t, id)} ::
      id in s.clients && id in t.clients && t.clients[id] == s.clients[id] ==> SparesClient(s, t, id)
  {
  }

  lemma OtherClientsSpared(s: State, t: State, id: Id)
    requires ClientsOk(s) && Grows(s, t)
    requires forall c {:trigger SparesClient(s, t, c)} :: c in t.clients && c != id ==> SparesClient(s, t, c)
    requires id in t.clients ==> ClientOk(t, id)
    ensures ClientsOk(t)
  {
    forall c | c in t.clients ensures ClientOk(t, c) {
      if c != id {
        assert SparesClient(s, t, c);
        ClientSpared(s, t, c);
      }
    }
  }

  lemma AllClientsSpared(s: State, t: State)
    requires ClientsOk(s) && Grows(s, t)
    requires forall c {:trigger SparesClient(s, t, c)} :: c in t.clients ==> SparesClient(s, t, c)
    ensures ClientsOk(t)
  {
    forall c | c in t.clients ensures ClientOk(t, c) {
      assert SparesClient(s, t, c);
      ClientSpared(s, t, c);
    }
  }

  lemma OtherWorkersSpared(s: State, t: State, w: WorkerId)
    requires WorkersOk(s) && Grows(s, t)
    requires forall v {:trigger Spares(s, t, v)} :: v in t.workers && v != w ==> Spares(s, t, v)
    requires w in t.workers ==> WorkerOk(t, w)
    ensures WorkersOk(t)
  {
    forall v | v in t.workers ensures WorkerOk(t, v) {
      if v != w {
        assert Spares(s, t, v) && WorkerOk(s, v);
        WorkerSpared(s, t, v);
      }
    }
  }

  /** Steps that only change what one session remembers. */
  lemma ClientOnlyKeeps(s: State, step: Step)
    requires Core(s) && Enabled(s, step) && (step.Poll? || step.GiveUp? || step.CrashClient?)
    ensures Core(Apply(s, step))
  {
    hide LogOk, LineageAt;
    var t := Apply(s, step);
    SameDiskKeeps(s, t);
    assert ClientOk(s, step.id);
    if step.Poll? && ResultOf(step.id) in s.files { assert FileOk(s, ResultOf(step.id)); }
    OtherClientsSpared(s, t, step.id);
    AllSpared(s, t);
  }

  lemma StartClientKeeps(s: State, job: Job)
    requires Core(s) && Enabled(s, StartClient(job))
    ensures Core(Apply(s, StartClient(job)))
  {
    hide LineageAt, Kids, Holds;
    var t := Apply(s, StartClient(job));
    assert [job][0] == job;
    LogKept(s, t);
    RecordsKeep(s, t);
    QuietSpares(s, t);
    forall p | p in s.files ensures p.id != job.id { assert FileOk(s, p); }
    forall c | c in s.clients ensures c != job.id { assert ClientOk(s, c); }
    OtherClientsSpared(s, t, job.id);
    AllSpared(s, t);
  }

  /** Recording more changes nothing about the files that are there. */
  lemma RecordsKeep(s: State, t: State)
    requires FilesOk(s) && LineageOk(s) && HistoryOk(s) && Grows(s, t) && t.files == s.files
    ensures FilesOk(t) && LineageOk(t)
  {
    forall p | p in t.files ensures FileOk(t, p) { assert FileOk(s, p); }
    forall id ensures LineageAt(t, id) {
      assert LineageAt(s, id);
      assert Tmp(id) in s.files ==> FileOk(s, Tmp(id));
      assert Pending(id) in s.files ==> FileOk(s, Pending(id));
      assert Processing(id) in s.files ==> FileOk(s, Processing(id));
    }
  }

  // ---------------------------------------------------------------- the steps of a worker

  /** Steps that only change what one worker remembers. */
  lemma WorkerOnlyKeeps(s: State, step: Step)
    requires Core(s) && Enabled(s, step) && (step.StartWorker? || step.List? || step.Read? || step.CrashWorker?)
    ensures Core(Apply(s, step))
  {
    hide LogOk, LineageAt;
    var t := Apply(s, step);
    SameDiskKeeps(s, t);
    if step.Read? {
      assert WorkerOk(s, step.w);
      assert FileOk(s, Processing(s.workers[step.w].id));
    }
    AllClientsSpared(s, t);
    OtherWorkersSpared(s, t, step.w);
  }

  lemma ClaimKeeps(s: State, w: WorkerId)
    requires Core(s) && w in s.workers && s.workers[w].Claiming?
    ensures Core(ClaimNext(s, w))
  {
    var t, pc := ClaimNext(s, w), s.workers[w];
    assert WorkerOk(s, w);
    if pc.listing != [] && Pending(pc.listing[0]) in s.files {
      ClaimMoves(s, t, pc.listing[0], w);
    } else {
      SameDiskKeeps(s, t);
    }
    AllClientsSpared(s, t);
    OtherWorkersSpared(s, t, w);
  }

  ghost predicate Claimed(s: State, t: State, id: Id, w: WorkerId) {
    && Pending(id) in s.files
    && t.files == Rename(s.files, Pending(id), Processing(id)) && t.owner == s.owner[id := w]
    && t.used == s.used && t.results == s.results && t.fetchLog == s.fetchLog && t.clients == s.clients
  }

  lemma ClaimTouches(s: State, t: State, id: Id, w: WorkerId)
    requires Claimed(s, t, id, w) && FilesOk(s) && HistoryOk(s)
    ensures Grows(s, t)
    ensures id !in s.owner && id !in s.results && id in s.used && s.used[id].id == id
    ensures forall p {:trigger SameFile(s, t, p)} :: p != Pending(id) && p != Processing(id) ==> SameFile(s, t, p)
    ensures Pending(id) !in t.files && Processing(id) in t.files && t.files[Processing(id)] == JobFile(s.used[id])
  {
    assert FileOk(s, Pending(id));
  }

  lemma ClaimFiles(s: State, t: State, id: Id, w: WorkerId)
    requires Claimed(s, t, id, w) && FilesOk(s) && HistoryOk(s) && LineageOk(s)
    ensures FilesOk(t) && LineageOk(t) && HistoryOk(t)
  {
    hide LogOk;
    ClaimTouches(s, t, id, w);
    LogKept(s, t);
    forall p | p in t.files ensures FileOk(t, p) {
      if p != Processing(id) { assert SameFile(s, t, p) && FileOk(s, p); }
    }
    forall i ensures LineageAt(t, i) {
      assert LineageAt(s, i) && SameFile(s, t, Tmp(i));
      if i in s.used && s.used[i].parent.Some? { assert SameFile(s, t, ResultOf(s.used[i].parent.value)); }
    }
    forall i ensures i in t.owner <==> Processing(i) in t.files {
      if i != id { assert SameFile(s, t, Processing(i)); }
    }
  }

  lemma ClaimMoves(s: State, t: State, id: Id, w: WorkerId)
    requires Core(s) && Claimed(s, t, id, w)
    ensures FilesOk(t) && LineageOk(t) && HistoryOk(t) && Grows(s, t)
    ensures id !in s.owner && id !in s.results && id in s.used && s.used[id].id == id
    ensures forall v {:trigger Spares(s, t, v)} ::
      v in s.workers && v in t.workers && t.workers[v] == s.workers[v] && v != w ==> Spares(s, t, v)
    ensures forall c {:trigger SparesClient(s, t, c)} :: c in s.clients ==> SparesClient(s, t, c)
  {
    ClaimTouches(s, t, id, w);
    ClaimFiles(s, t, id, w);
    ClaimSpares(s, t, id, w);
  }

  lemma ClaimSpares(s: State, t: State, id: Id, w: WorkerId)
    requires Claimed(s, t, id, w) && FilesOk(s) && HistoryOk(s) && ClientsOk(s)
    ensures forall v {:trigger Spares(s, t, v)} ::
      v in s.workers && v in t.workers && t.workers[v] == s.workers[v] && v != w ==> Spares(s, t, v)
    ensures forall c {:trigger SparesClient(s, t, c)} :: c in s.clients ==> SparesClient(s, t, c)
  {
    hide LogOk, FileOk, Holds, Kids;
    ClaimTouches(s, t, id, w);
    forall i | i != id ensures SameEntry(s, t, i) {
      assert SameFile(s, t, Tmp(i)) && SameFile(s, t, Pending(i)) && SameFile(s, t, Processing(i));
    }
    forall c | c in s.clients ensures SparesClient(s, t, c) {
      assert ClientOk(s, c) && SameFile(s, t, ResultOf(c));
      if c != id { assert SameEntry(s, t, c); }
    }
  }

  lemma FetchKeeps(s: State, w: WorkerId, result: Result)
    requires Core(s) && w in s.workers && s.workers[w].Batch?
    requires s.workers[w].queue != [] ==> NewFollowups(s, s.workers[w].queue[0], result.followups)
    ensures Core(FetchNext(s, w, result))
  {
    var t, queue := FetchNext(s, w, result), s.workers[w].queue;
    assert WorkerOk(s, w);
    if queue == [] {
      SameDiskKeeps(s, t);
    } else {
      FetchRecords(s, t, w, result);
      FetchReady(s, t, w, result);
    }
    AllClientsSpared(s, t);
    OtherWorkersSpared(s, t, w);
  }

  lemma {:induction false} AddJobsHas(used: map<Id, Job>, jobs: seq<Job>)
    requires Distinct(jobs) && forall i :: 0 <= i < |jobs| ==> jobs[i].id !in used
    ensures forall id {:trigger id in AddJobs(used, jobs)} ::
      id in AddJobs(used, jobs) <==> id in used || exists i :: 0 <= i < |jobs| && jobs[i].id == id
    ensures forall id {:trigger id in used} :: id in used ==> id in AddJobs(used, jobs) && AddJobs(used, jobs)[id] == used[id]
    ensures forall i {:trigger jobs[i]} :: 0 <= i < |jobs| ==> jobs[i].id in AddJobs(used, jobs) && AddJobs(used, jobs)[jobs[i].id] == jobs[i]
  {
    if jobs != [] {
      AddJobsHas(used, jobs[..|jobs| - 1]);
    }
  }

  lemma FetchRecords(s: State, t: State, w: WorkerId, result: Result)
    requires FilesOk(s) && LineageOk(s) && HistoryOk(s) && w in s.workers && s.workers[w].Batch? && s.workers[w].queue != []
    requires NewFollowups(s, s.workers[w].queue[0], result.followups)
    requires t == FetchNext(s, w, result) && HoldsAll(s, w, s.workers[w].queue)
    ensures FilesOk(t) && LineageOk(t) && HistoryOk(t) && Grows(s, t)
    ensures forall v {:trigger Spares(s, t, v)} :: v in s.workers && v != w ==> Spares(s, t, v)
    ensures forall c {:trigger SparesClient(s, t, c)} :: c in s.clients ==> SparesClient(s, t, c)
  {
    hide FileOk, LineageAt, WorkerOk;
    var job := s.workers[w].queue[0];
    assert HoldsUnfetched(s, w, job);
    AddJobsHas(s.used, result.followups);
    RecordsKeep(s, t);
    FetchHistory(s, t, w, job, result);
    FetchSpares(s, t, w, job);
  }

  lemma FetchSpares(s: State, t: State, w: WorkerId, job: Job)
    requires t.files == s.files && t.clients == s.clients && job.id in s.owner && s.owner[job.id] == w
    requires forall v :: v in s.workers && v != w ==> v in t.workers && t.workers[v] == s.workers[v]
    requires forall i :: i in t.results ==> i in s.results || i == job.id
    ensures forall v {:trigger Spares(s, t, v)} :: v in s.workers && v != w ==> Spares(s, t, v)
    ensures forall c {:trigger SparesClient(s, t, c)} :: c in s.clients ==> SparesClient(s, t, c)
  {
  }

  lemma FetchHistory(s: State, t: State, w: WorkerId, job: Job, result: Result)
    requires HistoryOk(s) && job.id in s.owner && s.owner[job.id] == w && job.id !in s.results
    requires t.files == s.files && t.owner == s.owner && t.used == AddJobs(s.used, result.followups)
    requires t.fetchLog == s.fetchLog + [Fetched(job.id, w)] && t.results == s.results[job.id := result]
    requires FreshJobs(s, result.followups)
    ensures HistoryOk(t)
  {
    AddJobsHas(s.used, result.followups);
    forall i | 0 <= i < |t.fetchLog| ensures FetchedByOwner(t, t.fetchLog[i]) {
      if i < |s.fetchLog| { assert FetchedByOwner(s, s.fetchLog[i]); }
    }
    forall i | 0 <= i < |s.fetchLog| ensures s.fetchLog[i].id != job.id { assert FetchedByOwner(s, s.fetchLog[i]); }
  }

  lemma FetchReady(s: State, t: State, w: WorkerId, result: Result)
    requires FilesOk(s) && HistoryOk(s) && w in s.workers && s.workers[w].Batch? && s.workers[w].queue != []
    requires NewFollowups(s, s.workers[w].queue[0], result.followups)
    requires t == FetchNext(s, w, result) && HoldsAll(s, w, s.workers[w].queue)
    ensures WorkerOk(t, w)
  {
    var queue, kids := s.workers[w].queue, result.followups;
    AddJobsHas(s.used, kids);
    assert HoldsUnfetched(s, w, queue[0]);
    forall i | 0 <= i < |kids| ensures Entering(t, kids[i], NotStarted) {
      assert kids[i].id !in s.used;
    }
    forall i | 0 <= i < |queue[1..]| ensures HoldsUnfetched(t, w, queue[1..][i]) {
      assert queue[1..][i] == queue[i + 1];
      assert HoldsUnfetched(s, w, queue[i + 1]);
    }
  }

  lemma PublishKeeps(s: State, w: WorkerId)
    requires Core(s) && w in s.workers && s.workers[w].Publishing?
    ensures Core(PublishNext(s, w))
  {
    hide FileOk, LineageAt, ClientOk;
    var t, pc := PublishNext(s, w), s.workers[w];
    assert WorkerOk(s, w);
    assert PublishedOne(s, t, pc.job.id);
    PublishFiles(s, t, pc.job.id);
    PublishSpares(s, t, pc.job.id);
    PublishReady(s, t, w);
    AllClientsSpared(s, t);
    OtherWorkersSpared(s, t, w);
  }

  /** One file operation on the result file of job `id`, or on its `.tmp`. */
  ghost predicate PublishedOne(s: State, t: State, id: Id) {
    && t.used == s.used && t.owner == s.owner && t.results == s.results && t.fetchLog == s.fetchLog && t.clients == s.clients
    && (forall p {:trigger SameFile(s, t, p)} :: p != ResultTmp(id) && p != ResultOf(id) ==> SameFile(s, t, p))
    && id in s.results && ResultOf(id) !in s.files
    && (ResultTmp(id) in t.files ==> t.files[ResultTmp(id)] == Partial || t.files[ResultTmp(id)] == ResultFile(s.results[id]))
    && (ResultOf(id) in t.files ==> t.files[ResultOf(id)] == ResultFile(s.results[id]))
  }

  lemma PublishFiles(s: State, t: State, id: Id)
    requires FilesOk(s) && LineageOk(s) && HistoryOk(s) && PublishedOne(s, t, id)
    ensures FilesOk(t) && LineageOk(t) && HistoryOk(t) && Grows(s, t)
  {
    hide LogOk;
    forall p | p in t.files ensures FileOk(t, p) {
      if p != ResultTmp(id) && p != ResultOf(id) {
        assert SameFile(s, t, p) && SameFile(s, t, Pending(p.id)) && SameFile(s, t, Processing(p.id)) && FileOk(s, p);
      }
    }
    LogKept(s, t);
    PublishLineage(s, t, id);
    forall i ensures i in t.owner <==> Processing(i) in t.files { assert SameFile(s, t, Processing(i)); }
  }

  lemma PublishLineage(s: State, t: State, id: Id)
    requires LineageOk(s) && PublishedOne(s, t, id)
    ensures LineageOk(t)
  {
    forall i ensures LineageAt(t, i) {
      assert LineageAt(s, i) && SameFile(s, t, Tmp(i)) && SameFile(s, t, Pending(i)) && SameFile(s, t, Processing(i));
      if i in s.used && s.used[i].parent.Some? && s.used[i].parent.value != id {
        assert SameFile(s, t, ResultOf(s.used[i].parent.value));
      }
    }
  }

  lemma PublishSpares(s: State, t: State, id: Id)
    requires HistoryOk(s) && PublishedOne(s, t, id)
    ensures forall v {:trigger Spares(s, t, v)} ::
      v in s.workers && v in t.workers && t.workers[v] == s.workers[v] && id in s.owner && v != s.owner[id] ==> Spares(s, t, v)
    ensures forall c {:trigger SparesClient(s, t, c)} :: c in s.clients ==> SparesClient(s, t, c)
    ensures forall i {:trigger SameEntry(s, t, i)} :: SameEntry(s, t, i)
  {
    forall i ensures SameEntry(s, t, i) {
      assert SameFile(s, t, Tmp(i)) && SameFile(s, t, Pending(i)) && SameFile(s, t, Processing(i));
    }
    forall c | c in s.clients ensures SparesClient(s, t, c) {
      assert SameEntry(s, t, c);
      if c != id { assert SameFile(s, t, ResultOf(c)); }
    }
  }

  lemma PublishReady(s: State, t: State, w: WorkerId)
    requires HistoryOk(s) && w in s.workers && s.workers[w].Publishing? && t == PublishNext(s, w) && WorkerOk(s, w)
    requires forall i {:trigger SameEntry(s, t, i)} :: SameEntry(s, t, i)
    ensures WorkerOk(t, w)
  {
    KidsSame(s, t, s.workers[w].job, s.workers[w].result.followups);
    HoldsSame(s, t, w, s.workers[w].rest);
  }

  lemma KidsSame(s: State, t: State, parent: Job, kids: seq<Job>)
    requires Kids(s, parent, kids, NotStarted) && t.used == s.used
    requires forall i {:trigger SameEntry(s, t, i)} :: SameEntry(s, t, i)
    ensures Kids(t, parent, kids, NotStarted)
  {
    forall i | 0 <= i < |kids| ensures Entering(t, kids[i], NotStarted) {
      assert Entering(s, kids[i], NotStarted) && SameEntry(s, t, kids[i].id);
    }
  }

  lemma HoldsSame(s: State, t: State, w: WorkerId, jobs: seq<Job>)
    requires HoldsAll(s, w, jobs) && t.used == s.used && t.owner == s.owner && t.results == s.results
    ensures HoldsAll(t, w, jobs)
  {
  }

  lemma FollowKeeps(s: State, w: WorkerId)
    requires Core(s) && w in s.workers && s.workers[w].Following?
    ensures Core(FollowNext(s, w))
  {
    var t, pc := FollowNext(s, w), s.workers[w];
    assert WorkerOk(s, w);
    if pc.kids == [] {
      SameDiskKeeps(s, t);
      AllClientsSpared(s, t);
      OtherWorkersSpared(s, t, w);
    } else {
      assert pc.kids[0].parent == Some(pc.job.id);
      FollowMoves(s, t, w);
    }
  }

  lemma FollowMoves(s: State, t: State, w: WorkerId)
    requires Core(s) && w in s.workers && s.workers[w].Following? && t == FollowNext(s, w) && WorkerOk(s, w)
    requires s.workers[w].kids != [] && EnqueuedOne(s, t, s.workers[w].kids[0], s.workers[w].phase)
    ensures Core(t)
  {
    hide FileOk, LineageAt;
    EnqueueStep(s, t, s.workers[w].kids[0], s.workers[w].phase);
    FollowReady(s, t, w);
    forall c | c in t.clients ensures SparesClient(s, t, c) {
      assert ClientOk(s, c) && SameEntry(s, t, c) && SameFile(s, t, ResultOf(c));
    }
    AllClientsSpared(s, t);
    OtherWorkersSpared(s, t, w);
  }

  lemma FollowReady(s: State, t: State, w: WorkerId)
    requires w in s.workers && s.workers[w].Following? && t == FollowNext(s, w) && WorkerOk(s, w)
    requires s.workers[w].kids != [] && EnqueuedOne(s, t, s.workers[w].kids[0], s.workers[w].phase)
    ensures WorkerOk(t, w)
  {
    hide FilesOk, LineageOk, HistoryOk;
    var kids, phase := s.workers[w].kids, s.workers[w].phase;
    EnqueueStep(s, t, kids[0], phase);
    assert SameFile(s, t, ResultOf(s.workers[w].job.id));
    forall i | 1 <= i < |kids| ensures Entering(t, kids[i], NotStarted) {
      assert Entering(s, kids[i], NotStarted) && SameEntry(s, t, kids[i].id);
    }
    HoldsSame(s, t, w, s.workers[w].rest);
  }

  // ---------------------------------------------------------------- every run

  lemma CoreKeeps(s: State, step: Step)
    requires Core(s) && Enabled(s, step)
    ensures Core(Apply(s, step))
  {
    match step
    case StartClient(job) => StartClientKeeps(s, job);
    case AdvanceClient(id) => AdvanceClientKeeps(s, id);
    case Poll(_) => ClientOnlyKeeps(s, step);
    case GiveUp(_) => ClientOnlyKeeps(s, step);
    case CrashClient(_) => ClientOnlyKeeps(s, step);
    case StartWorker(_) => WorkerOnlyKeeps(s, step);
    case List(_, _) => WorkerOnlyKeeps(s, step);
    case Claim(w) => ClaimKeeps(s, w);
    case Read(_) => WorkerOnlyKeeps(s, step);
    case Fetch(w, result) => FetchKeeps(s, w, result);
    case Publish(w) => PublishKeeps(s, w);
    case Follow(w) => FollowKeeps(s, w);
    case CrashWorker(_) => WorkerOnlyKeeps(s, step);
  }

  ghost predicate Among(jobs: seq<Job>, id: Id) { exists i :: 0 <= i < |jobs| && jobs[i].id == id }

  /** Worker `w` still has job `id` to do. */
  ghost predicate InHands(s: State, w: WorkerId, id: Id)
    requires w in s.workers
  {
    match s.workers[w]
    case Claiming(_, claimed) => Among(claimed, id)
    case Reading(now, _, claimed) => now == id || Among(claimed, id)
    case Batch(queue) => Among(queue, id)
    case Publishing(job, _, _, rest) => job.id == id || Among(rest, id)
    case Following(_, _, _, rest) => Among(rest, id)
    case Idle => false
    case Crashed => false
  }

  /** A claimed job has its result, or is still in the hands of the worker that claimed it, or that worker
      crashed. */
  ghost predicate CaredFor(s: State, id: Id) {
    id in s.owner && ResultOf(id) !in s.files ==>
      s.owner[id] in s.workers && (s.workers[s.owner[id]].Crashed? || InHands(s, s.owner[id], id))
  }

  ghost predicate NoneForgotten(s: State) { forall id {:trigger CaredFor(s, id)} :: CaredFor(s, id) }

  ghost predicate Inv(s: State) { Core(s) && NoneForgotten(s) }

  predicate ByClient(step: Step, id: Id) {
    match step
    case StartClient(job) => job.id == id
    case AdvanceClient(i) => i == id
    case Poll(i) => i == id
    case GiveUp(i) => i == id
    case CrashClient(i) => i == id
    case _ => false
  }

  /** All that a step of worker `v` can change about the workers and about who owns what. */
  ghost predicate OnlyWorker(s: State, t: State, v: WorkerId) {
    && v in t.workers && t.workers == s.workers[v := t.workers[v]]
    && (t.owner == s.owner
        || (v in s.workers && s.workers[v].Claiming? && s.workers[v].listing != []
            && t.owner == s.owner[s.workers[v].listing[0] := v] && t.workers[v].Reading?
            && t.workers[v].id == s.workers[v].listing[0]))
  }

  lemma QueueStepIs(s: State, step: Step, v: WorkerId)
    requires Enabled(s, step) && ByWorker(step, v) && (step.Claim? || step.Fetch?)
    ensures OnlyWorker(s, Apply(s, step), v)
  {
    hide AddJobs, Rename;
  }

  lemma WorkerStepIs(s: State, step: Step, v: WorkerId)
    requires Enabled(s, step) && ByWorker(step, v)
    ensures OnlyWorker(s, Apply(s, step), v)
  {
    hide EnqueueFiles, Rename, ClaimNext, FetchNext, NewFollowups, FreshJobs;
    if step.Claim? || step.Fetch? { QueueStepIs(s, step, v); }
  }

  lemma ClientStepIs(s: State, step: Step)
    requires Enabled(s, step) && (step.StartClient? || step.AdvanceClient? || step.Poll? || step.GiveUp? || step.CrashClient?)
    ensures Apply(s, step).workers == s.workers && Apply(s, step).owner == s.owner
  {
    hide EnqueueFiles;
  }

  function WorkerOf(step: Step): Option<WorkerId> {
    match step
    case StartWorker(v) => Some(v)
    case List(v, _) => Some(v)
    case Claim(v) => Some(v)
    case Read(v) => Some(v)
    case Fetch(v, _) => Some(v)
    case Publish(v) => Some(v)
    case Follow(v) => Some(v)
    case CrashWorker(v) => Some(v)
    case _ => None
  }

  predicate ByWorker(step: Step, w: WorkerId) { WorkerOf(step) == Some(w) }

  /** A step of anybody else leaves a worker where it was and takes over no job in its name. */
  lemma OtherWorkersStep(s: State, step: Step, w: WorkerId)
    requires Enabled(s, step) && !ByWorker(step, w)
    ensures w in s.workers <==> w in Apply(s, step).workers
    ensures w in s.workers ==> Apply(s, step).workers[w] == s.workers[w]
    ensures OwnsNoMore(s, Apply(s, step), w)
  {
    hide Apply, Enabled;
    match WorkerOf(step)
    case Some(v) => WorkerStepIs(s, step, v);
    case None => ClientStepIs(s, step);
  }

  ghost predicate OwnsNoMore(s: State, t: State, w: WorkerId) {
    forall id {:trigger id in t.owner} :: id in t.owner && t.owner[id] == w ==> id in s.owner && s.owner[id] == w
  }

  lemma AmongRest(jobs: seq<Job>, id: Id)
    requires jobs != []
    ensures Among(jobs, id) <==> jobs[0].id == id || Among(jobs[1..], id)
  {
    if Among(jobs, id) && jobs[0].id != id {
      var i :| 0 <= i < |jobs| && jobs[i].id == id;
      assert jobs[1..][i - 1].id == id;
    }
    if Among(jobs[1..], id) {
      var i :| 0 <= i < |jobs[1..]| && jobs[1..][i].id == id;
      assert jobs[i + 1].id == id;
    }
  }

  lemma AmongSnoc(jobs: seq<Job>, job: Job, id: Id)
    ensures Among(jobs + [job], id) <==> Among(jobs, id) || job.id == id
  {
    if Among(jobs, id) {
      var i :| 0 <= i < |jobs| && jobs[i].id == id;
      assert (jobs + [job])[i].id == id;
    }
    assert (jobs + [job])[|jobs|] == job;
  }

  /** A worker's own step keeps every job it has to do, until the job's result is there. */
  lemma OwnHands(s: State, step: Step, w: WorkerId, id: Id)
    requires Core(s) && Enabled(s, step) && ByWorker(step, w) && w in s.workers && InHands(s, w, id)
    ensures var t := Apply(s, step); w in t.workers && (t.workers[w].Crashed? || InHands(t, w, id) || ResultOf(id) in t.files)
  {
    hide LineageOk, ClientsOk, Among, FileOk, Kids, HoldsAll;
    assert WorkerOk(s, w);
    match step
    case Read(_) =>
      ReadsIt(s, s.workers[w].id);
      AmongSnoc(s.workers[w].claimed, s.files[Processing(s.workers[w].id)].job, id);
    case Fetch(_, _) =>
      if s.workers[w].queue != [] { AmongRest(s.workers[w].queue, id); } else { AmongNone(id); }
    case Claim(_) =>
    case Publish(_) => PublishHands(s, w, id);
    case Follow(_) =>
    case CrashWorker(_) =>
  }

  lemma ReadsIt(s: State, id: Id)
    requires FilesOk(s) && HistoryOk(s) && Processing(id) in s.files
    ensures s.files[Processing(id)].JobFile? && s.files[Processing(id)].job.id == id
  {
    assert FileOk(s, Processing(id));
  }

  lemma PublishHands(s: State, w: WorkerId, id: Id)
    requires w in s.workers && s.workers[w].Publishing? && WorkerOk(s, w) && InHands(s, w, id)
    ensures var t := PublishNext(s, w); w in t.workers && (InHands(t, w, id) || ResultOf(id) in t.files)
  {
    hide Among, Kids, HoldsAll;
  }

  lemma AmongNone(id: Id)
    ensures !Among([], id)
  {
  }

  lemma StepCares(s: State, step: Step)
    requires Inv(s) && Enabled(s, step) && Forward(s, Apply(s, step))
    ensures NoneForgotten(Apply(s, step))
  {
    hide Core, InHands;
    var t := Apply(s, step);
    forall id ensures CaredFor(t, id) {
      assert CaredFor(s, id);
      if id in t.owner && ResultOf(id) !in t.files {
        if id in s.owner {
          var w := s.owner[id];
          if ByWorker(step, w) {
            if !s.workers[w].Crashed? { OwnHands(s, step, w, id); } else { StaysCrashed(s, step, w); }
          } else {
            OtherWorkersStep(s, step, w);
            HandsSame(s, t, w, id);
          }
        } else {
          JustClaimed(s, step, id);
        }
      }
    }
  }

  lemma StaysCrashed(s: State, step: Step, w: WorkerId)
    requires Enabled(s, step) && ByWorker(step, w) && w in s.workers && s.workers[w].Crashed?
    ensures var t := Apply(s, step); w in t.workers && t.workers[w].Crashed?
  {
  }

  lemma HandsSame(s: State, t: State, w: WorkerId, id: Id)
    requires w in s.workers && w in t.workers && t.workers[w] == s.workers[w]
    ensures InHands(t, w, id) <==> InHands(s, w, id)
  {
  }

  lemma JustClaimed(s: State, step: Step, id: Id)
    requires Enabled(s, step) && id !in s.owner && id in Apply(s, step).owner
    ensures var t := Apply(s, step); t.owner[id] in t.workers && InHands(t, t.owner[id], id)
  {
    hide Apply, Enabled;
    match WorkerOf(step)
    case Some(v) => WorkerStepIs(s, step, v);
    case None => ClientStepIs(s, step);
  }

  lemma StepKeeps(s: State, step: Step)
    requires Inv(s) && Enabled(s, step)
    ensures Inv(Apply(s, step))
  {
    hide Core, NoneForgotten, Apply, Forward;
    CoreKeeps(s, step);
    StepForward(s, step);
    StepCares(s, step);
  }

  ghost predicate CanRun(s: State, steps: seq<Step>)
    decreases |steps|
  {
    steps == [] || (Enabled(s, steps[0]) && CanRun(Apply(s, steps[0]), steps[1..]))
  }

  ghost function Run(s: State, steps: seq<Step>): State
    requires CanRun(s, steps)
    decreases |steps|
  {
    if steps == [] then s else Run(Apply(s, steps[0]), steps[1..])
  }

  lemma {:induction false} RunKeeps(s: State, steps: seq<Step>)
    requires Inv(s) && CanRun(s, steps)
    ensures Inv(Run(s, steps))
    decreases |steps|
  {
    if steps != [] {
      StepKeeps(s, steps[0]);
      RunKeeps(Apply(s, steps[0]), steps[1..]);
    }
  }

  /** What one step, and so any number of steps, can never undo. */
  ghost predicate Forward(s: State, t: State) {
    && Grows(s, t) && s.fetchLog <= t.fetchLog
    && (forall id {:trigger Enqueued(t, id)} {:trigger Enqueued(s, id)} :: Enqueued(s, id) ==> Enqueued(t, id))
    && (forall id {:trigger Processing(id) in t.files} {:trigger Processing(id) in s.files} :: Processing(id) in s.files ==> Processing(id) in t.files)
    && (forall id {:trigger ResultOf(id) in t.files} {:trigger ResultOf(id) in s.files} ::
          ResultOf(id) in s.files ==> ResultOf(id) in t.files && t.files[ResultOf(id)] == s.files[ResultOf(id)])
    && (forall id {:trigger id in t.clients} {:trigger id in s.clients} ::
          id in s.clients && s.clients[id].Done? ==> id in t.clients && t.clients[id] == s.clients[id])
  }

  lemma StepForward(s: State, step: Step)
    requires Core(s) && Enabled(s, step)
    ensures Forward(s, Apply(s, step))
  {
    hide Core, Forward, ClaimNext, FetchNext, PublishNext, FollowNext;
    match step
    case StartClient(job) => StartForward(s, job);
    case AdvanceClient(id) => AdvanceForward(s, id);
    case Claim(w) => ClaimForward(s, w);
    case Fetch(w, result) => FetchForward(s, w, result);
    case Publish(w) => PublishForward(s, w);
    case Follow(w) => FollowForward(s, w);
    case Poll(_) => QuietForward(s, Apply(s, step));
    case GiveUp(_) => QuietForward(s, Apply(s, step));
    case CrashClient(_) => QuietForward(s, Apply(s, step));
    case StartWorker(_) => QuietForward(s, Apply(s, step));
    case List(_, _) => QuietForward(s, Apply(s, step));
    case Read(_) => QuietForward(s, Apply(s, step));
    case CrashWorker(_) => QuietForward(s, Apply(s, step));
  }

  lemma QuietForward(s: State, t: State)
    requires SameDisk(s, t)
    requires forall id :: id in s.clients && s.clients[id].Done? ==> id in t.clients && t.clients[id] == s.clients[id]
    ensures Forward(s, t)
  {
  }

  lemma StartForward(s: State, job: Job)
    requires Core(s) && Enabled(s, StartClient(job))
    ensures Forward(s, Apply(s, StartClient(job)))
  {
    assert [job][0] == job;
    forall c | c in s.clients ensures c != job.id { assert ClientOk(s, c); }
  }

  lemma AdvanceForward(s: State, id: Id)
    requires Core(s) && Enabled(s, AdvanceClient(id))
    ensures Forward(s, Apply(s, AdvanceClient(id)))
  {
    var t := Apply(s, AdvanceClient(id));
    assert ClientOk(s, id);
    EnqueueForward(s, t, s.used[id], s.clients[id].phase);
  }

  lemma EnqueueForward(s: State, t: State, job: Job, phase: Phase)
    requires EnqueuedOne(s, t, job, phase)
    ensures Grows(s, t)
    ensures forall id {:trigger Enqueued(t, id)} {:trigger Enqueued(s, id)} :: Enqueued(s, id) ==> Enqueued(t, id)
    ensures forall id {:trigger Processing(id) in t.files} :: Processing(id) in s.files ==> Processing(id) in t.files
    ensures forall id {:trigger ResultOf(id) in t.files} ::
      ResultOf(id) in s.files ==> ResultOf(id) in t.files && t.files[ResultOf(id)] == s.files[ResultOf(id)]
  {
    EnqueueStep(s, t, job, phase);
  }

  lemma ClaimForward(s: State, w: WorkerId)
    requires Core(s) && w in s.workers && s.workers[w].Claiming?
    ensures Forward(s, ClaimNext(s, w))
  {
    hide ClientsOk, LineageOk, WorkersOk;
    var t, pc := ClaimNext(s, w), s.workers[w];
    if pc.listing != [] && Pending(pc.listing[0]) in s.files {
      ClaimTouches(s, t, pc.listing[0], w);
    }
  }

  lemma FetchForward(s: State, w: WorkerId, result: Result)
    requires Core(s) && w in s.workers && s.workers[w].Batch?
    requires s.workers[w].queue != [] ==> NewFollowups(s, s.workers[w].queue[0], result.followups)
    ensures Forward(s, FetchNext(s, w, result))
  {
    assert WorkerOk(s, w);
    if s.workers[w].queue != [] {
      assert HoldsUnfetched(s, w, s.workers[w].queue[0]);
      AddJobsHas(s.used, result.followups);
    }
  }

  lemma PublishForward(s: State, w: WorkerId)
    requires Core(s) && w in s.workers && s.workers[w].Publishing?
    ensures Forward(s, PublishNext(s, w))
  {
    hide LineageOk, ClientsOk, FileOk;
    assert WorkerOk(s, w);
  }

  lemma FollowForward(s: State, w: WorkerId)
    requires Core(s) && w in s.workers && s.workers[w].Following?
    ensures Forward(s, FollowNext(s, w))
  {
    assert WorkerOk(s, w);
    var pc := s.workers[w];
    if pc.kids != [] {
      assert pc.kids[0].parent == Some(pc.job.id);
      EnqueueForward(s, FollowNext(s, w), pc.kids[0], pc.phase);
    }
  }

  lemma {:induction false} RunForward(s: State, steps: seq<Step>)
    requires Inv(s) && CanRun(s, steps)
    ensures Forward(s, Run(s, steps))
    decreases |steps|
  {
    if steps != [] {
      var t := Apply(s, steps[0]);
      StepForward(s, steps[0]);
      StepKeeps(s, steps[0]);
      RunForward(t, steps[1..]);
      ForwardChains(s, t, Run(t, steps[1..]));
    }
  }

  lemma ForwardChains(s: State, t: State, u: State)
    requires Forward(s, t) && Forward(t, u)
    ensures Forward(s, u)
  {
  }

  /** Each job is fetched at most once, by the one worker that claimed it. */
  ghost predicate FetchedOnce(s: State) {
    && (forall i, j :: 0 <= i < j < |s.fetchLog| ==> s.fetchLog[i].id != s.fetchLog[j].id)
    && (forall i {:trigger s.fetchLog[i]} :: 0 <= i < |s.fetchLog| ==>
          var f := s.fetchLog[i]; f.id in s.owner && s.owner[f.id] == f.worker && Processing(f.id) in s.files)
  }

  /** A job never sits in both directories, and readers only ever see whole files, each
      holding what belongs under its name. */
  ghost predicate WholeFiles(s: State) {
    && (forall id :: !(Pending(id) in s.files && Processing(id) in s.files))
    && (forall id :: Pending(id) in s.files ==> id in s.used && s.files[Pending(id)] == JobFile(s.used[id]))
    && (forall id :: Processing(id) in s.files ==> id in s.used && s.files[Processing(id)] == JobFile(s.used[id]))
    && (forall id :: ResultOf(id) in s.files ==> id in s.results && s.files[ResultOf(id)] == ResultFile(s.results[id]))
  }

  /** A follow-up appears in the queue only after its parent's result. */
  ghost predicate ResultsFirst(s: State) {
    forall id :: Enqueued(s, id) && id in s.used && s.used[id].parent.Some? ==> ResultOf(s.used[id].parent.value) in s.files
  }

  /** A session ends with its own job's result or with a timeout. */
  ghost predicate OwnResults(s: State) {
    forall id :: id in s.clients && s.clients[id].Done? ==>
      s.clients[id].outcome == TimedOut || (id in s.results && s.clients[id].outcome == Got(s.results[id]))
  }

  lemma InvMeans(s: State)
    requires Inv(s)
    ensures FetchedOnce(s) && WholeFiles(s) && ResultsFirst(s) && OwnResults(s)
  {
    forall id | Pending(id) in s.files ensures id in s.used && Processing(id) !in s.files { assert FileOk(s, Pending(id)); }
    forall id | ResultOf(id) in s.files ensures id in s.results { assert FileOk(s, ResultOf(id)); }
    assert WholeFiles(s);
    forall i | 0 <= i < |s.fetchLog|
      ensures var f := s.fetchLog[i]; f.id in s.owner && s.owner[f.id] == f.worker && Processing(f.id) in s.files
    {
      assert FetchedByOwner(s, s.fetchLog[i]);
    }
    forall id | Enqueued(s, id) && id in s.used && s.used[id].parent.Some?
      ensures ResultOf(s.used[id].parent.value) in s.files
    {
      assert LineageAt(s, id);
    }
    forall id | id in s.clients && s.clients[id].Done?
      ensures s.clients[id].outcome == TimedOut || (id in s.results && s.clients[id].outcome == Got(s.results[id]))
    {
      assert ClientOk(s, id);
    }
  }

  /** Safety over every interleaving of any number of sessions and workers, with crashes:
      `later` is any continuation of the run `steps`. */
  lemma QueueSafety(steps: seq<Step>, later: seq<Step>)
    requires CanRun(Init, steps) && CanRun(Run(Init, steps), later)
    ensures var s := Run(Init, steps);
            && FetchedOnce(s) && WholeFiles(s) && ResultsFirst(s) && OwnResults(s) && NoneForgotten(s)
            && Forward(s, Run(s, later))
  {
    RunKeeps(Init, steps);
    InvMeans(Run(Init, steps));
    RunForward(Run(Init, steps), later);
  }

  ghost predicate NoneBy(steps: seq<Step>, w: WorkerId) { forall i :: 0 <= i < |steps| ==> !ByWorker(steps[i], w) }

  ghost predicate NoneByClient(steps: seq<Step>, id: Id) { forall i :: 0 <= i < |steps| ==> !ByClient(steps[i], id) }

  /** Whatever all the others do, a worker finds itself where it was, owning no more than it did. */
  lemma {:induction false} OthersLeaveWorker(s: State, steps: seq<Step>, w: WorkerId)
    requires Inv(s) && CanRun(s, steps) && NoneBy(steps, w) && w in s.workers
    ensures var t := Run(s, steps);
            Inv(t) && Forward(s, t) && w in t.workers && t.workers[w] == s.workers[w] && OwnsNoMore(s, t, w)
    decreases |steps|
  {
    hide Inv, Forward, Apply;
    RunKeeps(s, steps);
    RunForward(s, steps);
    if steps != [] {
      OtherWorkersStep(s, steps[0], w);
      StepKeeps(s, steps[0]);
      OthersLeaveWorker(Apply(s, steps[0]), steps[1..], w);
    }
  }

  /** The same for a session waiting for its download. */
  lemma {:induction false} OthersLeaveClient(s: State, steps: seq<Step>, id: Id)
    requires Inv(s) && CanRun(s, steps) && NoneByClient(steps, id) && id in s.clients
    ensures var t := Run(s, steps); Inv(t) && Forward(s, t) && id in t.clients && t.clients[id] == s.clients[id]
    decreases |steps|
  {
    hide Inv, Forward, Apply;
    RunKeeps(s, steps);
    RunForward(s, steps);
    if steps != [] {
      OtherClientsStep(s, steps[0], id);
      StepKeeps(s, steps[0]);
      OthersLeaveClient(Apply(s, steps[0]), steps[1..], id);
    }
  }

  lemma OtherClientsStep(s: State, step: Step, id: Id)
    requires Enabled(s, step) && !ByClient(step, id) && id in s.clients
    ensures id in Apply(s, step).clients && Apply(s, step).clients[id] == s.clients[id]
  {
    hide EnqueueFiles, AddJobs, Rename;
  }
}
