/** honeypot/session/manager.py, `_collect_stage2_queued`: polling for the outcomes of
    follow-ups that another process fetches. */
module Stage2Collect {
  import opened Basics

  /** A follow-up summary as the worker wrote it. */
  datatype Info = Info(jobId: string, url: string, protocol: string, filename: string, depth: int)

  /** A result file: what the fetch gave, and the follow-ups it led to. */
  datatype Result = Result(success: bool, sha256: string, followups: seq<Info>)

  /** One follow-up to account for: who listed it, and its summary. */
  datatype Entry = Entry(parentUrl: string, parentSha: string, info: Info)

  datatype Fate = Collected(result: Result) | InvalidId | TimedOut

  datatype Logged = Logged(entry: Entry, fate: Fate)

  /** `_load_fetch_result`: no readable result yet, a result, or an exception it does not catch. */
  datatype Loaded = Absent | Found(result: Result) | Broken

  /** What one look at the result directory comes to. */
  datatype Sight = Missing | Decided(fate: Fate) | Raised

  const POLL_INTERVAL: real := 1.0

  /** `Path(job_id).name == job_id`, and neither of the two directory names. */
  predicate ValidId(id: string) { id != "" && '/' !in id && id != "." && id != ".." }

  /** An id that passes the check and that no file can be opened by: the attempt raises a plain `ValueError`. */
  predicate NulId(id: string) { ValidId(id) && '\0' in id }

  function Children(url: string, sha: string, infos: seq<Info>): (r: seq<Entry>)
    ensures |r| == |infos|
  {
    seq(|infos|, k requires 0 <= k < |infos| => Entry(url, sha, infos[k]))
  }

  /** The follow-ups an outcome discovers. */
  function Discovers(l: Logged): seq<Entry> {
    match l.fate
    case Collected(r) => Children(l.entry.info.url, r.sha256, r.followups)
    case _ => []
  }

  /** Everything discovered by a list of outcomes. */
  ghost function Discovered(log: seq<Logged>): multiset<Entry> {
    if log == [] then multiset{} else Discovered(log[..|log| - 1]) + multiset(Discovers(log[|log| - 1]))
  }

  ghost function Accounted(log: seq<Logged>): multiset<Entry> {
    if log == [] then multiset{} else Accounted(log[..|log| - 1]) + multiset{log[|log| - 1].entry}
  }

  lemma LogSnoc(log: seq<Logged>, l: Logged)
    ensures Discovered(log + [l]) == Discovered(log) + multiset(Discovers(l))
    ensures Accounted(log + [l]) == Accounted(log) + multiset{l.entry}
  {
    assert (log + [l])[..|log|] == log;
  }

  /** What one look at the result directory finds for an entry. */
  function Look(load: (nat, string) -> Loaded, looks: nat, id: string): Sight {
    if !ValidId(id) then Decided(InvalidId)
    else if NulId(id) then Raised
    else match load(looks, id) case Absent => Missing case Found(r) => Decided(Collected(r)) case Broken => Raised
  }

  /** The outcome is what a look found: nothing is made up. */
  ghost predicate Honest(load: (nat, string) -> Loaded, looks: nat, l: Logged) {
    var id := l.entry.info.jobId;
    match l.fate
    case InvalidId => id == "" || '/' in id || id == "." || id == ".."
    case Collected(r) => id != "" && '/' !in id && id != "." && id != ".." && exists n :: 0 <= n < looks && load(n, id) == Found(r)
    case TimedOut => true
  }

  ghost predicate AllHonest(load: (nat, string) -> Loaded, looks: nat, log: seq<Logged>) {
    forall i {:trigger log[i]} :: 0 <= i < |log| ==> Honest(load, looks, log[i])
  }

  lemma HonestLater(load: (nat, string) -> Loaded, looks: nat, later: nat, log: seq<Logged>)
    requires AllHonest(load, looks, log) && looks <= later
    ensures AllHonest(load, later, log)
  {
    forall i | 0 <= i < |log| ensures Honest(load, later, log[i]) {
      assert Honest(load, looks, log[i]);
    }
  }

  lemma HonestSnoc(load: (nat, string) -> Loaded, looks: nat, log: seq<Logged>, l: Logged)
    requires AllHonest(load, looks, log) && Honest(load, looks, l)
    ensures AllHonest(load, looks, log + [l])
  {
  }

  lemma LookHonest(load: (nat, string) -> Loaded, n: nat, entry: Entry)
    ensures var sight := Look(load, n, entry.info.jobId);
            sight.Decided? ==> Honest(load, n + 1, Logged(entry, sight.fate)) && sight.fate != TimedOut
  {
  }

  /** No entry is lost or counted twice: those logged and those open are the ones there were
      and the ones discovered since. */
  ghost predicate Balanced(given: multiset<Entry>, log: seq<Logged>, open: multiset<Entry>) {
    Accounted(log) + open == given + Discovered(log)
  }

  /** Logging one open entry. */
  lemma LogBalances(given: multiset<Entry>, log: seq<Logged>, open: multiset<Entry>, l: Logged)
    requires Balanced(given, log, open) && l.entry in open
    ensures Balanced(given, log + [l], open - multiset{l.entry} + multiset(Discovers(l)))
  {
    hide Accounted, Discovered, Discovers;
    LogSnoc(log, l);
    Exchange(given, Accounted(log), Discovered(log), open, l.entry, multiset(Discovers(l)));
  }

  lemma Exchange<T>(given: multiset<T>, done: multiset<T>, found: multiset<T>, open: multiset<T>, e: T, more: multiset<T>)
    requires done + open == given + found && e in open
    ensures (done + multiset{e}) + (open - multiset{e} + more) == given + (found + more)
  {
    assert (done + multiset{e}) + (open - multiset{e} + more) == (done + open) + more;
  }

  // ---------------------------------------------------------------- the same without the bookkeeping

  ghost function LoggedInfos(log: seq<Logged>): seq<Info> { seq(|log|, i requires 0 <= i < |log| => log[i].entry.info) }

  /** The follow-ups that the results logged list. */
  ghost function ListedInfos(log: seq<Logged>): multiset<Info> {
    if log == [] then multiset{}
    else ListedInfos(log[..|log| - 1])
         + match log[|log| - 1].fate case Collected(r) => multiset(r.followups) case _ => multiset{}
  }

  ghost function InfosOf(es: seq<Entry>): seq<Info> { seq(|es|, i requires 0 <= i < |es| => es[i].info) }

  ghost function LoggedEntries(log: seq<Logged>): seq<Entry> { seq(|log|, i requires 0 <= i < |log| => log[i].entry) }

  ghost function FoundEntries(log: seq<Logged>): seq<Entry> {
    if log == [] then [] else FoundEntries(log[..|log| - 1]) + Discovers(log[|log| - 1])
  }

  lemma {:induction false} AccountedIs(log: seq<Logged>)
    ensures Accounted(log) == multiset(LoggedEntries(log)) && InfosOf(LoggedEntries(log)) == LoggedInfos(log)
  {
    if log != [] {
      var front, last := log[..|log| - 1], log[|log| - 1];
      AccountedIs(front);
      assert LoggedEntries(log) == LoggedEntries(front) + [last.entry];
    }
  }

  lemma {:induction false} DiscoveredIs(log: seq<Logged>)
    ensures Discovered(log) == multiset(FoundEntries(log)) && multiset(InfosOf(FoundEntries(log))) == ListedInfos(log)
  {
    if log != [] {
      var front, last := log[..|log| - 1], log[|log| - 1];
      DiscoveredIs(front);
      assert InfosOf(FoundEntries(log)) == InfosOf(FoundEntries(front)) + InfosOf(Discovers(last));
      match last.fate
      case Collected(r) => assert InfosOf(Discovers(last)) == r.followups;
      case _ =>
    }
  }

  lemma InfosCut(es: seq<Entry>, i: nat)
    requires i < |es|
    ensures multiset(es[..i] + es[i + 1..]) == multiset(es) - multiset{es[i]}
    ensures multiset(InfosOf(es)) == multiset{es[i].info} + multiset(InfosOf(es[..i] + es[i + 1..]))
  {
    var a, b := es[..i], es[i + 1..];
    assert es == a + [es[i]] + b;
    assert InfosOf(es) == InfosOf(a) + [es[i].info] + InfosOf(b);
    assert InfosOf(a + b) == InfosOf(a) + InfosOf(b);
  }

  /** Entries that are the same up to their order have the same summaries. */
  lemma {:induction false} SameInfos(a: seq<Entry>, b: seq<Entry>)
    requires multiset(a) == multiset(b)
    ensures multiset(InfosOf(a)) == multiset(InfosOf(b))
    decreases |a|
  {
    hide InfosOf;
    if a == [] {
      assert |multiset(b)| == |b|;
      assert b == [];
    } else {
      assert a[0] in multiset(b);
      var i :| 0 <= i < |b| && b[i] == a[0];
      InfosCut(a, 0);
      InfosCut(b, i);
      SameInfos(a[..0] + a[1..], b[..i] + b[i + 1..]);
    }
  }

  lemma SettledInfos(url: string, sha: string, followups: seq<Info>, log: seq<Logged>)
    requires Settled(url, sha, followups, log)
    ensures multiset(LoggedInfos(log)) == multiset(followups) + ListedInfos(log)
  {
    hide Accounted, Discovered, ListedInfos;
    AccountedIs(log);
    DiscoveredIs(log);
    var given, found := Children(url, sha, followups), FoundEntries(log);
    SameInfos(LoggedEntries(log), given + found);
    assert InfosOf(given + found) == InfosOf(given) + InfosOf(found) && InfosOf(given) == followups;
  }

  /** Who listed a logged entry. */
  lemma LoggedParent(url: string, sha: string, followups: seq<Info>, log: seq<Logged>, open: multiset<Entry>, i: nat)
    requires Balanced(multiset(Children(url, sha, followups)), log, open) && i < |log|
    ensures var e := log[i].entry;
            || (e.parentUrl == url && e.parentSha == sha && e.info in followups)
            || exists j :: 0 <= j < |log| && log[j].fate.Collected? && e.parentUrl == log[j].entry.info.url
                           && e.parentSha == log[j].fate.result.sha256 && e.info in log[j].fate.result.followups
  {
    hide Accounted, Discovered;
    var e, given := log[i].entry, Children(url, sha, followups);
    AccountedIs(log);
    DiscoveredIs(log);
    assert LoggedEntries(log)[i] == e && e in multiset(LoggedEntries(log)) && e in multiset(given) + Discovered(log);
    if e in multiset(given) {
      var k :| 0 <= k < |given| && given[k] == e;
    } else {
      assert e in FoundEntries(log);
      FoundFrom(log, e);
    }
  }

  lemma {:induction false} FoundFrom(log: seq<Logged>, e: Entry)
    requires e in FoundEntries(log)
    ensures exists j :: 0 <= j < |log| && log[j].fate.Collected? && e.parentUrl == log[j].entry.info.url
                        && e.parentSha == log[j].fate.result.sha256 && e.info in log[j].fate.result.followups
  {
    var front, last := log[..|log| - 1], log[|log| - 1];
    if e in FoundEntries(front) {
      FoundFrom(front, e);
      var j :| 0 <= j < |front| && front[j].fate.Collected? && e.parentUrl == front[j].entry.info.url
               && e.parentSha == front[j].fate.result.sha256 && e.info in front[j].fate.result.followups;
      assert log[j] == front[j];
    } else {
      assert e in Discovers(last) && last.fate.Collected?;
    }
  }

  lemma LoggedParents(url: string, sha: string, followups: seq<Info>, log: seq<Logged>, open: multiset<Entry>)
    requires Balanced(multiset(Children(url, sha, followups)), log, open)
    ensures forall i {:trigger log[i]} :: 0 <= i < |log| ==>
              || (log[i].entry.parentUrl == url && log[i].entry.parentSha == sha && log[i].entry.info in followups)
              || exists j :: 0 <= j < |log| && log[j].fate.Collected? && log[i].entry.parentUrl == log[j].entry.info.url
                             && log[i].entry.parentSha == log[j].fate.result.sha256 && log[i].entry.info in log[j].fate.result.followups
  {
    hide Balanced, Children;
    forall i | 0 <= i < |log|
      ensures || (log[i].entry.parentUrl == url && log[i].entry.parentSha == sha && log[i].entry.info in followups)
              || exists j :: 0 <= j < |log| && log[j].fate.Collected? && log[i].entry.parentUrl == log[j].entry.info.url
                             && log[i].entry.parentSha == log[j].fate.result.sha256 && log[i].entry.info in log[j].fate.result.followups
    {
      LoggedParent(url, sha, followups, log, open, i);
    }
  }

  ghost predicate NoTimeouts(log: seq<Logged>) {
    forall i {:trigger log[i]} :: 0 <= i < |log| ==> log[i].fate != TimedOut
  }

  // ---------------------------------------------------------------- rounds

  /** What one round over `pending` logs, its looks being numbered from `n`. */
  function RoundLog(load: (nat, string) -> Loaded, n: nat, pending: seq<Entry>): seq<Logged> {
    if pending == [] then []
    else
      var front, last := pending[..|pending| - 1], pending[|pending| - 1];
      match Look(load, n + |front|, last.info.jobId)
      case Decided(fate) => RoundLog(load, n, front) + [Logged(last, fate)]
      case _ => RoundLog(load, n, front)
  }

  /** What the round leaves waiting: entries not found, and those that outcomes listed. */
  function RoundLeft(load: (nat, string) -> Loaded, n: nat, pending: seq<Entry>): seq<Entry> {
    if pending == [] then []
    else
      var front, last := pending[..|pending| - 1], pending[|pending| - 1];
      match Look(load, n + |front|, last.info.jobId)
      case Decided(fate) => RoundLeft(load, n, front) + Discovers(Logged(last, fate))
      case _ => RoundLeft(load, n, front) + [last]
  }

  /** No look of the round raises. */
  ghost predicate NoRaise(load: (nat, string) -> Loaded, n: nat, pending: seq<Entry>) {
    forall j {:trigger pending[j]} :: 0 <= j < |pending| ==> Look(load, n + j, pending[j].info.jobId) != Raised
  }

  /** What is logged, what waits, and every entry looked at so far, in order. */
  datatype Progress = Progress(log: seq<Logged>, pending: seq<Entry>, seen: seq<Entry>)

  /** Where `k` rounds lead. */
  function After(load: (nat, string) -> Loaded, start: Progress, k: nat): Progress {
    if k == 0 then start
    else
      var p := After(load, start, k - 1);
      Progress(p.log + RoundLog(load, |p.seen|, p.pending), RoundLeft(load, |p.seen|, p.pending), p.seen + p.pending)
  }

  function Start(url: string, sha: string, infos: seq<Info>): Progress { Progress([], Children(url, sha, infos), []) }

  function Expired(pending: seq<Entry>): (r: seq<Logged>)
    ensures |r| == |pending|
  {
    seq(|pending|, k requires 0 <= k < |pending| => Logged(pending[k], TimedOut))
  }

  /** A round from `p` in which a look raised: the last one made, after looks that did not. */
  ghost predicate Stopped(load: (nat, string) -> Loaded, p: Progress, log: seq<Logged>, seen: seq<Entry>) {
    var c := |seen| - |p.seen| - 1;
    && 0 <= c < |p.pending| && seen == p.seen + p.pending[..c + 1]
    && NoRaise(load, |p.seen|, p.pending[..c]) && Look(load, |p.seen| + c, p.pending[c].info.jobId) == Raised
    && log == p.log + RoundLog(load, |p.seen|, p.pending[..c])
  }

  /** The entries a round that stopped leaves without any outcome. */
  ghost function Unanswered(load: (nat, string) -> Loaded, p: Progress, c: nat): seq<Entry>
    requires c < |p.pending|
  {
    RoundLeft(load, |p.seen|, p.pending[..c]) + p.pending[c..]
  }

  /** The stopped round's unanswered entries are all that is missing from the account. */
  ghost predicate Open(load: (nat, string) -> Loaded, start: Progress, p: Progress, log: seq<Logged>, seen: seq<Entry>) {
    && Stopped(load, p, log, seen)
    && Balanced(multiset(start.pending), log, multiset(Unanswered(load, p, |seen| - |p.seen| - 1)))
  }

  /** One more entry looked at. */
  lemma RoundSnoc(load: (nat, string) -> Loaded, n: nat, pending: seq<Entry>, i: nat)
    requires i < |pending|
    ensures var (sight, seen) := (Look(load, n + i, pending[i].info.jobId), pending[..i]);
            && RoundLog(load, n, pending[..i + 1])
               == (if sight.Decided? then RoundLog(load, n, seen) + [Logged(pending[i], sight.fate)] else RoundLog(load, n, seen))
            && RoundLeft(load, n, pending[..i + 1])
               == RoundLeft(load, n, seen) + (if sight.Decided? then Discovers(Logged(pending[i], sight.fate)) else [pending[i]])
            && (NoRaise(load, n, pending[..i + 1]) <==> NoRaise(load, n, seen) && sight != Raised)
  {
    assert pending[..i + 1][..i] == pending[..i];
    assert pending[..i + 1] == pending[..i] + [pending[i]];
    NoRaiseSnoc(load, n, pending[..i], pending[i]);
  }

  lemma NoRaiseSnoc(load: (nat, string) -> Loaded, n: nat, pending: seq<Entry>, e: Entry)
    ensures NoRaise(load, n, pending + [e]) <==> NoRaise(load, n, pending) && Look(load, n + |pending|, e.info.jobId) != Raised
  {
    var all := pending + [e];
    if NoRaise(load, n, all) {
      assert all[|pending|] == e;
      forall j | 0 <= j < |pending| ensures Look(load, n + j, pending[j].info.jobId) != Raised { assert all[j] == pending[j]; }
    }
  }

  /** A round keeps the balance and makes nothing up. */
  lemma {:induction false} RoundBalances(load: (nat, string) -> Loaded, n: nat, pending: seq<Entry>, given: multiset<Entry>,
                                         log: seq<Logged>, rest: multiset<Entry>)
    requires Balanced(given, log, multiset(pending) + rest)
    ensures Balanced(given, log + RoundLog(load, n, pending), multiset(RoundLeft(load, n, pending)) + rest)
    decreases |pending|
  {
    hide Balanced, Discovers;
    if pending == [] {
      assert log + [] == log;
    } else {
      var front, last := pending[..|pending| - 1], pending[|pending| - 1];
      assert pending == front + [last];
      assert multiset(pending) + rest == multiset(front) + (multiset{last} + rest);
      RoundBalances(load, n, front, given, log, multiset{last} + rest);
      var log1, left := log + RoundLog(load, n, front), RoundLeft(load, n, front);
      assert multiset(left) + (multiset{last} + rest) == multiset(left + [last]) + rest;
      match Look(load, n + |front|, last.info.jobId)
      case Missing =>
      case Raised =>
      case Decided(fate) =>
        var l, open := Logged(last, fate), multiset(left) + (multiset{last} + rest);
        LogBalances(given, log1, open, l);
        assert open - multiset{last} + multiset(Discovers(l)) == multiset(left + Discovers(l)) + rest;
        AppendAssociates(log, RoundLog(load, n, front), [l]);
    }
  }

  lemma {:induction false} RoundHonest(load: (nat, string) -> Loaded, n: nat, pending: seq<Entry>)
    ensures AllHonest(load, n + |pending|, RoundLog(load, n, pending)) && NoTimeouts(RoundLog(load, n, pending))
    decreases |pending|
  {
    hide Honest, Look;
    if pending != [] {
      var front, last := pending[..|pending| - 1], pending[|pending| - 1];
      RoundHonest(load, n, front);
      LookHonest(load, n + |front|, last);
      HonestLater(load, n + |front|, n + |pending|, RoundLog(load, n, front));
    }
  }

  /** Any number of rounds. */
  lemma {:induction false} RunBalances(load: (nat, string) -> Loaded, given: seq<Entry>, k: nat)
    ensures var p := After(load, Progress([], given, []), k);
            && Balanced(multiset(given), p.log, multiset(p.pending))
            && AllHonest(load, |p.seen|, p.log) && NoTimeouts(p.log)
  {
    hide Balanced, Honest, RoundLog, RoundLeft;
    if k == 0 {
      NothingLogged(load, multiset(given));
    } else {
      RunBalances(load, given, k - 1);
      var p := After(load, Progress([], given, []), k - 1);
      assert multiset(p.pending) + multiset{} == multiset(p.pending);
      RoundBalances(load, |p.seen|, p.pending, multiset(given), p.log, multiset{});
      var left := RoundLeft(load, |p.seen|, p.pending);
      assert multiset(left) + multiset{} == multiset(left);
      RoundHonest(load, |p.seen|, p.pending);
      HonestLater(load, |p.seen|, |p.seen| + |p.pending|, p.log);
    }
  }

  /** A look that raises leaves its own entry, and all that wait behind it, without an outcome. */
  lemma StoppedOpen(load: (nat, string) -> Loaded, start: Progress, p: Progress, log: seq<Logged>, seen: seq<Entry>)
    requires Balanced(multiset(start.pending), p.log, multiset(p.pending))
    requires AllHonest(load, |p.seen|, p.log) && Stopped(load, p, log, seen)
    ensures Open(load, start, p, log, seen) && Unanswered(load, p, |seen| - |p.seen| - 1) != []
    ensures Accounted(log) != multiset(start.pending) + Discovered(log) && AllHonest(load, |seen|, log)
  {
    var given := multiset(start.pending);
    hide Honest, RoundLog, RoundLeft, Accounted, Discovered, NoRaise, Look;
    var c := |seen| - |p.seen| - 1;
    var front, rest := p.pending[..c], p.pending[c..];
    assert p.pending == front + rest;
    RoundBalances(load, |p.seen|, front, given, p.log, multiset(rest));
    var open := Unanswered(load, p, c);
    assert |open| > 0;
    Unsettled(Accounted(log), given + Discovered(log), open);
    RoundHonest(load, |p.seen|, front);
    HonestLater(load, |p.seen|, |seen|, p.log);
    HonestLater(load, |p.seen| + c, |seen|, RoundLog(load, |p.seen|, front));
  }

  lemma Unsettled<T>(done: multiset<T>, due: multiset<T>, open: seq<T>)
    requires done + multiset(open) == due && open != []
    ensures done != due
  {
    assert open[0] in multiset(open);
    assert due[open[0]] == done[open[0]] + multiset(open)[open[0]];
  }

  /** Logging all that is left as timed out settles the account. */
  lemma {:induction false} ExpiryBalances(load: (nat, string) -> Loaded, looks: nat, given: multiset<Entry>, log: seq<Logged>, pending: seq<Entry>)
    requires Balanced(given, log, multiset(pending)) && AllHonest(load, looks, log)
    ensures Balanced(given, log + Expired(pending), multiset{}) && AllHonest(load, looks, log + Expired(pending))
    decreases |pending|
  {
    hide Balanced, AllHonest;
    if pending == [] {
      assert log + Expired(pending) == log && multiset(pending) == multiset{};
    } else {
      var l := Logged(pending[0], TimedOut);
      LogBalances(given, log, multiset(pending), l);
      HonestSnoc(load, looks, log, l);
      assert pending == [pending[0]] + pending[1..];
      assert multiset(pending) - multiset{pending[0]} + multiset(Discovers(l)) == multiset(pending[1..]);
      ExpiryBalances(load, looks, given, log + [l], pending[1..]);
      assert log + [l] + Expired(pending[1..]) == log + Expired(pending);
    }
  }

  /** Why an entry is still open after a round: the round's own look at it found nothing, or the round found out
      about it. */
  ghost predicate LeftOpen(load: (nat, string) -> Loaded, n: nat, pending: seq<Entry>, e: Entry) {
    || (exists j {:trigger pending[j]} ::
          0 <= j < |pending| && pending[j] == e && ValidId(e.info.jobId) && load(n + j, e.info.jobId) == Absent)
    || (exists l {:trigger Discovers(l)} :: l in RoundLog(load, n, pending) && e in Discovers(l))
  }

  lemma {:induction false} RoundLeaves(load: (nat, string) -> Loaded, n: nat, pending: seq<Entry>, e: Entry)
    requires e in RoundLeft(load, n, pending) && NoRaise(load, n, pending)
    ensures LeftOpen(load, n, pending, e)
    decreases |pending|
  {
    hide Discovers, ValidId;
    if pending != [] {
      var front, last := pending[..|pending| - 1], pending[|pending| - 1];
      assert pending == front + [last];
      NoRaiseSnoc(load, n, front, last);
      if e in RoundLeft(load, n, front) {
        RoundLeaves(load, n, front, e);
        if j :| 0 <= j < |front| && front[j] == e && ValidId(e.info.jobId) && load(n + j, e.info.jobId) == Absent {
          assert pending[j] == e;
        }
      } else {
        match Look(load, n + |front|, last.info.jobId)
        case Missing => assert pending[|front|] == e;
        case Raised =>
        case Decided(fate) =>
          assert Logged(last, fate) in RoundLog(load, n, pending);
          assert e in Discovers(Logged(last, fate));
      }
    }
  }

  /** The result directory and the clock as this task sees them: the n-th look at a result
      file, and the n-th reading of `time.monotonic()`.  Both are arbitrary, except that the
      clock never goes back and a sleep lasts at least the poll interval. */
  class Collector {
    const load: (nat, string) -> Loaded
    const clock: nat -> real
    var log: seq<Logged>
    /** The entries looked at, in order. */
    var seen: seq<Entry>
    var readings: nat

    constructor (load: (nat, string) -> Loaded, clock: nat -> real)
      ensures this.load == load && this.clock == clock && log == [] && seen == [] && readings == 0
    {
      this.load, this.clock := load, clock;
      log, seen, readings := [], [], 0;
    }

    method Monotonic() returns (now: real)
      modifies this`readings
      ensures now == clock(old(readings)) && readings == old(readings) + 1
    {
      now := clock(readings);
      readings := readings + 1;
    }

    /** One entry of a polling round: it is logged, or waits; what it discovers waits too. */
    method CheckOne(entry: Entry) returns (more: seq<Entry>, raised: bool)
      modifies this`log, this`seen
      ensures seen == old(seen) + [entry]
      ensures match Look(load, |old(seen)|, entry.info.jobId)
              case Missing => !raised && log == old(log) && more == [entry]
              case Decided(fate) => !raised && log == old(log) + [Logged(entry, fate)] && more == Discovers(Logged(entry, fate))
              case Raised => raised && log == old(log)
    {
      var sight := Look(load, |seen|, entry.info.jobId);
      seen := seen + [entry];
      match sight
      case Missing => more, raised := [entry], false;
      case Raised => more, raised := [], true;
      case Decided(fate) =>
        var l := Logged(entry, fate);
        log := log + [l];
        more, raised := Discovers(l), false;
    }

    /** One polling round: one look at every pending entry, in order, until one raises. */
    method Poll(pending: seq<Entry>) returns (waiting: seq<Entry>, raised: bool)
      modifies this`log, this`seen
      ensures raised <==> !NoRaise(load, |old(seen)|, pending)
      ensures !raised ==> seen == old(seen) + pending && log == old(log) + RoundLog(load, |old(seen)|, pending)
                          && waiting == RoundLeft(load, |old(seen)|, pending)
      ensures raised ==> Stopped(load, Progress(old(log), pending, old(seen)), log, seen)
    {
      hide RoundLog, RoundLeft, Look, Discovers, NoRaise;
      waiting, raised := [], false;
      var i := 0;
      RoundNone(load, |seen|, pending);
      assert log + [] == log;
      while i < |pending|
        invariant i <= |pending| && seen == old(seen) + pending[..i] && NoRaise(load, |old(seen)|, pending[..i])
        invariant log == old(log) + RoundLog(load, |old(seen)|, pending[..i])
        invariant waiting == RoundLeft(load, |old(seen)|, pending[..i])
      {
        RoundSnoc(load, |old(seen)|, pending, i);
        var more;
        more, raised := CheckOne(pending[i]);
        if raised {
          NoRaiseFront(load, |old(seen)|, pending, i + 1);
          return;
        }
        waiting := waiting + more;
        i := i + 1;
      }
      assert pending[..i] == pending;
    }

    /** After the deadline: what is still pending is logged as timed out. */
    method Expire(pending: seq<Entry>)
      modifies this`log
      ensures log == old(log) + Expired(pending)
    {
      var i := 0;
      while i < |pending|
        invariant i <= |pending| && log == old(log) + Expired(pending)[..i]
      {
        log := log + [Logged(pending[i], TimedOut)];
        i := i + 1;
      }
    }

    /** `_collect_stage2_queued`: rounds go on exactly as long as something is pending, the deadline has not come
        and no look raises. Every follow-up given or discovered on the way gets exactly one outcome, unless a look
        raised: then the entries not yet decided get none, not even a timeout. */
    method CollectQueued(url: string, sha256: string, followups: seq<Info>, waitSeconds: real) returns (polls: nat, raised: bool)
      requires log == [] && seen == []
      requires forall i, j :: 0 <= i <= j ==> clock(i) <= clock(j)
      requires forall i :: readings < i ==> clock(i + 1) >= clock(i) + 1.0
      modifies this
      // the whole log, round by round
      ensures var deadline, start := clock(old(readings)) + waitSeconds, Start(url, sha256, followups);
              var last := After(load, start, polls);
              && AllClear(load, start, polls) && InTime(load, start, polls, clock, old(readings) + 1, deadline)
              && (if raised then Stopped(load, last, log, seen) && clock(old(readings) + 1 + polls) < deadline
                  else log == last.log + Expired(last.pending) && seen == last.seen
                       && (last.pending == [] || clock(old(readings) + 1 + polls) >= deadline))
              && readings == old(readings) + 1 + polls + (if last.pending == [] then 0 else 1)
      // one outcome for each follow-up if and only if no look raised, and none made up
      ensures Settled(url, sha256, followups, log) <==> !raised
      ensures raised ==> var start := Start(url, sha256, followups);
                         Open(load, start, After(load, start, polls), log, seen)
      ensures raised <==> !NoRaise(load, 0, seen)
      ensures Readable(load) ==> (raised <==> exists e {:trigger e in seen} :: e in seen && '\0' in e.info.jobId && '/' !in e.info.jobId)
      ensures AllHonest(load, |seen|, log)
      // a timeout means that the last round looked in vain or found out about the entry, if there was time for one
      ensures forall i {:trigger log[i]} :: 0 <= i < |log| && log[i].fate == TimedOut && polls > 0 ==>
                var before := After(load, Start(url, sha256, followups), polls - 1);
                LeftOpen(load, |before.seen|, before.pending, log[i].entry)
      ensures if waitSeconds <= 0.0 then polls == 0 else polls as real < waitSeconds + 1.0
      // in plain terms: whose outcomes were logged, and who listed them
      ensures !raised ==> multiset(LoggedInfos(log)) == multiset(followups) + ListedInfos(log)
      ensures forall i {:trigger log[i]} :: 0 <= i < |log| ==>
                || (log[i].entry.parentUrl == url && log[i].entry.parentSha == sha256 && log[i].entry.info in followups)
                || exists j :: 0 <= j < |log| && log[j].fate.Collected? && log[i].entry.parentUrl == log[j].entry.info.url
                               && log[i].entry.parentSha == log[j].fate.result.sha256 && log[i].entry.info in log[j].fate.result.followups
    {
      hide AllHonest, Accounted, Discovered, LeftOpen, After, Expired, NoRaise, Stopped, NoTimeouts, Balanced, AllClear, InTime, Open, Unanswered, Readable, NulId;
      ghost var start := Start(url, sha256, followups);
      var pending;
      pending, polls, raised := PollUntil(Children(url, sha256, followups), waitSeconds);
      ghost var last := After(load, start, polls);
      RunBalances(load, start.pending, polls);
      SeenClear(load, start, polls);
      if Readable(load) { RaisesForNul(load, seen); }
      if raised {
        StoppedOpen(load, start, last, log, seen);
        StoppedRaised(load, last, log, seen);
        StoppedTimeouts(load, last, log, seen);
        NoneTimedOut(log);
        OpenBalanced(load, start, last, log, seen);
        LoggedParents(url, sha256, followups, log, multiset(Unanswered(load, last, |seen| - |last.seen| - 1)));
        return;
      }
      ExpiryBalances(load, |seen|, multiset(start.pending), log, pending);
      ExpirySettles(multiset(start.pending), log + Expired(pending));
      TimedOutLast(load, start, polls, log + Expired(pending));
      SettledInfos(url, sha256, followups, log + Expired(pending));
      LoggedParents(url, sha256, followups, log + Expired(pending), multiset{});
      Expire(pending);
    }

    /** The polling loop. */
    method PollUntil(given: seq<Entry>, waitSeconds: real) returns (pending: seq<Entry>, polls: nat, raised: bool)
      requires log == [] && seen == []
      requires forall i, j :: 0 <= i <= j ==> clock(i) <= clock(j)
      requires forall i :: readings < i ==> clock(i + 1) >= clock(i) + 1.0
      modifies this
      ensures var last := After(load, Progress([], given, []), polls);
              && (if raised then Stopped(load, last, log, seen) && last.pending != []
                                 && clock(old(readings) + 1 + polls) < clock(old(readings)) + waitSeconds
                  else last == Progress(log, pending, seen)
                       && (pending == [] || clock(old(readings) + 1 + polls) >= clock(old(readings)) + waitSeconds))
              && readings == old(readings) + 1 + polls + (if last.pending == [] then 0 else 1)
      ensures AllClear(load, Progress([], given, []), polls)
      ensures InTime(load, Progress([], given, []), polls, clock, old(readings) + 1, clock(old(readings)) + waitSeconds)
      ensures if waitSeconds <= 0.0 then polls == 0 else polls as real < waitSeconds + 1.0
    {
      hide RoundLog, RoundLeft, NoRaise, Stopped, AllClear, InTime;
      pending := given;
      ghost var start := Progress([], given, []);
      polls, raised := 0, false;
      var started := Monotonic();
      var deadline := started + waitSeconds;
      ghost var first := readings;
      NoRounds(load, start, clock, first, deadline);
      while pending != []
        invariant readings == first + polls && first == old(readings) + 1
        invariant After(load, start, polls) == Progress(log, pending, seen)
        invariant AllClear(load, start, polls) && InTime(load, start, polls, clock, first, deadline)
        invariant clock(first + polls) >= started + polls as real * POLL_INTERVAL
        invariant polls > 0 ==> started + (polls - 1) as real * POLL_INTERVAL < deadline
        decreases (deadline - (started + polls as real * POLL_INTERVAL)).Floor + 1
      {
        var now := Monotonic();
        if !(now < deadline) { break; }
        pending, raised := Poll(pending);
        if raised { return; }
        OneMoreRound(load, start, polls, clock, first, deadline);
        polls := polls + 1;
      }
    }
  }

  /** One outcome for each follow-up given or discovered. */
  ghost predicate Settled(url: string, sha: string, followups: seq<Info>, log: seq<Logged>) {
    Accounted(log) == multiset(Children(url, sha, followups)) + Discovered(log)
  }

  /** No look of the first `k` rounds raised. */
  ghost predicate AllClear(load: (nat, string) -> Loaded, start: Progress, k: nat) {
    forall i {:trigger RoundClear(load, start, i)} :: 0 <= i < k ==> RoundClear(load, start, i)
  }

  ghost predicate RoundClear(load: (nat, string) -> Loaded, start: Progress, i: nat) {
    NoRaise(load, |After(load, start, i).seen|, After(load, start, i).pending)
  }

  /** The first `k` rounds all had something to look for, before the deadline. */
  ghost predicate InTime(load: (nat, string) -> Loaded, start: Progress, k: nat, clock: nat -> real, first: nat, deadline: real) {
    forall i {:trigger RoundDue(load, start, i, clock, first, deadline)} :: 0 <= i < k ==> RoundDue(load, start, i, clock, first, deadline)
  }

  ghost predicate RoundDue(load: (nat, string) -> Loaded, start: Progress, i: nat, clock: nat -> real, first: nat, deadline: real) {
    After(load, start, i).pending != [] && clock(first + i) < deadline
  }

  lemma NoRounds(load: (nat, string) -> Loaded, start: Progress, clock: nat -> real, first: nat, deadline: real)
    ensures AllClear(load, start, 0) && InTime(load, start, 0, clock, first, deadline)
  {
  }

  lemma OneMoreRound(load: (nat, string) -> Loaded, start: Progress, k: nat, clock: nat -> real, first: nat, deadline: real)
    requires AllClear(load, start, k) && InTime(load, start, k, clock, first, deadline)
    requires var p := After(load, start, k); p.pending != [] && NoRaise(load, |p.seen|, p.pending) && clock(first + k) < deadline
    ensures AllClear(load, start, k + 1) && InTime(load, start, k + 1, clock, first, deadline)
  {
    hide After, RoundLog, RoundLeft, NoRaise;
    assert RoundClear(load, start, k) && RoundDue(load, start, k, clock, first, deadline);
  }

  lemma RoundNone(load: (nat, string) -> Loaded, n: nat, pending: seq<Entry>)
    ensures RoundLog(load, n, pending[..0]) == [] && RoundLeft(load, n, pending[..0]) == [] && NoRaise(load, n, pending[..0])
  {
  }

  lemma NoRaiseFront(load: (nat, string) -> Loaded, n: nat, pending: seq<Entry>, i: nat)
    requires i <= |pending|
    ensures NoRaise(load, n, pending) ==> NoRaise(load, n, pending[..i])
  {
  }

  lemma NoRaiseJoin(load: (nat, string) -> Loaded, seen: seq<Entry>, pending: seq<Entry>)
    ensures NoRaise(load, 0, seen + pending) <==> NoRaise(load, 0, seen) && NoRaise(load, |seen|, pending)
  {
    var all := seen + pending;
    if NoRaise(load, 0, all) {
      forall j | 0 <= j < |seen| ensures Look(load, 0 + j, seen[j].info.jobId) != Raised { assert all[j] == seen[j]; }
      forall j | 0 <= j < |pending| ensures Look(load, |seen| + j, pending[j].info.jobId) != Raised {
        assert all[|seen| + j] == pending[j];
      }
    }
  }

  lemma {:induction false} SeenClear(load: (nat, string) -> Loaded, start: Progress, k: nat)
    requires start.seen == [] && AllClear(load, start, k)
    ensures NoRaise(load, 0, After(load, start, k).seen)
  {
    hide NoRaise, RoundLog, RoundLeft;
    if k == 0 {
      RoundNone(load, 0, start.seen);
    } else {
      SeenClear(load, start, k - 1);
      var p := After(load, start, k - 1);
      assert RoundClear(load, start, k - 1);
      NoRaiseJoin(load, p.seen, p.pending);
    }
  }

  lemma StoppedRaised(load: (nat, string) -> Loaded, p: Progress, log: seq<Logged>, seen: seq<Entry>)
    requires Stopped(load, p, log, seen)
    ensures !NoRaise(load, 0, seen)
  {
    hide RoundLog, Look;
    assert seen[|seen| - 1] == p.pending[|seen| - |p.seen| - 1];
  }

  lemma OpenBalanced(load: (nat, string) -> Loaded, start: Progress, p: Progress, log: seq<Logged>, seen: seq<Entry>)
    requires Open(load, start, p, log, seen)
    ensures 0 <= |seen| - |p.seen| - 1 < |p.pending|
    ensures Balanced(multiset(start.pending), log, multiset(Unanswered(load, p, |seen| - |p.seen| - 1)))
  {
  }

  lemma StoppedTimeouts(load: (nat, string) -> Loaded, p: Progress, log: seq<Logged>, seen: seq<Entry>)
    requires Stopped(load, p, log, seen) && NoTimeouts(p.log)
    ensures NoTimeouts(log)
  {
    hide RoundLog, Look, NoRaise;
    RoundHonest(load, |p.seen|, p.pending[..|seen| - |p.seen| - 1]);
  }

  lemma NoneTimedOut(log: seq<Logged>)
    requires NoTimeouts(log)
    ensures forall i {:trigger log[i]} :: 0 <= i < |log| ==> log[i].fate != TimedOut
  {
  }

  lemma ExpirySettles(given: multiset<Entry>, log: seq<Logged>)
    requires Balanced(given, log, multiset{})
    ensures Accounted(log) == given + Discovered(log)
  {
    assert Accounted(log) + multiset{} == Accounted(log);
  }

  /** Every result file that is there holds a result, or not yet one. */
  ghost predicate Readable(load: (nat, string) -> Loaded) {
    forall n, id {:trigger load(n, id)} :: load(n, id) != Broken
  }

  /** Where every result file can be read, a look raises exactly for an id that passes the check and holds a NUL. */
  lemma RaisesForNul(load: (nat, string) -> Loaded, seen: seq<Entry>)
    requires Readable(load)
    ensures NoRaise(load, 0, seen) <==> forall e {:trigger e in seen} :: e in seen ==> !('\0' in e.info.jobId && '/' !in e.info.jobId)
  {
    forall id: string ensures NulId(id) <==> '\0' in id && '/' !in id {}
    if NoRaise(load, 0, seen) {
      forall e | e in seen ensures !NulId(e.info.jobId) {
        var j :| 0 <= j < |seen| && seen[j] == e;
        assert Look(load, 0 + j, seen[j].info.jobId) != Raised;
      }
    } else {
      var j :| 0 <= j < |seen| && Look(load, 0 + j, seen[j].info.jobId) == Raised;
      assert seen[j] in seen && NulId(seen[j].info.jobId);
    }
  }

  /** Only what is left after the last round is logged as timed out. */
  lemma TimedOutLast(load: (nat, string) -> Loaded, start: Progress, k: nat, log: seq<Logged>)
    requires var p := After(load, start, k); NoTimeouts(p.log) && log == p.log + Expired(p.pending)
    requires AllClear(load, start, k)
    ensures forall i {:trigger log[i]} :: 0 <= i < |log| && log[i].fate == TimedOut && k > 0 ==>
              var before := After(load, start, k - 1); LeftOpen(load, |before.seen|, before.pending, log[i].entry)
  {
    hide RoundLog, RoundLeft, LeftOpen;
    var p := After(load, start, k);
    forall i | 0 <= i < |log| && log[i].fate == TimedOut && k > 0
      ensures var before := After(load, start, k - 1); LeftOpen(load, |before.seen|, before.pending, log[i].entry)
    {
      var before := After(load, start, k - 1);
      assert i >= |p.log| && log[i] == Expired(p.pending)[i - |p.log|];
      assert log[i].entry in p.pending;
      assert RoundClear(load, start, k - 1);
      RoundLeaves(load, |before.seen|, before.pending, log[i].entry);
    }
  }

  lemma NothingLogged(load: (nat, string) -> Loaded, given: multiset<Entry>)
    ensures AllHonest(load, 0, []) && Balanced(given, [], given) && NoTimeouts([])
  {
  }

  lemma FirstClear(load: (nat, string) -> Loaded, start: Progress, k: nat)
    requires start.seen == [] && start.pending != [] && AllClear(load, start, k) && k > 0
    ensures Look(load, 0, start.pending[0].info.jobId) != Raised
  {
    assert RoundClear(load, start, 0) && After(load, start, 0) == start;
    FirstLook(load, start.pending);
  }

  lemma FirstLook(load: (nat, string) -> Loaded, pending: seq<Entry>)
    requires pending != [] && NoRaise(load, 0, pending)
    ensures Look(load, 0, pending[0].info.jobId) != Raised
  {
    assert Look(load, 0 + 0, pending[0].info.jobId) != Raised;
  }

  lemma FirstStops(load: (nat, string) -> Loaded, start: Progress, log: seq<Logged>, seen: seq<Entry>)
    requires start.seen == [] && start.log == [] && Stopped(load, start, log, seen)
    requires Look(load, 0, start.pending[0].info.jobId) == Raised
    ensures log == [] && seen == start.pending[..1]
  {
    hide Look;
    var front := start.pending[..|seen| - 1];
    if front != [] { FirstLook(load, front); }
  }

  /** One such id is enough: with it first in the list, no follow-up gets an outcome, found or timed out, whatever
      the result directory holds. */
  method NulIdFirst(load: (nat, string) -> Loaded, followups: seq<Info>) returns (c: Collector, raised: bool)
    requires followups != [] && followups[0].jobId == "a\0b"
    ensures fresh(c) && raised && c.log == [] && c.seen == Children("u", "s", followups)[..1]
  {
    hide RoundLog, RoundLeft, Stopped, AllClear, InTime, Settled, AllHonest, NoRaise, LeftOpen, Readable, Expired;
    c := new Collector(load, i => i as real);
    assert "a\0b"[1] == '\0' && ValidId("a\0b");
    ghost var start := Start("u", "s", followups);
    assert start.pending[0].info == followups[0] && Look(load, 0, followups[0].jobId) == Raised;
    var polls;
    polls, raised := c.CollectQueued("u", "s", followups, 60.0);
    if polls > 0 { FirstClear(load, start, polls); }
    assert polls == 0 && c.clock(1) == 1.0;
    assert After(load, start, 0) == start;
    FirstStops(load, start, c.log, c.seen);
  }
}
