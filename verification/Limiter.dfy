/** honeypot/fetcher/stage2.py: the process-wide follow-up budgets.

    The limiter keeps three bounded dictionaries.  Its specification is a rule over the
    whole log of what happened: admissions, plus one event for every entry that pruning
    throws away while it is still live.  An eviction erases what was known about that one
    key, and nothing else. */
module Limiter {
  import opened Basics
  import opened PyDict

  const MAX_TRACKED: nat := 4096

  datatype Config = Config(dedupeSeconds: real, maxPerSession: int, maxPerHost: int)

  datatype Event =
    | Admitted(session: string, url: string, host: string, time: real)
    | EvictedUrl(url: string)
    | EvictedSession(session: string)
    | EvictedHost(host: string)

  type Log = seq<Event>

  // ---------------------------------------------------------------- the naive rule

  /** The part of the log after the last occurrence of `e`. */
  ghost function Since(log: Log, e: Event): Log {
    if log == [] then []
    else if log[|log| - 1] == e then []
    else Since(log[..|log| - 1], e) + [log[|log| - 1]]
  }

  ghost function SessionTotal(log: Log, session: string): nat {
    if log == [] then 0 else
      var e := log[|log| - 1];
      SessionTotal(log[..|log| - 1], session) + (if e.Admitted? && e.session == session then 1 else 0)
  }

  ghost function HostTimes(log: Log, host: string): seq<real> {
    if log == [] then [] else
      var e, before := log[|log| - 1], HostTimes(log[..|log| - 1], host);
      if e.Admitted? && e.host == host then before + [e.time] else before
  }

  function Recent(times: seq<real>, now: real, window: real): seq<real> {
    if times == [] then [] else
      var t, before := times[|times| - 1], Recent(times[..|times| - 1], now, window);
      if now - t < window then before + [t] else before
  }

  ghost predicate CoolingDown(log: Log, url: string, now: real, window: real) {
    exists e <- log :: e.Admitted? && e.url == url && now - e.time < window
  }

  /** What the limiter promises, read off the log alone. */
  ghost predicate Allows(cfg: Config, log: Log, session: string, url: string, host: string, now: real) {
    && SessionTotal(Since(log, EvictedSession(session)), session) < cfg.maxPerSession
    && !CoolingDown(Since(log, EvictedUrl(url)), url, now, cfg.dedupeSeconds)
    && |Recent(HostTimes(Since(log, EvictedHost(host)), host), now, cfg.dedupeSeconds)| < cfg.maxPerHost
  }

  /** Offer every URL of a batch to the rule, one after the other, each with its host. */
  ghost function NaiveBatch(cfg: Config, log: Log, session: string, urls: seq<string>,
                            hostOf: string -> string, now: real): Log
    decreases urls
  {
    if urls == [] then log else
      var next := if Allows(cfg, log, session, urls[0], hostOf(urls[0]), now)
                  then log + [Admitted(session, urls[0], hostOf(urls[0]), now)] else log;
      NaiveBatch(cfg, next, session, urls[1..], hostOf, now)
  }

  ghost function AdmittedUrls(log: Log): seq<string> {
    if log == [] then [] else
      var e, before := log[|log| - 1], AdmittedUrls(log[..|log| - 1]);
      if e.Admitted? then before + [e.url] else before
  }

  /** Serving a batch only adds to the log. */
  lemma {:induction false} BatchGrows(cfg: Config, log: Log, session: string, urls: seq<string>, hostOf: string -> string, now: real)
    ensures log <= NaiveBatch(cfg, log, session, urls, hostOf, now)
    decreases urls
  {
    hide Allows;
    if urls != [] {
      var next := if Allows(cfg, log, session, urls[0], hostOf(urls[0]), now)
                  then log + [Admitted(session, urls[0], hostOf(urls[0]), now)] else log;
      BatchGrows(cfg, next, session, urls[1..], hostOf, now);
    }
  }

  // ---------------------------------------------------------------- the bounded form

  class Stage2Limiter {
    const cfg: Config
    /** `(urlsplit(url).hostname or "").lower()` */
    const hostOf: string -> string

    var seenUrls: Dict<real>
    var perSession: Dict<nat>
    var perHost: Dict<seq<real>>

    ghost var log: Log
    ghost var clock: real

    ghost predicate Valid()
      reads this
    {
      && UrlsAgree(seenUrls, log, clock, cfg.dedupeSeconds)
      && SessionsAgree(perSession, log)
      && HostsAgree(perHost, log, clock, cfg.dedupeSeconds)
      && Lawful(cfg, log)
      && NoneAfter(log, clock)
    }

    constructor (cfg: Config, hostOf: string -> string, ghost start: real)
      ensures Valid() && log == [] && clock == start && this.cfg == cfg && this.hostOf == hostOf
      ensures seenUrls == Dict([], map[]) && perSession == Dict([], map[]) && perHost == Dict([], map[])
    {
      this.cfg, this.hostOf := cfg, hostOf;
      seenUrls, perSession, perHost := Dict([], map[]), Dict([], map[]), Dict([], map[]);
      log, clock := [], start;
    }

    ghost method Tick(now: real)
      requires Valid() && clock <= now
      modifies this`clock
      ensures Valid() && clock == now
    {
      UrlsLater(seenUrls, log, clock, now, cfg.dedupeSeconds);
      HostsLater(perHost, log, clock, now, cfg.dedupeSeconds);
      clock := now;
    }

    method PopOldestUrl()
      requires Valid() && seenUrls.keys != []
      modifies this`log, this`seenUrls
      ensures Valid() && seenUrls == old(seenUrls).DropOldest(1)
      ensures log == old(log) + [EvictedUrl(old(seenUrls).keys[0])]
    {
      ghost var e := EvictedUrl(seenUrls.keys[0]);
      UrlEvicted(seenUrls, log, clock, cfg.dedupeSeconds);
      Unaffected(perSession, seenUrls, perHost, log, e, clock, cfg.dedupeSeconds);
      LawfulSnoc(cfg, log, e);
      seenUrls := seenUrls.DropOldest(1);
      log := log + [e];
    }

    method PopOldestSession()
      requires Valid() && perSession.keys != []
      modifies this`log, this`perSession
      ensures Valid() && perSession == old(perSession).DropOldest(1)
      ensures var k := old(perSession).keys[0];
              log == if old(perSession).GetOr(k, 0) > 0 then old(log) + [EvictedSession(k)] else old(log)
    {
      ghost var e := EvictedSession(perSession.keys[0]);
      if perSession.GetOr(perSession.keys[0], 0) > 0 {
        SessionEvicted(perSession, log);
        Unaffected(perSession, seenUrls, perHost, log, e, clock, cfg.dedupeSeconds);
        LawfulSnoc(cfg, log, e);
        log := log + [e];
      } else {
        SessionDropped(perSession, log);
      }
      perSession := perSession.DropOldest(1);
    }

    method PopOldestHost()
      requires Valid() && perHost.keys != []
      modifies this`log, this`perHost
      ensures Valid() && perHost == old(perHost).DropOldest(1)
      ensures var k := old(perHost).keys[0];
              log == if Recent(old(perHost).GetOr(k, []), clock, cfg.dedupeSeconds) != [] then old(log) + [EvictedHost(k)] else old(log)
    {
      ghost var e := EvictedHost(perHost.keys[0]);
      if Recent(perHost.GetOr(perHost.keys[0], []), clock, cfg.dedupeSeconds) != [] {
        HostEvicted(perHost, log, clock, cfg.dedupeSeconds);
        Unaffected(perSession, seenUrls, perHost, log, e, clock, cfg.dedupeSeconds);
        LawfulSnoc(cfg, log, e);
        log := log + [e];
      } else {
        HostDropped(perHost, log, clock, cfg.dedupeSeconds);
      }
      perHost := perHost.DropOldest(1);
    }

    method PruneUrls(now: real)
      requires Valid() && clock == now
      modifies this`log, this`seenUrls
      ensures Valid()
      ensures var live := Live(old(seenUrls), now, cfg.dedupeSeconds);
              && seenUrls == live.DropOldest(Excess(live.keys))
              && log == old(log) + UrlEvictions(live.keys[..Excess(live.keys)])
    {
      hide UrlsAgree, SessionsAgree, HostsAgree, Lawful, NoneAfter, UrlEvictions;
      if |seenUrls.keys| > MAX_TRACKED {
        var window := cfg.dedupeSeconds;
        UrlsSwept(seenUrls, log, clock, window);
        seenUrls := seenUrls.Filter(Cooling(now, window));
      }
      ghost var live, n := seenUrls, 0;
      UrlEvictionsNone(log, live);
      live.DropNone();
      while |seenUrls.keys| > MAX_TRACKED
        invariant n <= |live.keys| && |seenUrls.keys| == |live.keys| - n
        invariant n == 0 || |seenUrls.keys| >= MAX_TRACKED
        invariant seenUrls == live.DropOldest(n)
        invariant Valid() && log == old(log) + UrlEvictions(live.keys[..n])
      {
        live.DropOneMore(n);
        assert live.keys[..n + 1] == live.keys[..n] + [seenUrls.keys[0]];
        ghost var gone := seenUrls.keys[0];
        UrlEvictionsSnoc(old(log), live.keys[..n], gone);
        PopOldestUrl();
        n := n + 1;
      }
    }

    method PruneSessions()
      requires Valid()
      modifies this`log, this`perSession
      ensures Valid()
      ensures var all := old(perSession);
              && perSession == all.DropOldest(Excess(all.keys))
              && log == AfterSessions(old(log), all, Excess(all.keys))
    {
      hide UrlsAgree, SessionsAgree, HostsAgree, Lawful, NoneAfter, SessionEvictions, Dict.DropOldest, AfterSessions;
      ghost var all, n := perSession, 0;
      AgreeingValid(seenUrls, perSession, perHost, log, clock, cfg.dedupeSeconds);
      SessionEvictionsNone(log, all);
      all.DropNone();
      while |perSession.keys| > MAX_TRACKED
        invariant n <= |all.keys| && |perSession.keys| == |all.keys| - n
        invariant n == 0 || |perSession.keys| >= MAX_TRACKED
        invariant perSession == all.DropOldest(n)
        invariant Valid() && log == AfterSessions(old(log), all, n)
      {
        OneSessionMore(old(log), all, n);
        PopOldestSession();
        n := n + 1;
      }
    }

    method PruneHosts(now: real)
      requires Valid() && clock == now
      modifies this`log, this`perHost
      ensures Valid()
      ensures var all := old(perHost);
              && perHost == all.DropOldest(Excess(all.keys))
              && log == AfterHosts(old(log), all, Excess(all.keys), now, cfg.dedupeSeconds)
    {
      hide UrlsAgree, SessionsAgree, HostsAgree, Lawful, NoneAfter, HostEvictions, Recent, Dict.DropOldest, AfterHosts;
      ghost var all, n := perHost, 0;
      AgreeingValid(seenUrls, perSession, perHost, log, clock, cfg.dedupeSeconds);
      HostEvictionsNone(log, all, now, cfg.dedupeSeconds);
      all.DropNone();
      while |perHost.keys| > MAX_TRACKED
        invariant n <= |all.keys| && |perHost.keys| == |all.keys| - n
        invariant n == 0 || |perHost.keys| >= MAX_TRACKED
        invariant perHost == all.DropOldest(n)
        invariant Valid() && log == AfterHosts(old(log), all, n, now, cfg.dedupeSeconds)
      {
        OneHostMore(old(log), all, n, now, cfg.dedupeSeconds);
        PopOldestHost();
        n := n + 1;
      }
    }

    /** `_prune`: with at most 4096 URLs none is touched; past that, of those still cooling down the last 4096
        remain, in their old order, and exactly the others of them are forgotten. Of the sessions and of the hosts
        the last 4096 remain. */
    method Prune(now: real)
      requires Valid() && clock == now
      modifies this
      ensures Valid() && clock == now
      ensures log == old(log) + Evictions(old(seenUrls), old(perSession), old(perHost), now, cfg.dedupeSeconds)
      ensures seenUrls == PrunedUrls(old(seenUrls), now, cfg.dedupeSeconds)
      ensures perSession == PrunedKeys(old(perSession)) && perHost == PrunedKeys(old(perHost))
      // in terms of the maps it met
      ensures KeepsLastCooling(old(seenUrls), seenUrls, now, cfg.dedupeSeconds)
      ensures ForgetsUrls(old(seenUrls), log[|old(log)|..], now, cfg.dedupeSeconds)
      ensures KeepsLast(old(perSession), perSession) && KeepsLast(old(perHost), perHost)
      ensures ForgetsOthers(old(perSession), old(perHost), log[|old(log)|..], now, cfg.dedupeSeconds)
    {
      PruneUrls(now);
      ghost var a := log;
      PruneSessions();
      ghost var b := log;
      PruneHosts(now);
      ghost var live := Live(old(seenUrls), now, cfg.dedupeSeconds);
      Joined(old(log), UrlEvictions(live.keys[..Excess(live.keys)]),
             SessionEvictions(old(perSession), old(perSession).keys[..Excess(old(perSession).keys)]),
             HostEvictions(old(perHost), old(perHost).keys[..Excess(old(perHost).keys)], now, cfg.dedupeSeconds));
      ghost var evicted := Evictions(old(seenUrls), old(perSession), old(perHost), now, cfg.dedupeSeconds);
      assert log[|old(log)|..] == evicted;
      UrlPruningKeeps(old(seenUrls), now, cfg.dedupeSeconds);
      UrlPruningForgets(old(seenUrls), old(perSession), old(perHost), now, cfg.dedupeSeconds);
      OtherPruningForgets(old(seenUrls), old(perSession), old(perHost), now, cfg.dedupeSeconds);
      LastKept(old(perSession));
      LastKept(old(perHost));
    }

    /** One URL of a batch, while the session still has budget; `used` is the session's
        total so far. */
    method Offer(session: string, url: string, now: real, ghost used: nat) returns (ok: bool)
      requires InBatch(session, used) && clock == now && used < cfg.maxPerSession
      modifies this`seenUrls, this`perHost, this`log
      ensures ok == Allows(cfg, old(log), session, url, hostOf(url), now)
      ensures log == if ok then old(log) + [Admitted(session, url, hostOf(url), now)] else old(log)
      ensures ok ==> InBatch(session, used + 1)
      ensures !ok ==> InBatch(session, used)
      ensures seenUrls == if ok then old(seenUrls).Set(url, now) else old(seenUrls)
      ensures old(perHost.keys) <= perHost.keys && |perHost.keys| <= |old(perHost.keys)| + 1
    {
      ghost var host' := hostOf(url);
      RuleMatches(cfg, seenUrls, perHost, log, now, session, url, host', used);
      if seenUrls.Has(url) && now - seenUrls.vals[url] < cfg.dedupeSeconds {
        return false;
      }
      var host := hostOf(url);
      var recent := Recent(perHost.GetOr(host, []), now, cfg.dedupeSeconds);
      if |recent| >= cfg.maxPerHost {
        HostRefused(perHost, log, now, cfg.dedupeSeconds, host);
        perHost := perHost.Set(host, recent);
        return false;
      }
      ghost var e := Admitted(session, url, host, now);
      SessionsCount(perSession, log, session, used, e);
      UrlAdmitted(seenUrls, log, now, cfg.dedupeSeconds, e);
      HostAdmitted(perHost, log, now, cfg.dedupeSeconds, e);
      LawfulSnoc(cfg, log, e);
      perHost := perHost.Set(host, recent + [now]);
      seenUrls := seenUrls.Set(url, now);
      log := log + [e];
      return true;
    }

    ghost predicate InBatch(session: string, used: nat)
      reads this
    {
      && UrlsAgree(seenUrls, log, clock, cfg.dedupeSeconds)
      && SessionsAgreeBut(perSession, log, session, used)
      && HostsAgree(perHost, log, clock, cfg.dedupeSeconds)
      && Lawful(cfg, log)
      && NoneAfter(log, clock)
    }

    /** The loop of `admit`. */
    method Serve(session: string, urls: seq<string>, now: real, used: nat) returns (admitted: seq<string>)
      requires InBatch(session, used) && clock == now
      modifies this`seenUrls, this`perHost, this`log
      ensures InBatch(session, used + |admitted|)
      ensures log == NaiveBatch(cfg, old(log), session, urls, hostOf, now)
      ensures AdmittedUrls(log) == AdmittedUrls(old(log)) + admitted && |admitted| <= |urls|
      ensures forall k :: 0 <= k < |admitted| ==> admitted[k] in urls
      ensures seenUrls == SetAll(old(seenUrls), admitted, now) && |seenUrls.keys| <= |old(seenUrls).keys| + |admitted|
      ensures old(perHost).keys <= perHost.keys && |perHost.keys| <= |old(perHost).keys| + |urls|
    {
      hide UrlsAgree, SessionsAgreeBut, HostsAgree, Lawful, NoneAfter, Allows, NaiveBatch, SetAll, AdmittedUrls;
      admitted := [];
      var i := 0;
      StartServed(cfg, log, seenUrls, session, urls, hostOf, now);
      while i < |urls|
        invariant i <= |urls| && |admitted| <= i
        invariant forall k :: 0 <= k < |admitted| ==> admitted[k] in urls
        invariant InBatch(session, used + |admitted|)
        invariant Served(cfg, old(log), old(seenUrls), session, urls, hostOf, now, i, log, seenUrls, admitted)
        invariant old(perHost).keys <= perHost.keys && |perHost.keys| <= |old(perHost).keys| + i
      {
        if used + |admitted| >= cfg.maxPerSession {
          SessionUsed(perSession, log, session, used + |admitted|);
          SpentSession(cfg, log, session, urls[i..], hostOf, now);
          break;
        }
        ghost var log0, seen0 := log, seenUrls;
        var ok := Offer(session, urls[i], now, used + |admitted|);
        ServedStep(cfg, old(log), old(seenUrls), session, urls, hostOf, now, i, log0, seen0, admitted);
        if ok {
          admitted := admitted + [urls[i]];
        }
        i := i + 1;
      }
      SetAllSize(old(seenUrls), admitted, now);
      if i == |urls| { EndServed(cfg, log, session, urls, hostOf, now); }
    }

    /** The start of `admit`: prune, then look up what the session has used. */
    method Begin(session: string, now: real) returns (used: nat)
      requires Valid() && clock <= now
      modifies this
      ensures clock == now && InBatch(session, used) && used == perSession.GetOr(session, 0)
      ensures log == old(log) + Evictions(old(seenUrls), old(perSession), old(perHost), now, cfg.dedupeSeconds)
      ensures AdmittedUrls(log) == AdmittedUrls(old(log))
      ensures seenUrls == PrunedUrls(old(seenUrls), now, cfg.dedupeSeconds)
      ensures perSession == PrunedKeys(old(perSession)) && perHost == PrunedKeys(old(perHost))
    {
      Tick(now);
      Prune(now);
      EvictionsAdmitNothing(old(log), old(seenUrls), old(perSession), old(perHost), now, cfg.dedupeSeconds);
      used := perSession.GetOr(session, 0);
      SessionOpened(perSession, log, session);
    }

    /** The end of `admit`: write the session's new total back. */
    method Charge(session: string, used: nat, n: nat)
      requires InBatch(session, used + n) && used == perSession.GetOr(session, 0)
      modifies this`perSession
      ensures Valid() && perSession == Charged(old(perSession), session, n)
    {
      hide UrlsAgree, HostsAgree, SessionsAgree, SessionsAgreeBut, Lawful, NoneAfter;
      SessionSettled(perSession, log, session, used + n);
      perSession := perSession.Set(session, used + n);
    }

    /** `admit`: exactly the naive rule over everything that happened, where each eviction
        made by this call's pruning erases the memory of one key. */
    method Admit(session: string, urls: seq<string>, now: real) returns (admitted: seq<string>)
      requires Valid() && clock <= now
      modifies this
      ensures Valid() && clock == now
      ensures log == NaiveBatch(cfg, old(log) + Evictions(old(seenUrls), old(perSession), old(perHost), now, cfg.dedupeSeconds),
                                session, urls, hostOf, now)
      ensures AdmittedUrls(log) == AdmittedUrls(old(log)) + admitted
      ensures seenUrls == SetAll(PrunedUrls(old(seenUrls), now, cfg.dedupeSeconds), admitted, now)
      ensures perSession == Charged(PrunedKeys(old(perSession)), session, |admitted|)
      ensures PrunedKeys(old(perHost)).keys <= perHost.keys
      ensures |admitted| <= |urls| && forall k :: 0 <= k < |admitted| ==> admitted[k] in urls
      ensures |seenUrls.keys| <= 4096 + |admitted| && |perHost.keys| <= 4096 + |urls| && |perSession.keys| <= 4096 + 1
      // what pruning kept and what it forgot, in terms of the maps it met
      ensures var window := cfg.dedupeSeconds;
              var evicted := Evictions(old(seenUrls), old(perSession), old(perHost), now, window);
              && KeepsLastCooling(old(seenUrls), PrunedUrls(old(seenUrls), now, window), now, window)
              && ForgetsUrls(old(seenUrls), evicted, now, window) && ForgetsOthers(old(perSession), old(perHost), evicted, now, window)
    {
      AgreeingValid(seenUrls, perSession, perHost, log, clock, cfg.dedupeSeconds);
      hide UrlsAgree, SessionsAgree, SessionsAgreeBut, HostsAgree, Lawful, NoneAfter, NaiveBatch, SetAll, AdmittedUrls, Evictions,
           KeepsLastCooling, ForgetsUrls, ForgetsOthers;
      UrlPruningKeeps(seenUrls, now, cfg.dedupeSeconds);
      UrlPruningForgets(seenUrls, perSession, perHost, now, cfg.dedupeSeconds);
      OtherPruningForgets(seenUrls, perSession, perHost, now, cfg.dedupeSeconds);
      var used := Begin(session, now);
      admitted := Serve(session, urls, now, used);
      Charge(session, used, |admitted|);
    }
  }

  // ---------------------------------------------------------------- what the dictionaries mean

  ghost predicate UrlAgrees(seen: Dict<real>, past: Log, clock: real, window: real, u: string) {
    if seen.Has(u)
    then && (exists e <- past :: e.Admitted? && e.url == u && e.time == seen.vals[u])
         && (forall e <- past :: e.Admitted? && e.url == u ==> e.time <= seen.vals[u])
    else !CoolingDown(past, u, clock, window)
  }

  ghost predicate UrlsAgree(seen: Dict<real>, log: Log, clock: real, window: real) {
    && seen.Valid()
    && (forall u: string {:trigger UrlAgrees(seen, Since(log, EvictedUrl(u)), clock, window, u)} ::
          UrlAgrees(seen, Since(log, EvictedUrl(u)), clock, window, u))
  }

  ghost predicate SessionsAgree(used: Dict<nat>, log: Log) {
    && used.Valid()
    && (forall s: string {:trigger SessionTotal(Since(log, EvictedSession(s)), s)} ::
          used.GetOr(s, 0) == SessionTotal(Since(log, EvictedSession(s)), s))
  }

  ghost predicate HostAgrees(recent: Dict<seq<real>>, past: Log, clock: real, window: real, h: string) {
    Recent(recent.GetOr(h, []), clock, window) == Recent(HostTimes(past, h), clock, window)
  }

  ghost predicate HostsAgree(recent: Dict<seq<real>>, log: Log, clock: real, window: real) {
    && recent.Valid()
    && (forall h: string {:trigger HostAgrees(recent, Since(log, EvictedHost(h)), clock, window, h)} ::
          HostAgrees(recent, Since(log, EvictedHost(h)), clock, window, h))
  }

  /** Agreement in the middle of a batch: the session being served has not been written
      back yet and has used `used` of its budget. */
  ghost predicate SessionsAgreeBut(totals: Dict<nat>, log: Log, session: string, used: nat) {
    && totals.Valid()
    && (forall s: string {:trigger SessionTotal(Since(log, EvictedSession(s)), s)} ::
          SessionTotal(Since(log, EvictedSession(s)), s) == if s == session then used else totals.GetOr(s, 0))
  }

  lemma SessionOpened(totals: Dict<nat>, log: Log, session: string)
    requires SessionsAgree(totals, log)
    ensures SessionsAgreeBut(totals, log, session, totals.GetOr(session, 0))
  {
  }

  lemma SessionUsed(totals: Dict<nat>, log: Log, session: string, used: nat)
    requires SessionsAgreeBut(totals, log, session, used)
    ensures SessionTotal(Since(log, EvictedSession(session)), session) == used
  {
  }

  lemma SessionSettled(totals: Dict<nat>, log: Log, session: string, used: nat)
    requires SessionsAgreeBut(totals, log, session, used)
    ensures SessionsAgree(totals.Set(session, used), log)
  {
  }

  lemma RuleMatches(cfg: Config, seen: Dict<real>, recent: Dict<seq<real>>, log: Log, now: real,
                    session: string, url: string, host: string, used: nat)
    requires UrlsAgree(seen, log, now, cfg.dedupeSeconds) && HostsAgree(recent, log, now, cfg.dedupeSeconds)
    requires SessionTotal(Since(log, EvictedSession(session)), session) == used < cfg.maxPerSession
    ensures Allows(cfg, log, session, url, host, now)
       <==> !(seen.Has(url) && now - seen.vals[url] < cfg.dedupeSeconds)
            && |Recent(recent.GetOr(host, []), now, cfg.dedupeSeconds)| < cfg.maxPerHost
  {
    assert UrlAgrees(seen, Since(log, EvictedUrl(url)), now, cfg.dedupeSeconds, url);
    assert HostAgrees(recent, Since(log, EvictedHost(host)), now, cfg.dedupeSeconds, host);
  }

  lemma UrlAdmitted(seen: Dict<real>, log: Log, now: real, window: real, e: Event)
    requires UrlsAgree(seen, log, now, window) && e.Admitted? && e.time == now
    requires NoneAfter(log, now)
    ensures UrlsAgree(seen.Set(e.url, now), log + [e], now, window)
  {
    forall u: string ensures UrlAgrees(seen.Set(e.url, now), Since(log + [e], EvictedUrl(u)), now, window, u) {
      SinceSnoc(log, e, EvictedUrl(u));
      var past := Since(log, EvictedUrl(u));
      assert UrlAgrees(seen, past, now, window, u);
      if u != e.url { UrlKeeps(seen, past, e, now, window, u); }
      else { SinceWithin(log, EvictedUrl(u)); assert (past + [e])[|past|] == e; }
    }
  }

  lemma HostAdmitted(recent: Dict<seq<real>>, log: Log, now: real, window: real, e: Event)
    requires HostsAgree(recent, log, now, window) && e.Admitted? && e.time == now
    ensures HostsAgree(recent.Set(e.host, Recent(recent.GetOr(e.host, []), now, window) + [now]), log + [e], now, window)
  {
    var kept := Recent(recent.GetOr(e.host, []), now, window);
    forall h: string ensures HostAgrees(recent.Set(e.host, kept + [now]), Since(log + [e], EvictedHost(h)), now, window, h) {
      SinceSnoc(log, e, EvictedHost(h));
      var past := Since(log, EvictedHost(h));
      assert HostAgrees(recent, past, now, window, h);
      HostTimesSnoc(past, e, h);
      if h == e.host {
        RecentSnoc(kept, now, now, window);
        RecentLater(recent.GetOr(h, []), now, now, window);
        RecentSnoc(HostTimes(past, h), now, now, window);
      }
    }
  }

  lemma HostRefused(recent: Dict<seq<real>>, log: Log, now: real, window: real, host: string)
    requires HostsAgree(recent, log, now, window)
    ensures HostsAgree(recent.Set(host, Recent(recent.GetOr(host, []), now, window)), log, now, window)
  {
    var kept := Recent(recent.GetOr(host, []), now, window);
    forall h: string ensures HostAgrees(recent.Set(host, kept), Since(log, EvictedHost(h)), now, window, h) {
      assert HostAgrees(recent, Since(log, EvictedHost(h)), now, window, h);
      RecentLater(recent.GetOr(host, []), now, now, window);
    }
  }

  lemma SessionsCount(totals: Dict<nat>, log: Log, session: string, used: nat, e: Event)
    requires SessionsAgreeBut(totals, log, session, used) && e.Admitted? && e.session == session
    ensures SessionsAgreeBut(totals, log + [e], session, used + 1)
  {
    forall s: string ensures SessionTotal(Since(log + [e], EvictedSession(s)), s) == if s == session then used + 1 else totals.GetOr(s, 0) {
      SinceSnoc(log, e, EvictedSession(s));
      SessionTotalSnoc(Since(log, EvictedSession(s)), e, s);
    }
  }

  /** A session out of budget gets nothing more from the rest of its batch. */
  lemma {:induction false} SpentSession(cfg: Config, log: Log, session: string, urls: seq<string>,
                                        hostOf: string -> string, now: real)
    requires SessionTotal(Since(log, EvictedSession(session)), session) >= cfg.maxPerSession
    ensures NaiveBatch(cfg, log, session, urls, hostOf, now) == log
    decreases urls
  {
    if urls != [] { SpentSession(cfg, log, session, urls[1..], hostOf, now); }
  }

  /** Where a batch stands after its first `i` URLs. */
  ghost predicate Served(cfg: Config, log0: Log, seen0: Dict<real>, session: string, urls: seq<string>,
                         hostOf: string -> string, now: real, i: nat,
                         log: Log, seen: Dict<real>, admitted: seq<string>)
    requires i <= |urls|
  {
    && NaiveBatch(cfg, log0, session, urls, hostOf, now) == NaiveBatch(cfg, log, session, urls[i..], hostOf, now)
    && AdmittedUrls(log) == AdmittedUrls(log0) + admitted
    && seen == SetAll(seen0, admitted, now)
  }

  lemma StartServed(cfg: Config, log: Log, seen: Dict<real>, session: string, urls: seq<string>,
                    hostOf: string -> string, now: real)
    ensures Served(cfg, log, seen, session, urls, hostOf, now, 0, log, seen, [])
  {
    assert urls[0..] == urls;
  }

  lemma EndServed(cfg: Config, log: Log, session: string, urls: seq<string>, hostOf: string -> string, now: real)
    ensures NaiveBatch(cfg, log, session, urls[|urls|..], hostOf, now) == log
  {
  }

  lemma ServedStep(cfg: Config, log0: Log, seen0: Dict<real>, session: string, urls: seq<string>,
                   hostOf: string -> string, now: real, i: nat,
                   log: Log, seen: Dict<real>, admitted: seq<string>)
    requires i < |urls| && Served(cfg, log0, seen0, session, urls, hostOf, now, i, log, seen, admitted)
    ensures if Allows(cfg, log, session, urls[i], hostOf(urls[i]), now)
            then Served(cfg, log0, seen0, session, urls, hostOf, now, i + 1,
                        log + [Admitted(session, urls[i], hostOf(urls[i]), now)], seen.Set(urls[i], now), admitted + [urls[i]])
            else Served(cfg, log0, seen0, session, urls, hostOf, now, i + 1, log, seen, admitted)
  {
    assert urls[i..][1..] == urls[i + 1..];
    AdmittedUrlsSnoc(log, Admitted(session, urls[i], hostOf(urls[i]), now));
    SetAllSnoc(seen0, admitted, urls[i], now);
    AppendAssociates(AdmittedUrls(log0), admitted, [urls[i]]);
  }

  function PrunedUrls(seen: Dict<real>, now: real, window: real): Dict<real> {
    var live := Live(seen, now, window);
    live.DropOldest(Excess(live.keys))
  }

  function PrunedKeys<V>(d: Dict<V>): Dict<V> { d.DropOldest(Excess(d.keys)) }

  /** What a pruning pass forgets: of the oldest positions past the limit, URLs still cooling down, sessions
      that have used something, and hosts with an admission inside the window. */
  ghost function Evictions(seen: Dict<real>, totals: Dict<nat>, recent: Dict<seq<real>>, now: real, window: real): Log {
    var live := Live(seen, now, window);
    UrlEvictions(live.keys[..Excess(live.keys)])
    + SessionEvictions(totals, totals.keys[..Excess(totals.keys)])
    + HostEvictions(recent, recent.keys[..Excess(recent.keys)], now, window)
  }

  function Charged(totals: Dict<nat>, session: string, n: nat): Dict<nat> {
    totals.Set(session, totals.GetOr(session, 0) + n)
  }

  function SetAll(seen: Dict<real>, urls: seq<string>, now: real): Dict<real> {
    if urls == [] then seen else SetAll(seen, urls[..|urls| - 1], now).Set(urls[|urls| - 1], now)
  }

  lemma {:induction false} SetAllSize(seen: Dict<real>, urls: seq<string>, now: real)
    ensures |SetAll(seen, urls, now).keys| <= |seen.keys| + |urls|
  {
    if urls != [] { SetAllSize(seen, urls[..|urls| - 1], now); }
  }

  lemma SetAllSnoc(seen: Dict<real>, urls: seq<string>, url: string, now: real)
    ensures SetAll(seen, urls + [url], now) == SetAll(seen, urls, now).Set(url, now)
  {
    assert (urls + [url])[..|urls|] == urls;
  }

  lemma UrlsLater(seen: Dict<real>, log: Log, earlier: real, now: real, window: real)
    requires UrlsAgree(seen, log, earlier, window) && earlier <= now
    ensures UrlsAgree(seen, log, now, window)
  {
    forall u: string ensures UrlAgrees(seen, Since(log, EvictedUrl(u)), now, window, u) {
      assert UrlAgrees(seen, Since(log, EvictedUrl(u)), earlier, window, u);
    }
  }

  lemma UrlsSwept(seen: Dict<real>, log: Log, now: real, window: real)
    requires UrlsAgree(seen, log, now, window)
    ensures UrlsAgree(seen.Filter(Cooling(now, window)), log, now, window)
  {
    var kept := seen.Filter(Cooling(now, window));
    forall u: string ensures UrlAgrees(kept, Since(log, EvictedUrl(u)), now, window, u) {
      assert UrlAgrees(seen, Since(log, EvictedUrl(u)), now, window, u);
    }
  }

  lemma HostsLater(recent: Dict<seq<real>>, log: Log, earlier: real, now: real, window: real)
    requires HostsAgree(recent, log, earlier, window) && earlier <= now
    ensures HostsAgree(recent, log, now, window)
  {
    forall h: string ensures HostAgrees(recent, Since(log, EvictedHost(h)), now, window, h) {
      assert HostAgrees(recent, Since(log, EvictedHost(h)), earlier, window, h);
      RecentLater(recent.GetOr(h, []), earlier, now, window);
      RecentLater(HostTimes(Since(log, EvictedHost(h)), h), earlier, now, window);
    }
  }

  lemma UrlEvicted(seen: Dict<real>, log: Log, clock: real, window: real)
    requires UrlsAgree(seen, log, clock, window) && seen.keys != []
    ensures UrlsAgree(seen.DropOldest(1), log + [EvictedUrl(seen.keys[0])], clock, window)
  {
    var e, rest := EvictedUrl(seen.keys[0]), seen.DropOldest(1);
    seen.DropOldestValid(1);
    assert seen.keys[..1] == [seen.keys[0]];
    forall u: string ensures UrlAgrees(rest, Since(log + [e], EvictedUrl(u)), clock, window, u) {
      SinceSnoc(log, e, EvictedUrl(u));
      var past := Since(log, EvictedUrl(u));
      assert UrlAgrees(seen, past, clock, window, u);
      if u != e.url { UrlKeeps(seen, past, e, clock, window, u); }
    }
  }

  lemma SessionEvicted(used: Dict<nat>, log: Log)
    requires SessionsAgree(used, log) && used.keys != []
    ensures SessionsAgree(used.DropOldest(1), log + [EvictedSession(used.keys[0])])
  {
    var e := EvictedSession(used.keys[0]);
    used.DropOldestValid(1);
    assert used.keys[..1] == [used.keys[0]];
    forall s: string ensures used.DropOldest(1).GetOr(s, 0) == SessionTotal(Since(log + [e], EvictedSession(s)), s) {
      SinceSnoc(log, e, EvictedSession(s));
      SessionTotalSnoc(Since(log, EvictedSession(s)), e, s);
    }
  }

  /** A session that has used nothing can be dropped without being forgotten. */
  lemma SessionDropped(used: Dict<nat>, log: Log)
    requires SessionsAgree(used, log) && used.keys != [] && used.GetOr(used.keys[0], 0) == 0
    ensures SessionsAgree(used.DropOldest(1), log)
  {
    used.DropOldestValid(1);
    assert used.keys[..1] == [used.keys[0]];
    forall s: string ensures used.DropOldest(1).GetOr(s, 0) == SessionTotal(Since(log, EvictedSession(s)), s) {
      assert used.GetOr(s, 0) == SessionTotal(Since(log, EvictedSession(s)), s);
    }
  }

  /** Nor is a host forgotten whose admissions all lie outside the window. */
  lemma HostDropped(recent: Dict<seq<real>>, log: Log, clock: real, window: real)
    requires HostsAgree(recent, log, clock, window) && recent.keys != []
    requires Recent(recent.GetOr(recent.keys[0], []), clock, window) == []
    ensures HostsAgree(recent.DropOldest(1), log, clock, window)
  {
    recent.DropOldestValid(1);
    assert recent.keys[..1] == [recent.keys[0]];
    forall h: string ensures HostAgrees(recent.DropOldest(1), Since(log, EvictedHost(h)), clock, window, h) {
      assert HostAgrees(recent, Since(log, EvictedHost(h)), clock, window, h);
    }
  }

  lemma HostEvicted(recent: Dict<seq<real>>, log: Log, clock: real, window: real)
    requires HostsAgree(recent, log, clock, window) && recent.keys != []
    ensures HostsAgree(recent.DropOldest(1), log + [EvictedHost(recent.keys[0])], clock, window)
  {
    var e, rest := EvictedHost(recent.keys[0]), recent.DropOldest(1);
    recent.DropOldestValid(1);
    assert recent.keys[..1] == [recent.keys[0]];
    forall h: string ensures HostAgrees(rest, Since(log + [e], EvictedHost(h)), clock, window, h) {
      SinceSnoc(log, e, EvictedHost(h));
      HostTimesSnoc(Since(log, EvictedHost(h)), e, h);
      assert HostAgrees(recent, Since(log, EvictedHost(h)), clock, window, h);
    }
  }

  lemma UrlKeeps(seen: Dict<real>, past: Log, e: Event, clock: real, window: real, u: string)
    requires UrlAgrees(seen, past, clock, window, u) && !(e.Admitted? && e.url == u)
    ensures UrlAgrees(seen, past + [e], clock, window, u)
  {
    assert forall x :: x in past + [e] <==> x in past || x == e;
  }

  /** An eviction of one kind leaves the two other dictionaries in agreement. */
  lemma Unaffected(used: Dict<nat>, seen: Dict<real>, recent: Dict<seq<real>>, log: Log, e: Event,
                   clock: real, window: real)
    requires !e.Admitted?
    ensures UrlsAgree(seen, log, clock, window) && !e.EvictedUrl? ==> UrlsAgree(seen, log + [e], clock, window)
    ensures SessionsAgree(used, log) && !e.EvictedSession? ==> SessionsAgree(used, log + [e])
    ensures HostsAgree(recent, log, clock, window) && !e.EvictedHost? ==> HostsAgree(recent, log + [e], clock, window)
  {
    if UrlsAgree(seen, log, clock, window) && !e.EvictedUrl? {
      forall u: string ensures UrlAgrees(seen, Since(log + [e], EvictedUrl(u)), clock, window, u) {
        SinceSnoc(log, e, EvictedUrl(u));
        UrlKeeps(seen, Since(log, EvictedUrl(u)), e, clock, window, u);
      }
    }
    if SessionsAgree(used, log) && !e.EvictedSession? {
      forall s: string ensures used.GetOr(s, 0) == SessionTotal(Since(log + [e], EvictedSession(s)), s) {
        SinceSnoc(log, e, EvictedSession(s));
        SessionTotalSnoc(Since(log, EvictedSession(s)), e, s);
      }
    }
    if HostsAgree(recent, log, clock, window) && !e.EvictedHost? {
      forall h: string ensures HostAgrees(recent, Since(log + [e], EvictedHost(h)), clock, window, h) {
        SinceSnoc(log, e, EvictedHost(h));
        HostTimesSnoc(Since(log, EvictedHost(h)), e, h);
        assert HostAgrees(recent, Since(log, EvictedHost(h)), clock, window, h);
      }
    }
  }

  ghost function UrlEvictions(keys: seq<string>): Log {
    if keys == [] then [] else UrlEvictions(keys[..|keys| - 1]) + [EvictedUrl(keys[|keys| - 1])]
  }

  ghost function SessionEvictions(totals: Dict<nat>, keys: seq<string>): Log {
    if keys == [] then [] else
      var k, before := keys[|keys| - 1], SessionEvictions(totals, keys[..|keys| - 1]);
      if totals.GetOr(k, 0) > 0 then before + [EvictedSession(k)] else before
  }

  ghost function HostEvictions(recent: Dict<seq<real>>, keys: seq<string>, now: real, window: real): Log {
    if keys == [] then [] else
      var k, before := keys[|keys| - 1], HostEvictions(recent, keys[..|keys| - 1], now, window);
      if Recent(recent.GetOr(k, []), now, window) != [] then before + [EvictedHost(k)] else before
  }

  /** The log once the `n` oldest positions have been popped. */
  ghost function AfterSessions(log: Log, all: Dict<nat>, n: nat): Log
    requires n <= |all.keys|
  {
    log + SessionEvictions(all, all.keys[..n])
  }

  ghost function AfterHosts(log: Log, all: Dict<seq<real>>, n: nat, now: real, window: real): Log
    requires n <= |all.keys|
  {
    log + HostEvictions(all, all.keys[..n], now, window)
  }

  lemma AgreeingValid(seen: Dict<real>, totals: Dict<nat>, recent: Dict<seq<real>>, log: Log, clock: real, window: real)
    requires UrlsAgree(seen, log, clock, window) && SessionsAgree(totals, log) && HostsAgree(recent, log, clock, window)
    ensures seen.Valid() && totals.Valid() && recent.Valid()
  {
  }

  lemma UrlEvictionsNone(log: Log, live: Dict<real>)
    ensures log + UrlEvictions(live.keys[..0]) == log
  {
  }

  lemma SessionEvictionsNone(log: Log, all: Dict<nat>)
    ensures AfterSessions(log, all, 0) == log
  {
  }

  lemma HostEvictionsNone(log: Log, all: Dict<seq<real>>, now: real, window: real)
    ensures AfterHosts(log, all, 0, now, window) == log
  {
  }

  lemma UrlEvictionsSnoc(log: Log, keys: seq<string>, k: string)
    ensures log + UrlEvictions(keys + [k]) == log + UrlEvictions(keys) + [EvictedUrl(k)]
  {
    assert (keys + [k])[..|keys|] == keys;
  }

  lemma SessionEvictionsSnoc(log: Log, totals: Dict<nat>, keys: seq<string>, k: string)
    ensures log + SessionEvictions(totals, keys + [k])
         == if totals.GetOr(k, 0) > 0 then log + SessionEvictions(totals, keys) + [EvictedSession(k)]
            else log + SessionEvictions(totals, keys)
  {
    assert (keys + [k])[..|keys|] == keys;
  }

  /** Popping one more of the oldest positions. */
  lemma OneSessionMore(log: Log, all: Dict<nat>, n: nat)
    requires all.Valid() && n < |all.keys|
    ensures var (left, k) := (all.DropOldest(n), all.keys[n]);
            && left.keys != [] && left.keys[0] == k && |left.keys| == |left.DropOldest(1).keys| + 1 && left.GetOr(k, 0) == all.GetOr(k, 0) && left.DropOldest(1) == all.DropOldest(n + 1)
            && AfterSessions(log, all, n + 1)
               == if all.GetOr(k, 0) > 0 then AfterSessions(log, all, n) + [EvictedSession(k)] else AfterSessions(log, all, n)
  {
    all.DropOneMore(n);
    assert all.keys[..n + 1] == all.keys[..n] + [all.keys[n]];
    SessionEvictionsSnoc(log, all, all.keys[..n], all.keys[n]);
    all.DropKeeps(n, all.keys[n]);
  }

  lemma OneHostMore(log: Log, all: Dict<seq<real>>, n: nat, now: real, window: real)
    requires all.Valid() && n < |all.keys|
    ensures var (left, k) := (all.DropOldest(n), all.keys[n]);
            && left.keys != [] && left.keys[0] == k && |left.keys| == |left.DropOldest(1).keys| + 1 && left.GetOr(k, []) == all.GetOr(k, []) && left.DropOldest(1) == all.DropOldest(n + 1)
            && AfterHosts(log, all, n + 1, now, window)
               == if Recent(all.GetOr(k, []), now, window) != [] then AfterHosts(log, all, n, now, window) + [EvictedHost(k)]
                  else AfterHosts(log, all, n, now, window)
  {
    all.DropOneMore(n);
    assert all.keys[..n + 1] == all.keys[..n] + [all.keys[n]];
    HostEvictionsSnoc(log, all, all.keys[..n], all.keys[n], now, window);
    all.DropKeeps(n, all.keys[n]);
  }

  lemma HostEvictionsSnoc(log: Log, recent: Dict<seq<real>>, keys: seq<string>, k: string, now: real, window: real)
    ensures log + HostEvictions(recent, keys + [k], now, window)
         == if Recent(recent.GetOr(k, []), now, window) != [] then log + HostEvictions(recent, keys, now, window) + [EvictedHost(k)]
            else log + HostEvictions(recent, keys, now, window)
  {
    assert (keys + [k])[..|keys|] == keys;
  }

  function Cooling(now: real, window: real): real -> bool { t => now - t < window }

  /** What survives the expiry sweep, which happens only past the size limit. */
  function Live(seen: Dict<real>, now: real, window: real): Dict<real> {
    if |seen.keys| > MAX_TRACKED then seen.Filter(Cooling(now, window)) else seen
  }

  function Excess(keys: seq<string>): (n: nat)
    ensures n <= |keys|
  {
    if |keys| > MAX_TRACKED then |keys| - MAX_TRACKED else 0
  }

  // ---------------------------------------------------------------- facts about logs

  lemma SinceSnoc(log: Log, x: Event, e: Event)
    ensures Since(log + [x], e) == if x == e then [] else Since(log, e) + [x]
  {
    assert (log + [x])[..|log|] == log;
  }

  lemma {:induction false} SinceWithin(log: Log, e: Event)
    ensures forall x :: x in Since(log, e) ==> x in log
  {
    if log != [] {
      SinceWithin(log[..|log| - 1], e);
      assert log == log[..|log| - 1] + [log[|log| - 1]];
    }
  }

  lemma Joined(a: Log, b: Log, c: Log, d: Log)
    ensures a + b + c + d == a + (b + c + d)
  {
  }

  lemma AdmittedUrlsSnoc(log: Log, x: Event)
    ensures AdmittedUrls(log + [x]) == if x.Admitted? then AdmittedUrls(log) + [x.url] else AdmittedUrls(log)
  {
    assert (log + [x])[..|log|] == log;
  }

  lemma {:induction false} AdmittedUrlsQuiet(log: Log, more: Log)
    requires forall e <- more :: !e.Admitted?
    ensures AdmittedUrls(log + more) == AdmittedUrls(log)
  {
    if more == [] {
      assert log + more == log;
    } else {
      var init, x := more[..|more| - 1], more[|more| - 1];
      AdmittedUrlsQuiet(log, init);
      assert log + more == (log + init) + [x];
      AdmittedUrlsSnoc(log + init, x);
    }
  }

  lemma EvictionsAdmitNothing(log: Log, seen: Dict<real>, totals: Dict<nat>, recent: Dict<seq<real>>, now: real, window: real)
    ensures AdmittedUrls(log + Evictions(seen, totals, recent, now, window)) == AdmittedUrls(log)
  {
    var live := Live(seen, now, window);
    UrlEvictionKinds(live.keys[..Excess(live.keys)]);
    SessionEvictionKinds(totals, totals.keys[..Excess(totals.keys)]);
    HostEvictionKinds(recent, recent.keys[..Excess(recent.keys)], now, window);
    AdmittedUrlsQuiet(log, Evictions(seen, totals, recent, now, window));
  }

  lemma {:induction false} UrlEvictionKinds(keys: seq<string>)
    ensures forall e <- UrlEvictions(keys) :: e.EvictedUrl? && e.url in keys
    ensures forall k <- keys :: EvictedUrl(k) in UrlEvictions(keys)
  {
    if keys != [] {
      assert keys == keys[..|keys| - 1] + [keys[|keys| - 1]];
      UrlEvictionKinds(keys[..|keys| - 1]);
    }
  }

  lemma {:induction false} SessionEvictionKinds(totals: Dict<nat>, keys: seq<string>)
    ensures forall e <- SessionEvictions(totals, keys) :: e.EvictedSession? && e.session in keys && totals.GetOr(e.session, 0) > 0
    ensures forall k <- keys :: totals.GetOr(k, 0) > 0 ==> EvictedSession(k) in SessionEvictions(totals, keys)
  {
    if keys != [] {
      assert keys == keys[..|keys| - 1] + [keys[|keys| - 1]];
      SessionEvictionKinds(totals, keys[..|keys| - 1]);
    }
  }

  lemma {:induction false} HostEvictionKinds(recent: Dict<seq<real>>, keys: seq<string>, now: real, window: real)
    ensures forall e <- HostEvictions(recent, keys, now, window) ::
              e.EvictedHost? && e.host in keys && Recent(recent.GetOr(e.host, []), now, window) != []
    ensures forall k <- keys ::
              Recent(recent.GetOr(k, []), now, window) != [] ==> EvictedHost(k) in HostEvictions(recent, keys, now, window)
  {
    if keys != [] {
      assert keys == keys[..|keys| - 1] + [keys[|keys| - 1]];
      HostEvictionKinds(recent, keys[..|keys| - 1], now, window);
    }
  }

  lemma SessionTotalSnoc(log: Log, x: Event, session: string)
    ensures SessionTotal(log + [x], session)
         == SessionTotal(log, session) + (if x.Admitted? && x.session == session then 1 else 0)
  {
    assert (log + [x])[..|log|] == log;
  }

  lemma HostTimesSnoc(log: Log, x: Event, host: string)
    ensures HostTimes(log + [x], host)
         == if x.Admitted? && x.host == host then HostTimes(log, host) + [x.time] else HostTimes(log, host)
  {
    assert (log + [x])[..|log|] == log;
  }

  lemma RecentSnoc(times: seq<real>, t: real, now: real, window: real)
    ensures Recent(times + [t], now, window)
         == if now - t < window then Recent(times, now, window) + [t] else Recent(times, now, window)
  {
    assert (times + [t])[..|times|] == times;
  }

  /** Looking later can only forget: filtering at an earlier moment first changes nothing. */
  lemma {:induction false} RecentLater(times: seq<real>, earlier: real, now: real, window: real)
    requires earlier <= now
    ensures Recent(Recent(times, earlier, window), now, window) == Recent(times, now, window)
  {
    if times != [] {
      var init, t := times[..|times| - 1], times[|times| - 1];
      RecentLater(init, earlier, now, window);
      RecentSnoc(Recent(init, earlier, window), t, now, window);
    }
  }

  lemma LawfulSnoc(cfg: Config, log: Log, e: Event)
    requires Lawful(cfg, log)
    requires e.Admitted? ==> Allows(cfg, log, e.session, e.url, e.host, e.time)
    requires e.Admitted? ==> NoneAfter(log, e.time)
    ensures Lawful(cfg, log + [e])
  {
    var longer := log + [e];
    assert longer[..|log|] == log;
    forall j | 0 <= j < |longer| ensures LawfulAt(cfg, longer, j) {
      if j < |log| { assert LawfulAt(cfg, log, j) && longer[..j] == log[..j]; }
    }
  }

  ghost predicate NoneAfter(log: Log, time: real) {
    forall e <- log :: e.Admitted? ==> e.time <= time
  }

  /** Every admission in the log was allowed by the rule at the moment it was made, and
      the clock never went back. */
  ghost predicate Lawful(cfg: Config, log: Log) {
    forall j :: 0 <= j < |log| ==> LawfulAt(cfg, log, j)
  }

  ghost predicate LawfulAt(cfg: Config, log: Log, j: nat)
    requires j < |log|
  {
    log[j].Admitted? ==>
      && Allows(cfg, log[..j], log[j].session, log[j].url, log[j].host, log[j].time)
      && NoneAfter(log[..j], log[j].time)
  }

  // ---------------------------------------------------------------- what holds over every run

  /** Until something is evicted the rule reads the whole admission history. */
  lemma {:induction false} NothingForgotten(log: Log, e: Event)
    requires e !in log
    ensures Since(log, e) == log
  {
    if log != [] {
      assert log == log[..|log| - 1] + [log[|log| - 1]];
      NothingForgotten(log[..|log| - 1], e);
    }
  }

  lemma WholeHistoryRule(cfg: Config, log: Log, session: string, url: string, host: string, now: real)
    requires forall e <- log :: e.Admitted?
    ensures Allows(cfg, log, session, url, host, now)
       <==> && SessionTotal(log, session) < cfg.maxPerSession
            && (forall e <- log :: e.Admitted? && e.url == url ==> now - e.time >= cfg.dedupeSeconds)
            && |Recent(HostTimes(log, host), now, cfg.dedupeSeconds)| < cfg.maxPerHost
  {
    NothingForgotten(log, EvictedSession(session));
    NothingForgotten(log, EvictedUrl(url));
    NothingForgotten(log, EvictedHost(host));
  }

  /** Pruning forgets exactly what stands on the oldest positions past the limit and still matters. */
  lemma EvictedExactly(seen: Dict<real>, totals: Dict<nat>, recent: Dict<seq<real>>, now: real, window: real)
    ensures var (log, live) := (Evictions(seen, totals, recent, now, window), Live(seen, now, window));
            && (forall k :: EvictedUrl(k) in log <==> k in live.keys[..Excess(live.keys)])
            && (forall k :: EvictedSession(k) in log <==> k in totals.keys[..Excess(totals.keys)] && totals.GetOr(k, 0) > 0)
            && (forall k :: EvictedHost(k) in log <==>
                  k in recent.keys[..Excess(recent.keys)] && Recent(recent.GetOr(k, []), now, window) != [])
            && (forall e <- log :: !e.Admitted?)
  {
    var live := Live(seen, now, window);
    UrlEvictionKinds(live.keys[..Excess(live.keys)]);
    SessionEvictionKinds(totals, totals.keys[..Excess(totals.keys)]);
    HostEvictionKinds(recent, recent.keys[..Excess(recent.keys)], now, window);
  }

  // ---------------------------------------------------------------- what pruning means

  ghost predicate CoolingAt(was: Dict<real>, i: nat, now: real, window: real) {
    i < |was.keys| && now - was.GetOr(was.keys[i], 0.0) < window
  }

  /** How many of the URLs standing behind position `i` are still cooling down. */
  ghost function Behind(was: Dict<real>, i: int, now: real, window: real): nat {
    |set j: nat | i < j < |was.keys| && CoolingAt(was, j, now, window)|
  }

  /** Up to 4096 URLs nothing changes. Past that, exactly the last 4096 of those still cooling down remain, with
      their times and in their old order. */
  ghost predicate KeepsLastCooling(was: Dict<real>, kept: Dict<real>, now: real, window: real) {
    && (|was.keys| <= 4096 ==> kept == was)
    && (|was.keys| > 4096 ==> forall i: nat {:trigger was.keys[i]} :: i < |was.keys| ==>
          (was.keys[i] in kept.vals <==> CoolingAt(was, i, now, window) && Behind(was, i, now, window) < 4096))
    && (forall k {:trigger k in kept.vals} :: k in kept.vals ==> k in was.vals && kept.vals[k] == was.vals[k])
    && (forall a, b {:trigger kept.keys[a], kept.keys[b]} :: 0 <= a < b < |kept.keys| ==>
          InThisOrder(was.keys, kept.keys[a], kept.keys[b]))
    && kept.Valid()
  }

  /** A URL is forgotten if and only if it was still cooling down, with at least 4096 such URLs behind it. */
  ghost predicate ForgetsUrls(was: Dict<real>, evicted: Log, now: real, window: real) {
    forall k {:trigger EvictedUrl(k)} :: EvictedUrl(k) in evicted <==>
      |was.keys| > 4096 && exists i: nat :: i < |was.keys| && was.keys[i] == k && CoolingAt(was, i, now, window)
                                            && Behind(was, i, now, window) >= 4096
  }

  /** The last 4096 entries remain. */
  ghost predicate KeepsLast<V(!new)>(was: Dict<V>, kept: Dict<V>) {
    && kept.keys == (if |was.keys| <= 4096 then was.keys else was.keys[|was.keys| - 4096..])
    && (forall k {:trigger k in kept.vals} :: k in kept.vals ==> k in was.vals && kept.vals[k] == was.vals[k])
    && kept.Valid()
  }

  /** A session is forgotten if and only if it had used something, and a host if it had an admission inside the
      window, and 4096 others stood behind it. */
  ghost predicate ForgetsOthers(totals: Dict<nat>, recent: Dict<seq<real>>, evicted: Log, now: real, window: real) {
    && (forall k {:trigger EvictedSession(k)} :: EvictedSession(k) in evicted <==>
          (exists i :: 0 <= i < |totals.keys| - 4096 && totals.keys[i] == k) && totals.GetOr(k, 0) > 0)
    && (forall k {:trigger EvictedHost(k)} :: EvictedHost(k) in evicted <==>
          && (exists i :: 0 <= i < |recent.keys| - 4096 && recent.keys[i] == k)
          && (exists t {:trigger t in recent.GetOr(k, [])} :: t in recent.GetOr(k, []) && now - t < window))
  }

  lemma KeptExactly(was: Dict<real>, now: real, window: real, i: nat)
    requires was.Valid() && i < |was.keys| && |was.keys| > MAX_TRACKED
    ensures var (kept, live, k) := (PrunedUrls(was, now, window), Live(was, now, window), was.keys[i]);
            && (k in kept.vals <==> CoolingAt(was, i, now, window) && Behind(was, i, now, window) < 4096)
            && (k in live.keys[..Excess(live.keys)] <==> CoolingAt(was, i, now, window) && Behind(was, i, now, window) >= 4096)
  {
    var keep, live := Cooling(now, window), Live(was, now, window);
    var n := Excess(live.keys);
    assert was.keys[i] in was.vals;
    assert Passing(was.keys, was.vals, keep, i + 1) == set j: nat | i < j < |was.keys| && CoolingAt(was, j, now, window);
    if CoolingAt(was, i, now, window) {
      var p := FilterAt(was.keys, was.vals, keep, i);
      PositionCut(live.keys, n, p);
      assert live.Valid() && live.keys[p] == was.keys[i];
    } else {
      assert was.keys[i] !in live.keys;
    }
  }

  lemma PositionCut(keys: seq<string>, n: nat, p: nat)
    requires n <= |keys| && p < |keys| && forall i, j :: 0 <= i < j < |keys| ==> keys[i] != keys[j]
    ensures keys[p] in keys[..n] <==> p < n
  {
    if p < n { assert keys[..n][p] == keys[p]; }
  }

  lemma PruningOrder(was: Dict<real>, now: real, window: real, a: nat, b: nat)
    requires was.Valid()
    requires var kept := PrunedUrls(was, now, window); a < b < |kept.keys|
    ensures var kept := PrunedUrls(was, now, window); InThisOrder(was.keys, kept.keys[a], kept.keys[b])
  {
    hide FilterKeys;
    var live := Live(was, now, window);
    var n := Excess(live.keys);
    if |was.keys| > MAX_TRACKED {
      FilterInOrder(was.keys, was.vals, Cooling(now, window), a + n, b + n);
    }
  }

  lemma LastKept<V(!new)>(was: Dict<V>)
    requires was.Valid()
    ensures KeepsLast(was, PrunedKeys(was))
  {
    was.DropNone();
    was.DropOldestValid(Excess(was.keys));
  }

  lemma {:induction false} RecentSome(times: seq<real>, now: real, window: real)
    ensures Recent(times, now, window) != [] <==> exists t {:trigger t in times} :: t in times && now - t < window
  {
    if times != [] {
      var front, last := times[..|times| - 1], times[|times| - 1];
      RecentSome(front, now, window);
      assert times == front + [last] && last in times;
      assert forall t :: t in front ==> t in times;
    }
  }

  lemma InFront<T>(keys: seq<T>, n: nat, k: T)
    requires n <= |keys|
    ensures k in keys[..n] <==> exists i :: 0 <= i < n && keys[i] == k
  {
  }

  lemma PrunedUrlsWithin(was: Dict<real>, now: real, window: real)
    requires was.Valid()
    ensures var kept := PrunedUrls(was, now, window);
            && kept.Valid() && (|was.keys| <= 4096 ==> kept == was)
            && forall k {:trigger k in kept.vals} :: k in kept.vals ==> k in was.vals && kept.vals[k] == was.vals[k]
  {
    var live := Live(was, now, window);
    live.DropNone();
    live.DropOldestValid(Excess(live.keys));
  }

  lemma UrlPruningKeeps(was: Dict<real>, now: real, window: real)
    requires was.Valid()
    ensures KeepsLastCooling(was, PrunedUrls(was, now, window), now, window)
  {
    hide CoolingAt, Behind, InThisOrder, PrunedUrls;
    var kept := PrunedUrls(was, now, window);
    PrunedUrlsWithin(was, now, window);
    forall a, b {:trigger kept.keys[a], kept.keys[b]} | 0 <= a < b < |kept.keys| ensures InThisOrder(was.keys, kept.keys[a], kept.keys[b]) {
      PruningOrder(was, now, window, a, b);
    }
    if |was.keys| > 4096 {
      forall i: nat {:trigger was.keys[i]} | i < |was.keys|
        ensures was.keys[i] in kept.vals <==> CoolingAt(was, i, now, window) && Behind(was, i, now, window) < 4096
      {
        KeptExactly(was, now, window, i);
      }
    }
  }

  lemma UrlPruningForgets(was: Dict<real>, totals: Dict<nat>, recent: Dict<seq<real>>, now: real, window: real)
    requires was.Valid()
    ensures ForgetsUrls(was, Evictions(was, totals, recent, now, window), now, window)
  {
    hide CoolingAt, Behind, Evictions;
    var live, evicted := Live(was, now, window), Evictions(was, totals, recent, now, window);
    EvictedExactly(was, totals, recent, now, window);
    if |was.keys| > 4096 {
      forall i: nat {:trigger was.keys[i]} | i < |was.keys|
        ensures was.keys[i] in live.keys[..Excess(live.keys)] <==> CoolingAt(was, i, now, window) && Behind(was, i, now, window) >= 4096
      {
        KeptExactly(was, now, window, i);
      }
      forall k {:trigger EvictedUrl(k)} | EvictedUrl(k) in evicted
        ensures exists i: nat :: i < |was.keys| && was.keys[i] == k && CoolingAt(was, i, now, window) && Behind(was, i, now, window) >= 4096
      {
        assert live.Valid() && k in live.keys && k in live.vals && k in was.keys;
        var i :| 0 <= i < |was.keys| && was.keys[i] == k;
      }
    }
  }

  lemma OtherPruningForgets(was: Dict<real>, totals: Dict<nat>, recent: Dict<seq<real>>, now: real, window: real)
    ensures ForgetsOthers(totals, recent, Evictions(was, totals, recent, now, window), now, window)
  {
    hide Evictions, Recent, Live;
    var evicted := Evictions(was, totals, recent, now, window);
    EvictedExactly(was, totals, recent, now, window);
    forall k {:trigger EvictedSession(k)} ensures EvictedSession(k) in evicted <==>
      (exists i :: 0 <= i < |totals.keys| - 4096 && totals.keys[i] == k) && totals.GetOr(k, 0) > 0
    {
      InFront(totals.keys, Excess(totals.keys), k);
    }
    forall k {:trigger EvictedHost(k)} ensures EvictedHost(k) in evicted <==>
      && (exists i :: 0 <= i < |recent.keys| - 4096 && recent.keys[i] == k)
      && (exists t {:trigger t in recent.GetOr(k, [])} :: t in recent.GetOr(k, []) && now - t < window)
    {
      InFront(recent.keys, Excess(recent.keys), k);
      RecentSome(recent.GetOr(k, []), now, window);
    }
  }

  lemma {:induction false} SinceAppend(a: Log, b: Log, e: Event)
    requires e !in b
    ensures Since(a + b, e) == Since(a, e) + b
  {
    if b == [] {
      assert a + b == a;
    } else {
      var init, x := b[..|b| - 1], b[|b| - 1];
      SinceAppend(a, init, e);
      assert a + b == (a + init) + [x];
      SinceSnoc(a + init, x, e);
    }
  }

  lemma {:induction false} HostTimesAppend(a: Log, b: Log, host: string)
    ensures HostTimes(a + b, host) == HostTimes(a, host) + HostTimes(b, host)
  {
    if b == [] {
      assert a + b == a;
    } else {
      var init, x := b[..|b| - 1], b[|b| - 1];
      HostTimesAppend(a, init, host);
      assert a + b == (a + init) + [x];
      HostTimesSnoc(a + init, x, host);
    }
  }

  lemma {:induction false} SessionTotalAppend(a: Log, b: Log, session: string)
    ensures SessionTotal(a + b, session) == SessionTotal(a, session) + SessionTotal(b, session)
  {
    if b == [] {
      assert a + b == a;
    } else {
      var init, x := b[..|b| - 1], b[|b| - 1];
      SessionTotalAppend(a, init, session);
      assert a + b == (a + init) + [x];
      SessionTotalSnoc(a + init, x, session);
    }
  }

  lemma {:induction false} RecentAppend(a: seq<real>, b: seq<real>, now: real, window: real)
    requires forall k :: 0 <= k < |b| ==> now - b[k] < window
    ensures Recent(a + b, now, window) == Recent(a, now, window) + b
  {
    if b == [] {
      assert a + b == a;
    } else {
      var init, t := b[..|b| - 1], b[|b| - 1];
      RecentAppend(a, init, now, window);
      assert a + b == (a + init) + [t];
      RecentSnoc(a + init, t, now, window);
    }
  }

  lemma {:induction false} HostTimesRecent(log: Log, host: string, now: real, window: real)
    requires forall e <- log :: e.Admitted? && e.host == host ==> now - e.time < window
    ensures forall k :: 0 <= k < |HostTimes(log, host)| ==> now - HostTimes(log, host)[k] < window
  {
    if log != [] {
      assert log[|log| - 1] in log;
      HostTimesRecent(log[..|log| - 1], host, now, window);
    }
  }

  /** The part of a lawful log from `i` up to an admission at `j`. */
  lemma Segment(log: Log, i: nat, j: nat, e: Event)
    requires i <= j < |log| && e !in log[i..j]
    ensures Since(log[..j], e) == Since(log[..i], e) + log[i..j]
  {
    assert log[..j] == log[..i] + log[i..j];
    SinceAppend(log[..i], log[i..j], e);
  }

  /** In every run, two admissions of one URL are at least the cooldown apart, unless the
      limiter was made to forget that URL in between. */
  lemma CooldownUnlessEvicted(cfg: Config, log: Log, i: nat, j: nat)
    requires Lawful(cfg, log) && i < j < |log|
    requires log[i].Admitted? && log[j].Admitted? && log[i].url == log[j].url
    requires EvictedUrl(log[j].url) !in log[i..j]
    ensures log[j].time - log[i].time >= cfg.dedupeSeconds
  {
    assert LawfulAt(cfg, log, j);
    var e := EvictedUrl(log[j].url);
    Segment(log, i, j, e);
    var earlier := Since(log[..i], e);
    assert log[i..j][0] == log[i];
    assert (earlier + log[i..j])[|earlier|] == log[i];
    assert log[i] in Since(log[..j], e);
  }

  /** In every run, a stretch of the log whose admissions of one host all fall inside one
      window holds at most the cap, unless that host was forgotten on the way. */
  lemma HostCapUnlessEvicted(cfg: Config, log: Log, i: nat, j: nat, host: string)
    requires Lawful(cfg, log) && i <= j < |log| && log[j].Admitted? && log[j].host == host
    requires forall x <- log[i..j] :: x.Admitted? && x.host == host ==> log[j].time - x.time < cfg.dedupeSeconds
    requires EvictedHost(host) !in log[i..j]
    ensures |HostTimes(log[i..j + 1], host)| <= cfg.maxPerHost
  {
    var before, stretch, e := Since(log[..i], EvictedHost(host)), log[i..j], EvictedHost(host);
    Segment(log, i, j, e);
    RecentStretch(before, stretch, host, log[j].time, cfg.dedupeSeconds);
    assert |HostTimes(stretch, host)| < cfg.maxPerHost by { assert LawfulAt(cfg, log, j); }
    assert log[i..j + 1] == stretch + [log[j]];
    HostTimesSnoc(stretch, log[j], host);
  }

  lemma RecentStretch(before: Log, stretch: Log, host: string, now: real, window: real)
    requires forall x <- stretch :: x.Admitted? && x.host == host ==> now - x.time < window
    ensures |Recent(HostTimes(before + stretch, host), now, window)| >= |HostTimes(stretch, host)|
  {
    HostTimesAppend(before, stretch, host);
    HostTimesRecent(stretch, host, now, window);
    RecentAppend(HostTimes(before, host), HostTimes(stretch, host), now, window);
  }

  /** In every run, one session is never given more than its budget, unless it was forgotten
      on the way. */
  lemma SessionCapUnlessEvicted(cfg: Config, log: Log, i: nat, j: nat, session: string)
    requires Lawful(cfg, log) && i <= j < |log| && log[j].Admitted? && log[j].session == session
    requires EvictedSession(session) !in log[i..j]
    ensures SessionTotal(log[i..j + 1], session) <= cfg.maxPerSession
  {
    Segment(log, i, j, EvictedSession(session));
    SessionTotalAppend(Since(log[..i], EvictedSession(session)), log[i..j], session);
    assert SessionTotal(log[i..j], session) < cfg.maxPerSession by { assert LawfulAt(cfg, log, j); }
    assert log[i..j + 1] == log[i..j] + [log[j]];
    SessionTotalSnoc(log[i..j], log[j], session);
  }

  // ---------------------------------------------------------------- a run that forgets

  ghost predicate NoDup(urls: seq<string>) { forall i, j :: 0 <= i < j < |urls| ==> urls[i] != urls[j] }

  /** One admission for each URL, all at once. */
  ghost function Admissions(session: string, urls: seq<string>, hostOf: string -> string, now: real): Log {
    seq(|urls|, k requires 0 <= k < |urls| => Admitted(session, urls[k], hostOf(urls[k]), now))
  }

  lemma {:induction false} TotalsBounded(log: Log, session: string, host: string, now: real, window: real)
    ensures SessionTotal(log, session) <= |log| && |HostTimes(log, host)| <= |log|
    ensures |Recent(HostTimes(log, host), now, window)| <= |log|
  {
    if log != [] {
      var front, e := log[..|log| - 1], log[|log| - 1];
      TotalsBounded(front, session, host, now, window);
      if e.Admitted? && e.host == host { RecentSnoc(HostTimes(front, host), e.time, now, window); }
    }
  }

  lemma {:induction false} SinceShort(log: Log, e: Event)
    ensures |Since(log, e)| <= |log|
  {
    if log != [] { SinceShort(log[..|log| - 1], e); }
  }

  /** While no budget is near its end, a URL the rule remembers nothing about is admitted. */
  lemma UnknownUrlAllowed(cfg: Config, log: Log, session: string, url: string, host: string, now: real)
    requires |log| < cfg.maxPerSession && |log| < cfg.maxPerHost
    requires forall e <- Since(log, EvictedUrl(url)) :: e.Admitted? ==> e.url != url
    ensures Allows(cfg, log, session, url, host, now)
  {
    SinceShort(log, EvictedSession(session));
    SinceShort(log, EvictedHost(host));
    TotalsBounded(Since(log, EvictedSession(session)), session, host, now, cfg.dedupeSeconds);
    TotalsBounded(Since(log, EvictedHost(host)), session, host, now, cfg.dedupeSeconds);
  }

  lemma {:induction false} NewUrlsAdmitted(cfg: Config, log: Log, session: string, urls: seq<string>, hostOf: string -> string, now: real)
    requires |log| + |urls| <= cfg.maxPerSession && |log| + |urls| <= cfg.maxPerHost && NoDup(urls)
    requires forall e <- log :: e.Admitted? && e.url !in urls
    ensures NaiveBatch(cfg, log, session, urls, hostOf, now) == log + Admissions(session, urls, hostOf, now)
    decreases |urls|
  {
    hide Allows, Since;
    if urls == [] {
      assert log + [] == log;
    } else {
      var e := Admitted(session, urls[0], hostOf(urls[0]), now);
      NothingForgotten(log, EvictedUrl(urls[0]));
      UnknownUrlAllowed(cfg, log, session, urls[0], hostOf(urls[0]), now);
      NewUrlsAdmitted(cfg, log + [e], session, urls[1..], hostOf, now);
      assert log + [e] + Admissions(session, urls[1..], hostOf, now) == log + Admissions(session, urls, hostOf, now);
    }
  }

  lemma {:induction false} SetAllNew(urls: seq<string>, now: real)
    requires NoDup(urls)
    ensures var d := SetAll(Dict([], map[]), urls, now); d.keys == urls && d.Valid() && forall k :: k in d.vals ==> d.vals[k] == now
    decreases |urls|
  {
    if urls != [] {
      var front, last := urls[..|urls| - 1], urls[|urls| - 1];
      assert urls == front + [last];
      SetAllNew(front, now);
    }
  }

  /** `n` different URLs. */
  function ManyUrls(n: nat): (urls: seq<string>)
    ensures |urls| == n && forall i :: 0 <= i < n ==> |urls[i]| == i
  {
    seq(n, i requires 0 <= i < n => seq(i, j => 'u'))
  }

  /** After a pruning pass has thrown a URL away, the rule admits it again. */
  lemma ReadmittedAfterPruning(cfg: Config, log: Log, evicted: Log, session: string, url: string, hostOf: string -> string, now: real)
    requires |log| + |evicted| < cfg.maxPerSession && |log| + |evicted| < cfg.maxPerHost
    requires EvictedUrl(url) in evicted && forall e <- evicted :: !e.Admitted?
    ensures NaiveBatch(cfg, log + evicted, session, [url], hostOf, now) == log + evicted + [Admitted(session, url, hostOf(url), now)]
  {
    SinceEvicted(log, evicted, EvictedUrl(url));
    UnknownUrlAllowed(cfg, log + evicted, session, url, hostOf(url), now);
    assert [url][1..] == [];
  }

  lemma {:induction false} SinceEvicted(log: Log, evicted: Log, e: Event)
    requires e in evicted && forall x <- evicted :: !x.Admitted?
    ensures forall x <- Since(log + evicted, e) :: !x.Admitted?
    decreases |evicted|
  {
    var front, last := evicted[..|evicted| - 1], evicted[|evicted| - 1];
    assert evicted == front + [last];
    assert log + evicted == log + front + [last];
    SinceSnoc(log + front, last, e);
    if last != e { SinceEvicted(log, front, e); }
  }

  /** A run of the limiter in which one URL is admitted twice, a second apart, under a cooldown of a hundred
      seconds: 4097 other admissions in between were one too many to remember. */
  method ForgetsUnderLoad() returns (limiter: Stage2Limiter, url: string)
    ensures limiter.Valid() && limiter.cfg.dedupeSeconds == 100.0
    ensures exists i, j :: 0 <= i < j < |limiter.log|
              && limiter.log[i] == Admitted("s", url, "h", 0.0) && limiter.log[j] == Admitted("s", url, "h", 1.0)
  {
    hide SetAll, NaiveBatch, Evictions, UrlsAgree, SessionsAgree, HostsAgree, Lawful, NoneAfter, AdmittedUrls, Admissions, PrunedUrls, Live,
         KeepsLastCooling, ForgetsUrls, ForgetsOthers;
    var cfg := Config(100.0, 20000, 20000);
    var hostOf: string -> string := u => "h";
    limiter := new Stage2Limiter(cfg, hostOf, 0.0);
    var urls := ManyUrls(MAX_TRACKED + 1);
    assert NoDup(urls);
    url := urls[0];
    FirstBatch(cfg, "s", urls, hostOf, 0.0);
    var admitted := limiter.Admit("s", urls, 0.0);
    ghost var first := limiter.log;
    assert first == Admissions("s", urls, hostOf, 0.0);
    assert AdmittedUrls([]) + admitted == admitted;
    SetAllNew(urls, 0.0);
    ghost var evicted := Evictions(limiter.seenUrls, limiter.perSession, limiter.perHost, 1.0, 100.0);
    OneTooMany(limiter.seenUrls, limiter.perSession, limiter.perHost, 1.0, 100.0);
    ReadmittedAfterPruning(cfg, first, evicted, "s", url, hostOf, 1.0);
    admitted := limiter.Admit("s", [url], 1.0);
    assert limiter.log[0] == Admitted("s", url, "h", 0.0);
    assert limiter.log[|first + evicted|] == Admitted("s", url, "h", 1.0);
  }

  /** A fresh limiter admits a whole batch of different URLs. */
  lemma FirstBatch(cfg: Config, session: string, urls: seq<string>, hostOf: string -> string, now: real)
    requires |urls| <= cfg.maxPerSession && |urls| <= cfg.maxPerHost && NoDup(urls)
    ensures var empty := Evictions(Dict([], map[]), Dict([], map[]), Dict([], map[]), now, cfg.dedupeSeconds);
            NaiveBatch(cfg, [] + empty, session, urls, hostOf, now) == Admissions(session, urls, hostOf, now)
    ensures AdmittedUrls(Admissions(session, urls, hostOf, now)) == urls && AdmittedUrls([]) == []
    ensures PrunedUrls(Dict([], map[]), now, cfg.dedupeSeconds) == Dict([], map[])
    ensures |Admissions(session, urls, hostOf, now)| == |urls|
    ensures urls != [] ==> Admissions(session, urls, hostOf, now)[0] == Admitted(session, urls[0], hostOf(urls[0]), now)
  {
    NothingToEvict(now, cfg.dedupeSeconds);
    NewUrlsAdmitted(cfg, [], session, urls, hostOf, now);
    AdmissionsOf(session, urls, hostOf, now);
    var nothing: Log := [];
    assert nothing + nothing == nothing && [] + urls == urls;
    assert nothing + Admissions(session, urls, hostOf, now) == Admissions(session, urls, hostOf, now);
  }

  lemma NothingToEvict(now: real, window: real)
    ensures Evictions(Dict([], map[]), Dict([], map[]), Dict([], map[]), now, window) == []
    ensures PrunedUrls(Dict([], map[]), now, window) == Dict([], map[])
  {
    var empty: Dict<real> := Dict([], map[]);
    empty.DropNone();
  }

  lemma {:induction false} AdmissionsOf(session: string, urls: seq<string>, hostOf: string -> string, now: real)
    ensures AdmittedUrls([] + Admissions(session, urls, hostOf, now)) == [] + urls
    ensures AdmittedUrls([]) == [] && [] + Admissions(session, urls, hostOf, now) == Admissions(session, urls, hostOf, now)
    ensures |Admissions(session, urls, hostOf, now)| == |urls|
    ensures urls != [] ==> Admissions(session, urls, hostOf, now)[0] == Admitted(session, urls[0], hostOf(urls[0]), now)
    decreases |urls|
  {
    if urls != [] {
      var front, last := urls[..|urls| - 1], urls[|urls| - 1];
      assert urls == front + [last];
      AdmissionsOf(session, front, hostOf, now);
      var e := Admitted(session, last, hostOf(last), now);
      assert [] + Admissions(session, urls, hostOf, now) == ([] + Admissions(session, front, hostOf, now)) + [e];
      AdmittedUrlsSnoc([] + Admissions(session, front, hostOf, now), e);
    }
  }

  /** One live URL past the limit: the oldest position goes. */
  lemma OneTooMany(seen: Dict<real>, totals: Dict<nat>, recent: Dict<seq<real>>, now: real, window: real)
    requires seen.Valid() && |seen.keys| == MAX_TRACKED + 1 && forall k :: k in seen.vals ==> now - seen.vals[k] < window
    ensures var evicted := Evictions(seen, totals, recent, now, window);
            && EvictedUrl(seen.keys[0]) in evicted && (forall e <- evicted :: !e.Admitted?)
            && |evicted| <= 1 + |totals.keys| + |recent.keys|
  {
    EvictedExactly(seen, totals, recent, now, window);
    var live := Live(seen, now, window);
    assert live.keys == seen.keys && live.keys[..1] == [seen.keys[0]];
    EvictionsFew(live.keys[..Excess(live.keys)], totals, totals.keys[..Excess(totals.keys)], recent, recent.keys[..Excess(recent.keys)], now, window);
  }

  lemma EvictionsFew(urls: seq<string>, totals: Dict<nat>, sessions: seq<string>, recent: Dict<seq<real>>, hosts: seq<string>, now: real, window: real)
    ensures |UrlEvictions(urls)| <= |urls| && |SessionEvictions(totals, sessions)| <= |sessions|
    ensures |HostEvictions(recent, hosts, now, window)| <= |hosts|
    decreases |urls| + |sessions| + |hosts|
  {
    if urls != [] { EvictionsFew(urls[..|urls| - 1], totals, sessions, recent, hosts, now, window); }
    if sessions != [] { EvictionsFew(urls, totals, sessions[..|sessions| - 1], recent, hosts, now, window); }
    if hosts != [] { EvictionsFew(urls, totals, sessions, recent, hosts[..|hosts| - 1], now, window); }
  }
}
