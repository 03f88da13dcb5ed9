/**
 The login limiter: sliding windows of failures per address and per account, pruned when they are checked.
 Times are nanoseconds of one clock that does not go back.
 */
module LoginLimiter {
  import opened Options
  import opened Sets

  const MINUTE := 60 * 1_000_000_000
  const QUARTER := 15 * MINUTE
  const MAX_PER_IP := 5
  const MAX_PER_ACCOUNT := 10

  datatype Account = Account(failures: seq<int>, lockedAt: Option<int>)

  datatype Limits = Limits(ips: map<string, seq<int>>, accounts: map<string, Account>)

  /** The times less than a window ago. */
  function Young(times: seq<int>, now: int, window: int): seq<int> {
    if times == [] then []
    else
      var rest, last := Young(times[..|times| - 1], now, window), times[|times| - 1];
      if now - last < window then rest + [last] else rest
  }

  function TimesOf(l: Limits, ip: string): seq<int> {
    if ip in l.ips then l.ips[ip] else []
  }

  function AccountOf(l: Limits, key: string): Account {
    if key in l.accounts then l.accounts[key] else Account([], None)
  }

  // ---------- the limiter ----------

  datatype Event =
    | Check(ip: string, key: string, now: int)
    | Failure(ip: string, key: string, now: int)
    | IpFailure(ip: string, now: int)
    | Success(key: string, now: int)

  /** ip and account: whether a check lets the request through; locked: whether a failure locks the account. */
  datatype Answer = Answer(ip: bool, account: bool, locked: bool)

  predicate LockedNow(a: Account, now: int) {
    a.lockedAt.Some? && now - a.lockedAt.value < QUARTER
  }

  function CheckedAccount(a: Account, now: int): Account {
    if LockedNow(a, now) then a
    else if a.lockedAt.Some? then Account([], None)
    else a.(failures := Young(a.failures, now, QUARTER))
  }

  function FailedAccount(a: Account, now: int): Account {
    if |a.failures| + 1 >= MAX_PER_ACCOUNT then Account([], Some(now)) else a.(failures := a.failures + [now])
  }

  function AddIp(ips: map<string, seq<int>>, ip: string, now: int): map<string, seq<int>> {
    if ip == "" then ips else ips[ip := (if ip in ips then ips[ip] else []) + [now]]
  }

  function Step(l: Limits, e: Event): Limits {
    match e
    case Check(ip, key, now) =>
      Limits(if ip == "" then l.ips else l.ips[ip := Young(TimesOf(l, ip), now, MINUTE)],
             if key in l.accounts && key != "" then l.accounts[key := CheckedAccount(l.accounts[key], now)]
             else l.accounts)
    case Failure(ip, key, now) =>
      Limits(AddIp(l.ips, ip, now),
             if key == "" then l.accounts else l.accounts[key := FailedAccount(AccountOf(l, key), now)])
    case IpFailure(ip, now) => l.(ips := AddIp(l.ips, ip, now))
    case Success(key, _) => if key == "" then l else l.(accounts := l.accounts - {key})
  }

  function AnswerTo(l: Limits, e: Event): Answer {
    match e
    case Check(ip, key, now) =>
      Answer(ip == "" || |Young(TimesOf(l, ip), now, MINUTE)| < MAX_PER_IP,
             key == "" || !LockedNow(AccountOf(l, key), now), false)
    case Failure(_, key, now) => Answer(true, true, key != "" && |AccountOf(l, key).failures| + 1 >= MAX_PER_ACCOUNT)
    case _ => Answer(true, true, false)
  }

  function Run(events: seq<Event>): Limits {
    if events == [] then Limits(map[], map[]) else Step(Run(events[..|events| - 1]), events[|events| - 1])
  }

  // ---------- windows ----------

  lemma {:induction false} YoungOfYoung(times: seq<int>, now: int, later: int, window: int)
    requires now <= later
    ensures Young(Young(times, now, window), later, window) == Young(times, later, window)
  {
    if times != [] {
      var rest, last := Young(times[..|times| - 1], now, window), times[|times| - 1];
      YoungOfYoung(times[..|times| - 1], now, later, window);
      assert (rest + [last])[..|rest|] == rest;
    }
  }

  lemma {:induction false} YoungAppend(times: seq<int>, x: int, now: int, window: int)
    ensures Young(times + [x], now, window) == Young(times, now, window) + (if now - x < window then [x] else [])
  {
    assert (times + [x])[..|times|] == times;
  }

  // ---------- addresses ----------

  predicate InTime(events: seq<Event>) {
    forall j, k :: 0 <= j < k < |events| ==> events[j].now <= events[k].now
  }

  /** All failures ever recorded against an address. */
  function IpTimes(events: seq<Event>, ip: string): seq<int> {
    if events == [] then []
    else
      var rest, e := IpTimes(events[..|events| - 1], ip), events[|events| - 1];
      if FailsAt(e, ip) then rest + [e.now] else rest
  }

  predicate FailsAt(e: Event, ip: string) {
    (e.Failure? || e.IpFailure?) && e.ip == ip
  }

  lemma StepOfAddress(l: Limits, e: Event, ip: string)
    requires ip != ""
    ensures TimesOf(Step(l, e), ip) ==
              if e.Check? && e.ip == ip then Young(TimesOf(l, ip), e.now, MINUTE)
              else if FailsAt(e, ip) then TimesOf(l, ip) + [e.now]
              else TimesOf(l, ip)
  {
  }

  lemma {:induction false} PrunedAddress(events: seq<Event>, ip: string, now: int)
    requires ip != "" && InTime(events) && forall k :: 0 <= k < |events| ==> events[k].now <= now
    ensures Young(TimesOf(Run(events), ip), now, MINUTE) == Young(IpTimes(events, ip), now, MINUTE)
  {
    if events != [] {
      var before, e := events[..|events| - 1], events[|events| - 1];
      PrunedAddress(before, ip, now);
      StepOfAddress(Run(before), e, ip);
      if e.Check? && e.ip == ip {
        YoungOfYoung(TimesOf(Run(before), ip), e.now, now, MINUTE);
      } else if FailsAt(e, ip) {
        YoungAppend(TimesOf(Run(before), ip), e.now, now, MINUTE);
        YoungAppend(IpTimes(before, ip), e.now, now, MINUTE);
      }
    }
  }

  lemma PrefixInTime(events: seq<Event>, e: Event)
    requires InTime(events + [e])
    ensures InTime(events) && forall k :: 0 <= k < |events| ==> events[k].now <= e.now
  {
    var all := events + [e];
    forall k | 0 <= k < |events| ensures events[k].now <= e.now { assert all[k].now <= all[|events|].now; }
    forall j, k | 0 <= j < k < |events| ensures events[j].now <= events[k].now { assert all[j].now <= all[k].now; }
  }

  /** The failures recorded against an address in the minute before. */
  function LastMinute(events: seq<Event>, ip: string, now: int): set<nat> {
    set k: nat | k < |events| && FailsAt(events[k], ip) && now - events[k].now < 60 * 1_000_000_000
  }

  lemma OneMoreMinute(before: seq<Event>, e: Event, ip: string, now: int)
    ensures var events, n, earlier := before + [e], |before|, LastMinute(before, ip, now);
            && LastMinute(events, ip, now)
               == (if FailsAt(e, ip) && now - e.now < 60 * 1_000_000_000 then earlier + {n} else earlier)
            && n !in earlier
  {
    var events := before + [e];
    assert forall k: nat :: k < |before| ==> events[k] == before[k];
  }

  lemma {:induction false} YoungIsLastMinute(events: seq<Event>, ip: string, now: int)
    ensures |Young(IpTimes(events, ip), now, MINUTE)| == |LastMinute(events, ip, now)|
  {
    if events != [] {
      var before, e := events[..|events| - 1], events[|events| - 1];
      assert events == before + [e];
      YoungIsLastMinute(before, ip, now);
      OneMoreMinute(before, e, ip, now);
      YoungAppend(IpTimes(before, ip), e.now, now, MINUTE);
    }
  }

  /** The pruned list decides like the whole history: a check refuses an address exactly when at least
      five failures have been recorded against it in the minute before. */
  lemma AddressRefusedIff(events: seq<Event>, e: Event)
    requires InTime(events + [e]) && e.Check?
    ensures !AnswerTo(Run(events), e).ip <==> e.ip != "" && |LastMinute(events, e.ip, e.now)| >= 5
  {
    PrefixInTime(events, e);
    YoungIsLastMinute(events, e.ip, e.now);
    if e.ip != "" { PrunedAddress(events, e.ip, e.now); }
  }

  // ---------- accounts, by what was answered ----------

  predicate Succeeds(events: seq<Event>, k: nat, key: string)
    requires k < |events|
  {
    events[k].Success? && events[k].key == key
  }

  /** A failure recorded for the account, and answered as locking it. */
  predicate Locks(events: seq<Event>, k: nat, key: string)
    requires k < |events|
  {
    events[k].Failure? && events[k].key == key && AnswerTo(Run(events[..k]), events[k]).locked
  }

  /** A check that let the account through. */
  predicate Passes(events: seq<Event>, k: nat, key: string)
    requires k < |events|
  {
    events[k].Check? && events[k].key == key && AnswerTo(Run(events[..k]), events[k]).account
  }

  /** The account locked then, and has neither succeeded nor been let through since. */
  ghost predicate LockedSince(events: seq<Event>, k: nat, key: string)
    requires k < |events|
  {
    Locks(events, k, key) && forall j :: k < j < |events| ==> !Succeeds(events, j, key) && !Passes(events, j, key)
  }

  lemma SameBefore(before: seq<Event>, e: Event, k: nat, key: string)
    requires k < |before|
    ensures var events := before + [e];
            && (Succeeds(events, k, key) <==> Succeeds(before, k, key))
            && (Locks(events, k, key) <==> Locks(before, k, key))
            && (Passes(events, k, key) <==> Passes(before, k, key))
  {
    assert (before + [e])[..k] == before[..k];
  }

  lemma SameLast(before: seq<Event>, e: Event, key: string)
    ensures var events, n := before + [e], |before|;
            && Run(events) == Step(Run(before), e)
            && (Locks(events, n, key) <==> e.Failure? && e.key == key && AnswerTo(Run(before), e).locked)
            && (Passes(events, n, key) <==> e.Check? && e.key == key && AnswerTo(Run(before), e).account)
  {
    assert (before + [e])[..|before|] == before;
  }

  lemma StepOfAccount(l: Limits, e: Event, key: string)
    requires key != ""
    ensures AccountOf(Step(l, e), key)
            == if e.IpFailure? || e.key != key then AccountOf(l, key)
               else if e.Check? then CheckedAccount(AccountOf(l, key), e.now)
               else if e.Failure? then FailedAccount(AccountOf(l, key), e.now)
               else Account([], None)
  {
  }

  /** The lock that is kept is the last one, unless the account has succeeded or been let through since. */
  ghost predicate KeepsLock(events: seq<Event>, key: string) {
    match AccountOf(Run(events), key).lockedAt
    case None => forall k: nat :: k < |events| ==> !LockedSince(events, k, key)
    case Some(t) =>
      && (exists k: nat :: k < |events| && LockedSince(events, k, key) && events[k].now == t)
      && (forall k: nat :: k < |events| && Locks(events, k, key) ==> events[k].now <= t)
  }

  lemma SameSince(before: seq<Event>, e: Event, k: nat, key: string)
    requires k < |before|
    ensures LockedSince(before + [e], k, key)
            <==> && LockedSince(before, k, key)
                 && !Succeeds(before + [e], |before|, key) && !Passes(before + [e], |before|, key)
  {
    var events := before + [e];
    SameBefore(before, e, k, key);
    forall j: nat | k < j < |before|
      ensures Succeeds(events, j, key) == Succeeds(before, j, key) && Passes(events, j, key) == Passes(before, j, key)
    {
      SameBefore(before, e, j, key);
    }
  }

  /** What an event makes of a lock. */
  function LockAfter(before: seq<Event>, e: Event, key: string): Option<int> {
    if Locks(before + [e], |before|, key) then Some(e.now)
    else if Succeeds(before + [e], |before|, key) || Passes(before + [e], |before|, key) then None
    else AccountOf(Run(before), key).lockedAt
  }

  lemma StepOfLock(before: seq<Event>, e: Event, key: string)
    requires key != ""
    ensures AccountOf(Run(before + [e]), key).lockedAt == LockAfter(before, e, key)
  {
    SameLast(before, e, key);
    StepOfAccount(Run(before), e, key);
  }

  lemma StepKeepsLock(before: seq<Event>, e: Event, key: string)
    requires key != "" && KeepsLock(before, key) && forall k: nat :: k < |before| ==> before[k].now <= e.now
    ensures KeepsLock(before + [e], key)
  {
    var events, n := before + [e], |before|;
    StepOfLock(before, e, key);
    forall k: nat | k < n
      ensures events[k] == before[k] && (Locks(events, k, key) <==> Locks(before, k, key))
      ensures LockedSince(events, k, key)
              <==> LockedSince(before, k, key) && !Succeeds(events, n, key) && !Passes(events, n, key)
    {
      SameBefore(before, e, k, key);
      SameSince(before, e, k, key);
    }
    if Locks(events, n, key) {
      assert LockedSince(events, n, key);
    } else if LockAfter(before, e, key).Some? {
      var t := AccountOf(Run(before), key).lockedAt.value;
      var k: nat :| k < n && LockedSince(before, k, key) && before[k].now == t;
      assert LockedSince(events, k, key) && events[k].now == t;
    }
  }

  lemma {:induction false} RunKeepsLock(events: seq<Event>, key: string)
    requires key != "" && InTime(events)
    ensures KeepsLock(events, key)
  {
    if events != [] {
      var before, e := events[..|events| - 1], events[|events| - 1];
      assert events == before + [e];
      PrefixInTime(before, e);
      RunKeepsLock(before, key);
      StepKeepsLock(before, e, key);
    }
  }

  /** A failure of the account was answered as locking it in the fifteen minutes before, and it has not succeeded
      since. */
  ghost predicate LockedLately(events: seq<Event>, key: string, now: int) {
    exists k: nat :: k < |events| && Locks(events, k, key) && now - events[k].now < 15 * 60 * 1_000_000_000
                     && forall j :: k < j < |events| ==> !Succeeds(events, j, key)
  }

  lemma StillLocked(before: seq<Event>, e: Event, k: nat, key: string)
    requires key != "" && InTime(before) && k < |before| && LockedSince(before, k, key)
    requires e.now - before[k].now < 15 * 60 * 1_000_000_000
    ensures !Passes(before + [e], |before|, key)
  {
    RunKeepsLock(before, key);
    SameLast(before, e, key);
  }

  /** Nobody is let through while a lock is young, so only a success ends it. */
  lemma {:induction false} YoungLockHolds(events: seq<Event>, k: nat, key: string, now: int)
    requires key != "" && InTime(events) && k < |events| && Locks(events, k, key)
    requires forall j :: 0 <= j < |events| ==> events[j].now <= now
    requires now - events[k].now < 15 * 60 * 1_000_000_000
    requires forall j :: k < j < |events| ==> !Succeeds(events, j, key)
    ensures LockedSince(events, k, key)
  {
    if k < |events| - 1 {
      var before, e := events[..|events| - 1], events[|events| - 1];
      assert events == before + [e];
      PrefixInTime(before, e);
      SameBefore(before, e, k, key);
      forall j: nat | k < j < |before| ensures !Succeeds(before, j, key) { SameBefore(before, e, j, key); }
      YoungLockHolds(before, k, key, e.now);
      StillLocked(before, e, k, key);
      SameSince(before, e, k, key);
    }
  }

  /** A check refuses an account exactly when a failure of it was answered as locking it less than fifteen minutes
      before, and it has not succeeded since. */
  lemma AccountRefusedIff(events: seq<Event>, e: Event)
    requires InTime(events + [e]) && e.Check?
    ensures !AnswerTo(Run(events), e).account <==> e.key != "" && LockedLately(events, e.key, e.now)
  {
    if e.key != "" {
      PrefixInTime(events, e);
      RunKeepsLock(events, e.key);
      if LockedLately(events, e.key, e.now) {
        var k: nat :| k < |events| && Locks(events, k, e.key) && e.now - events[k].now < 15 * 60 * 1_000_000_000
                      && forall j :: k < j < |events| ==> !Succeeds(events, j, e.key);
        YoungLockHolds(events, k, e.key, e.now);
      }
    }
  }

  // ---------- the failures that count ----------

  /** The count begins anew: at a success, a lock, or the first check that lets the account through after a lock. */
  ghost predicate Resets(events: seq<Event>, j: nat, key: string)
    requires j < |events|
  {
    || Succeeds(events, j, key) || Locks(events, j, key)
    || (Passes(events, j, key) && exists k: nat :: k < j && LockedSince(events[..j], k, key))
  }

  /** A failure of the account since the last reset. */
  ghost predicate SinceReset(events: seq<Event>, k: nat, key: string)
    requires k < |events|
  {
    events[k].Failure? && events[k].key == key && forall j :: k <= j < |events| ==> !Resets(events, j, key)
  }

  /** Those less than fifteen minutes old at an instant. */
  ghost function YoungFailures(events: seq<Event>, key: string, now: int): set<nat> {
    set k: nat | k < |events| && SinceReset(events, k, key) && now - events[k].now < 15 * 60 * 1_000_000_000
  }

  /** The time of the last check that let the account through. */
  function Passed(events: seq<Event>, key: string): Option<int> {
    if events == [] then None
    else
      var before, e := events[..|events| - 1], events[|events| - 1];
      if e.Check? && e.key == key && AnswerTo(Run(before), e).account then Some(e.now) else Passed(before, key)
  }

  /** Those that were less than fifteen minutes old when the account last passed a check, and those since. */
  ghost function CountedFailures(events: seq<Event>, key: string): set<nat> {
    match Passed(events, key)
    case None => set k: nat | k < |events| && SinceReset(events, k, key)
    case Some(checked) => YoungFailures(events, key, checked)
  }

  /** The times of the failures since the last reset. */
  function Since(events: seq<Event>, key: string): seq<int> {
    if events == [] then []
    else
      var before, e := events[..|events| - 1], events[|events| - 1];
      if e.IpFailure? || e.key != key then Since(before, key)
      else if e.Success? then []
      else if e.Failure? then (if AnswerTo(Run(before), e).locked then [] else Since(before, key) + [e.now])
      else if AccountOf(Run(before), key).lockedAt.Some? && AnswerTo(Run(before), e).account then []
      else Since(before, key)
  }

  ghost predicate Recent(events: seq<Event>, k: nat, now: Option<int>)
    requires k < |events|
  {
    now.None? || now.value - events[k].now < 15 * 60 * 1_000_000_000
  }

  ghost function FailuresSince(events: seq<Event>, key: string, now: Option<int>): set<nat> {
    set k: nat | k < |events| && SinceReset(events, k, key) && Recent(events, k, now)
  }

  function TimesSince(events: seq<Event>, key: string, now: Option<int>): seq<int> {
    if now.None? then Since(events, key) else Young(Since(events, key), now.value, QUARTER)
  }

  lemma SameResets(before: seq<Event>, e: Event, k: nat, key: string)
    requires k < |before|
    ensures Resets(before + [e], k, key) <==> Resets(before, k, key)
  {
    SameBefore(before, e, k, key);
    assert (before + [e])[..k] == before[..k];
  }

  lemma LastResets(before: seq<Event>, e: Event, key: string)
    requires key != "" && InTime(before + [e])
    ensures Resets(before + [e], |before|, key)
            <==> !e.IpFailure? && e.key == key
                 && (e.Success? || AnswerTo(Run(before), e).locked
                     || (e.Check? && AccountOf(Run(before), key).lockedAt.Some? && AnswerTo(Run(before), e).account))
  {
    SameLast(before, e, key);
    PrefixInTime(before, e);
    RunKeepsLock(before, key);
    assert (before + [e])[..|before|] == before;
  }

  lemma SameSinceReset(before: seq<Event>, e: Event, k: nat, key: string)
    requires k < |before|
    ensures SinceReset(before + [e], k, key) <==> SinceReset(before, k, key) && !Resets(before + [e], |before|, key)
  {
    forall j: nat | k <= j < |before| ensures Resets(before + [e], j, key) <==> Resets(before, j, key) {
      SameResets(before, e, j, key);
    }
  }

  lemma OneMoreCounted(before: seq<Event>, e: Event, key: string, now: Option<int>)
    requires key != "" && InTime(before + [e])
    ensures var events, n, earlier := before + [e], |before|, FailuresSince(before, key, now);
            FailuresSince(events, key, now)
            == if Resets(events, n, key) then {}
               else if e.Failure? && e.key == key && Recent(events, n, now) then earlier + {n}
               else earlier
  {
    var events, n := before + [e], |before|;
    forall k: nat | k < n
      ensures SinceReset(events, k, key) <==> SinceReset(before, k, key) && !Resets(events, n, key)
      ensures Recent(events, k, now) <==> Recent(before, k, now)
    {
      SameSinceReset(before, e, k, key);
    }
  }

  lemma OneMoreTime(before: seq<Event>, e: Event, key: string, now: Option<int>)
    requires key != "" && InTime(before + [e])
    ensures var events, n, times := before + [e], |before|, TimesSince(before, key, now);
            TimesSince(events, key, now)
            == if Resets(events, n, key) then []
               else if e.Failure? && e.key == key && Recent(events, n, now) then times + [e.now]
               else times
  {
    assert (before + [e])[..|before|] == before;
    LastResets(before, e, key);
    if now.Some? { YoungAppend(Since(before, key), e.now, now.value, QUARTER); }
  }

  lemma {:induction false} CountsSince(events: seq<Event>, key: string, now: Option<int>)
    requires key != "" && InTime(events)
    ensures |TimesSince(events, key, now)| == |FailuresSince(events, key, now)|
  {
    if events != [] {
      var before, e := events[..|events| - 1], events[|events| - 1];
      assert events == before + [e];
      PrefixInTime(before, e);
      CountsSince(before, key, now);
      OneMoreCounted(before, e, key, now);
      OneMoreTime(before, e, key, now);
    }
  }

  lemma {:induction false} PrunedAccount(events: seq<Event>, key: string, now: int)
    requires key != "" && InTime(events) && forall k :: 0 <= k < |events| ==> events[k].now <= now
    ensures AccountOf(Run(events), key).failures == TimesSince(events, key, Passed(events, key))
    ensures Passed(events, key).Some? ==> Passed(events, key).value <= now
  {
    if events != [] {
      var before, e := events[..|events| - 1], events[|events| - 1];
      PrunedAccount(before, key, e.now);
      StepOfAccount(Run(before), e, key);
      if e.Check? && e.key == key {
        if Passed(before, key).Some? { YoungOfYoung(Since(before, key), Passed(before, key).value, e.now, QUARTER); }
      } else if e.Failure? && e.key == key && Passed(before, key).Some? {
        YoungAppend(Since(before, key), e.now, Passed(before, key).value, QUARTER);
      }
    }
  }

  lemma SmallerCounted(events: seq<Event>, key: string, now: int)
    requires InTime(events) && (Passed(events, key).Some? ==> Passed(events, key).value <= now)
    ensures YoungFailures(events, key, now) <= CountedFailures(events, key)
    ensures |YoungFailures(events, key, now)| <= |CountedFailures(events, key)|
  {
    SubsetSize(YoungFailures(events, key, now), CountedFailures(events, key));
  }

  /** In any run, a failure locks the account exactly when it is the tenth of those that count: the failures since
      the last reset that were less than fifteen minutes old when the account last passed a check, and those since.
      So one that is the tenth within fifteen minutes always locks, and an early lock is one of older failures. */
  lemma LocksEarlyIff(events: seq<Event>, e: Event)
    requires InTime(events + [e]) && e.Failure? && e.key != ""
    ensures var young, counted := |YoungFailures(events, e.key, e.now)|, |CountedFailures(events, e.key)|;
            && (AnswerTo(Run(events), e).locked <==> counted + 1 >= 10)
            && (young + 1 >= 10 ==> AnswerTo(Run(events), e).locked)
            && (AnswerTo(Run(events), e).locked && young + 1 < 10 <==> counted >= 9 && young < 9)
  {
    PrefixInTime(events, e);
    PrunedAccount(events, e.key, e.now);
    CountsSince(events, e.key, Passed(events, e.key));
    assert CountedFailures(events, e.key) == FailuresSince(events, e.key, Passed(events, e.key));
    SmallerCounted(events, e.key, e.now);
  }

  /** A failure recorded at the instant of a check that let the account through locks it exactly when it is the tenth
      in fifteen minutes since the last reset. */
  lemma TenthFailureLocksIff(events: seq<Event>, e: Event)
    requires InTime(events + [e]) && e.Failure? && e.key != "" && Passed(events, e.key) == Some(e.now)
    ensures AnswerTo(Run(events), e).locked <==> |YoungFailures(events, e.key, e.now)| + 1 >= 10
  {
    LocksEarlyIff(events, e);
  }

  // ---------- an early lock ----------

  function Zeros(n: nat): seq<int> {
    if n == 0 then [] else Zeros(n - 1) + [0]
  }

  lemma {:induction false} AllYoung(n: nat, now: int)
    requires now < QUARTER
    ensures |Zeros(n)| == n && Young(Zeros(n), now, QUARTER) == Zeros(n)
  {
    if n > 0 {
      AllYoung(n - 1, now);
      YoungAppend(Zeros(n - 1), 0, now, QUARTER);
    }
  }

  lemma {:induction false} RunOne(before: seq<Event>, e: Event)
    ensures Run(before + [e]) == Step(Run(before), e)
  {
    assert (before + [e])[..|before|] == before;
  }

  /** n failures at time zero. */
  lemma {:induction false} Attempts(key: string, n: nat) returns (events: seq<Event>)
    requires key != "" && n < 10
    ensures AccountOf(Run(events), key) == Account(Zeros(n), None)
    ensures forall k :: 0 <= k < |events| ==> events[k] == Failure("", key, 0)
  {
    if n == 0 {
      events := [];
    } else {
      var before := Attempts(key, n - 1);
      var e := Failure("", key, 0);
      AllYoung(n - 1, 0);
      StepOfAccount(Run(before), e, key);
      RunOne(before, e);
      events := before + [e];
    }
  }

  /** There are runs in which a failure locks an account although it is the only one in fifteen minutes: nine
      failures, a check just before they are fifteen minutes old, and a failure when they are. */
  lemma LateFailureLocksEarly(key: string) returns (events: seq<Event>, e: Event)
    requires key != ""
    ensures InTime(events + [e]) && e.Failure? && e.key == key
    ensures AnswerTo(Run(events), e).locked && YoungFailures(events, key, e.now) == {}
  {
    var before := Attempts(key, 9);
    var check := Check("", key, 15 * 60 * 1_000_000_000 - 1);
    events, e := before + [check], Failure("", key, 15 * 60 * 1_000_000_000);
    RunOne(before, check);
    StepOfAccount(Run(before), check, key);
    AllYoung(9, check.now);
  }

  // ---------- the limiter as it is kept ----------

  class Limiter {
    var ips: map<string, seq<int>>
    var accounts: map<string, Account>

    function Snapshot(): Limits
      reads this
    {
      Limits(ips, accounts)
    }

    method Prune(times: seq<int>, now: int, window: int) returns (valid: seq<int>)
      ensures valid == Young(times, now, window)
    {
      valid := [];
      for i := 0 to |times|
        invariant valid == Young(times[..i], now, window)
      {
        assert times[..i + 1][..i] == times[..i];
        if now - times[i] < window {
          valid := valid + [times[i]];
        }
      }
      assert times[..|times|] == times;
    }

    method CheckAllowed(ip: string, key: string, now: int) returns (okIp: bool, okAccount: bool)
      modifies this
      ensures Snapshot() == Step(old(Snapshot()), Check(ip, key, now))
      ensures Answer(okIp, okAccount, false) == AnswerTo(old(Snapshot()), Check(ip, key, now))
    {
      okIp := CheckIPLimit(ip, now);
      okAccount := CheckAccountLock(key, now);
    }

    method CheckIPLimit(ip: string, now: int) returns (ok: bool)
      modifies this`ips
      ensures ips == if ip == "" then old(ips) else old(ips)[ip := Young(TimesOf(old(Snapshot()), ip), now, MINUTE)]
      ensures ok <==> ip == "" || |Young(TimesOf(old(Snapshot()), ip), now, MINUTE)| < MAX_PER_IP
    {
      if ip == "" {
        return true;
      }
      var valid := Prune(if ip in ips then ips[ip] else [], now, MINUTE);
      ips := ips[ip := valid];
      ok := |valid| < MAX_PER_IP;
    }

    method CheckAccountLock(key: string, now: int) returns (ok: bool)
      modifies this`accounts
      ensures accounts ==
              if key in old(accounts) && key != "" then old(accounts)[key := CheckedAccount(old(accounts)[key], now)]
              else old(accounts)
      ensures ok <==> key == "" || !LockedNow(AccountOf(old(Snapshot()), key), now)
    {
      if key == "" || key !in accounts {
        return true;
      }
      var a := accounts[key];
      if a.lockedAt.Some? {
        if now - a.lockedAt.value < QUARTER {
          assert accounts == accounts[key := a];
          return false;
        }
        accounts := accounts[key := Account([], None)];
        return true;
      }
      var valid := Prune(a.failures, now, QUARTER);
      accounts := accounts[key := a.(failures := valid)];
      ok := true;
    }

    method RecordFailure(ip: string, key: string, now: int) returns (locked: bool)
      modifies this
      ensures Snapshot() == Step(old(Snapshot()), Failure(ip, key, now))
      ensures locked == AnswerTo(old(Snapshot()), Failure(ip, key, now)).locked
    {
      RecordIPFailure(ip, now);
      if key != "" {
        var a := if key in accounts then accounts[key] else Account([], None);
        a := a.(failures := a.failures + [now]);
        if |a.failures| >= MAX_PER_ACCOUNT {
          accounts := accounts[key := Account([], Some(now))];
          return true;
        }
        accounts := accounts[key := a];
      }
      locked := false;
    }

    method RecordIPFailure(ip: string, now: int)
      modifies this`ips
      ensures Snapshot() == Step(old(Snapshot()), IpFailure(ip, now))
    {
      if ip != "" {
        ips := ips[ip := (if ip in ips then ips[ip] else []) + [now]];
      }
    }

    method RecordSuccess(key: string, now: int)
      modifies this`accounts
      ensures Snapshot() == Step(old(Snapshot()), Success(key, now))
    {
      if key != "" {
        accounts := accounts - {key};
      }
    }
  }
}
