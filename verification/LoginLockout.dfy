/** The failed-login counter and lock of one API process. */
module LoginLockout {
  import opened Wrappers

  const LOGIN_MAX_FAILURES := 5
  const LOCKOUT_SECS := 900.0
  /** A lock stops admitting nothing once less than a second of it is left. */
  const EFFECTIVE_SECS := 899.0

  /** `lock` is None for the sentinel in the distant past. */
  datatype Failures = Failures(attempts: nat, lock: Option<real>)

  /** Python's `int()` on a float. */
  function Trunc(x: real): int {
    if x >= 0.0 then x.Floor else -(-x).Floor
  }

  function Max(a: int, b: int): int {
    if a >= b then a else b
  }

  function RemainingSeconds(f: Option<Failures>, now: real): nat {
    match f
    case None => 0
    case Some(Failures(_, None)) => 0
    case Some(Failures(_, Some(until))) => Max(0, Trunc(until - now))
  }

  /** One more failure, recorded at time `now`. */
  function Recorded(f: Option<Failures>, now: real): Failures {
    var attempts := (if f.Some? then f.value.attempts else 0) + 1;
    Failures(attempts, if attempts >= LOGIN_MAX_FAILURES then Some(now + LOCKOUT_SECS) else None)
  }

  // ----- attempts

  datatype Verdict = BadPassword | BadCode | MissingCode | Good

  /** The lock is looked at `check`, and the attempt is over at `done`. */
  datatype Attempt = Attempt(check: real, done: real, verdict: Verdict)

  datatype Outcome = Locked(retryAfter: nat) | Denied | CodeRequired | LoggedIn

  function Step(f: Option<Failures>, a: Attempt): (Outcome, Option<Failures>) {
    var remaining := RemainingSeconds(f, a.check);
    if remaining > 0 then (Locked(remaining), f)
    else
      match a.verdict
      case BadPassword => (Denied, Some(Recorded(f, a.done)))
      case BadCode => (Denied, Some(Recorded(f, a.done)))
      case MissingCode => (CodeRequired, f)
      case Good => (LoggedIn, None)
  }

  /** Attempts on one username, processed one after the other. */
  ghost predicate Sequential(xs: seq<Attempt>) {
    && (forall k :: 0 <= k < |xs| ==> xs[k].check <= xs[k].done)
    && (forall k :: 0 < k < |xs| ==> xs[k - 1].done <= xs[k].check)
  }

  function At(xs: seq<Attempt>, n: nat): Option<Failures>
    requires n <= |xs|
  {
    if n == 0 then None else Step(At(xs, n - 1), xs[n - 1]).1
  }

  function OutcomeOf(xs: seq<Attempt>, k: nat): Outcome
    requires k < |xs|
  {
    Step(At(xs, k), xs[k]).0
  }

  /** Attempt k was let through to the password check, and had the wrong password or code. */
  predicate Failed(xs: seq<Attempt>, k: nat)
    requires k < |xs|
  {
    !OutcomeOf(xs, k).Locked? && (xs[k].verdict == BadPassword || xs[k].verdict == BadCode)
  }

  /** Attempt k was let through, and had everything right. */
  predicate Succeeded(xs: seq<Attempt>, k: nat)
    requires k < |xs|
  {
    !OutcomeOf(xs, k).Locked? && xs[k].verdict == Good
  }

  /** The failures since the last successful login among the first n attempts. */
  function Streak(xs: seq<Attempt>, n: nat): nat
    requires n <= |xs|
  {
    if n == 0 || Succeeded(xs, n - 1) then 0
    else Streak(xs, n - 1) + if Failed(xs, n - 1) then 1 else 0
  }

  /** When the last of them was recorded; any time, if there is none. */
  function LastFailure(xs: seq<Attempt>, n: nat): real
    requires n <= |xs|
  {
    if n == 0 then 0.0
    else if Failed(xs, n - 1) then xs[n - 1].done
    else LastFailure(xs, n - 1)
  }

  /** The answer to an attempt that is let through is that of its verdict. */
  lemma AnswerMeaning(xs: seq<Attempt>, k: nat)
    requires k < |xs|
    ensures var o := OutcomeOf(xs, k);
            && (o == LoggedIn <==> Succeeded(xs, k))
            && (o == Denied <==> Failed(xs, k))
            && (o == CodeRequired <==> !o.Locked? && xs[k].verdict == MissingCode)
  {
  }

  lemma {:induction false} CounterMeaning(xs: seq<Attempt>, n: nat)
    requires n <= |xs|
    ensures var c := Streak(xs, n);
            At(xs, n) ==
            if c == 0 then None
            else Some(Failures(c, if c >= LOGIN_MAX_FAILURES then Some(LastFailure(xs, n) + LOCKOUT_SECS) else None))
  {
    if n > 0 {
      CounterMeaning(xs, n - 1);
    }
  }

  lemma TruncPositive(x: real)
    ensures Max(0, Trunc(x)) > 0 <==> x >= 1.0
  {
  }

  /**
   An attempt is turned away exactly if the streak has reached the limit and the last recorded
   failure is at most 899 s old: the truncation to whole seconds takes the last second off.
   */
  lemma {:induction false} LockedIff(xs: seq<Attempt>, k: nat)
    requires k < |xs|
    ensures OutcomeOf(xs, k).Locked? <==>
            && Streak(xs, k) >= LOGIN_MAX_FAILURES
            && xs[k].check <= LastFailure(xs, k) + EFFECTIVE_SECS
  {
    CounterMeaning(xs, k);
    TruncPositive(LastFailure(xs, k) + LOCKOUT_SECS - xs[k].check);
  }

  // ----- the rate bound

  /** Failures recorded by the attempts i, ..., j - 1. */
  function FailureCount(xs: seq<Attempt>, i: nat, j: nat): nat
    requires i <= j <= |xs|
  {
    if i == j then 0 else FailureCount(xs, i, j - 1) + if Failed(xs, j - 1) then 1 else 0
  }

  ghost predicate NoSuccess(xs: seq<Attempt>, i: nat, j: nat)
    requires i <= j <= |xs|
  {
    forall k :: i <= k < j ==> !Succeeded(xs, k)
  }

  lemma {:induction false} FailuresSpread(xs: seq<Attempt>, i: nat, j: nat, from: real)
    requires Sequential(xs) && i <= j <= |xs| && NoSuccess(xs, i, j)
    requires forall k :: i <= k < j ==> from <= xs[k].done
    ensures var c := FailureCount(xs, i, j);
            && c <= Streak(xs, j)
            && (c > 0 ==> from <= LastFailure(xs, j))
            && (c >= LOGIN_MAX_FAILURES ==>
                  from + (c - LOGIN_MAX_FAILURES) as real * EFFECTIVE_SECS <= LastFailure(xs, j))
  {
    if i < j {
      FailuresSpread(xs, i, j - 1, from);
      LockedIff(xs, j - 1);
    }
  }

  /** Over any span of seconds without a successful login, at most 5 + span/899 failures are recorded. */
  lemma FailureRateBounded(xs: seq<Attempt>, i: nat, j: nat, from: real, span: real)
    requires Sequential(xs) && i <= j <= |xs| && NoSuccess(xs, i, j) && span >= 0.0
    requires forall k :: i <= k < j ==> from <= xs[k].done <= from + span
    ensures FailureCount(xs, i, j) as real <= 5.0 + span / EFFECTIVE_SECS
  {
    FailuresSpread(xs, i, j, from);
    if FailureCount(xs, i, j) > 0 {
      LastFailureInside(xs, i, j, from + span);
    }
  }

  lemma {:induction false} LastFailureInside(xs: seq<Attempt>, i: nat, j: nat, to: real)
    requires i <= j <= |xs| && FailureCount(xs, i, j) > 0
    requires forall k :: i <= k < j ==> xs[k].done <= to
    ensures LastFailure(xs, j) <= to
  {
    if !Failed(xs, j - 1) {
      LastFailureInside(xs, i, j - 1, to);
    }
  }

  /** The bound is met: failures at 0, 0, 0, 0, 0 and just after 899 s are six in that time. */
  lemma BoundIsTight(e: real)
    requires 0.0 < e <= 1.0
    ensures var five := seq(5, k => Attempt(0.0, 0.0, BadPassword));
            FailureCount(five + [Attempt(EFFECTIVE_SECS + e, EFFECTIVE_SECS + e, BadPassword)], 0, 6) == 6
  {
    var sixth := Attempt(EFFECTIVE_SECS + e, EFFECTIVE_SECS + e, BadPassword);
    var xs := seq(5, k => Attempt(0.0, 0.0, BadPassword)) + [sixth];
    FirstFive(xs, 5);
    LockedIff(xs, 5);
  }

  lemma {:induction false} FirstFive(xs: seq<Attempt>, n: nat)
    requires n <= 5 <= |xs| && forall k :: 0 <= k < n ==> xs[k] == Attempt(0.0, 0.0, BadPassword)
    ensures FailureCount(xs, 0, n) == Streak(xs, n) == n && LastFailure(xs, n) == 0.0
  {
    if n > 0 {
      FirstFive(xs, n - 1);
      LockedIff(xs, n - 1);
    }
  }

  // ----- overlapping attempts

  /**
   Attempts on one username that overlap: one that arrives is turned away or let through to the
   password check, and one that was let through ends some time later, in any order.
   */
  datatype Event = Arrive(time: real) | End(time: real, verdict: Verdict)

  /** `flight` attempts are between the two; `last` is when the last failure was recorded. */
  datatype Desk = Desk(entry: Option<Failures>, flight: nat, last: real)

  function DeskStep(s: Desk, e: Event): Desk {
    match e
    case Arrive(time) =>
      if RemainingSeconds(s.entry, time) > 0 then s else s.(flight := s.flight + 1)
    case End(time, verdict) =>
      if s.flight == 0 then s
      else
        match verdict
        case MissingCode => s.(flight := s.flight - 1)
        case Good => s.(flight := s.flight - 1, entry := None)
        case _ => Desk(Some(Recorded(s.entry, time)), s.flight - 1, time)
  }

  /** An attempt that runs alone does to the entry what it does when attempts come one after the other. */
  lemma AloneAsInSequence(s: Desk, a: Attempt)
    ensures var t := DeskStep(s, Arrive(a.check));
            if Step(s.entry, a).0.Locked? then t == s
            else
              var u := DeskStep(t, End(a.done, a.verdict));
              && t == s.(flight := s.flight + 1)
              && u.entry == Step(s.entry, a).1 && u.flight == s.flight
              && u.last == if Step(s.entry, a).0.Denied? then a.done else s.last
  {
  }

  const NO_ATTEMPTS := Desk(None, 0, 0.0)

  function DeskAt(es: seq<Event>, n: nat): Desk
    requires n <= |es|
  {
    if n == 0 then NO_ATTEMPTS else DeskStep(DeskAt(es, n - 1), es[n - 1])
  }

  /** Event k records a failure. */
  predicate Fails(es: seq<Event>, k: nat)
    requires k < |es|
  {
    es[k].End? && DeskAt(es, k).flight > 0 && (es[k].verdict.BadPassword? || es[k].verdict.BadCode?)
  }

  predicate Succeeds(es: seq<Event>, k: nat)
    requires k < |es|
  {
    es[k].End? && DeskAt(es, k).flight > 0 && es[k].verdict.Good?
  }

  function Fallen(es: seq<Event>, i: nat, j: nat): nat
    requires i <= j <= |es|
  {
    if i == j then 0 else Fallen(es, i, j - 1) + if Fails(es, j - 1) then 1 else 0
  }

  /** Time does not run backwards. */
  ghost predicate Timely(es: seq<Event>) {
    forall k, l :: 0 <= k < l < |es| ==> es[k].time <= es[l].time
  }

  /** At no time are more than m attempts under way. */
  ghost predicate AtMost(es: seq<Event>, m: nat) {
    forall k :: 0 <= k <= |es| ==> DeskAt(es, k).flight <= m
  }

  /** The entry locks for 900 s from the last failure once five have been recorded. */
  ghost predicate DeskOk(s: Desk) {
    s.entry.Some? ==>
      s.entry.value.lock == if s.entry.value.attempts >= LOGIN_MAX_FAILURES then Some(s.last + LOCKOUT_SECS) else None
  }

  lemma {:induction false} DeskKeeps(es: seq<Event>, n: nat)
    requires n <= |es|
    ensures DeskOk(DeskAt(es, n))
  {
    if n > 0 {
      DeskKeeps(es, n - 1);
    }
  }

  /** With five recorded failures, an attempt is let through only when the last is more than 899 s old. */
  lemma LetThroughLate(s: Desk, time: real)
    requires DeskOk(s) && s.entry.Some? && s.entry.value.attempts >= LOGIN_MAX_FAILURES
    ensures RemainingSeconds(s.entry, time) > 0 <==> time <= s.last + EFFECTIVE_SECS
  {
    TruncPositive(s.last + LOCKOUT_SECS - time);
  }

  /**
   The account of the window after c of its failures, g lock periods into it: everything under way
   is paid for by the next period, or, once somebody was let through again (`late`), by the one after.
   */
  ghost predicate Paid(s: Desk, c: nat, m: nat, from: real, g: nat, late: bool, now: real) {
    && s.entry.Some? && s.entry.value.attempts >= c
    && from + g as real * EFFECTIVE_SECS <= s.last
    && (if late then c <= 4 + m * (g + 1) && s.last + EFFECTIVE_SECS < now
        else c + s.flight <= 4 + m * (g + 1))
  }

  lemma PaidArrive(s: Desk, c: nat, m: nat, from: real, g: nat, late: bool, was: real, time: real) returns (late': bool)
    requires DeskOk(s) && c >= LOGIN_MAX_FAILURES && Paid(s, c, m, from, g, late, was) && was <= time
    ensures Paid(DeskStep(s, Arrive(time)), c, m, from, g, late', time)
  {
    LetThroughLate(s, time);
    late' := late || RemainingSeconds(s.entry, time) == 0;
  }

  lemma PaidFailure(s: Desk, c: nat, m: nat, from: real, g: nat, late: bool, was: real, e: Event) returns (g': nat)
    requires Paid(s, c, m, from, g, late, was) && 0 < s.flight <= m
    requires e.End? && (e.verdict.BadPassword? || e.verdict.BadCode?) && was <= e.time && s.last <= e.time
    ensures Paid(DeskStep(s, e), c + 1, m, from, g', false, e.time)
  {
    g' := if late then g + 1 else g;
    assert m * (g + 2) == m * (g + 1) + m;
  }

  /** The first five failures of the window, or the account after them. */
  ghost predicate Accounted(s: Desk, c: nat, m: nat, from: real, g: nat, late: bool, now: real) {
    && (c > 0 ==> s.entry.Some? && s.entry.value.attempts >= c)
    && (c >= LOGIN_MAX_FAILURES ==> Paid(s, c, m, from, g, late, now))
  }

  lemma {:induction false} FailuresPaid(es: seq<Event>, m: nat, i: nat, j: nat, from: real) returns (g: nat, late: bool)
    requires Timely(es) && AtMost(es, m) && i <= j <= |es|
    requires forall k :: i <= k < j ==> from <= es[k].time && !Succeeds(es, k)
    ensures Accounted(DeskAt(es, j), Fallen(es, i, j), m, from, g, late, if i < j then es[j - 1].time else from)
    decreases j
  {
    g, late := 0, false;
    if i < j {
      g, late := FailuresPaid(es, m, i, j - 1, from);
      DeskKeeps(es, j - 1);
      LastIsPast(es, j - 1);
      g, late := AccountedStep(DeskAt(es, j - 1), Fallen(es, i, j - 1), m, from, g, late,
                               if i < j - 1 then es[j - 2].time else from, es[j - 1]);
    }
  }

  lemma AccountedStep(s: Desk, c: nat, m: nat, from: real, g: nat, late: bool, was: real, e: Event)
    returns (g': nat, late': bool)
    requires DeskOk(s) && Accounted(s, c, m, from, g, late, was) && s.flight <= m
    requires from <= was <= e.time && (s.entry.Some? ==> s.last <= e.time)
    requires !(e.End? && s.flight > 0 && e.verdict.Good?)
    ensures var fails := e.End? && s.flight > 0 && (e.verdict.BadPassword? || e.verdict.BadCode?);
            Accounted(DeskStep(s, e), if fails then c + 1 else c, m, from, g', late', e.time)
  {
    g', late' := g, late;
    if e.End? && s.flight > 0 && (e.verdict.BadPassword? || e.verdict.BadCode?) {
      late' := false;
      if c >= LOGIN_MAX_FAILURES {
        g' := PaidFailure(s, c, m, from, g, late, was, e);
      } else {
        g' := 0;
      }
    } else if e.Arrive? && c >= LOGIN_MAX_FAILURES {
      late' := PaidArrive(s, c, m, from, g, late, was, e.time);
    }
  }

  /** The last failure was recorded no later than any event to come. */
  lemma {:induction false} LastIsPast(es: seq<Event>, n: nat)
    requires Timely(es) && n < |es|
    ensures DeskAt(es, n).entry.Some? ==> DeskAt(es, n).last <= es[n].time
  {
    if n > 0 {
      LastIsPast(es, n - 1);
    }
  }

  /**
   With at most m attempts under way at a time, over any span of seconds without a successful login
   at most 4 + m + m * span/899 failures are recorded: each lock lets a further batch of m through.
   */
  lemma {:induction false} OverlappingRateBounded(es: seq<Event>, m: nat, i: nat, j: nat, from: real, span: real)
    requires Timely(es) && AtMost(es, m) && i <= j <= |es| && span >= 0.0
    requires forall k :: i <= k < j ==> from <= es[k].time <= from + span && !Succeeds(es, k)
    ensures Fallen(es, i, j) as real <= 4.0 + m as real + m as real * (span / EFFECTIVE_SECS)
  {
    var c := Fallen(es, i, j);
    var g, late := FailuresPaid(es, m, i, j, from);
    if c >= LOGIN_MAX_FAILURES {
      LastFallen(es, i, j, from + span);
      assert c <= 4 + m * (g + 1);
      Periods(m, g, span);
    }
  }

  lemma Periods(m: nat, g: nat, span: real)
    requires g as real * EFFECTIVE_SECS <= span
    ensures (m * (g + 1)) as real <= m as real + m as real * (span / EFFECTIVE_SECS)
  {
    assert g as real <= span / EFFECTIVE_SECS;
    Scale(m as real, g as real, span / EFFECTIVE_SECS);
    assert (m * (g + 1)) as real == m as real * g as real + m as real;
  }

  lemma Scale(x: real, y: real, z: real)
    requires x >= 0.0 && y <= z
    ensures x * y <= x * z
  {
  }

  lemma {:induction false} LastFallen(es: seq<Event>, i: nat, j: nat, to: real)
    requires i <= j <= |es| && Fallen(es, i, j) > 0
    requires forall k :: i <= k < j ==> es[k].time <= to && !Succeeds(es, k)
    ensures DeskAt(es, j).last <= to
  {
    if !Fails(es, j - 1) {
      LastFallen(es, i, j - 1, to);
    }
  }

  // ----- the bound is met

  /** A run up to time `to` with at most m under way, no success, and c failures. */
  ghost predicate Scenario(es: seq<Event>, m: nat, c: nat, to: real) {
    && Timely(es) && AtMost(es, m)
    && (forall k :: 0 <= k < |es| ==> 0.0 <= es[k].time <= to && !Succeeds(es, k))
    && Fallen(es, 0, |es|) == c
  }

  function Now(es: seq<Event>): Desk {
    DeskAt(es, |es|)
  }

  lemma {:induction false} DeskPrefix(es: seq<Event>, e: Event, n: nat)
    requires n <= |es|
    ensures DeskAt(es + [e], n) == DeskAt(es, n)
  {
    if n > 0 {
      DeskPrefix(es, e, n - 1);
    }
  }

  lemma {:induction false} FallenPrefix(es: seq<Event>, e: Event, n: nat)
    requires n <= |es|
    ensures Fallen(es + [e], 0, n) == Fallen(es, 0, n)
  {
    if n > 0 {
      FallenPrefix(es, e, n - 1);
      DeskPrefix(es, e, n - 1);
    }
  }

  lemma ScenarioSnoc(es: seq<Event>, m: nat, c: nat, to: real, e: Event)
    requires Scenario(es, m, c, to) && 0.0 <= to <= e.time && DeskStep(Now(es), e).flight <= m
    requires e.End? ==> e.verdict == BadPassword && Now(es).flight > 0
    ensures Now(es + [e]) == DeskStep(Now(es), e)
    ensures Scenario(es + [e], m, if e.End? then c + 1 else c, e.time)
  {
    var fs := es + [e];
    FallenPrefix(es, e, |es|);
    forall k | 0 <= k <= |es|
      ensures DeskAt(fs, k) == DeskAt(es, k)
    {
      DeskPrefix(es, e, k);
    }
    assert forall k :: 0 <= k < |es| ==> fs[k] == es[k] && !Succeeds(es, k);
  }

  /** k attempts arrive at one time, and are let through. */
  lemma {:induction false} AllArrive(es: seq<Event>, m: nat, c: nat, to: real, time: real, k: nat)
    returns (fs: seq<Event>)
    requires Scenario(es, m, c, to) && 0.0 <= to <= time && Now(es).flight + k <= m
    requires RemainingSeconds(Now(es).entry, time) == 0
    ensures Scenario(fs, m, c, time) && Now(fs) == Now(es).(flight := Now(es).flight + k)
  {
    fs := es;
    if k > 0 {
      var rest := AllArrive(es, m, c, to, time, k - 1);
      ScenarioSnoc(rest, m, c, time, Arrive(time));
      fs := rest + [Arrive(time)];
    }
  }

  /** k of them fail at that time. */
  lemma {:induction false} AllFail(es: seq<Event>, m: nat, c: nat, time: real, k: nat) returns (fs: seq<Event>)
    requires Scenario(es, m, c, time) && 0.0 <= time && k <= Now(es).flight <= m && DeskOk(Now(es))
    requires c > 0 ==> Now(es).entry.Some? && Now(es).entry.value.attempts == c
    requires c == 0 ==> Now(es).entry == None
    ensures Scenario(fs, m, c + k, time) && Now(fs).flight == Now(es).flight - k && DeskOk(Now(fs))
    ensures c + k > 0 ==> Now(fs).entry.Some? && Now(fs).entry.value.attempts == c + k
    ensures c + k == 0 ==> Now(fs).entry == None
    ensures k > 0 ==> Now(fs).last == time
  {
    fs := es;
    if k > 0 {
      var rest := AllFail(es, m, c, time, k - 1);
      ScenarioSnoc(rest, m, c + k - 1, time, End(time, BadPassword));
      fs := rest + [End(time, BadPassword)];
    }
  }

  lemma {:induction false} OneByOne(m: nat, k: nat) returns (es: seq<Event>)
    requires 1 <= m && k < LOGIN_MAX_FAILURES
    ensures Scenario(es, m, k, 0.0) && Now(es).flight == 0 && DeskOk(Now(es))
    ensures k > 0 ==> Now(es).entry == Some(Failures(k, None))
    ensures k == 0 ==> Now(es).entry == None
  {
    if k == 0 {
      es := [];
    } else {
      var rest := OneByOne(m, k - 1);
      var arrived := AllArrive(rest, m, k - 1, 0.0, 0.0, 1);
      es := AllFail(arrived, m, k - 1, 0.0, 1);
      assert Now(es).entry.value == Failures(k, None);
    }
  }

  /**
   With m attempts under way, 4 + 2m failures fit in any window longer than 899 s: four, then m at
   once, and m more as soon as the lock lets them through.
   */
  lemma OverlappingBoundIsTight(m: nat, e: real) returns (es: seq<Event>)
    requires 1 <= m && 0.0 < e
    ensures Scenario(es, m, 4 + 2 * m, EFFECTIVE_SECS + e)
  {
    var four := OneByOne(m, 4);
    var full := AllArrive(four, m, 4, 0.0, 0.0, m);
    var first := AllFail(full, m, 4, 0.0, m);
    var late := EFFECTIVE_SECS + e;
    LetThroughLate(Now(first), late);
    var again := AllArrive(first, m, 4 + m, 0.0, late, m);
    es := AllFail(again, m, 4 + m, late, m);
  }

  // ----- the process-wide dictionary

  class LoginGuard {
    var failures: map<string, Failures>

    function Of(username: string): Option<Failures>
      reads this
    {
      if username in failures then Some(failures[username]) else None
    }

    constructor ()
      ensures failures == map[]
    {
      failures := map[];
    }

    method LockoutRemainingSeconds(username: string, now: real) returns (r: nat)
      ensures r == RemainingSeconds(Of(username), now)
      ensures r > 0 <==>
              && username in failures && failures[username].lock.Some?
              && failures[username].lock.value - now >= 1.0
    {
      if username !in failures {
        return 0;
      }
      var entry := failures[username];
      if entry.lock.None? {
        return 0;
      }
      r := Max(0, Trunc(entry.lock.value - now));
    }

    method RecordLoginFailure(username: string, now: real)
      modifies this
      ensures failures == old(failures)[username := Recorded(old(Of(username)), now)]
    {
      var attempts := 0;
      if username in failures {
        attempts := failures[username].attempts;
      }
      attempts := attempts + 1;
      var lock := None;
      if attempts >= LOGIN_MAX_FAILURES {
        lock := Some(now + LOCKOUT_SECS);
      }
      failures := failures[username := Failures(attempts, lock)];
    }

    method ClearLoginFailures(username: string)
      modifies this
      ensures failures == old(failures) - {username}
    {
      failures := failures - {username};
    }

    /** The login endpoint, as far as the counter is concerned. */
    method Login(username: string, a: Attempt) returns (r: Outcome)
      modifies this
      ensures (r, Of(username)) == Step(old(Of(username)), a)
      ensures var f := old(Of(username));
              var remaining := RemainingSeconds(f, a.check);
              if remaining > 0 then r == Locked(remaining) && Of(username) == f
              else
                match a.verdict
                case Good => r == LoggedIn && Of(username) == None
                case MissingCode => r == CodeRequired && Of(username) == f
                case _ =>
                  var attempts := (if f.Some? then f.value.attempts else 0) + 1;
                  && r == Denied && Of(username).Some? && Of(username).value.attempts == attempts
                  && Of(username).value.lock == if attempts >= 5 then Some(a.done + 900.0) else None
      ensures failures - {username} == old(failures) - {username}
    {
      var remaining := LockoutRemainingSeconds(username, a.check);
      if remaining > 0 {
        return Locked(remaining);
      }
      match a.verdict
      case BadPassword =>
        RecordLoginFailure(username, a.done);
        r := Denied;
      case BadCode =>
        RecordLoginFailure(username, a.done);
        r := Denied;
      case MissingCode =>
        r := CodeRequired;
      case Good =>
        ClearLoginFailures(username);
        r := LoggedIn;
    }
  }
}
