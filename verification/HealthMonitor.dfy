/** The incident edge detector: alert on transitions against a remembered state that expires. */
module HealthMonitor {
  import opened Wrappers

  const REMEMBER_SECS := 3600.0

  /** A Redis key holding "healthy" or "unhealthy" until it expires. */
  datatype Memory = Memory(healthy: bool, expires: real)

  function Recall(m: Option<Memory>, now: real): Option<bool> {
    if m.Some? && now < m.value.expires then Some(m.value.healthy) else None
  }

  /** A transition to `up`, from what was remembered. */
  datatype Transition = Transition(from: Option<bool>, up: bool)

  /** The comparison for one service: alert on a change, or if it is already broken when unknown. */
  function Compare(prev: Option<bool>, cur: bool): Option<Transition> {
    match prev
    case None => if cur then None else Some(Transition(None, false))
    case Some(p) => if p != cur then Some(Transition(Some(p), cur)) else None
  }

  // ----- the checks of one service over time

  /** One run: the probe's verdict, when the key was read and when it was written again. */
  datatype Check = Check(healthy: bool, got: real, wrote: real)

  function MemoryAt(xs: seq<Check>, n: nat): Option<Memory>
    requires n <= |xs|
  {
    if n == 0 then None else Some(Memory(xs[n - 1].healthy, xs[n - 1].wrote + REMEMBER_SECS))
  }

  function Emitted(xs: seq<Check>, k: nat): Option<Transition>
    requires k < |xs|
  {
    Compare(Recall(MemoryAt(xs, k), xs[k].got), xs[k].healthy)
  }

  /** A run of the check comes within the hour of the previous one. */
  predicate InTime(xs: seq<Check>, k: nat)
    requires k < |xs|
  {
    k > 0 ==> xs[k].got - xs[k - 1].wrote < REMEMBER_SECS
  }

  /** What an edge detector with perfect memory says: Some(false) at the start of an outage. */
  function Edge(xs: seq<Check>, k: nat): Option<bool>
    requires k < |xs|
  {
    var before := k == 0 || xs[k - 1].healthy;
    if before && !xs[k].healthy then Some(false)
    else if !before && xs[k].healthy then Some(true)
    else None
  }

  function Direction(t: Option<Transition>): Option<bool> {
    if t.None? then None else Some(t.value.up)
  }

  /** An alert is right at check k exactly if the check is in time or the service was healthy before. */
  lemma RightIffRemembered(xs: seq<Check>, k: nat)
    requires k < |xs|
    ensures Direction(Emitted(xs, k)) == Edge(xs, k) <==> InTime(xs, k) || xs[k - 1].healthy
  {
  }

  /** An alert names the state it remembers: that of the last check, if it came within the hour. */
  lemma FromIsRemembered(xs: seq<Check>, k: nat)
    requires k < |xs| && Emitted(xs, k).Some?
    ensures Emitted(xs, k).value.up == xs[k].healthy
    ensures Emitted(xs, k).value.from ==
            if k > 0 && xs[k].got - xs[k - 1].wrote < 3600.0 then Some(xs[k - 1].healthy) else None
  {
  }

  ghost predicate AllInTime(xs: seq<Check>) {
    forall k :: 0 <= k < |xs| ==> InTime(xs, k)
  }

  /** The alerts of the first n checks, in order: true is RECOVERED, false is DOWN. */
  function Alerts(xs: seq<Check>, n: nat): seq<bool>
    requires n <= |xs|
  {
    if n == 0 then []
    else Alerts(xs, n - 1) + match Emitted(xs, n - 1) case None => [] case Some(t) => [t.up]
  }

  /** Alerts alternate, beginning with DOWN, and an unfinished outage is one DOWN without its RECOVERED. */
  lemma {:induction false} AlertsAlternate(xs: seq<Check>, n: nat)
    requires n <= |xs| && AllInTime(xs)
    ensures forall i :: 0 <= i < |Alerts(xs, n)| ==> Alerts(xs, n)[i] == (i % 2 == 1)
    ensures |Alerts(xs, n)| % 2 == 0 <==> n == 0 || xs[n - 1].healthy
  {
    if n > 0 {
      AlertsAlternate(xs, n - 1);
      RightIffRemembered(xs, n - 1);
    }
  }

  /** [a, b) is a maximal run of unhealthy checks. */
  ghost predicate Outage(xs: seq<Check>, a: nat, b: nat) {
    && a < b <= |xs|
    && (forall k :: a <= k < b ==> !xs[k].healthy)
    && (a == 0 || xs[a - 1].healthy)
    && (b == |xs| || xs[b].healthy)
  }

  /** Each outage is announced once, at its first check, and its end once, at the check after it. */
  lemma OneAlertPerOutage(xs: seq<Check>, a: nat, b: nat)
    requires AllInTime(xs) && Outage(xs, a, b)
    ensures forall k :: a <= k < b ==>
              (Direction(Emitted(xs, k)) == if k == a then Some(false) else None)
    ensures b < |xs| ==> Direction(Emitted(xs, b)) == Some(true)
  {
    forall k | a <= k < b
      ensures Direction(Emitted(xs, k)) == if k == a then Some(false) else None
    {
      RightIffRemembered(xs, k);
      assert InTime(xs, k);
    }
    if b < |xs| {
      RightIffRemembered(xs, b);
      assert InTime(xs, b);
    }
  }

  /** After an hour without a check, an outage that goes on is announced a second time. */
  lemma LateCheckRepeats(t: real)
    requires t >= REMEMBER_SECS
    ensures Alerts([Check(false, 0.0, 0.0), Check(false, t, t)], 2) == [false, false]
  {
    var xs := [Check(false, 0.0, 0.0), Check(false, t, t)];
    assert Alerts(xs, 1) == [false];
  }

  // ----- the loop over the services

  datatype Alert = Alert(service: string, transition: Transition)

  predicate IsHealthy(state: string) {
    state == "healthy"
  }

  /** The alerts of the first n services against the keys `before`; `got` is when each key is read. */
  function Transitions(before: map<string, Memory>, results: seq<(string, string)>, got: nat -> real, n: nat)
    : seq<Alert>
    requires n <= |results|
  {
    if n == 0 then []
    else
      var (svc, state) := results[n - 1];
      var prev := Recall(if svc in before then Some(before[svc]) else None, got(n - 1));
      Transitions(before, results, got, n - 1) +
      match Compare(prev, IsHealthy(state)) case None => [] case Some(t) => [Alert(svc, t)]
  }

  /** Alerts come in the order of the services: those of the first i, then that of service i, if any. */
  lemma {:induction false} TransitionsInOrder(
      before: map<string, Memory>, results: seq<(string, string)>, got: nat -> real, i: nat, n: nat)
    requires i < n <= |results|
    ensures var first, all := Transitions(before, results, got, i), Transitions(before, results, got, n);
            var emitted := Compare(Recall(Lookup(before, results[i].0), got(i)), results[i].1 == "healthy");
            && first <= all
            && (emitted == None ==> Transitions(before, results, got, i + 1) == first)
            && (emitted.Some? ==> |first| < |all| && all[|first|] == Alert(results[i].0, emitted.value))
  {
    if i < n - 1 {
      TransitionsInOrder(before, results, got, i, n - 1);
    }
  }

  /** The keys after the first n services have been rewritten. */
  function KeysAfter(before: map<string, Memory>, results: seq<(string, string)>, wrote: nat -> real, n: nat)
    : map<string, Memory>
    requires n <= |results|
  {
    if n == 0 then before
    else KeysAfter(before, results, wrote, n - 1)[
      results[n - 1].0 := Memory(IsHealthy(results[n - 1].1), wrote(n - 1) + REMEMBER_SECS)]
  }

  ghost predicate Named(results: seq<(string, string)>, n: nat, svc: string)
    requires n <= |results|
  {
    exists i :: 0 <= i < n && results[i].0 == svc
  }

  /** A service that has not had its turn still has the key it had before the run. */
  lemma {:induction false} KeysUntouched(
      before: map<string, Memory>, results: seq<(string, string)>, wrote: nat -> real, n: nat, svc: string)
    requires n <= |results| && !Named(results, n, svc)
    ensures svc in KeysAfter(before, results, wrote, n) <==> svc in before
    ensures svc in before ==> KeysAfter(before, results, wrote, n)[svc] == before[svc]
  {
    if n > 0 {
      KeysUntouched(before, results, wrote, n - 1, svc);
    }
  }

  lemma {:induction false} KeyWritten(
      before: map<string, Memory>, results: seq<(string, string)>, wrote: nat -> real, n: nat, i: nat)
    requires i < n <= |results| && Distinct(results)
    ensures results[i].0 in KeysAfter(before, results, wrote, n)
    ensures KeysAfter(before, results, wrote, n)[results[i].0] ==
            Memory(IsHealthy(results[i].1), wrote(i) + REMEMBER_SECS)
  {
    if i < n - 1 {
      KeyWritten(before, results, wrote, n - 1, i);
    }
  }

  ghost predicate Distinct(results: seq<(string, string)>) {
    forall i, j :: 0 <= i < j < |results| ==> results[i].0 != results[j].0
  }

  function Lookup(keys: map<string, Memory>, svc: string): Option<Memory> {
    if svc in keys then Some(keys[svc]) else None
  }

  // ----- many runs over many services

  datatype Round = Round(results: seq<(string, string)>, got: nat -> real, wrote: nat -> real)

  function KeysAt(rounds: seq<Round>, n: nat): map<string, Memory>
    requires n <= |rounds|
  {
    if n == 0 then map[]
    else KeysAfter(KeysAt(rounds, n - 1), rounds[n - 1].results, rounds[n - 1].wrote, |rounds[n - 1].results|)
  }

  /** Every round probes the same services, in the same order, each once. */
  ghost predicate Regular(rounds: seq<Round>, services: seq<string>) {
    forall r :: 0 <= r < |rounds| ==>
      && |rounds[r].results| == |services|
      && Distinct(rounds[r].results)
      && forall i :: 0 <= i < |services| ==> rounds[r].results[i].0 == services[i]
  }

  /** What happens to service i, round by round. */
  function Checks(rounds: seq<Round>, i: nat): seq<Check>
    requires forall r :: 0 <= r < |rounds| ==> i < |rounds[r].results|
  {
    seq(|rounds|, r requires 0 <= r < |rounds| =>
      Check(rounds[r].results[i].1 == "healthy", rounds[r].got(i), rounds[r].wrote(i)))
  }

  lemma MemoryPerService(rounds: seq<Round>, services: seq<string>, n: nat, i: nat)
    requires Regular(rounds, services) && n <= |rounds| && i < |services|
    ensures Lookup(KeysAt(rounds, n), services[i]) == MemoryAt(Checks(rounds, i), n)
  {
    if n > 0 {
      var r := rounds[n - 1];
      KeyWritten(KeysAt(rounds, n - 1), r.results, r.wrote, |r.results|, i);
    }
  }

  lemma {:induction false} TransitionsPerService(
      before: map<string, Memory>, results: seq<(string, string)>, got: nat -> real, n: nat, i: nat, t: Transition)
    requires n <= |results| && Distinct(results) && i < |results|
    ensures Alert(results[i].0, t) in Transitions(before, results, got, n) <==>
            i < n && Compare(Recall(Lookup(before, results[i].0), got(i)), IsHealthy(results[i].1)) == Some(t)
  {
    if n > 0 {
      TransitionsPerService(before, results, got, n - 1, i, t);
    }
  }

  /** The alerts of a round about one service are those of that service watched alone. */
  lemma {:induction false} ServicesAreIndependent(
      rounds: seq<Round>, services: seq<string>, n: nat, i: nat, t: Transition)
    requires Regular(rounds, services) && n < |rounds| && i < |services|
    ensures var r := rounds[n];
            Alert(services[i], t) in Transitions(KeysAt(rounds, n), r.results, r.got, |r.results|)
            <==> Emitted(Checks(rounds, i), n) == Some(t)
  {
    MemoryPerService(rounds, services, n, i);
    TransitionsPerService(KeysAt(rounds, n), rounds[n].results, rounds[n].got, |services|, i, t);
  }

  class HealthKeys {
    var keys: map<string, Memory>

    constructor ()
      ensures keys == map[]
    {
      keys := map[];
    }

    /** Each service is compared with its own key, which is then rewritten. */
    method Compare(results: seq<(string, string)>, got: nat -> real, wrote: nat -> real)
      returns (transitions: seq<Alert>)
      requires Distinct(results)
      modifies this
      ensures transitions == Transitions(old(keys), results, got, |results|)
      ensures keys == KeysAfter(old(keys), results, wrote, |results|)
    {
      transitions := [];
      for n := 0 to |results|
        invariant transitions == Transitions(old(keys), results, got, n)
        invariant keys == KeysAfter(old(keys), results, wrote, n)
      {
        var (svc, state) := results[n];
        KeysUntouched(old(keys), results, wrote, n, svc);
        var prev: Option<bool> := None;
        if svc in keys && got(n) < keys[svc].expires {
          prev := Some(keys[svc].healthy);
        }
        var cur := IsHealthy(state);
        if prev.None? {
          if !cur {
            transitions := transitions + [Alert(svc, Transition(None, cur))];
          }
        } else if prev.value != cur {
          transitions := transitions + [Alert(svc, Transition(prev, cur))];
        }
        keys := keys[svc := Memory(cur, wrote(n) + REMEMBER_SECS)];
      }
    }
  }
}
