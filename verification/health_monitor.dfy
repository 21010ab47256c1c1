/**
 * The self-healing health monitor: registered services are checked in rounds; a healthy
 * check clears the failure count, failed checks make a service degraded and, at the
 * failure limit, down, at which point it is restarted and checked again.
 *
 * The health checks, the restart command and the clock are parameters: a round takes,
 * for each service, the outcome of its check, of the restart and of the recheck.
 */
module HealthMonitor {
  import opened Strings

  datatype Status = Unknown | Healthy | Degraded | Down

  datatype ServiceHealth = ServiceHealth(name: string, url: string, status: Status, lastCheck: real,
                                         consecutiveFailures: nat, restartCount: nat)

  /** What one round observes for a service: its check, and if it is restarted, the restart and the recheck. */
  datatype Observation = Observation(healthy: bool, restarted: bool, recovered: bool)

  /** A newly registered service: status unknown, no failures, no restarts. */
  function Registered(name: string, url: string, now: real): (s: ServiceHealth)
    ensures s.status == Unknown && s.consecutiveFailures == 0 && s.restartCount == 0
    ensures s.name == name && s.url == url
  {
    ServiceHealth(name, url, Unknown, now, 0, 0)
  }

  /** `restart_service`: a successful restart counts itself and clears the failures; a failed one changes nothing. */
  function Restarted(s: ServiceHealth, ok: bool): (r: ServiceHealth)
    ensures ok ==> r.restartCount == s.restartCount + 1 && r.consecutiveFailures == 0
    ensures ok ==> r.(restartCount := s.restartCount, consecutiveFailures := s.consecutiveFailures) == s
    ensures !ok ==> r == s
  {
    if ok then s.(restartCount := s.restartCount + 1, consecutiveFailures := 0) else s
  }

  /** The container name a restart addresses: the service name lower-cased, spaces turned into underscores. */
  function ContainerName(name: string): (r: string)
    ensures |r| == |name| && forall i :: 0 <= i < |r| ==> r[i] != ' '
  {
    seq(|name|, i requires 0 <= i < |name| => if name[i] == ' ' then '_' else LowerChar(name[i]))
  }

  /** One service's turn in a round of `monitor_loop`. */
  function Checked(s: ServiceHealth, maxFailures: int, o: Observation, now: real): ServiceHealth
  {
    var s := s.(lastCheck := now);
    if o.healthy then s.(status := Healthy, consecutiveFailures := 0)
    else
      var s := s.(consecutiveFailures := s.consecutiveFailures + 1);
      if s.consecutiveFailures >= maxFailures then
        var s := s.(status := Down);
        var r := Restarted(s, o.restarted);
        if o.restarted && o.recovered then r.(status := Healthy) else r
      else s.(status := Degraded)
  }

  /**
   * What a status says about the failure count: healthy and unknown services have none,
   * a degraded one has some but fewer than the limit, and a down one has reached the limit
   * or has just been restarted.
   */
  predicate Consistent(s: ServiceHealth, maxFailures: int)
  {
    && (s.status == Healthy || s.status == Unknown ==> s.consecutiveFailures == 0)
    && (s.status == Degraded ==> 1 <= s.consecutiveFailures < maxFailures)
    && (s.status == Down ==> s.consecutiveFailures >= maxFailures || s.consecutiveFailures == 0)
  }

  /** Whatever the observation, a check leaves the service consistent, and restarts are never forgotten. */
  lemma CheckedConsistent(s: ServiceHealth, maxFailures: int, o: Observation, now: real)
    ensures Consistent(Checked(s, maxFailures, o, now), maxFailures)
    ensures Checked(s, maxFailures, o, now).restartCount >= s.restartCount
    ensures Checked(s, maxFailures, o, now).name == s.name && Checked(s, maxFailures, o, now).url == s.url
  {
  }

  /** A check's outcome, case by case. */
  lemma CheckOutcome(s: ServiceHealth, maxFailures: int, o: Observation, now: real)
    ensures var r := Checked(s, maxFailures, o, now);
      && (o.healthy ==> r.status == Healthy && r.consecutiveFailures == 0 && r.restartCount == s.restartCount)
      && (!o.healthy && s.consecutiveFailures + 1 < maxFailures ==>
            r.status == Degraded && r.consecutiveFailures == s.consecutiveFailures + 1 && r.restartCount == s.restartCount)
      && (!o.healthy && s.consecutiveFailures + 1 >= maxFailures && !o.restarted ==>
            r.status == Down && r.consecutiveFailures == s.consecutiveFailures + 1 && r.restartCount == s.restartCount)
      && (!o.healthy && s.consecutiveFailures + 1 >= maxFailures && o.restarted ==>
            r.consecutiveFailures == 0 && r.restartCount == s.restartCount + 1
            && (r.status == Healthy <==> o.recovered) && (r.status == Down <==> !o.recovered))
  {
  }

  /** `k` failed checks in a row with no successful restart. */
  function FailedRounds(s: ServiceHealth, maxFailures: int, k: nat, now: real): ServiceHealth
  {
    if k == 0 then s else Checked(FailedRounds(s, maxFailures, k - 1, now), maxFailures, Observation(false, false, false), now)
  }

  /**
   * From no failures, `k` failed checks in a row leave exactly `k` failures: the service
   * is degraded until the `maxFailures`-th, and down from then on.
   */
  lemma {:induction false} FailureStreak(s: ServiceHealth, maxFailures: int, k: nat, now: real)
    requires s.consecutiveFailures == 0 && k > 0
    ensures FailedRounds(s, maxFailures, k, now).consecutiveFailures == k
    ensures FailedRounds(s, maxFailures, k, now).status == if k < maxFailures then Degraded else Down
    ensures FailedRounds(s, maxFailures, k, now).restartCount == s.restartCount
  {
    if k > 1 {
      FailureStreak(s, maxFailures, k - 1, now);
    }
  }

  class Monitor {
    const checkInterval: int
    const maxFailures: int
    var services: map<string, ServiceHealth>
    /** The registration order, which a round follows. */
    var names: seq<string>

    predicate Valid()
      reads this
    {
      && (forall n :: n in names ==> n in services)
      && (forall n :: n in services ==> n in names)
      && (forall i, j :: 0 <= i < j < |names| ==> names[i] != names[j])
    }

    constructor (checkInterval: int, maxFailures: int)
      ensures this.checkInterval == checkInterval && this.maxFailures == maxFailures
      ensures services == map[] && names == []
      ensures Valid()
    {
      this.checkInterval := checkInterval;
      this.maxFailures := maxFailures;
      services := map[];
      names := [];
    }

    /** `register_service`: a fresh record under the name, replacing any earlier one in its place. */
    method RegisterService(name: string, url: string, now: real)
      requires Valid()
      modifies this
      ensures Valid()
      ensures services == old(services)[name := Registered(name, url, now)]
      ensures names == if name in old(services) then old(names) else old(names) + [name]
    {
      if name !in services {
        names := names + [name];
      }
      services := services[name := Registered(name, url, now)];
    }

    /** One service's turn: the health check's observation updates its status and counters. */
    method CheckService(service: ServiceHealth, o: Observation, now: real) returns (s: ServiceHealth)
      ensures s == Checked(service, maxFailures, o, now)
    {
      s := service.(lastCheck := now);
      if o.healthy {
        s := s.(status := Healthy, consecutiveFailures := 0);
      } else {
        s := s.(consecutiveFailures := s.consecutiveFailures + 1);
        if s.consecutiveFailures >= maxFailures {
          s := s.(status := Down);
          if o.restarted {
            s := s.(restartCount := s.restartCount + 1, consecutiveFailures := 0);
            if o.recovered {
              s := s.(status := Healthy);
            }
          }
        } else {
          s := s.(status := Degraded);
        }
      }
    }

    /** One round of `monitor_loop`: every service is checked once, in registration order. */
    method CheckRound(observe: string -> Observation, now: real)
      requires Valid()
      modifies this
      ensures Valid() && names == old(names)
      ensures services.Keys == old(services).Keys
      ensures forall n :: n in services ==> services[n] == Checked(old(services)[n], maxFailures, observe(n), now)
    {
      var m := services;
      for i := 0 to |names|
        invariant unchanged(this)
        invariant m.Keys == services.Keys
        invariant forall j :: 0 <= j < i ==> m[names[j]] == Checked(services[names[j]], maxFailures, observe(names[j]), now)
        invariant forall j :: i <= j < |names| ==> m[names[j]] == services[names[j]]
      {
        var name := names[i];
        var service := CheckService(m[name], observe(name), now);
        m := m[name := service];
      }
      services := m;
      forall n | n in services
        ensures services[n] == Checked(old(services)[n], maxFailures, observe(n), now)
      {
        var j :| 0 <= j < |names| && names[j] == n;
      }
    }
  }
}
