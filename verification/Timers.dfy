/** Timed deletion: audit events past their TTL and claims past their delete-at time. Each pass looks at the
    clock once to decide and once more to compute the delay, so the two looks must not be too far apart. */
module Timers {
  import opened Claims
  import opened Environment
  import opened ApiServer
  import opened Passes
  import ClusterPass

  // ---- The audit event purger -------------------------------------------------------------

  /** The spec's TTL: empty, not a duration, or a duration. */
  datatype TTL = NoTTL | Malformed | Duration(nanos: int)

  datatype AuditEvent = AuditEvent(created: int, ttl: TTL)

  function Expiry(ev: AuditEvent, defaultTTL: int): int {
    ev.created + if ev.ttl.Duration? then ev.ttl.nanos else defaultTTL
  }

  /** What the pass does, given its two looks at the clock: a delay, or a deletion. */
  datatype Verdict = Wait(delay: int) | Remove

  function Purge(ev: AuditEvent, defaultTTL: int, first: int, second: int): Verdict {
    if first < Expiry(ev, defaultTTL) then Wait(Expiry(ev, defaultTTL) - second + SECOND) else Remove
  }

  /** AuditEventPurgeReconciler over the events that exist. */
  class AuditEventPurgeReconciler {
    const env: Env
    const defaultTTL: int
    var ticks: nat
    var calls: nat
    var events: map<string, AuditEvent>

    constructor (env: Env, defaultTTL: int, events: map<string, AuditEvent>)
      ensures this.env == env && this.defaultTTL == defaultTTL && this.events == events && ticks == 0 && calls == 0
    {
      this.env, this.defaultTTL, this.events, ticks, calls := env, defaultTTL, events, 0, 0;
    }

    method Now() returns (t: int)
      modifies this`ticks
      ensures t == env.clock(old(ticks)) && ticks == old(ticks) + 1
    {
      t := env.clock(ticks);
      ticks := ticks + 1;
    }

    /** Delete once the event has expired, else come back a second after it will have. */
    method Reconcile(name: string) returns (r: Reply)
      modifies this`ticks, this`calls, this`events
      ensures env.kube(old(calls)) != Ok ==> r == Error && events == old(events)
      ensures env.kube(old(calls)) == Ok && name !in old(events) ==> r == Finished && events == old(events)
      ensures env.kube(old(calls)) == Ok && name in old(events) ==>
                match Purge(old(events)[name], defaultTTL, env.clock(old(ticks)), env.clock(old(ticks) + 1))
                case Wait(delay) => r == After(delay) && events == old(events)
                case Remove =>
                  && events == (if env.kube(old(calls) + 1) == Refused then old(events) else old(events) - {name})
                  && r == (if env.kube(old(calls) + 1) == Ok then Finished else Error)
    {
      var o := env.kube(calls);
      calls := calls + 1;
      if o != Ok { return Error; }
      if name !in events { return Finished; }
      var ev := events[name];
      var ttl := defaultTTL;
      match ev.ttl {
        case NoTTL =>
        case Malformed =>
        case Duration(nanos) => ttl := nanos;
      }
      var expiry := ev.created + ttl;
      var now := Now();
      if now < expiry {
        now := Now();
        return After(expiry - now + SECOND);
      }
      o := env.kube(calls);
      calls := calls + 1;
      if o != Refused { events := events - {name}; }
      r := if o == Ok then Finished else Error;
    }
  }

  // ---- Never early, never forgotten -------------------------------------------------------

  /** The work queue drops a delay that is not positive: only a positive one brings the next pass. */
  predicate Scheduled(v: Verdict) {
    v.Wait? && v.delay > 0
  }

  /** A pass removes the event exactly when it has expired; a pass that waits is followed by another exactly
      when its second look comes less than a second after expiry. */
  lemma PurgeExactly(ev: AuditEvent, defaultTTL: int, first: int, second: int)
    requires first <= second
    ensures Purge(ev, defaultTTL, first, second) == Remove <==> Expiry(ev, defaultTTL) <= first
    ensures Scheduled(Purge(ev, defaultTTL, first, second)) <==>
              first < Expiry(ev, defaultTTL) && second < Expiry(ev, defaultTTL) + SECOND
  {
  }

  /** A clock that never goes back. */
  ghost predicate Nondecreasing(e: Env) {
    forall i: nat, j: nat :: i <= j ==> e.clock(i) <= e.clock(j)
  }

  /** With looks less than a second apart an event is never removed early and never forgotten: it goes in the
      first pass at or after its expiry, or that pass is followed by one that finds it expired. The queue
      delivers the second pass, at tick b, no earlier than the wake-up. */
  lemma PurgedInTwoPasses(e: Env, ev: AuditEvent, defaultTTL: int, a: nat, b: nat)
    requires Nondecreasing(e) && e.clock(a + 1) - e.clock(a) < SECOND
    requires var v := Purge(ev, defaultTTL, e.clock(a), e.clock(a + 1));
             v.Wait? ==> e.clock(b) >= e.clock(a + 1) + v.delay
    ensures var v := Purge(ev, defaultTTL, e.clock(a), e.clock(a + 1));
            if v == Remove then e.clock(a) >= Expiry(ev, defaultTTL)
            else
              && Scheduled(v)
              && e.clock(b) > Expiry(ev, defaultTTL)
              && Purge(ev, defaultTTL, e.clock(b), e.clock(b + 1)) == Remove
  {
    assert e.clock(a) <= e.clock(a + 1);
  }

  // ---- The delete-at annotation -----------------------------------------------------------

  ghost predicate Asked(c: Claim, t: int) {
    c.Cluster? && c.meta.deleteAt == Deadline(t)
  }

  /** A Ready claim with a deadline is deleted only after it; until then its pass leaves the claim alone, and
      it is followed by another pass exactly when the second look comes less than a second after the deadline. */
  lemma DeadlineKept(e: Env, w: World, key: Key, ver: nat, c: Claim, t: int)
    requires Asked(c, t) && e.clock(w.ticks) <= e.clock(w.ticks + 1)
    ensures var f := ClusterPass.SteadyState(e, w, key, ver, c);
            f.Stop? &&
            if e.clock(w.ticks) > t then f.w.kube == DeleteClaim(e, w.kube, key).k
            else
              && f.w.kube == w.kube && f.w.nb == w.nb && f.reply.After?
              && (f.reply.delay > 0 <==> e.clock(w.ticks + 1) < t + SECOND)
              && (e.clock(w.ticks + 1) - e.clock(w.ticks) < SECOND ==> f.reply.delay > 0)
  {
  }

  /** When the delay has passed the next pass asks for the deletion, so a deadline costs at most two passes. */
  lemma DeadlineMet(e: Env, w: World, w': World, key: Key, ver: nat, ver': nat, c: Claim, c': Claim, t: int)
    requires Asked(c, t) && Asked(c', t) && e.clock(w.ticks) <= t
    requires var f := ClusterPass.SteadyState(e, w, key, ver, c);
             f.Stop? && f.reply.After? && f.reply.delay > 0
             && e.clock(w'.ticks) >= e.clock(w.ticks + 1) + f.reply.delay
    ensures ClusterPass.SteadyState(e, w', key, ver', c').w.kube == DeleteClaim(e, w'.kube, key).k
  {
    DeadlineWaits(e, w, key, ver, c, t);
  }

  lemma DeadlineWaits(e: Env, w: World, key: Key, ver: nat, c: Claim, t: int)
    requires Asked(c, t) && e.clock(w.ticks) <= t
    ensures ClusterPass.SteadyState(e, w, key, ver, c) == Stop(w.(ticks := w.ticks + 2), After(t - e.clock(w.ticks + 1) + SECOND))
  {
  }
}
