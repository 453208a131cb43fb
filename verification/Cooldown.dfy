/** The table of addresses in cooldown after a failed token check (src/app.rs,
    `cooldown_remaining`, `record_auth_failure`), against the full history of failures.

    Instants are nanoseconds of the monotonic clock, read in the order in which the calls take
    the lock of the table. */
module Cooldown {
  import opened TaskModel

  datatype Ip = V4(bits: nat) | V6(bits: nat)
  type Instant = nat

  datatype Failure = Failure(ip: Ip, at: Instant)

  // ---- The history ----

  /** The moment of the latest failure of `ip`. */
  function LastFailure(history: seq<Failure>, ip: Ip): Option<Instant> {
    if history == [] then None
    else if history[|history| - 1].ip == ip then Some(history[|history| - 1].at)
    else LastFailure(history[..|history| - 1], ip)
  }

  /** An address with a failure less than `span` ago. */
  predicate Cooling(history: seq<Failure>, span: nat, ip: Ip, now: Instant) {
    LastFailure(history, ip).Some? && now < LastFailure(history, ip).value + span
  }

  lemma {:induction false} LastFailureIsRecorded(history: seq<Failure>, ip: Ip)
    requires LastFailure(history, ip).Some?
    ensures Failure(ip, LastFailure(history, ip).value) in history
  {
    if history[|history| - 1].ip != ip {
      LastFailureIsRecorded(history[..|history| - 1], ip);
    }
  }

  // ---- The table ----

  /** What the table must be for a given history at time `now`: bounded, exact on the addresses it
      tracks, and preferring recent failures: no untracked address still in its cooldown expires
      after a tracked one. */
  ghost predicate Faithful(table: map<Ip, Instant>, history: seq<Failure>, span: nat, maxTracked: nat, now: Instant) {
    && |table| <= maxTracked
    && (forall f :: f in history ==> f.at <= now)
    && (forall ip :: ip in table ==>
          LastFailure(history, ip).Some? && table[ip] == LastFailure(history, ip).value + span)
    && (forall i, j :: Cooling(history, span, i, now) && i !in table && j in table ==>
          LastFailure(history, i).value + span <= table[j])
  }

  /** Every address in its cooldown is tracked. */
  ghost predicate Complete(table: map<Ip, Instant>, history: seq<Failure>, span: nat, now: Instant) {
    forall ip :: Cooling(history, span, ip, now) ==> ip in table
  }

  function Pruned(table: map<Ip, Instant>, now: Instant): map<Ip, Instant> {
    map ip | ip in table && table[ip] > now :: table[ip]
  }

  predicate IsOldest(table: map<Ip, Instant>, ip: Ip) {
    ip in table && forall j :: j in table ==> table[ip] <= table[j]
  }

  /** The table without an evicted entry. */
  function Without(table: map<Ip, Instant>, victim: Option<Ip>): map<Ip, Instant> {
    if victim.Some? then table - {victim.value} else table
  }

  /** The effect of recording a failure: prune, evict an oldest entry of a full table, insert. */
  predicate Records(table: map<Ip, Instant>, ip: Ip, now: Instant, span: nat, maxTracked: nat,
                    victim: Option<Ip>, after: map<Ip, Instant>) {
    var pruned := Pruned(table, now);
    && (victim.Some? <==> maxTracked <= |pruned| && pruned != map[])
    && (victim.Some? ==> IsOldest(pruned, victim.value))
    && after == Without(pruned, victim)[ip := now + span]
  }

  lemma PrunedSize(table: map<Ip, Instant>, now: Instant)
    ensures |Pruned(table, now)| <= |table|
  {
    assert Pruned(table, now).Keys <= table.Keys;
    assert table.Keys == Pruned(table, now).Keys + (table.Keys - Pruned(table, now).Keys);
  }

  lemma InsertSize(table: map<Ip, Instant>, ip: Ip, until: Instant)
    ensures |table[ip := until]| <= |table| + 1
  {
    assert table[ip := until].Keys == table.Keys + {ip};
  }

  lemma RemoveSize(table: map<Ip, Instant>, ip: Ip)
    requires ip in table
    ensures |table - {ip}| == |table| - 1
  {
    assert (table - {ip}).Keys == table.Keys - {ip};
  }

  lemma RecordsSize(table: map<Ip, Instant>, ip: Ip, now: Instant, span: nat, maxTracked: nat,
                    victim: Option<Ip>, after: map<Ip, Instant>)
    requires Records(table, ip, now, span, maxTracked, victim, after) && |table| <= maxTracked && 0 < maxTracked
    ensures |after| <= maxTracked
  {
    var pruned := Pruned(table, now);
    PrunedSize(table, now);
    if victim.Some? { RemoveSize(pruned, victim.value); }
    InsertSize(Without(pruned, victim), ip, now + span);
  }

  lemma LastFailureAfter(history: seq<Failure>, f: Failure, ip: Ip)
    ensures LastFailure(history + [f], ip) == if f.ip == ip then Some(f.at) else LastFailure(history, ip)
  {
    assert (history + [f])[..|history|] == history;
  }

  /** An address that the record leaves untracked in its cooldown was the victim, or was
      untracked before; either way no tracked address expires earlier. */
  lemma RecordFollowsRecency(table: map<Ip, Instant>, history: seq<Failure>, span: nat, maxTracked: nat, clock: Instant,
                             ip: Ip, now: Instant, victim: Option<Ip>, after: map<Ip, Instant>, lost: Ip, j: Ip)
    requires Faithful(table, history, span, maxTracked, clock) && clock <= now
    requires Records(table, ip, now, span, maxTracked, victim, after)
    requires lost !in after && j in after && Cooling(history, span, lost, now)
    ensures LastFailure(history, lost).value + span <= after[j]
  {
    LastFailureIsRecorded(history, lost);
    var f := Failure(lost, LastFailure(history, lost).value);
    assert f in history && f.at <= clock;
    if j != ip {
      assert j in table && after[j] == table[j];
      if lost in table {
        assert victim == Some(lost) && j in Pruned(table, now);
      } else {
        assert Cooling(history, span, lost, clock);
      }
    }
  }

  /** Recording keeps the table faithful to the longer history. */
  lemma RecordKeepsFaithful(table: map<Ip, Instant>, history: seq<Failure>, span: nat, maxTracked: nat, clock: Instant,
                            ip: Ip, now: Instant, victim: Option<Ip>, after: map<Ip, Instant>)
    requires Faithful(table, history, span, maxTracked, clock) && clock <= now && 0 < maxTracked
    requires Records(table, ip, now, span, maxTracked, victim, after)
    ensures Faithful(after, history + [Failure(ip, now)], span, maxTracked, now)
  {
    var longer := history + [Failure(ip, now)];
    RecordsSize(table, ip, now, span, maxTracked, victim, after);
    forall j | j in after
      ensures LastFailure(longer, j).Some? && after[j] == LastFailure(longer, j).value + span
    {
      LastFailureAfter(history, Failure(ip, now), j);
    }
    forall i, j | Cooling(longer, span, i, now) && i !in after && j in after
      ensures LastFailure(longer, i).value + span <= after[j]
    {
      LastFailureAfter(history, Failure(ip, now), i);
      RecordFollowsRecency(table, history, span, maxTracked, clock, ip, now, victim, after, i, j);
    }
  }

  /** The condition under which recording a failure of `ip` drops no address in its cooldown. */
  predicate LosesNobody(table: map<Ip, Instant>, ip: Ip, now: Instant, maxTracked: nat, victim: Option<Ip>) {
    |Pruned(table, now)| < maxTracked || victim == Some(ip)
  }

  lemma RecordKeepsComplete(table: map<Ip, Instant>, history: seq<Failure>, span: nat, maxTracked: nat,
                            clock: Instant, ip: Ip, now: Instant, victim: Option<Ip>, after: map<Ip, Instant>)
    requires Complete(table, history, span, clock) && Faithful(table, history, span, maxTracked, clock) && clock <= now
    requires Records(table, ip, now, span, maxTracked, victim, after) && LosesNobody(table, ip, now, maxTracked, victim)
    ensures Complete(after, history + [Failure(ip, now)], span, now)
  {
    var longer := history + [Failure(ip, now)];
    forall i | Cooling(longer, span, i, now) ensures i in after {
      LastFailureAfter(history, Failure(ip, now), i);
      if i != ip {
        LastFailureIsRecorded(history, i);
        assert Cooling(history, span, i, clock);
      }
    }
  }

  /** A victim other than the failing address was in its cooldown and is forgotten. */
  lemma VictimIsLost(table: map<Ip, Instant>, history: seq<Failure>, span: nat, maxTracked: nat,
                     clock: Instant, ip: Ip, now: Instant, victim: Ip, after: map<Ip, Instant>)
    requires Faithful(table, history, span, maxTracked, clock) && victim != ip
    requires Records(table, ip, now, span, maxTracked, Some(victim), after)
    ensures Cooling(history + [Failure(ip, now)], span, victim, now) && victim !in after
    ensures !Complete(after, history + [Failure(ip, now)], span, now)
  {
    var longer := history + [Failure(ip, now)];
    LastFailureAfter(history, Failure(ip, now), victim);
    assert Cooling(longer, span, victim, now);
  }

  /** Recording a failure loses an address in its cooldown if and only if the pruned table is full
      and the entry evicted is not the one of the failing address. */
  lemma CompleteIff(table: map<Ip, Instant>, history: seq<Failure>, span: nat, maxTracked: nat,
                    clock: Instant, ip: Ip, now: Instant, victim: Option<Ip>, after: map<Ip, Instant>)
    requires Faithful(table, history, span, maxTracked, clock) && Complete(table, history, span, clock)
    requires clock <= now && 0 < maxTracked && Records(table, ip, now, span, maxTracked, victim, after)
    ensures Complete(after, history + [Failure(ip, now)], span, now) <==> LosesNobody(table, ip, now, maxTracked, victim)
  {
    if LosesNobody(table, ip, now, maxTracked, victim) {
      RecordKeepsComplete(table, history, span, maxTracked, clock, ip, now, victim, after);
    } else {
      assert victim.Some?;
      VictimIsLost(table, history, span, maxTracked, clock, ip, now, victim.value, after);
    }
  }

  /** Such a loss is needless, the new table still having room, if and only if the failing
      address was tracked already: eviction does not look whether an entry is to be added. */
  lemma LossIsNeedlessIff(table: map<Ip, Instant>, ip: Ip, now: Instant, span: nat, maxTracked: nat,
                          victim: Option<Ip>, after: map<Ip, Instant>)
    requires |table| <= maxTracked && 0 < maxTracked && Records(table, ip, now, span, maxTracked, victim, after)
    requires !LosesNobody(table, ip, now, maxTracked, victim)
    ensures |after| < maxTracked <==> ip in Pruned(table, now)
  {
    var pruned := Pruned(table, now);
    PrunedSize(table, now);
    RemoveSize(pruned, victim.value);
    var kept := Without(pruned, victim);
    if ip in pruned {
      assert after.Keys == kept.Keys;
    } else {
      assert after.Keys == kept.Keys + {ip};
    }
  }

  /** Two addresses have failed, at 0 and at 1. */
  const TWO_FAILURES: seq<Failure> := [Failure(V4(1), 0), Failure(V4(2), 1)]

  function TwoTracked(span: nat): map<Ip, Instant> {
    map[V4(1) := span, V4(2) := 1 + span]
  }

  lemma TwoLastFailures()
    ensures LastFailure(TWO_FAILURES, V4(1)) == Some(0) && LastFailure(TWO_FAILURES, V4(2)) == Some(1)
  {
    assert TWO_FAILURES == [Failure(V4(1), 0)] + [Failure(V4(2), 1)];
    LastFailureAfter([Failure(V4(1), 0)], Failure(V4(2), 1), V4(1));
    assert [Failure(V4(1), 0)] == [] + [Failure(V4(1), 0)];
    LastFailureAfter([], Failure(V4(1), 0), V4(1));
  }

  lemma TwoAreTracked(span: nat)
    ensures Faithful(TwoTracked(span), TWO_FAILURES, span, 2, 1) && Complete(TwoTracked(span), TWO_FAILURES, span, 1)
  {
    TwoLastFailures();
    assert TwoTracked(span).Keys == {V4(1), V4(2)};
    forall ip | LastFailure(TWO_FAILURES, ip).Some? ensures ip in TwoTracked(span) {
      LastFailureIsRecorded(TWO_FAILURES, ip);
    }
  }

  lemma FirstIsVictim(span: nat, victim: Option<Ip>, after: map<Ip, Instant>)
    requires 2 < span && Records(TwoTracked(span), V4(2), 2, span, 2, victim, after)
    ensures victim == Some(V4(1)) && V4(2) in Pruned(TwoTracked(span), 2) && |Pruned(TwoTracked(span), 2)| == 2
  {
    var table := TwoTracked(span);
    assert table.Keys == {V4(1), V4(2)};
    assert Pruned(table, 2) == table;
    assert V4(1) in table;
  }

  /** It happens: when the later of the two fails again, a table with room for two, exact and
      complete on this history, forgets the other one in its cooldown. */
  lemma RepeatedFailureEvictsOther(seconds: nat, victim: Option<Ip>, after: map<Ip, Instant>)
    requires seconds > 0 && Records(TwoTracked(seconds * NANOS), V4(2), 2, seconds * NANOS, 2, victim, after)
    ensures Faithful(TwoTracked(seconds * NANOS), TWO_FAILURES, seconds * NANOS, 2, 1)
    ensures Complete(TwoTracked(seconds * NANOS), TWO_FAILURES, seconds * NANOS, 1)
    ensures Cooling(TWO_FAILURES + [Failure(V4(2), 2)], seconds * NANOS, V4(1), 2) && V4(1) !in after && |after| < 2
  {
    var span := seconds * NANOS;
    var table := TwoTracked(span);
    TwoAreTracked(span);
    FirstIsVictim(span, victim, after);
    VictimIsLost(table, TWO_FAILURES, span, 2, 1, V4(2), 2, V4(1), after);
    LossIsNeedlessIff(table, V4(2), 2, span, 2, victim, after);
  }

  /** Any entry with the least expiry; iteration order is arbitrary. */
  method FindOldest(table: map<Ip, Instant>) returns (oldest: Ip)
    requires table != map[]
    ensures IsOldest(table, oldest)
  {
    var todo := table.Keys;
    assert todo != {};
    oldest :| oldest in todo;
    while todo != {}
      invariant oldest in table && todo <= table.Keys
      invariant forall j :: j in table && j !in todo ==> table[oldest] <= table[j]
      decreases |todo|
    {
      var j :| j in todo;
      if table[j] < table[oldest] {
        oldest := j;
      }
      todo := todo - {j};
    }
  }

  /** `HashMap::retain` with the test of record_auth_failure. */
  method Retain(table: map<Ip, Instant>, now: Instant) returns (kept: map<Ip, Instant>)
    ensures kept == Pruned(table, now)
  {
    kept := table;
    var todo := table.Keys;
    while todo != {}
      invariant todo <= table.Keys
      invariant kept == map ip | ip in table && (ip in todo || table[ip] > now) :: table[ip]
      decreases |todo|
    {
      var ip :| ip in todo;
      if !(kept[ip] > now) {
        kept := kept - {ip};
      }
      todo := todo - {ip};
    }
  }

  /** The update of record_auth_failure. */
  method Insert(table: map<Ip, Instant>, ip: Ip, now: Instant, span: nat, maxTracked: nat)
    returns (after: map<Ip, Instant>, victim: Option<Ip>)
    ensures Records(table, ip, now, span, maxTracked, victim, after)
  {
    after := Retain(table, now);
    victim := None;
    if |after| >= maxTracked && after != map[] {
      var oldest := FindOldest(after);
      after, victim := after - {oldest}, Some(oldest);
    }
    after := after[ip := now + span];
  }

  // ---- The table in place ----

  /** The table is exact, and complete unless it has ever forgotten an address. */
  ghost predicate Sound(table: map<Ip, Instant>, history: seq<Failure>, seconds: nat, maxTracked: nat, now: Instant, lost: bool) {
    && Faithful(table, history, seconds * NANOS, maxTracked, now)
    && (lost || Complete(table, history, seconds * NANOS, now))
  }

  lemma RecordIsSound(table: map<Ip, Instant>, history: seq<Failure>, seconds: nat, maxTracked: nat, clock: Instant, lost: bool,
                      ip: Ip, now: Instant, victim: Option<Ip>, after: map<Ip, Instant>)
    requires Sound(table, history, seconds, maxTracked, clock, lost) && clock <= now && 0 < maxTracked
    requires Records(table, ip, now, seconds * NANOS, maxTracked, victim, after)
    ensures Sound(after, history + [Failure(ip, now)], seconds, maxTracked, now,
                  lost || !LosesNobody(table, ip, now, maxTracked, victim))
  {
    RecordKeepsFaithful(table, history, seconds * NANOS, maxTracked, clock, ip, now, victim, after);
    if !lost && LosesNobody(table, ip, now, maxTracked, victim) {
      RecordKeepsComplete(table, history, seconds * NANOS, maxTracked, clock, ip, now, victim, after);
    }
  }

  lemma LaterIsSound(table: map<Ip, Instant>, history: seq<Failure>, seconds: nat, maxTracked: nat, clock: Instant, lost: bool, now: Instant)
    requires Sound(table, history, seconds, maxTracked, clock, lost) && clock <= now
    ensures Sound(table, history, seconds, maxTracked, now, lost)
  {
  }

  lemma ForgettingIsSound(table: map<Ip, Instant>, history: seq<Failure>, seconds: nat, maxTracked: nat, lost: bool, now: Instant, ip: Ip)
    requires Sound(table, history, seconds, maxTracked, now, lost) && ip in table && table[ip] <= now
    ensures Sound(table - {ip}, history, seconds, maxTracked, now, lost)
    ensures !Cooling(history, seconds * NANOS, ip, now)
  {
    RemoveSize(table, ip);
  }

  lemma UntrackedIsFree(table: map<Ip, Instant>, history: seq<Failure>, seconds: nat, maxTracked: nat, now: Instant, ip: Ip)
    requires Sound(table, history, seconds, maxTracked, now, false) && ip !in table
    ensures !Cooling(history, seconds * NANOS, ip, now)
  {
  }

  /** Rounding up whole seconds. */
  lemma CeilingOfSeconds(remaining: nat, seconds: nat)
    requires 0 < remaining <= seconds * NANOS
    ensures var retry := remaining / NANOS + if remaining % NANOS > 0 then 1 else 0;
            (retry - 1) * NANOS < remaining <= retry * NANOS && 1 <= retry <= seconds
  {
    var q, m := remaining / NANOS, remaining % NANOS;
    assert remaining == q * NANOS + m;
    assert q <= seconds;
  }

  /** `retry` is the time that remains of the cooldown of the latest failure, in seconds rounded up. */
  predicate Refusal(history: seq<Failure>, seconds: nat, ip: Ip, now: Instant, retry: nat) {
    && Cooling(history, seconds * NANOS, ip, now)
    && var remaining := LastFailure(history, ip).value + seconds * NANOS - now;
    && (retry - 1) * NANOS < remaining <= retry * NANOS
    && 1 <= retry <= seconds
  }

  /** A tracked address in its cooldown, and the answer to it. */
  lemma RefusalIsRight(table: map<Ip, Instant>, history: seq<Failure>, seconds: nat, maxTracked: nat, now: Instant, ip: Ip)
    requires Sound(table, history, seconds, maxTracked, now, true) && ip in table && now < table[ip]
    ensures Refusal(history, seconds, ip, now, (table[ip] - now) / NANOS + if (table[ip] - now) % NANOS > 0 then 1 else 0)
  {
    LastFailureIsRecorded(history, ip);
    CeilingOfSeconds(table[ip] - now, seconds);
  }

  class CooldownTable {
    const enabled: bool
    const seconds: nat
    const maxTracked: nat
    var failures: map<Ip, Instant>
    ghost var history: seq<Failure>
    ghost var clock: Instant
    ghost var everLost: bool   // some failure made the table forget an address in its cooldown

    ghost predicate Valid()
      reads this
    {
      && (enabled ==> seconds > 0 && maxTracked > 0)
      && Sound(failures, history, seconds, maxTracked, clock, everLost)
    }

    constructor (enabled: bool, seconds: nat, maxTracked: nat)
      requires enabled ==> seconds > 0 && maxTracked > 0
      ensures Valid() && history == [] && failures == map[] && !everLost
    {
      this.enabled, this.seconds, this.maxTracked := enabled, seconds, maxTracked;
      this.failures, this.history, this.clock, this.everLost := map[], [], 0, false;
    }

    /** A refusal names the whole seconds, rounded up, that remain of the cooldown of the latest
        failure of this address; as long as the table has forgotten nobody, every address in
        cooldown is refused. */
    method CooldownRemaining(ip: Ip, now: Instant) returns (retry: Option<nat>)
      requires Valid() && clock <= now
      modifies this
      ensures Valid() && clock == now && history == old(history) && everLost == old(everLost)
      ensures retry.Some? ==> enabled && Refusal(history, seconds, ip, now, retry.value)
      ensures enabled && Cooling(history, seconds * NANOS, ip, now) && (ip in old(failures) || !everLost) ==> retry.Some?
      ensures enabled && !Cooling(history, seconds * NANOS, ip, now) ==> ip !in failures
      ensures forall j :: j in old(failures) && (!enabled || j != ip || old(failures)[j] > now) ==>
                j in failures && failures[j] == old(failures)[j]
      ensures forall j :: j in failures ==> j in old(failures)
    {
      LaterIsSound(failures, history, seconds, maxTracked, clock, everLost, now);
      clock := now;
      if !enabled {
        return None;
      }
      if ip in failures {
        var until := failures[ip];
        if until > now {
          RefusalIsRight(failures, history, seconds, maxTracked, now, ip);
          var remaining := until - now;
          retry := Some(remaining / NANOS + if remaining % NANOS > 0 then 1 else 0);
        } else {
          ForgettingIsSound(failures, history, seconds, maxTracked, everLost, now, ip);
          failures := failures - {ip};
          retry := None;
        }
      } else {
        retry := None;
        if !everLost {
          UntrackedIsFree(failures, history, seconds, maxTracked, now, ip);
        }
      }
    }

    /** `victim` is the entry that was evicted, if any. */
    method RecordAuthFailure(ip: Ip, now: Instant) returns (ghost victim: Option<Ip>)
      requires Valid() && clock <= now
      modifies this
      ensures Valid() && clock == now
      ensures !enabled ==> failures == old(failures) && history == old(history) && everLost == old(everLost)
      ensures enabled ==>
                && history == old(history) + [Failure(ip, now)]
                && Records(old(failures), ip, now, seconds * NANOS, maxTracked, victim, failures)
                && (everLost <==> old(everLost) || !LosesNobody(old(failures), ip, now, maxTracked, victim))
    {
      victim := None;
      if !enabled {
        LaterIsSound(failures, history, seconds, maxTracked, clock, everLost, now);
        clock := now;
        return;
      }
      var after, evicted := Insert(failures, ip, now, seconds * NANOS, maxTracked);
      victim := evicted;
      RecordIsSound(failures, history, seconds, maxTracked, clock, everLost, ip, now, victim, after);
      everLost := everLost || !LosesNobody(failures, ip, now, maxTracked, victim);
      failures := after;
      history := history + [Failure(ip, now)];
      clock := now;
    }
  }
}
