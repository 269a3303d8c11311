/** Idempotency records: claim, complete and abandon, as transactions on the table. */
module Idempotency {
  import opened Basics

  /** Authorization context, operation, idempotency key, execution mode and simulation. */
  type Key = string

  datatype Outcome = TaskOutcome(taskId: Id) | ResultOutcome(result: string)

  /** A record with an outcome is COMPLETE, one without is PENDING. */
  datatype Record = Record(
    argumentHash: Id,
    stableTaskId: Id,
    outcome: Option<Outcome>,
    leaseOwner: Option<Id>,
    leaseExpiresAt: Instant,
    claimAttempt: nat)

  type Records = map<Key, Record>

  datatype ClaimResult =
    | Claimed(stableTaskId: Id, recovering: bool, duplicate: bool)
    | AlreadyComplete(outcome: Outcome)
    | Wait
    | KeyConflict

  /** The clock readings of a claim: at the insert, at the look-up and at the take-over. */
  datatype Readings = Readings(insert: Instant, find: Instant, takeOver: Instant)

  function Inserted(rs: Records, key: Key, hash: Id, owner: Id, fresh': Id, now: Readings, leaseMs: int): Records {
    if key in rs then rs else rs[key := Record(hash, fresh', None, Some(owner), now.insert + leaseMs, 1)]
  }

  function Claim(rs: Records, key: Key, hash: Id, owner: Id, fresh': Id, now: Readings, leaseMs: int)
    : (Records, ClaimResult)
  {
    var rs' := Inserted(rs, key, hash, owner, fresh', now, leaseMs);
    var row := rs'[key];
    if row.argumentHash != hash then (rs, KeyConflict)
    else if row.outcome.Some? then (rs', AlreadyComplete(row.outcome.value))
    else if key !in rs || row.leaseOwner == Some(owner) then (rs', Claimed(row.stableTaskId, false, false))
    else if row.leaseExpiresAt > now.find || row.leaseExpiresAt > now.takeOver then (rs', Wait)
    else
      (rs'[key := row.(leaseOwner := Some(owner), leaseExpiresAt := now.takeOver + leaseMs,
                       claimAttempt := row.claimAttempt + 1)],
       Claimed(row.stableTaskId, true, true))
  }

  predicate HeldBy(rs: Records, key: Key, owner: Id) {
    key in rs && rs[key].outcome.None? && rs[key].leaseOwner == Some(owner)
  }

  /** None: the lease was lost and nobody has completed yet. */
  function Complete(rs: Records, key: Key, owner: Id, outcome: Outcome): (Records, Option<Outcome>) {
    if HeldBy(rs, key, owner)
    then (rs[key := rs[key].(outcome := Some(outcome), leaseOwner := None)], Some(outcome))
    else if key in rs then (rs, rs[key].outcome)
    else (rs, None)
  }

  function Abandon(rs: Records, key: Key, owner: Id, now: Instant): Records {
    if HeldBy(rs, key, owner) then rs[key := rs[key].(leaseExpiresAt := now)] else rs
  }

  /** The repository, updating its table row by row. */
  class Repository {
    var records: Records
    const leaseMs: int

    constructor (leaseMs: int)
      ensures records == map[] && this.leaseMs == leaseMs
    {
      records := map[];
      this.leaseMs := leaseMs;
    }

    method ClaimRecord(key: Key, hash: Id, owner: Id, fresh': Id, now: Readings) returns (r: ClaimResult)
      modifies this
      ensures (records, r) == Claim(old(records), key, hash, owner, fresh', now, leaseMs)
    {
      var before := records;
      var inserted := key !in records;
      if inserted {
        records := records[key := Record(hash, fresh', None, Some(owner), now.insert + leaseMs, 1)];
      }
      var row := records[key];
      if row.argumentHash != hash {
        records := before;
        return KeyConflict;
      }
      if row.outcome.Some? {
        return AlreadyComplete(row.outcome.value);
      }
      if inserted || row.leaseOwner == Some(owner) {
        return Claimed(row.stableTaskId, false, false);
      }
      if row.leaseExpiresAt > now.find {
        return Wait;
      }
      if row.leaseExpiresAt > now.takeOver {
        return Wait;
      }
      records := records[key := row.(leaseOwner := Some(owner), leaseExpiresAt := now.takeOver + leaseMs,
                                     claimAttempt := row.claimAttempt + 1)];
      return Claimed(row.stableTaskId, true, true);
    }

    method CompleteRecord(key: Key, owner: Id, outcome: Outcome) returns (r: Option<Outcome>)
      modifies this
      ensures (records, r) == Complete(old(records), key, owner, outcome)
    {
      if key in records && records[key].outcome.None? && records[key].leaseOwner == Some(owner) {
        records := records[key := records[key].(outcome := Some(outcome), leaseOwner := None)];
        return Some(outcome);
      }
      if key in records && records[key].outcome.Some? {
        return records[key].outcome;
      }
      return None;
    }

    method AbandonRecord(key: Key, owner: Id, now: Instant)
      modifies this
      ensures records == Abandon(old(records), key, owner, now)
    {
      if key in records && records[key].outcome.None? && records[key].leaseOwner == Some(owner) {
        records := records[key := records[key].(leaseExpiresAt := now)];
      }
    }
  }

  /* ---------- what every transaction keeps ---------- */

  /** A record keeps its arguments and task id, and a completed one is final. */
  predicate RecordKept(r: Record, r': Record) {
    && r'.argumentHash == r.argumentHash && r'.stableTaskId == r.stableTaskId
    && (r.outcome.Some? ==> r' == r)
  }

  ghost predicate RecordsKept(rs: Records, rs': Records) {
    forall key :: key in rs ==> key in rs' && RecordKept(rs[key], rs'[key])
  }

  lemma TransactionsKeepRecords(
      rs: Records, key: Key, hash: Id, owner: Id, fresh': Id, now: Readings, leaseMs: int,
      outcome: Outcome, at: Instant)
    ensures RecordsKept(rs, Claim(rs, key, hash, owner, fresh', now, leaseMs).0)
    ensures RecordsKept(rs, Complete(rs, key, owner, outcome).0)
    ensures RecordsKept(rs, Abandon(rs, key, owner, at))
  {
  }

  /** A claim with other arguments fails and changes nothing, and that is the only way to fail. */
  lemma ConflictExactly(rs: Records, key: Key, hash: Id, owner: Id, fresh': Id, now: Readings, leaseMs: int)
    ensures var (rs', r) := Claim(rs, key, hash, owner, fresh', now, leaseMs);
      && (r.KeyConflict? <==> key in rs && rs[key].argumentHash != hash)
      && (r.KeyConflict? || r.Wait? || r.AlreadyComplete? ==> rs' == rs)
      && (r.Claimed? ==> HeldBy(rs', key, owner) && rs'[key].argumentHash == hash
                         && rs'[key].stableTaskId == r.stableTaskId)
  {
  }

  /** A claim of a record that is pending for the same arguments, held by someone else. */
  predicate Contests(rs: Records, key: Key, hash: Id, owner: Id) {
    && key in rs && rs[key].argumentHash == hash && rs[key].outcome.None?
    && rs[key].leaseOwner.Some? && rs[key].leaseOwner.value != owner
  }

  /** The lease is over at the look-up and still at the take-over. */
  predicate Lapsed(r: Record, now: Readings) {
    r.leaseExpiresAt <= now.find && r.leaseExpiresAt <= now.takeOver
  }

  /**
   A contested record is taken over if and only if its lease is over, as a
   recovery of the same task; a live lease makes the caller wait and changes
   nothing. A claim without a contest succeeds at once: the first one with a new
   task id, a repeated one with nothing changed.
   */
  lemma ClaimExactly(rs: Records, key: Key, hash: Id, owner: Id, fresh': Id, now: Readings, leaseMs: int)
    ensures var (rs', r) := Claim(rs, key, hash, owner, fresh', now, leaseMs);
      && (r.Wait? <==> key in rs && rs[key].argumentHash == hash && rs[key].outcome.None?
                       && rs[key].leaseOwner != Some(owner) && !Lapsed(rs[key], now))
      && (Contests(rs, key, hash, owner) && Lapsed(rs[key], now) ==>
            && r == Claimed(rs[key].stableTaskId, true, true) && HeldBy(rs', key, owner)
            && rs'[key].leaseExpiresAt == now.takeOver + leaseMs
            && rs'[key].claimAttempt == rs[key].claimAttempt + 1)
      && (key !in rs ==>
            && r == Claimed(fresh', false, false) && rs'[key].leaseExpiresAt == now.insert + leaseMs
            && rs'[key].claimAttempt == 1)
      && (HeldBy(rs, key, owner) && rs[key].argumentHash == hash ==>
            rs' == rs && r == Claimed(rs[key].stableTaskId, false, false))
      && (r.AlreadyComplete? <==> key in rs && rs[key].argumentHash == hash && rs[key].outcome.Some?)
      && (r.AlreadyComplete? ==> rs[key].outcome == Some(r.outcome))
      && forall k :: k in rs && k != key ==> k in rs' && rs'[k] == rs[k]
  {
  }

  /** An outcome is stored exactly by the holder of a pending record; everyone else is told the one on record. */
  lemma CompleteExactly(rs: Records, key: Key, owner: Id, outcome: Outcome)
    ensures var (rs', r) := Complete(rs, key, owner, outcome);
      && (rs' != rs <==> HeldBy(rs, key, owner))
      && (HeldBy(rs, key, owner) ==> r == Some(outcome) && rs'[key].outcome == Some(outcome))
      && (r.None? <==> key !in rs || (rs[key].outcome.None? && rs[key].leaseOwner != Some(owner)))
      && (key in rs && rs[key].outcome.Some? ==> r == rs[key].outcome)
      && forall k :: k in rs && k != key ==> k in rs' && rs'[k] == rs[k]
  {
  }

  /**
   A record given up at `at` is taken over by the next caller with the same
   arguments, as a recovery of the same task id.
   */
  lemma AbandonedIsClaimable(
      rs: Records, key: Key, owner: Id, at: Instant, other: Id, fresh': Id, now: Readings, leaseMs: int)
    requires HeldBy(rs, key, owner) && other != owner && at <= now.find && at <= now.takeOver
    ensures var (rs', r) := Claim(Abandon(rs, key, owner, at), key, rs[key].argumentHash, other, fresh', now, leaseMs);
      && r == Claimed(rs[key].stableTaskId, true, true)
      && HeldBy(rs', key, other)
      && Complete(rs', key, owner, ResultOutcome("late")) == (rs', None)
  {
  }
}
