/** Which command of a task is dispatched next. */
module TaskCommands {
  import opened Basics
  import opened TaskTables

  /** A claim beyond `now`. */
  predicate HoldsClaim(c: Command, now: Instant) {
    c.state.Claimed? && c.claimUntil > now
  }

  /** The command waits and its time has come, or its claim has run out. */
  predicate Ripe(c: Command, now: Instant) {
    if c.state.Claimed? then c.claimUntil <= now
    else (c.state.Pending? || c.state.RetryWait?) && c.nextAttemptAt <= now
  }

  /** The command may be claimed: ripe, a cancel if a stop is requested, and nothing else is claimed. */
  ghost predicate MayRun(d: TaskTable, i: nat, now: Instant) {
    && d.task.Some? && i < |d.commands| && Ripe(d.commands[i], now)
    && (d.task.value.cancelRequested ==> d.commands[i].kind.CancelCommand?)
    && forall j :: 0 <= j < |d.commands| && j != i ==> !HoldsClaim(d.commands[j], now)
  }

  /** `a` before `b`: by priority, then by the time of the next attempt, then by sequence. */
  predicate Outranks(a: Command, i: nat, b: Command, j: nat) {
    || a.priority > b.priority
    || (a.priority == b.priority && a.nextAttemptAt < b.nextAttemptAt)
    || (a.priority == b.priority && a.nextAttemptAt == b.nextAttemptAt && i < j)
  }

  ghost predicate RanksFirst(d: TaskTable, i: nat, now: Instant) {
    && MayRun(d, i, now)
    && forall j: nat :: j != i && MayRun(d, j, now) ==> Outranks(d.commands[i], i, d.commands[j], j)
  }

  /** The one that is chosen outranks every other that is due. */
  lemma {:induction false} BestDueOutranks(d: TaskTable, n: nat, now: Instant)
    requires d.task.Some? && n <= |d.commands|
    ensures var best := BestDue(d, n, now);
      forall j :: 0 <= j < n && Due(d, j, now) ==>
        best.Some? && (j == best.value || Outranks(d.commands[best.value], best.value, d.commands[j], j))
  {
    if n > 0 {
      BestDueOutranks(d, n - 1, now);
    }
  }

  /** A stop is requested and the control command's claim has run out. */
  predicate Abandoned(d: TaskTable, c: Command, now: Instant) {
    d.task.Some? && d.task.value.cancelRequested && !c.kind.CancelCommand? && c.state.Claimed? && c.claimUntil <= now
  }

  /** The table once abandoned commands are exhausted. */
  ghost function Swept(d: TaskTable, now: Instant): TaskTable
    requires d.task.Some?
  {
    var commands := SupersedeAllExpired(d.commands, d.task.value.cancelRequested, now);
    d.(commands := commands, responses := IgnoreAssigned(d.responses, NewlyExhausted(d.commands, commands)))
  }

  lemma SweptDue(d: TaskTable, i: nat, now: Instant)
    requires d.task.Some? && i < |d.commands|
    ensures Due(Swept(d, now), i, now) <==> MayRun(d, i, now)
    ensures MayRun(d, i, now) ==> Swept(d, now).commands[i] == d.commands[i]
  {
    var commands := Swept(d, now).commands;
    assert commands[i] == SupersedeExpired(d.commands[i], d.task.value.cancelRequested, now);
    assert forall j :: 0 <= j < |commands| ==> (HoldsClaim(commands[j], now) <==> HoldsClaim(d.commands[j], now));
    if Due(Swept(d, now), i, now) {
      forall j | 0 <= j < |d.commands| && j != i ensures !HoldsClaim(d.commands[j], now) {
        assert !HoldsClaim(commands[j], now);
      }
    }
  }

  /** The dispatcher's choice is the command that ranks first, if any may run. */
  lemma ChoiceRanksFirst(d: TaskTable, now: Instant)
    requires d.task.Some?
    ensures var best := BestDue(Swept(d, now), |d.commands|, now);
      && (best.Some? ==> RanksFirst(d, best.value, now))
      && (best.None? ==> forall i: nat :: !MayRun(d, i, now))
  {
    var d' := Swept(d, now);
    var best := BestDue(d', |d.commands|, now);
    BestDueOutranks(d', |d.commands|, now);
    forall i: nat | MayRun(d, i, now)
      ensures best.Some? && (i != best.value ==> Outranks(d.commands[best.value], best.value, d.commands[i], i))
    {
      SweptDue(d, i, now);
      SweptDue(d, best.value, now);
    }
    if best.Some? {
      SweptDue(d, best.value, now);
    }
  }

  /** Another command is still marked as claimed once abandoned ones are exhausted. */
  ghost predicate ClaimElsewhere(d: TaskTable, i: nat, now: Instant) {
    exists j :: 0 <= j < |d.commands| && j != i && d.commands[j].state.Claimed? && !Abandoned(d, d.commands[j], now)
  }

  ghost predicate OnlySwept(c: Command, c': Command, abandoned: bool) {
    c' == if abandoned then c.(state := Exhausted, owner := None) else c
  }

  lemma ElsewhereExactly(d: TaskTable, i: nat, now: Instant)
    requires d.task.Some? && i < |d.commands|
    ensures OtherClaimed(Swept(d, now).commands, i) <==> ClaimElsewhere(d, i, now)
  {
    var commands := Swept(d, now).commands;
    assert forall j :: 0 <= j < |commands| ==>
      (commands[j].state.Claimed? <==> d.commands[j].state.Claimed? && !Abandoned(d, d.commands[j], now));
  }

  /**
   The command that ranks first is claimed until the given time, and no other; an
   expired claim of another command makes the claim fail as a whole. Apart from it
   only abandoned control commands change, and are exhausted.
   */
  lemma ClaimDueExactly(d: TaskTable, now: Instant, owner: Id, until: Instant, i: nat, j: nat)
    requires d.task.Some? && i < |d.commands| && j < |d.commands|
    ensures var d' := ClaimDueCommand(d, now, owner, until);
      && |d'.commands| == |d.commands| && d'.task == d.task && d'.requests == d.requests
      && (RanksFirst(d, i, now) && ClaimElsewhere(d, i, now) ==> d' == d)
      && (RanksFirst(d, i, now) && !ClaimElsewhere(d, i, now) ==>
            && d'.commands[i] == d.commands[i].(state := Claimed, owner := Some(owner), claimUntil := until)
            && (j != i ==> OnlySwept(d.commands[j], d'.commands[j], Abandoned(d, d.commands[j], now))))
      && ((forall k: nat :: !MayRun(d, k, now)) ==>
            OnlySwept(d.commands[j], d'.commands[j], Abandoned(d, d.commands[j], now)))
  {
    ChoiceRanksFirst(d, now);
    var best := BestDue(Swept(d, now), |d.commands|, now);
    assert Swept(d, now).commands[j] == SupersedeExpired(d.commands[j], d.task.value.cancelRequested, now);
    if best.Some? {
      SweptDue(d, best.value, now);
      ElsewhereExactly(d, best.value, now);
      if RanksFirst(d, i, now) {
        assert i == best.value;
      }
    }
  }
}
