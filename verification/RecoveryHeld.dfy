/**
 What holds an owned rule that is not in both layers, in a tidy run: what a
 confirmation that dies leaves behind, and what is left when none does.
 */
module RecoveryHeld {
  import opened Common
  import opened FirewallRules
  import opened FirewallHost
  import opened RecoveryProtocol
  import opened RecoveryInvariant
  import opened RecoverySafety
  import opened RecoveryOwned
  import opened RecoveryOwnedEdits
  import opened RecoveryRuns
  import opened RecoveryScenarios

  // ----- A stopped timer was stopped by a confirmation -----

  lemma HandlerArmsWaiting(s: State, outcome: Outcome, lag: nat, u: nat)
    requires u in HandlerStep(s, outcome, lag).timers && u !in s.timers
    ensures HandlerStep(s, outcome, lag).timers[u].status.Waiting?
  {
  }

  lemma StepStops(s: State, e: Event, t: State, u: nat)
    requires Inv(s) && t == Next(s, e) && IsStopped(t, u)
    ensures IsStopped(s, u) || StoppedByConfirm(s, e, u)
  {
    if u in s.timers {
      OnlyConfirmStops(s, e, u);
    } else if e.Proceed? {
      HandlerArmsWaiting(s, e.outcome, e.lag, u);
    }
  }

  lemma {:induction false} StoppedWasConfirmed(s0: State, events: seq<Event>, i: nat, u: nat)
    requires Initial(s0) && i <= |events| && IsStopped(At(s0, events, i), u)
    ensures StoppedWithin(s0, events, 0, i, u)
  {
    InitialHolds(s0);
    RunKeeps(s0, events, i - 1);
    StepStops(At(s0, events, i - 1), events[i - 1], At(s0, events, i), u);
    if IsStopped(At(s0, events, i - 1), u) {
      StoppedWasConfirmed(s0, events, i - 1, u);
      var k :| 0 <= k < i - 1 && StoppedByConfirm(At(s0, events, k), events[k], u);
      assert StoppedByConfirm(At(s0, events, k), events[k], u);
    }
  }

  // ----- A broken script had a command that failed -----

  predicate IsBroken(s: State, u: nat) {
    u in s.timers && s.timers[u].status.Broken?
  }

  predicate CommandFails(s: State, e: Event, u: nat) {
    e.Fire? && e.unit == u && !e.outcome.Done? && u in s.timers && s.timers[u].status.Running?
  }

  ghost predicate BrokeWithin(s0: State, events: seq<Event>, i: nat, u: nat)
    requires i <= |events|
  {
    exists k :: 0 <= k < i && CommandFails(At(s0, events, k), events[k], u)
  }

  lemma StepBreaks(s: State, e: Event, t: State, u: nat)
    requires t == Next(s, e) && IsBroken(t, u)
    ensures IsBroken(s, u) || CommandFails(s, e, u)
  {
    if e.Proceed? {
      HandlerBreaksNone(s, e.outcome, e.lag, u);
    }
  }

  lemma HandlerBreaksNone(s: State, outcome: Outcome, lag: nat, u: nat)
    requires IsBroken(HandlerStep(s, outcome, lag), u)
    ensures IsBroken(s, u)
  {
  }

  lemma {:induction false} BrokenHadFailed(s0: State, events: seq<Event>, i: nat, u: nat)
    requires Initial(s0) && i <= |events| && IsBroken(At(s0, events, i), u)
    ensures BrokeWithin(s0, events, i, u)
  {
    StepBreaks(At(s0, events, i - 1), events[i - 1], At(s0, events, i), u);
    if IsBroken(At(s0, events, i - 1), u) {
      BrokenHadFailed(s0, events, i - 1, u);
      var k :| 0 <= k < i - 1 && CommandFails(At(s0, events, k), events[k], u);
      assert CommandFails(At(s0, events, k), events[k], u);
    }
  }

  predicate ReaddedByTimer(s: State, n: Native) {
    exists u :: u in s.timers && s.timers[u].Live() && Readds(s.timers[u].script, n)
  }

  // In a tidy run an owned rule that is neither in both layers nor paused, and
  // that no live timer will re-add, has a record: that of a block, or one whose
  // timer a confirmation has stopped, or one whose script had a command fail.
  lemma {:induction false} AbsentIsRecorded(s0: State, events: seq<Event>, i: nat, n: Native)
    requires Initial(s0) && OwnedInPlace(s0) && i <= |events| && TidyRun(s0, events, i)
    requires var s := At(s0, events, i);
             n in s.db.owned && !s.host.Everywhere(n) && n !in s.db.paused && !ReaddedByTimer(s, n)
    ensures var s := At(s0, events, i);
            && n in s.db.pending
            && (s.db.pending[n].op.kind.AddDrop? || StoppedWithin(s0, events, 0, i, s.db.pending[n].timer) ||
                BrokeWithin(s0, events, i, s.db.pending[n].timer))
  {
    var s := At(s0, events, i);
    OwnedNeverLost(s0, events, i, n);
    InitialHolds(s0);
    RunKeeps(s0, events, i);
    RecordReadds(s, n);
    if IsStopped(s, s.db.pending[n].timer) {
      StoppedWasConfirmed(s0, events, i, s.db.pending[n].timer);
    }
    if IsBroken(s, s.db.pending[n].timer) {
      BrokenHadFailed(s0, events, i, s.db.pending[n].timer);
    }
  }

  // A live record, other than a block's, is one whose timer re-adds the rule.
  lemma RecordReadds(s: State, n: Native)
    requires RecordsOk(s)
    ensures n in s.db.pending && IsLive(s, s.db.pending[n].timer) ==>
              s.db.pending[n].op.kind.AddDrop? || ReaddedByTimer(s, n)
  {
    if n in s.db.pending {
      assert RecordOk(s, n, s.db.pending[n]);
      UndoMentions(s.db.pending[n].op, n);
    }
  }

  // ----- Runs in which no confirmation dies half-way -----

  predicate Finishing(pc: Pc) {
    pc.Reverifying? || pc.Clearing?
  }

  // A confirmation that has stopped its timer ends before its record is dropped:
  // the panel crashes, the second inspection fails, or a setting is not stored.
  ghost predicate Dies(s: State, e: Event) {
    && Finishing(s.pc) && IsStopped(s, s.pc.p.timer)
    && s.pc.p.op.id in s.db.pending && s.db.pending[s.pc.p.op.id] == s.pc.p
    && (e.Crash? || (e.Proceed? && (!e.outcome.Done? || (s.pc.Reverifying? && !Announced(s.pc.p, s.host)))))
  }

  ghost predicate NoneDies(s0: State, events: seq<Event>, i: nat)
    requires i <= |events|
  {
    i == 0 || (NoneDies(s0, events, i - 1) && !Dies(At(s0, events, i - 1), events[i - 1]))
  }

  // A record whose timer was stopped is in the hands of its confirmation.
  predicate StoppedInHand(s: State) {
    forall n :: n in s.db.pending && IsStopped(s, s.db.pending[n].timer) ==> Finishing(s.pc) && s.pc.p == s.db.pending[n]
  }

  lemma StoppingInHand(s: State, outcome: Outcome)
    requires Inv(s) && StoppedInHand(s) && s.pc.Cancelling?
    ensures StoppedInHand(CancelStep(s, outcome))
  {
  }

  lemma ReverifyInHand(s: State, outcome: Outcome)
    requires StoppedInHand(s) && s.pc.Reverifying? && !Dies(s, Proceed(outcome, 0)) && RecordsOk(s)
    ensures StoppedInHand(ReverifyStep(s, outcome))
  {
    forall n | n in s.db.pending && IsStopped(s, s.db.pending[n].timer) ensures n == s.pc.p.op.id {
      assert RecordOk(s, n, s.db.pending[n]);
    }
  }

  // The last write drops the record, if it is still there.
  lemma ClearInHand(s: State, outcome: Outcome)
    requires StoppedInHand(s) && ClearingOk(s) && s.pc.Clearing? && s.pc.todo != [] && RecordsOk(s)
    requires !Dies(s, Proceed(outcome, 0))
    ensures StoppedInHand(ClearStep(s, outcome))
  {
    var t := ClearStep(s, outcome);
    forall n | n in t.db.pending && IsStopped(t, t.db.pending[n].timer)
      ensures t.pc.Clearing? && t.pc.p == t.db.pending[n]
    {
      if outcome.Done? {
        StoreAddsNone(s.db, s.pc.todo[0], n);
      }
      assert RecordOk(s, n, s.db.pending[n]);
    }
  }

  lemma SavingInHand(s: State, outcome: Outcome)
    requires Inv(s) && StoppedInHand(s) && s.pc.Saving?
    ensures StoppedInHand(SaveStep(s, outcome))
  {
  }

  lemma OthersInHand(s: State, outcome: Outcome, lag: nat)
    requires Inv(s) && StoppedInHand(s) && !Finishing(s.pc) && !s.pc.Cancelling? && !s.pc.Saving?
    ensures StoppedInHand(HandlerStep(s, outcome, lag))
  {
    var t := HandlerStep(s, outcome, lag);
    HandlerKeepsPending(s, outcome, lag);
    forall n | n in t.db.pending ensures !IsStopped(t, t.db.pending[n].timer) {
      assert RecordOk(s, n, s.db.pending[n]);
      HandlerKeepsTimers(s, outcome, lag, s.db.pending[n].timer);
    }
  }

  lemma HandlerInHand(s: State, outcome: Outcome, lag: nat)
    requires Inv(s) && ClearingOk(s) && StoppedInHand(s) && !Dies(s, Proceed(outcome, lag))
    ensures StoppedInHand(HandlerStep(s, outcome, lag))
  {
    if s.pc.Reverifying? {
      ReverifyInHand(s, outcome);
    } else if s.pc.Clearing? {
      ClearInHand(s, outcome);
    } else if s.pc.Cancelling? {
      StoppingInHand(s, outcome);
    } else if s.pc.Saving? {
      SavingInHand(s, outcome);
    } else {
      OthersInHand(s, outcome, lag);
    }
  }

  lemma StepInHand(s: State, e: Event, t: State)
    requires Inv(s) && ClearingOk(s) && StoppedInHand(s) && !Dies(s, e) && t == Next(s, e)
    ensures StoppedInHand(t)
  {
    match e {
      case Fire(u, outcome) => if u in s.timers { FireMovesStatus(s, u, outcome); }
      case Proceed(outcome, lag) => HandlerInHand(s, outcome, lag);
      case Crash => CrashInHand(s);
      case _ =>
    }
  }

  lemma CrashInHand(s: State)
    requires Inv(s) && StoppedInHand(s) && !Dies(s, Crash)
    ensures StoppedInHand(LeaveHelper(s))
  {
    forall n | n in s.db.pending ensures !IsStopped(s, s.db.pending[n].timer) {
      assert RecordOk(s, n, s.db.pending[n]);
    }
  }

  lemma {:induction false} RunInHand(s0: State, events: seq<Event>, i: nat)
    requires Initial(s0) && i <= |events| && NoneDies(s0, events, i)
    ensures StoppedInHand(At(s0, events, i))
  {
    if i > 0 {
      RunInHand(s0, events, i - 1);
      InitialHolds(s0);
      RunKeeps(s0, events, i - 1);
      RunKeepsClearing(s0, events, i - 1);
      StepInHand(At(s0, events, i - 1), events[i - 1], At(s0, events, i));
    }
  }

  // If moreover no confirmation dies after stopping its timer, every owned rule
  // is in both layers, or paused, or will be re-added by a live timer, or is the
  // block of a record, or is being confirmed at this moment, or has a record
  // whose script had a command fail.
  lemma {:induction false} OwnedIsHeldFirmly(s0: State, events: seq<Event>, i: nat, n: Native)
    requires Initial(s0) && OwnedInPlace(s0) && i <= |events| && TidyRun(s0, events, i) && NoneDies(s0, events, i)
    requires n in At(s0, events, i).db.owned
    ensures var s := At(s0, events, i);
            || s.host.Everywhere(n) || n in s.db.paused || ReaddedByTimer(s, n)
            || (n in s.db.pending && s.db.pending[n].op.kind.AddDrop?)
            || (Finishing(s.pc) && s.pc.p.op.id == n)
            || (n in s.db.pending && BrokeWithin(s0, events, i, s.db.pending[n].timer))
  {
    var s := At(s0, events, i);
    OwnedNeverLost(s0, events, i, n);
    InitialHolds(s0);
    RunKeeps(s0, events, i);
    RecordReadds(s, n);
    RunInHand(s0, events, i);
    if n in s.db.pending && IsBroken(s, s.db.pending[n].timer) {
      BrokenHadFailed(s0, events, i, s.db.pending[n].timer);
    }
  }

  // ----- What a dying confirmation leaves behind -----

  // The rule is owned and closed, nothing will open it, and all that it has is
  // an expired record.
  ghost predicate Forsaken(t: State, p: Pending) {
    var n := p.op.id;
    && Quiet(t) && n in t.db.owned && t.host.Nowhere(n) && n !in t.db.paused
    && n in t.db.pending && t.db.pending[n] == p && t.now >= p.deadline
  }

  // Nothing is armed, left over or in progress but the early steps of a confirmation.
  predicate Hushed(s: State) {
    && (forall u :: u in s.timers ==> !s.timers[u].Live())
    && (forall l :: l in s.left ==> l.phase.None?)
    && !HoldsOp(s.pc) && !Finishing(s.pc)
  }

  predicate Harmless(e: Event) {
    e.Crash? || e.Tick? || e.Confirm? || e.Proceed?
  }

  lemma HushedIsTidy(s: State)
    requires Hushed(s)
    ensures Tidy(s)
  {
  }

  lemma HushedStep(s: State, e: Event, t: State)
    requires Hushed(s) && Harmless(e) && t == Next(s, e)
    ensures Hushed(t)
  {
    if e.Proceed? {
      HushedHandler(s, e.outcome, e.lag);
    }
  }

  lemma HushedHandler(s: State, outcome: Outcome, lag: nat)
    requires Hushed(s)
    ensures Hushed(HandlerStep(s, outcome, lag))
  {
  }

  lemma {:induction false} HushedRun(s: State, run: seq<Event>, i: nat, j: nat)
    requires i <= j <= |run| && Hushed(At(s, run, i)) && TidyRun(s, run, i)
    requires forall k :: i <= k < j ==> Harmless(run[k])
    ensures Hushed(At(s, run, j)) && TidyRun(s, run, j)
  {
    if i < j {
      HushedRun(s, run, i, j - 1);
      HushedOneMore(s, run, j - 1);
    }
  }

  lemma HushedOneMore(s: State, run: seq<Event>, i: nat)
    requires i < |run| && Hushed(At(s, run, i)) && TidyRun(s, run, i) && Harmless(run[i])
    ensures Hushed(At(s, run, i + 1)) && TidyRun(s, run, i + 1)
  {
    HushedStep(At(s, run, i), run[i], At(s, run, i + 1));
    HushedIsTidy(At(s, run, i + 1));
    TidyOneMore(s, run, i);
  }

  predicate LeavesRule(kind: Kind) {
    kind.PauseAllow? || kind.PauseDrop? || kind.RemoveAllow? || kind.RemoveDrop?
  }

  // The timer is stopped, the confirmation dies, is repeated, and time passes.
  function DyingRun(p: Pending, last: Event, k: nat, ms: nat): seq<Event> {
    [GO, last] + ([Confirm(p.op.id, p.token, true)] + Calm(k)) + [Tick(ms)]
  }

  lemma {:induction false} CalmIsHarmless(k: nat)
    ensures forall i :: 0 <= i < |Calm(k)| ==> Harmless(Calm(k)[i])
  {
    if k > 0 {
      CalmIsHarmless(k - 1);
    }
  }

  lemma DyingRunIsHarmless(p: Pending, last: Event, k: nat, ms: nat)
    requires Harmless(last)
    ensures var run := DyingRun(p, last, k, ms); forall i :: 0 <= i < |run| ==> Harmless(run[i])
  {
    CalmIsHarmless(k);
  }

  // Only the timer of the confirmation is armed, and nothing else goes on.
  predicate OnlyConfirming(s: State, p: Pending) {
    && s.pc == Cancelling(p, s.host) && p.timer in s.timers && s.timers[p.timer].status.Waiting?
    && (forall u :: u in s.timers && u != p.timer ==> !s.timers[u].Live())
    && (forall l :: l in s.left ==> l.phase.None?)
  }

  lemma DyingStartsTidy(s: State, p: Pending, run: seq<Event>, last: Event)
    requires Inv(s) && OnlyConfirming(s, p) && !p.op.kind.AddDrop? && |run| >= 2 && run[0] == GO && run[1] == last
    requires last.Crash? || (last.Proceed? && !last.outcome.Done?)
    ensures TidyRun(s, run, 2) && Hushed(At(s, run, 2))
  {
    StartIsTidy(s, p);
    var stopped := CancelStep(s, Done);
    StoppedIsTidy(s, p, stopped);
    var dropped := LeaveHelper(stopped);
    DroppedIs(stopped, last);
    HushedIsTidy(dropped);
    FirstTwoTidy(s, run, stopped, dropped);
  }

  lemma FirstTwoTidy(s: State, run: seq<Event>, a: State, b: State)
    requires |run| >= 2 && a == Next(s, run[0]) && b == Next(a, run[1]) && Harmless(run[0]) && Harmless(run[1])
    requires Tidy(s) && Tidy(a) && Tidy(b)
    ensures TidyRun(s, run, 2) && At(s, run, 2) == b
  {
    TidyOneMore(s, run, 0);
    TidyOneMore(s, run, 1);
  }

  lemma TidyOneMore(s: State, run: seq<Event>, i: nat)
    requires i < |run| && TidyRun(s, run, i) && Tidy(At(s, run, i + 1)) && TidyEvent(At(s, run, i), run[i])
    ensures TidyRun(s, run, i + 1)
  {
  }

  lemma DroppedIs(s: State, last: Event)
    requires s.pc.Reverifying? && (last.Crash? || (last.Proceed? && !last.outcome.Done?))
    ensures Next(s, last) == LeaveHelper(s)
  {
  }

  lemma StartIsTidy(s: State, p: Pending)
    requires Inv(s) && OnlyConfirming(s, p)
    ensures Tidy(s)
  {
    assert s.db.pending[p.op.id].timer == p.timer;
  }

  lemma StoppedIsTidy(s: State, p: Pending, t: State)
    requires OnlyConfirming(s, p) && !p.op.kind.AddDrop? && t == CancelStep(s, Done)
    ensures Next(s, GO) == t && Tidy(t) && t.pc.Reverifying? && Hushed(LeaveHelper(t))
  {
  }

  predicate MayForsake(s: State, p: Pending) {
    && LeavesRule(p.op.kind) && s.now < p.deadline && p.op.id.Zone() in s.host.zones
    && p.op.id in s.db.owned && (!IsStaged(p.op.kind) ==> p.op.id !in s.db.paused)
  }

  // The repeated confirmation withdraws the metadata, or changes nothing.
  lemma RepeatWithdraws(s: State, p: Pending, last: Event)
    requires Inv(s) && OnlyConfirming(s, p) && s.now < p.deadline && (last.Crash? || (last.Proceed? && !last.outcome.Done?))
    ensures var t := After(s, [GO, last]);
            && t == s.(timers := s.timers[p.timer := s.timers[p.timer].(status := Stopped)], pc := Idle)
            && Brings(t, Confirm(p.op.id, p.token, true), t.(db := Unstage(Stage(s.db, p.op), p.op)))
  {
    StoppedThenDropped(s, p, last);
    AfterKeeps(s, [GO, last]);
    ConfirmationBrings(After(s, [GO, last]), p);
  }

  lemma ForsakenInTime(s: State, p: Pending, ms: nat)
    requires Inv(s) && OnlyConfirming(s, p) && MayForsake(s, p) && s.now + ms >= p.deadline
    ensures var t := s.(timers := s.timers[p.timer := s.timers[p.timer].(status := Stopped)], pc := Idle,
                        db := Unstage(Stage(s.db, p.op), p.op));
            Forsaken(t.(now := s.now + ms), p) && IsStopped(t, p.timer)
  {
    StageKeepsRecords(s.db, p.op);
    StageKeepsRecords(Stage(s.db, p.op), p.op);
    ClosedAsAnnounced(p, s.host);
  }

  lemma ClosedAsAnnounced(p: Pending, h: Host)
    requires Announced(p, h) && LeavesRule(p.op.kind) && WellFormed(p.op) && p.op.id.Zone() in h.zones
    ensures h.Nowhere(p.op.id)
  {
  }

  lemma TickTakes(s: State, ms: nat)
    requires forall u :: u in s.timers ==> !s.timers[u].Live()
    ensures After(s, [Tick(ms)]) == s.(now := s.now + ms)
  {
    AfterOne(s, Tick(ms));
    assert MayAdvance(s, ms);
  }

  lemma DyingRunReaches(s: State, p: Pending, last: Event, k: nat, ms: nat, r: State)
    requires After(After(s, [GO, last]), [Confirm(p.op.id, p.token, true)] + Calm(k)) == r
    requires forall u :: u in r.timers ==> !r.timers[u].Live()
    ensures After(s, DyingRun(p, last, k, ms)) == r.(now := r.now + ms)
  {
    var again := [Confirm(p.op.id, p.token, true)] + Calm(k);
    AfterBoth(s, [GO, last], again);
    AfterBoth(s, [GO, last] + again, [Tick(ms)]);
    TickTakes(r, ms);
  }

  lemma DyingRunIsTidy(s: State, p: Pending, last: Event, k: nat, ms: nat)
    requires Inv(s) && OnlyConfirming(s, p) && !p.op.kind.AddDrop?
    requires last.Crash? || (last.Proceed? && !last.outcome.Done?)
    ensures TidyRun(s, DyingRun(p, last, k, ms), |DyingRun(p, last, k, ms)|)
  {
    var run := DyingRun(p, last, k, ms);
    DyingStartsTidy(s, p, run, last);
    DyingRunIsHarmless(p, last, k, ms);
    HushedRun(s, run, 2, |run|);
  }

  ghost predicate Forsakes(s: State, run: seq<Event>, p: Pending) {
    TidyRun(s, run, |run|) && Forsaken(After(s, run), p) && IsStopped(After(s, run), p.timer)
  }

  // A confirmation of a pause or a removal stops its timer and then dies.  The
  // rest of the run is tidy, the confirmation is even repeated, and in the end
  // the rule is closed, owned, and held by nothing but its expired record, whose
  // timer was stopped.
  lemma DyingConfirmationForsakes(s: State, p: Pending, last: Event, ms: nat)
    requires Inv(s) && OnlyConfirming(s, p) && MayForsake(s, p) && s.now + ms >= p.deadline
    requires last.Crash? || (last.Proceed? && !last.outcome.Done?)
    ensures exists k: nat :: Forsakes(s, DyingRun(p, last, k, ms), p)
  {
    RepeatWithdraws(s, p, last);
    ForsakenInTime(s, p, ms);
    var t := After(s, [GO, last]);
    var r := t.(db := Unstage(Stage(s.db, p.op), p.op));
    var k: nat :| After(t, [Confirm(p.op.id, p.token, true)] + Calm(k)) == r;
    DyingRunReaches(s, p, last, k, ms, r);
    DyingRunIsTidy(s, p, last, k, ms);
    assert Forsakes(s, DyingRun(p, last, k, ms), p);
  }
}
