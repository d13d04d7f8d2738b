/**
 Safety over whole runs: what covers a change that has touched the host, what
 may stop a timer, what happens to a spent token, and when a restart may be
 scheduled.  Every lemma here speaks of every sequence of events.
 */
module RecoverySafety {
  import opened Common
  import opened FirewallRules
  import opened RecoveryProtocol
  import opened RecoveryInvariant

  // ----- An edit of the host is always covered -----

  // The operation whose helper takes this step, its handler's or a left-over one.
  function Worker(s: State, e: Event): Option<(Op, Option<nat>)> {
    if e.Proceed? && s.pc.Applying? then Some((s.pc.op, s.pc.timer))
    else if e.Leftover? && e.index < |s.left| then Some((s.left[e.index].op, s.left[e.index].timer))
    else None
  }

  // A helper of an operation armed with the timer u changes a layer in this step.
  ghost predicate Edits(s: State, e: Event, u: nat) {
    Worker(s, e).Some? && Worker(s, e).value.1 == Some(u) && Next(s, e).host != s.host
  }

  // Whoever edits, the timer holds the inverse and was not stopped.  It is yet
  // to run the whole of it whenever the handler itself is still at work, and
  // for a left-over helper whenever the timer's moment has not come; from the
  // deadline on its script has ended.
  lemma EditIsCovered(s: State, e: Event, u: nat)
    requires Inv(s) && Edits(s, e, u)
    ensures u in s.timers && s.timers[u].script == UndoScript(Worker(s, e).value.0) && !s.timers[u].status.Stopped?
    ensures e.Proceed? || s.now < s.timers[u].fireAt ==> s.timers[u].status.Waiting?
    ensures s.now >= s.timers[u].deadline ==> !s.timers[u].Live()
  {
  }

  // This step stops u, on behalf of a confirmation that holds the stored
  // record, has seen the announced rules and has staged its metadata.
  ghost predicate StoppedByConfirm(s: State, e: Event, u: nat) {
    && e.Proceed? && e.outcome.Done? && s.pc.Cancelling? && s.pc.p.timer == u
    && u in s.timers && s.timers[u].status.Waiting?
    && s.pc.p.op.id in s.db.pending && s.db.pending[s.pc.p.op.id] == s.pc.p
    && Announced(s.pc.p, s.pc.seen)
    && StagedIn(s.db, s.pc.p.op)
  }

  lemma HandlerKeepsTimers(s: State, outcome: Outcome, lag: nat, u: nat)
    requires Inv(s) && u in s.timers && !(s.pc.Cancelling? && s.pc.p.timer == u)
    ensures u in HandlerStep(s, outcome, lag).timers && HandlerStep(s, outcome, lag).timers[u] == s.timers[u]
  {
  }

  lemma OnlyConfirmStops(s: State, e: Event, u: nat)
    requires Inv(s) && u in s.timers
    ensures u in Next(s, e).timers && Next(s, e).timers[u].script == s.timers[u].script
    ensures s.timers[u].status.Stopped? ==> Next(s, e).timers[u].status.Stopped?
    ensures Next(s, e).timers[u].status.Stopped? ==> s.timers[u].status.Stopped? || StoppedByConfirm(s, e, u)
  {
    match e {
      case Fire(v, outcome) =>
        if v in s.timers {
          FireMovesStatus(s, v, outcome);
        }
      case Proceed(outcome, lag) =>
        if s.pc.Cancelling? && s.pc.p.timer == u {
          assert HandlerStep(s, outcome, lag) == CancelStep(s, outcome);
        } else {
          HandlerKeepsTimers(s, outcome, lag, u);
        }
      case _ =>
    }
  }

  ghost predicate StoppedWithin(s0: State, events: seq<Event>, i: nat, j: nat, u: nat)
    requires i <= j <= |events|
  {
    exists k :: i <= k < j && StoppedByConfirm(At(s0, events, k), events[k], u)
  }

  lemma {:induction false} TimerSurvives(s0: State, events: seq<Event>, i: nat, j: nat, u: nat)
    requires Inv(s0) && i <= j <= |events|
    requires u in At(s0, events, i).timers && !At(s0, events, i).timers[u].status.Stopped?
    ensures u in At(s0, events, j).timers
    ensures At(s0, events, j).timers[u].script == At(s0, events, i).timers[u].script
    ensures At(s0, events, j).timers[u].status.Stopped? ==> StoppedWithin(s0, events, i, j, u)
  {
    if i < j {
      TimerSurvives(s0, events, i, j - 1, u);
      RunKeeps(s0, events, j - 1);
      OnlyConfirmStops(At(s0, events, j - 1), events[j - 1], u);
      if StoppedWithin(s0, events, i, j - 1, u) {
        var k :| i <= k < j - 1 && StoppedByConfirm(At(s0, events, k), events[k], u);
        assert StoppedByConfirm(At(s0, events, k), events[k], u);
      }
    }
  }

  // Once an armed operation has touched either layer, the timer holding its
  // inverse is there for ever after: still armed, or fired, or stopped by a
  // confirmation in between -- which never happens when the helper was left over.
  lemma {:induction false} TouchedStaysCovered(s0: State, events: seq<Event>, i: nat, j: nat, u: nat)
    requires Initial(s0) && i < j <= |events|
    requires Edits(At(s0, events, i), events[i], u)
    ensures u in At(s0, events, j).timers
    ensures At(s0, events, j).timers[u].script == UndoScript(Worker(At(s0, events, i), events[i]).value.0)
    ensures At(s0, events, j).timers[u].status.Stopped? ==>
              events[i].Proceed? && StoppedWithin(s0, events, i, j, u)
  {
    InitialHolds(s0);
    RunKeeps(s0, events, i);
    EditIsCovered(At(s0, events, i), events[i], u);
    TimerSurvives(s0, events, i, j, u);
    if events[i].Leftover? {
      LeftStays(s0, events, i, j, events[i].index, At(s0, events, i).left[events[i].index]);
      RunKeeps(s0, events, j);
    }
  }

  // A left-over helper keeps its place, its operation and its timer.
  lemma HandlerKeepsLeft(s: State, outcome: Outcome, lag: nat, k: nat)
    requires k < |s.left|
    ensures k < |HandlerStep(s, outcome, lag).left| && HandlerStep(s, outcome, lag).left[k] == s.left[k]
  {
  }

  // The same helper, possibly in another phase.
  predicate SameHelper(left: seq<Left>, k: nat, l: Left) {
    k < |left| && left[k].op == l.op && left[k].timer == l.timer && left[k].change == l.change
  }

  lemma StepKeepsLeft(s: State, e: Event, t: State, k: nat, l: Left)
    requires SameHelper(s.left, k, l) && t == Next(s, e)
    ensures SameHelper(t.left, k, l)
  {
    if e.Proceed? {
      HandlerKeepsLeft(s, e.outcome, e.lag, k);
    }
  }

  lemma {:induction false} LeftStays(s0: State, events: seq<Event>, i: nat, j: nat, k: nat, l: Left)
    requires i <= j <= |events| && SameHelper(At(s0, events, i).left, k, l)
    ensures SameHelper(At(s0, events, j).left, k, l)
  {
    if i < j {
      LeftStays(s0, events, i, j - 1, k, l);
      StepKeepsLeft(At(s0, events, j - 1), events[j - 1], At(s0, events, j), k, l);
    }
  }

  // ----- Where a confirmation comes from -----

  // Event k is a request that names the record p by its token, in time, while
  // the host shows the announced rules.
  ghost predicate Requested(s0: State, events: seq<Event>, k: nat, p: Pending)
    requires k < |events|
  {
    var s := At(s0, events, k);
    && events[k].Confirm? && events[k].id == p.op.id && events[k].token == p.token
    && p.op.id in s.db.pending && s.db.pending[p.op.id] == p
    && s.now < p.deadline && Announced(p, s.host)
  }

  // No handler of a change ends up in a confirmation.
  lemma ChangesStayOutside(s: State, outcome: Outcome, lag: nat)
    requires HoldsOp(s.pc)
    ensures !InConfirmation(HandlerStep(s, outcome, lag).pc)
  {
  }

  lemma HandlerStaysInConfirmation(s: State, outcome: Outcome, lag: nat)
    requires InConfirmation(HandlerStep(s, outcome, lag).pc)
    ensures InConfirmation(s.pc) && HandlerStep(s, outcome, lag).pc.p == s.pc.p
  {
    if HoldsOp(s.pc) {
      ChangesStayOutside(s, outcome, lag);
    }
  }

  // A confirmation begins with an accepted request and in no other way.
  lemma ConfirmationBegins(s: State, e: Event)
    requires !InConfirmation(s.pc) && InConfirmation(Next(s, e).pc)
    ensures e.Confirm? && ConfirmAccepted(s, e.id, e.token, e.readable) && Next(s, e).pc == Staging(s.db.pending[e.id], s.host)
  {
    if e.Proceed? && InConfirmation(HandlerStep(s, e.outcome, e.lag).pc) {
      HandlerStaysInConfirmation(s, e.outcome, e.lag);
    }
  }

  lemma ConfirmationGoesOn(s: State, e: Event)
    requires InConfirmation(s.pc) && InConfirmation(Next(s, e).pc)
    ensures Next(s, e).pc.p == s.pc.p
  {
    if e.Proceed? {
      HandlerStaysInConfirmation(s, e.outcome, e.lag);
    }
  }

  lemma {:induction false} ConfirmationWasRequested(s0: State, events: seq<Event>, j: nat)
    requires Initial(s0) && j <= |events| && InConfirmation(At(s0, events, j).pc)
    ensures exists k :: 0 <= k < j && Requested(s0, events, k, At(s0, events, j).pc.p)
  {
    var s, e := At(s0, events, j - 1), events[j - 1];
    if InConfirmation(s.pc) {
      ConfirmationWasRequested(s0, events, j - 1);
      ConfirmationGoesOn(s, e);
    } else {
      ConfirmationBegins(s, e);
      assert Requested(s0, events, j - 1, At(s0, events, j).pc.p);
    }
  }

  // A recovery timer is stopped only after a request carrying the stored
  // token, before the deadline, that saw the announced rules; and at that
  // moment the metadata the change needs is already stored.
  lemma {:induction false} StopNeedsConfirmation(s0: State, events: seq<Event>, j: nat, u: nat)
    requires Initial(s0) && j < |events|
    requires u in At(s0, events, j).timers && !At(s0, events, j).timers[u].status.Stopped?
    requires At(s0, events, j + 1).timers[u].status.Stopped?
    ensures var s := At(s0, events, j);
            && s.pc.Cancelling? && s.pc.p.timer == u
            && s.pc.p.op.id in s.db.pending && s.db.pending[s.pc.p.op.id] == s.pc.p
            && StagedIn(s.db, s.pc.p.op)
            && exists k :: 0 <= k < j && Requested(s0, events, k, s.pc.p)
  {
    InitialHolds(s0);
    RunKeeps(s0, events, j);
    OnlyConfirmStops(At(s0, events, j), events[j], u);
    ConfirmationWasRequested(s0, events, j);
  }

  // ----- A spent token stays spent -----

  predicate Spent(s: State, token: nat) {
    token < s.nextToken && forall n :: n in s.db.pending ==> s.db.pending[n].token != token
  }

  // While a confirmation clears its settings, only its own record still
  // carries the token, and only while the record is yet to be dropped.
  predicate ClearingOk(s: State) {
    s.pc.Clearing? ==>
      && s.pc.p.token < s.nextToken
      && forall n :: n in s.db.pending && s.db.pending[n].token == s.pc.p.token ==> DropPending(n) in s.pc.todo
  }

  lemma FinalWritesDropRecord(p: Pending, db: Settings)
    ensures DropPending(p.op.id) in FinalWrites(p, db)
  {
    var ws := FinalWrites(p, db);
    match p.op.kind {
      case RemoveAllow => assert ws[3] == DropPending(p.op.id);
      case RemoveDrop => assert ws[3] == DropPending(p.op.id);
      case _ => assert ws[|ws| - 1] == DropPending(p.op.id);
    }
  }

  lemma ReverifyKeepsClearing(s: State, outcome: Outcome)
    requires Inv(s) && s.pc.Reverifying?
    ensures ClearingOk(ReverifyStep(s, outcome))
  {
    FinalWritesDropRecord(s.pc.p, s.db);
    assert RecordOk(s, s.pc.p.op.id, s.pc.p);
  }

  lemma ClearKeepsClearing(s: State, outcome: Outcome)
    requires s.pc.Clearing? && ClearingOk(s)
    ensures ClearingOk(ClearStep(s, outcome))
  {
  }

  lemma HandlerEntersClearing(s: State, outcome: Outcome, lag: nat)
    requires !s.pc.Reverifying? && !s.pc.Clearing?
    ensures !HandlerStep(s, outcome, lag).pc.Clearing?
  {
  }

  lemma RequestKeepsClearing(s: State, e: Event)
    requires ClearingOk(s) && !e.Proceed?
    ensures ClearingOk(Next(s, e))
  {
  }

  lemma HandlerKeepsClearing(s: State, outcome: Outcome, lag: nat)
    requires Inv(s) && ClearingOk(s)
    ensures ClearingOk(HandlerStep(s, outcome, lag))
  {
    if s.pc.Reverifying? {
      ReverifyKeepsClearing(s, outcome);
    } else if s.pc.Clearing? {
      ClearKeepsClearing(s, outcome);
    } else {
      HandlerEntersClearing(s, outcome, lag);
    }
  }

  lemma StepKeepsClearing(s: State, e: Event, t: State)
    requires Inv(s) && ClearingOk(s) && t == Next(s, e)
    ensures ClearingOk(t)
  {
    if e.Proceed? {
      HandlerKeepsClearing(s, e.outcome, e.lag);
    } else {
      RequestKeepsClearing(s, e);
    }
  }

  lemma {:induction false} RunKeepsClearing(s0: State, events: seq<Event>, i: nat)
    requires Initial(s0) && i <= |events|
    ensures ClearingOk(At(s0, events, i))
  {
    if i > 0 {
      InitialHolds(s0);
      RunKeeps(s0, events, i - 1);
      RunKeepsClearing(s0, events, i - 1);
      StepKeepsClearing(At(s0, events, i - 1), events[i - 1], At(s0, events, i));
    }
  }

  // Records are only ever added under a fresh token.
  lemma HandlerKeepsPending(s: State, outcome: Outcome, lag: nat)
    requires !s.pc.Saving? && !s.pc.Clearing?
    ensures HandlerStep(s, outcome, lag).db.pending == s.db.pending
    ensures HandlerStep(s, outcome, lag).nextToken == s.nextToken
  {
    match s.pc {
      case Staging(p, _) => StageKeepsRecords(s.db, p.op);
      case Unstaging(p) => StageKeepsRecords(s.db, p.op);
      case Applying(_, _, _, _, _) => assert HandlerStep(s, outcome, lag) == ApplyStep(s, outcome);
      case Undoing(_, _) => assert HandlerStep(s, outcome, lag) == UndoStep(s, outcome);
      case _ =>
    }
  }

  lemma StoreAddsNone(db: Settings, w: Write, n: Native)
    requires n in Store(db, w).pending
    ensures n in db.pending && Store(db, w).pending[n] == db.pending[n]
  {
  }

  lemma HandlerKeepsSpent(s: State, outcome: Outcome, lag: nat, token: nat)
    requires Spent(s, token)
    ensures Spent(HandlerStep(s, outcome, lag), token)
  {
    if s.pc.Saving? {
      assert HandlerStep(s, outcome, lag) == SaveStep(s, outcome);
    } else if s.pc.Clearing? {
      var t := ClearStep(s, outcome);
      assert HandlerStep(s, outcome, lag) == t;
      forall n | n in t.db.pending ensures n in s.db.pending && t.db.pending[n] == s.db.pending[n] {
        if s.pc.todo != [] && outcome.Done? {
          StoreAddsNone(s.db, s.pc.todo[0], n);
        }
      }
    } else {
      HandlerKeepsPending(s, outcome, lag);
    }
  }

  lemma StepKeepsSpent(s: State, e: Event, token: nat)
    requires Spent(s, token)
    ensures Spent(Next(s, e), token)
  {
    if e.Proceed? {
      HandlerKeepsSpent(s, e.outcome, e.lag, token);
    }
  }

  lemma {:induction false} RunKeepsSpent(s0: State, events: seq<Event>, i: nat, j: nat, token: nat)
    requires i <= j <= |events| && Spent(At(s0, events, i), token)
    ensures Spent(At(s0, events, j), token)
  {
    if i < j {
      RunKeepsSpent(s0, events, i, j - 1, token);
      StepKeepsSpent(At(s0, events, j - 1), events[j - 1], token);
    }
  }

  // The step in which a confirmation reports success.
  ghost predicate Completes(s: State, e: Event) {
    s.pc.Clearing? && |s.pc.todo| == 1 && e.Proceed? && e.outcome.Done?
  }

  lemma CompletionSpends(s: State, e: Event)
    requires ClearingOk(s) && Completes(s, e)
    ensures Spent(Next(s, e), s.pc.p.token)
  {
  }

  lemma SpentIsRefused(s: State, id: Native, token: nat, readable: bool)
    requires Spent(s, token)
    ensures !ConfirmAccepted(s, id, token, readable)
  {
  }

  lemma {:induction false} CompletedSpends(s0: State, events: seq<Event>, i: nat)
    requires Initial(s0) && i < |events| && Completes(At(s0, events, i), events[i])
    ensures Spent(At(s0, events, i + 1), At(s0, events, i).pc.p.token)
  {
    RunKeepsClearing(s0, events, i);
    CompletionSpends(At(s0, events, i), events[i]);
  }

  // After a successful confirmation no record ever carries its token again.
  lemma {:induction false} TokenStaysSpent(s0: State, events: seq<Event>, i: nat, j: nat)
    requires Initial(s0) && i < j <= |events| && Completes(At(s0, events, i), events[i])
    ensures Spent(At(s0, events, j), At(s0, events, i).pc.p.token)
  {
    CompletedSpends(s0, events, i);
    RunKeepsSpent(s0, events, i + 1, j, At(s0, events, i).pc.p.token);
  }

  // So it is refused for ever, whatever rule it is presented for.
  lemma {:induction false} ReplayRefused(s0: State, events: seq<Event>, i: nat, j: nat, s: State, id: Native, token: nat, readable: bool)
    requires Initial(s0) && i < j <= |events| && Completes(At(s0, events, i), events[i])
    requires s == At(s0, events, j) && token == At(s0, events, i).pc.p.token
    ensures Next(s, Confirm(id, token, readable)) == s
  {
    TokenStaysSpent(s0, events, i, j);
    SpentIsRefused(s, id, token, readable);
  }

  lemma {:induction false} StoppedStays(s0: State, events: seq<Event>, i: nat, j: nat, u: nat)
    requires Inv(s0) && i <= j <= |events| && IsStopped(At(s0, events, i), u)
    ensures IsStopped(At(s0, events, j), u)
  {
    if i < j {
      StoppedStays(s0, events, i, j - 1, u);
      RunKeeps(s0, events, j - 1);
      OnlyConfirmStops(At(s0, events, j - 1), events[j - 1], u);
    }
  }

  // A confirmation that has reached its final writes is safe from its own timer
  // in every later state exactly when it stopped the timer before its script
  // began.
  lemma {:induction false} ClearingIsFinal(s0: State, events: seq<Event>, i: nat, j: nat)
    requires Initial(s0) && i <= j <= |events| && At(s0, events, i).pc.Clearing?
    ensures var u := At(s0, events, i).pc.p.timer;
            && NotWaiting(At(s0, events, i), u)
            && (IsStopped(At(s0, events, j), u) <==> IsStopped(At(s0, events, i), u))
  {
    var u := At(s0, events, i).pc.p.timer;
    InitialHolds(s0);
    RunKeeps(s0, events, i);
    if IsStopped(At(s0, events, i), u) {
      StoppedStays(s0, events, i, j, u);
    } else {
      BegunStays(s0, events, i, j, u);
    }
  }

  predicate HasBegun(s: State, u: nat) {
    NotWaiting(s, u) && !s.timers[u].status.Stopped?
  }

  lemma {:induction false} BegunStays(s0: State, events: seq<Event>, i: nat, j: nat, u: nat)
    requires Inv(s0) && i <= j <= |events| && HasBegun(At(s0, events, i), u)
    ensures HasBegun(At(s0, events, j), u)
  {
    if i < j {
      BegunStays(s0, events, i, j - 1, u);
      RunKeeps(s0, events, j - 1);
      BegunStep(At(s0, events, j - 1), events[j - 1], u);
    }
  }

  lemma BegunStep(s: State, e: Event, u: nat)
    requires Inv(s) && HasBegun(s, u)
    ensures HasBegun(Next(s, e), u)
  {
    match e {
      case Fire(v, outcome) =>
        if v in s.timers {
          FireMovesStatus(s, v, outcome);
        }
      case Proceed(outcome, lag) =>
        if s.pc.Cancelling? && s.pc.p.timer == u {
          assert HandlerStep(s, outcome, lag) == CancelStep(s, outcome);
        } else {
          HandlerKeepsTimers(s, outcome, lag, u);
        }
      case _ =>
    }
  }

  // ----- Annotations follow an edited rule -----

  ghost function StoreAll(db: Settings, ws: seq<Write>): Settings
    decreases |ws|
  {
    if ws == [] then db else StoreAll(Store(db, ws[0]), ws[1..])
  }

  lemma StoreAllConcat(db: Settings, a: seq<Write>, b: seq<Write>)
    ensures StoreAll(db, a + b) == StoreAll(StoreAll(db, a), b)
    decreases |a|
  {
    if a == [] {
      assert a + b == b;
    } else {
      assert (a + b)[1..] == a[1..] + b;
      StoreAllConcat(Store(db, a[0]), a[1..], b);
    }
  }

  ghost function Moved(m: map<Native, string>, n: Native, d: Native): map<Native, string> {
    if Annotation(m, n) == "" then m else m[d := Annotation(m, n)][n := ""]
  }

  function NoteWrites(db: Settings, n: Native, d: Native): seq<Write> {
    if Annotation(db.note, n) == "" then [] else [SetNote(d, Annotation(db.note, n)), SetNote(n, "")]
  }

  function PurposeWrites(db: Settings, n: Native, d: Native): seq<Write> {
    if Annotation(db.purpose, n) == "" then [] else [SetPurpose(d, Annotation(db.purpose, n)), SetPurpose(n, "")]
  }

  lemma NotesMove(db: Settings, n: Native, d: Native)
    requires n != d
    ensures StoreAll(db, NoteWrites(db, n, d)) == db.(note := Moved(db.note, n, d))
  {
    StoreTwo(db, SetNote(d, Annotation(db.note, n)), SetNote(n, ""));
  }

  lemma PurposesMove(db: Settings, n: Native, d: Native)
    requires n != d
    ensures StoreAll(db, PurposeWrites(db, n, d)) == db.(purpose := Moved(db.purpose, n, d))
  {
    StoreTwo(db, SetPurpose(d, Annotation(db.purpose, n)), SetPurpose(n, ""));
  }

  // Confirming an edit moves the note and the purpose to the new rule, drops
  // the record, and changes no other setting.
  lemma EditMovesAnnotations(p: Pending, db: Settings)
    requires p.op.kind.EditExternal? && p.op.id != p.op.dest
    ensures StoreAll(db, FinalWrites(p, db)) ==
            db.(note := Moved(db.note, p.op.id, p.op.dest),
                purpose := Moved(db.purpose, p.op.id, p.op.dest),
                pending := db.pending - {p.op.id})
  {
    var n, d := p.op.id, p.op.dest;
    var notes, purposes := NoteWrites(db, n, d), PurposeWrites(db, n, d);
    StoreAllConcat(db, notes + purposes, [DropPending(n)]);
    StoreAllConcat(db, notes, purposes);
    NotesMove(db, n, d);
    var noted := StoreAll(db, notes);
    assert purposes == PurposeWrites(noted, n, d);
    PurposesMove(noted, n, d);
    StoreOne(StoreAll(noted, purposes), DropPending(n));
  }

  lemma StoreTwo(db: Settings, a: Write, b: Write)
    ensures StoreAll(db, [a, b]) == Store(Store(db, a), b)
  {
    assert [a, b][1..] == [b];
    StoreOne(Store(db, a), b);
  }

  lemma StoreOne(db: Settings, w: Write)
    ensures StoreAll(db, [w]) == Store(db, w)
  {
    assert StoreAll(Store(db, w), [w][1..]) == Store(db, w);
  }

  // ----- Restarting the panel -----

  predicate UpdateOk(s: State) {
    s.pc.UpdateSchedule? ==> !UpdateBlocked(s)
  }

  lemma StepKeepsUpdate(s: State, e: Event)
    requires UpdateOk(s)
    ensures UpdateOk(Next(s, e))
  {
  }

  lemma StepSchedules(s: State, e: Event)
    requires UpdateOk(s)
    ensures Next(s, e).restarts == s.restarts || (Next(s, e).restarts == s.restarts + [s.now] && !UpdateBlocked(s))
  {
  }

  lemma {:induction false} RunKeepsUpdate(s0: State, events: seq<Event>, i: nat)
    requires Initial(s0) && i <= |events|
    ensures UpdateOk(At(s0, events, i))
  {
    if i > 0 {
      RunKeepsUpdate(s0, events, i - 1);
      StepKeepsUpdate(At(s0, events, i - 1), events[i - 1]);
    }
  }

  ghost predicate ClearMoment(s0: State, events: seq<Event>, k: nat, time: int)
    requires k <= |events|
  {
    At(s0, events, k).now == time && !UpdateBlocked(At(s0, events, k))
  }

  // However updates and firewall requests interleave, every restart was
  // scheduled at a moment when no record was inside its deadline plus grace.
  lemma {:induction false} RestartsAreClear(s0: State, events: seq<Event>, i: nat, r: nat)
    requires Initial(s0) && i <= |events| && r < |At(s0, events, i).restarts|
    ensures exists k :: 0 <= k < i && ClearMoment(s0, events, k, At(s0, events, i).restarts[r])
  {
    RunKeepsUpdate(s0, events, i - 1);
    var s, t := At(s0, events, i - 1), At(s0, events, i);
    StepSchedules(s, events[i - 1]);
    if r < |s.restarts| {
      RestartsAreClear(s0, events, i - 1, r);
      assert t.restarts[r] == s.restarts[r];
    } else {
      assert ClearMoment(s0, events, i - 1, t.restarts[r]);
    }
  }
}
