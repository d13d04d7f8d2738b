/** Runs written out event by event, and what a handler does in one when every
    step of it succeeds. */
module RecoveryRuns {
  import opened Common
  import opened FirewallRules
  import opened FirewallHost
  import opened RecoveryProtocol
  import opened RecoveryInvariant
  import opened RecoverySafety
  import opened RecoveryProgress

  ghost function After(s: State, events: seq<Event>): State
    decreases |events|
  {
    if events == [] then s else After(Next(s, events[0]), events[1..])
  }

  lemma AfterOne(s: State, e: Event)
    ensures After(s, [e]) == Next(s, e)
  {
    assert [e][1..] == [];
  }

  lemma {:induction false} AfterBoth(s: State, a: seq<Event>, b: seq<Event>)
    ensures After(s, a + b) == After(After(s, a), b)
    decreases |a|
  {
    if a == [] {
      assert a + b == b;
    } else {
      assert (a + b)[1..] == a[1..] + b;
      AfterBoth(Next(s, a[0]), a[1..], b);
    }
  }

  lemma AfterTwo(s: State, d: Event, e: Event)
    ensures After(s, [d, e]) == Next(Next(s, d), e)
  {
    assert [d, e] == [d] + [e];
    AfterBoth(s, [d], [e]);
    AfterOne(s, d);
    AfterOne(Next(s, d), e);
  }

  lemma AfterThree(s: State, c: Event, d: Event, e: Event)
    ensures After(s, [c, d, e]) == Next(Next(Next(s, c), d), e)
  {
    assert [c, d, e] == [c] + [d, e];
    AfterBoth(s, [c], [d, e]);
    AfterOne(s, c);
    AfterTwo(Next(s, c), d, e);
  }

  // What After reaches, At has reached by the end of the same events.
  lemma {:induction false} AfterIsAt(s: State, events: seq<Event>, i: nat)
    requires i <= |events|
    ensures After(s, events) == After(At(s, events, i), events[i..])
  {
    if i == 0 {
      assert events[0..] == events;
    } else {
      AfterIsAt(s, events, i - 1);
      assert events[i - 1..][1..] == events[i..];
    }
  }

  // A state reached from one that keeps the invariant keeps it.
  lemma AfterKeeps(s: State, events: seq<Event>)
    requires Inv(s)
    ensures Inv(After(s, events))
  {
    AfterIsAt(s, events, |events|);
    RunKeeps(s, events, |events|);
  }

  // ----- A handler that meets no obstacle -----

  const GO := Proceed(Done, 1)

  function Calm(k: nat): seq<Event> {
    if k == 0 then [] else [GO] + Calm(k - 1)
  }

  ghost function GoOn(s: State, k: nat): State
    decreases k
  {
    if k == 0 then s else GoOn(HandlerStep(s, Done, 1), k - 1)
  }

  lemma {:induction false} CalmGoesOn(s: State, k: nat)
    ensures After(s, Calm(k)) == GoOn(s, k)
    decreases k
  {
    if k > 0 {
      assert Calm(k)[1..] == Calm(k - 1);
      CalmGoesOn(Next(s, GO), k - 1);
    }
  }

  // Steps of the handler that succeed lead from s to t.
  ghost predicate Leads(s: State, t: State) {
    exists k: nat :: GoOn(s, k) == t
  }

  // The event and then such steps bring the panel from s to t.
  ghost predicate Brings(s: State, e: Event, t: State) {
    exists k: nat :: After(s, [e] + Calm(k)) == t
  }

  lemma LeadsBrings(s: State, e: Event, t: State)
    requires Leads(Next(s, e), t)
    ensures Brings(s, e, t)
  {
    var k: nat :| GoOn(Next(s, e), k) == t;
    AfterBoth(s, [e], Calm(k));
    AfterOne(s, e);
    CalmGoesOn(Next(s, e), k);
  }

  lemma {:induction false} GoOnTwice(s: State, j: nat, k: nat)
    ensures GoOn(s, j + k) == GoOn(GoOn(s, j), k)
    decreases j
  {
    if j > 0 {
      GoOnTwice(HandlerStep(s, Done, 1), j - 1, k);
    }
  }

  lemma LeadsOn(s: State, t: State, r: State)
    requires Leads(s, t) && Leads(t, r)
    ensures Leads(s, r)
  {
    var j: nat :| GoOn(s, j) == t;
    var k: nat :| GoOn(t, k) == r;
    GoOnTwice(s, j, k);
  }

  lemma LeadsOne(s: State, t: State)
    requires t == HandlerStep(s, Done, 1)
    ensures Leads(s, t)
  {
    assert GoOn(s, 1) == GoOn(t, 0);
  }

  lemma LeadsTwo(s: State, t: State, r: State)
    requires t == HandlerStep(s, Done, 1) && r == HandlerStep(t, Done, 1)
    ensures Leads(s, r)
  {
    LeadsOne(s, t);
    LeadsOne(t, r);
    LeadsOn(s, t, r);
  }

  // ----- One helper -----

  ghost function AfterHelper(s: State): State
    requires s.pc.Applying? && s.pc.step < |Changes(s.pc.op)|
  {
    var pc := s.pc;
    s.(host := Applied(s.host, Changes(pc.op)[pc.step]),
       pc := if pc.step + 1 < |Changes(pc.op)| then Applying(pc.op, pc.timer, pc.started, pc.step + 1, Check)
             else AfterChanges(pc))
  }

  lemma HelperLeads(s: State)
    requires s.pc.Applying? && s.pc.step < |Changes(s.pc.op)| && s.pc.phase.Check? && !Expired(s, s.pc.started)
    requires Admits(s.host, Changes(s.pc.op)[s.pc.step])
    ensures Leads(s, AfterHelper(s))
  {
    var pc, c := s.pc, Changes(s.pc.op)[s.pc.step];
    var s1 := s.(pc := Applying(pc.op, pc.timer, pc.started, pc.step, RuntimeStep));
    var s2 := s.(host := s.host.Set(Runtime, c.rule, c.add), pc := Applying(pc.op, pc.timer, pc.started, pc.step, PermanentStep));
    assert ApplyStep(s, Done) == s1 && ApplyStep(s1, Done) == s2 && ApplyStep(s2, Done) == AfterHelper(s);
    LeadsTwo(s, s1, s2);
    LeadsOne(s2, AfterHelper(s));
    LeadsOn(s, s2, AfterHelper(s));
  }

  // ----- A plain addition -----

  function Added(s: State, n: Native): State {
    s.(host := Applied(s.host, Change(true, n)), db := s.db.(owned := s.db.owned + {n}))
  }

  lemma AdditionLeads(s: State, n: Native)
    requires s.pc == Applying(Op(AddAllow, n, n), None, s.now, 0, Check) && Admits(s.host, Change(true, n))
    ensures Leads(s, Added(s, n).(pc := Idle))
  {
    HelperLeads(s);
    var t := AfterHelper(s);
    assert t.pc == Settling(Op(AddAllow, n, n));
    LeadsOne(t, Added(s, n).(pc := Idle));
    LeadsOn(s, t, Added(s, n).(pc := Idle));
  }

  lemma AdditionBrings(s: State, n: Native, env: Env)
    requires s.pc.Idle? && Accepts(s, Op(AddAllow, n, n), env) && Admits(s.host, Change(true, n))
    ensures Brings(s, Begin(Op(AddAllow, n, n), env), Added(s, n))
  {
    var e := Begin(Op(AddAllow, n, n), env);
    assert Next(s, e) == s.(pc := Applying(Op(AddAllow, n, n), None, s.now, 0, Check));
    AdditionLeads(Next(s, e), n);
    LeadsBrings(s, e, Added(s, n));
  }

  // ----- An edit -----

  // The host has moved, the inverse is armed and the record is stored.
  ghost function Edited(s: State, op: Op): State {
    var u, deadline := s.nextUnit, s.now + RESTORE_AFTER;
    s.(host := AppliedAll(s.host, op),
       db := s.db.(pending := s.db.pending[op.id := Pending(op, s.nextToken, u, deadline)]),
       timers := s.timers[u := Timer(UndoScript(op), deadline - 1, deadline, Waiting)],
       nextUnit := u + 1, nextToken := s.nextToken + 1)
  }

  ghost function ArmedFor(s: State, op: Op): State {
    var u, deadline := s.nextUnit, s.now + RESTORE_AFTER;
    s.(timers := s.timers[u := Timer(UndoScript(op), deadline - 1, deadline, Waiting)], nextUnit := u + 1,
       pc := Applying(op, Some(u), s.now, 0, Check))
  }

  // The request is accepted and its timer armed.
  lemma ArmedRequest(s: State, op: Op, env: Env)
    requires s.pc.Idle? && Accepts(s, op, env) && op.kind.IsArmed()
    ensures After(s, [Begin(op, env), GO]) == ArmedFor(s, op)
  {
    var t := s.(pc := Arming(op, s.now));
    AfterTwo(s, Begin(op, env), GO);
    assert Next(s, Begin(op, env)) == t;
    assert HandlerStep(t, Done, 1) == ArmStep(t, Done, 1);
  }

  lemma ChangesLead(s: State, op: Op, u: nat)
    requires s.pc == Applying(op, Some(u), s.now, 0, Check) && op.kind.EditExternal? && Goes(s.host, op)
    ensures Leads(s, s.(host := AppliedAll(s.host, op), pc := Verifying(op, u, s.now)))
  {
    assert AppliedFirst(s.host, op, 0) == s.host;
    assert AppliedFirst(s.host, op, 1) == Applied(s.host, Changes(op)[0]);
    HelperLeads(s);
    var t := AfterHelper(s);
    assert t == s.(host := AppliedFirst(s.host, op, 1), pc := Applying(op, Some(u), s.now, 1, Check));
    HelperLeads(t);
    LeadsOn(s, t, AfterHelper(t));
  }

  lemma LandingLeads(s: State, op: Op, u: nat)
    requires s.pc == Verifying(op, u, s.now) && EditLanded(s.host, op) && u in s.timers
    ensures Leads(s, s.(db := s.db.(pending := s.db.pending[op.id := Pending(op, s.nextToken, u, s.timers[u].deadline)]),
                        nextToken := s.nextToken + 1, pc := Idle))
  {
    var t := VerifyStep(s, Done);
    LeadsTwo(s, t, SaveStep(t, Done));
  }

  lemma EditLeads(s: State, op: Op)
    requires s.pc == Arming(op, s.now) && op.kind.EditExternal? && Goes(s.host, op)
    ensures Leads(s, Edited(s, op).(pc := Idle))
  {
    var t := ArmedFor(s, op);
    LeadsOne(s, t);
    ChangesLead(t, op, s.nextUnit);
    var r := t.(host := AppliedAll(s.host, op), pc := Verifying(op, s.nextUnit, s.now));
    LeadsOn(s, t, r);
    LandingLeads(r, op, s.nextUnit);
    LeadsOn(s, r, Edited(s, op).(pc := Idle));
  }

  lemma EditBrings(s: State, op: Op, env: Env)
    requires s.pc.Idle? && Accepts(s, op, env) && op.kind.EditExternal?
    ensures Brings(s, Begin(op, env), Edited(s, op))
  {
    AcceptedEditLeads(s, op, env);
    assert Next(s, Begin(op, env)) == s.(pc := Arming(op, s.now));
    LeadsBrings(s, Begin(op, env), Edited(s, op));
  }

  lemma AcceptedEditLeads(s: State, op: Op, env: Env)
    requires s.pc.Idle? && Accepts(s, op, env) && op.kind.EditExternal?
    ensures Leads(s.(pc := Arming(op, s.now)), Edited(s, op))
  {
    AcceptedGoes(s, op, env);
    EditLeads(s.(pc := Arming(op, s.now)), op);
  }

  // ----- A confirmation -----

  predicate IsLive(s: State, u: nat) {
    u in s.timers && s.timers[u].Live()
  }

  // What a confirmation of the record p comes to when every step of it succeeds.
  ghost function Confirmed(s: State, p: Pending): State {
    var db := Stage(s.db, p.op);
    if IsLive(s, p.timer) then
      s.(db := StoreAll(db, FinalWrites(p, db)), timers := s.timers[p.timer := Stop(s.timers[p.timer])])
    else s.(db := Unstage(db, p.op))
  }

  lemma {:induction false} ClearingLeads(s: State, p: Pending, todo: seq<Write>)
    requires s.pc == Clearing(p, todo) && todo != []
    ensures Leads(s, s.(db := StoreAll(s.db, todo), pc := Idle))
    decreases |todo|
  {
    var t := ClearStep(s, Done);
    LeadsOne(s, t);
    if |todo| > 1 {
      ClearingLeads(t, p, todo[1..]);
      LeadsOn(s, t, s.(db := StoreAll(s.db, todo), pc := Idle));
    } else {
      assert todo == [todo[0]];
      StoreOne(s.db, todo[0]);
    }
  }

  lemma CancellingLeads(s: State, p: Pending, seen: Host)
    requires s.pc == Cancelling(p, seen) && Announced(p, s.host)
    ensures Leads(s, if IsLive(s, p.timer) then s.(timers := s.timers[p.timer := Stop(s.timers[p.timer])],
                                                   db := StoreAll(s.db, FinalWrites(p, s.db)), pc := Idle)
                     else s.(db := Unstage(s.db, p.op), pc := Idle))
  {
    var t := CancelStep(s, Done);
    LeadsOne(s, t);
    if IsLive(s, p.timer) {
      var r := ReverifyStep(t, Done);
      LeadsTwo(s, t, r);
      ClearingLeads(r, p, FinalWrites(p, s.db));
      LeadsOn(s, r, r.(db := StoreAll(s.db, FinalWrites(p, s.db)), pc := Idle));
    } else if IsStaged(p.op.kind) {
      LeadsTwo(s, t, UnstageStep(t, Done));
    }
  }

  lemma ConfirmationBrings(s: State, p: Pending)
    requires s.pc.Idle? && ConfirmAccepted(s, p.op.id, p.token, true) && s.db.pending[p.op.id] == p
    ensures Brings(s, Confirm(p.op.id, p.token, true), Confirmed(s, p))
  {
    var e := Confirm(p.op.id, p.token, true);
    var t := s.(db := Stage(s.db, p.op), pc := Cancelling(p, s.host));
    assert StageStep(Next(s, e), Done) == t;
    LeadsOne(Next(s, e), t);
    CancellingLeads(t, p, s.host);
    LeadsOn(Next(s, e), t, Confirmed(s, p));
    LeadsBrings(s, e, Confirmed(s, p));
  }

  lemma ConfirmedStaging(p: Pending, db: Settings)
    requires IsStaged(p.op.kind) && StagedIn(db, p.op)
    ensures StagedIn(StoreAll(db, FinalWrites(p, db)), p.op) && p.op.id !in StoreAll(db, FinalWrites(p, db)).pending
  {
    StoreOne(db, DropPending(p.op.id));
  }

  lemma ConfirmedDrops(p: Pending, db: Settings)
    requires p.op.kind.EditExternal? ==> p.op.id != p.op.dest
    ensures p.op.id !in StoreAll(db, FinalWrites(p, db)).pending
  {
    match p.op.kind {
      case EditExternal => EditMovesAnnotations(p, db);
      case RemoveAllow => RemovalDrops(db, p.op.id);
      case RemoveDrop => RemovalDrops(db, p.op.id);
      case _ => StoreOne(db, DropPending(p.op.id));
    }
  }

  lemma RemovalDrops(db: Settings, n: Native)
    ensures n !in StoreAll(db, [Disown(n), SetNote(n, ""), SetPurpose(n, ""), DropPending(n), DropPaused(n)]).pending
  {
    var a, b := [Disown(n), SetNote(n, ""), SetPurpose(n, "")], [DropPending(n), DropPaused(n)];
    assert a + b == [Disown(n), SetNote(n, ""), SetPurpose(n, ""), DropPending(n), DropPaused(n)];
    StoreAllConcat(db, a, b);
    StoreTwo(StoreAll(db, a), DropPending(n), DropPaused(n));
  }

  // With nothing in its way a confirmation goes through exactly when the timer
  // of its record is still live: then the record is gone and the metadata of
  // the change stays; otherwise the record stays and the metadata is withdrawn.
  lemma ConfirmedIffLive(s: State, p: Pending)
    requires Inv(s) && s.pc.Idle? && ConfirmAccepted(s, p.op.id, p.token, true) && s.db.pending[p.op.id] == p
    ensures Brings(s, Confirm(p.op.id, p.token, true), Confirmed(s, p))
    ensures p.op.id !in Confirmed(s, p).db.pending <==> IsLive(s, p.timer)
    ensures IsStaged(p.op.kind) ==> (StagedIn(Confirmed(s, p).db, p.op) <==> IsLive(s, p.timer))
  {
    ConfirmationBrings(s, p);
    var db := Stage(s.db, p.op);
    StageKeepsRecords(s.db, p.op);
    StageKeepsRecords(db, p.op);
    ConfirmedDrops(p, db);
    if IsStaged(p.op.kind) {
      ConfirmedStaging(p, db);
    }
  }
}
