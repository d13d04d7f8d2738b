/** What an accepted request does to the host when nothing goes wrong. */
module RecoveryProgress {
  import opened FirewallRules
  import opened FirewallText
  import opened FirewallHost
  import opened RecoveryProtocol

  function Applied(h: Host, c: Change): Host {
    h.Set(Runtime, c.rule, c.add).Set(Permanent, c.rule, c.add)
  }

  // The host after the first k changes of an operation.
  function AppliedFirst(h: Host, op: Op, k: nat): Host
    requires k <= |Changes(op)|
  {
    if k == 0 then h else Applied(AppliedFirst(h, op, k - 1), Changes(op)[k - 1])
  }

  function AppliedAll(h: Host, op: Op): Host {
    AppliedFirst(h, op, |Changes(op)|)
  }

  // The helper admits each change in turn, and an edit ends where it should.
  ghost predicate Goes(h: Host, op: Op) {
    && (forall k: nat :: k < |Changes(op)| ==> Admits(AppliedFirst(h, op, k), Changes(op)[k]))
    && (op.kind.EditExternal? ==> EditLanded(AppliedAll(h, op), op))
  }

  lemma AcceptedControlGoes(s: State, op: Op, env: Env)
    requires Accepts(s, op, env) && !op.kind.RemoveAllow? && !op.kind.AddAllow? && !op.kind.EditExternal?
    ensures Goes(s.host, op)
  {
    var n := op.id;
    assert forall m :: m in s.host.GoverningIn(n.zone, n.port, n.protocol) ==> m in s.host.Governing(n.port, n.protocol);
    if s.host.Governing(n.port, n.protocol) == {n} {
      assert n in s.host.Governing(n.port, n.protocol);
      assert n in s.host.GoverningIn(n.zone, n.port, n.protocol);
      assert s.host.GoverningIn(n.zone, n.port, n.protocol) == {n};
    }
  }

  // ----- The two changes of an edit -----

  lemma DestinationIsFree(s: State, op: Op, env: Env)
    requires Accepts(s, op, env) && op.kind.EditExternal?
    ensures s.host.Governing(op.dest.port, op.dest.protocol) == {}
    ensures Admits(s.host, Change(true, op.dest))
  {
    var n, d := op.id, op.dest;
    assert n.ContainsPort(d.port) && n.protocol == d.protocol ==> n == d;
    assert d.ContainsPort(d.port);
  }

  lemma AddedIsVisible(h: Host, d: Native, m: Native)
    requires d.OpenPort? && d.zone in h.zones
    ensures m in Applied(h, Change(true, d)).Visible() <==> m in h.Visible() || m == d
  {
  }

  lemma SourceIsAlone(s: State, op: Op, env: Env)
    requires Accepts(s, op, env) && op.kind.EditExternal?
    ensures Admits(Applied(s.host, Change(true, op.dest)), Change(false, op.id))
  {
    var n, d, h := op.id, op.dest, Applied(s.host, Change(true, op.dest));
    forall m ensures m in h.GoverningIn(n.zone, n.port, n.protocol) <==> m == n {
      AddedIsVisible(s.host, d, m);
      if m in s.host.GoverningIn(n.zone, n.port, n.protocol) && m != n {
        DualConflictsWithEveryCover(s.host, n, m);
      }
    }
  }

  lemma RemovedIsInvisible(h: Host, n: Native, m: Native)
    ensures m in Applied(h, Change(false, n)).Visible() <==> m in h.Visible() && m != n
  {
  }

  lemma EditLands(s: State, op: Op, env: Env)
    requires Accepts(s, op, env) && op.kind.EditExternal?
    ensures EditLanded(Applied(Applied(s.host, Change(true, op.dest)), Change(false, op.id)), op)
  {
    var n, d := op.id, op.dest;
    var h1 := Applied(s.host, Change(true, d));
    var h2 := Applied(h1, Change(false, n));
    DestinationIsFree(s, op, env);
    forall m ensures m in h2.Visible() <==> (m in s.host.Visible() || m == d) && m != n {
      AddedIsVisible(s.host, d, m);
      RemovedIsInvisible(h1, n, m);
    }
    forall m ensures m in h2.GoverningIn(d.zone, d.port, d.protocol) <==> m == d {
      assert m !in s.host.Governing(d.port, d.protocol);
    }
    if h2.Conflicting(d) {
      DualConflictIsCover(h2, d);
    }
  }

  lemma AcceptedEditGoes(s: State, op: Op, env: Env)
    requires Accepts(s, op, env) && op.kind.EditExternal?
    ensures Goes(s.host, op)
  {
    var h1 := Applied(s.host, Change(true, op.dest));
    assert AppliedFirst(s.host, op, 0) == s.host;
    assert AppliedFirst(s.host, op, 1) == h1;
    assert AppliedFirst(s.host, op, 2) == Applied(h1, Change(false, op.id));
    DestinationIsFree(s, op, env);
    SourceIsAlone(s, op, env);
    EditLands(s, op, env);
  }

  // Every accepted request but the plain ones, whose guards do not look at the
  // rule, goes through its helper unhindered.
  lemma AcceptedGoes(s: State, op: Op, env: Env)
    requires Accepts(s, op, env) && !op.kind.RemoveAllow? && !op.kind.AddAllow?
    ensures Goes(s.host, op)
  {
    if op.kind.EditExternal? {
      AcceptedEditGoes(s, op, env);
    } else {
      AcceptedControlGoes(s, op, env);
    }
  }

  // ----- What the compensations undo -----

  lemma AdmittedIsReady(h: Host, c: Change)
    requires Valid(c.rule) && (c.rule.OpenPort? || IsDrop(c.rule)) && Admits(h, c)
    ensures if c.add then h.Nowhere(c.rule) else h.Everywhere(c.rule)
    ensures c.rule.zone in h.zones && c.rule.zone !in h.opaqueZones
  {
    var n := c.rule;
    assert n in h.GoverningIn(n.zone, n.port, n.protocol) <==> !h.Nowhere(n) && n.zone in h.zones;
    assert n in h.Governing(n.port, n.protocol) <==> !h.Nowhere(n) && n.zone in h.zones;
  }

  // When only the permanent edit fails, and without effect, the helper's own
  // compensation leaves the host as it was.
  lemma CompensationRestores(h: Host, c: Change)
    requires Valid(c.rule) && (c.rule.OpenPort? || IsDrop(c.rule)) && Admits(h, c)
    ensures var edited := HelperStep(h, c, RuntimeStep, Done).0;
            var (failed, next) := HelperStep(edited, c, PermanentStep, FailedClean);
            next == Continue(Compensate) && HelperStep(failed, c, Compensate, Done).0 == h
  {
    AdmittedIsReady(h, c);
    var n := c.rule;
    assert c.add ==> h.runtime + {n} - {n} == h.runtime;
    assert !c.add ==> h.runtime - {n} + {n} == h.runtime;
  }

  // An addition whose metadata cannot be stored is taken back: the helper
  // admits the removal, and both layers end as they began.
  lemma AdditionCanBeTakenBack(h: Host, n: Native)
    requires Valid(n) && (n.OpenPort? || IsDrop(n)) && Admits(h, Change(true, n))
    ensures Admits(Applied(h, Change(true, n)), Change(false, n))
    ensures Applied(Applied(h, Change(true, n)), Change(false, n)) == h
  {
    AdmittedIsReady(h, Change(true, n));
    var added := Applied(h, Change(true, n));
    forall m ensures m in added.GoverningIn(n.zone, n.port, n.protocol) <==>
                     m in h.GoverningIn(n.zone, n.port, n.protocol) || m == n {
    }
    assert forall m :: m in h.GoverningIn(n.zone, n.port, n.protocol) ==> m in h.Governing(n.port, n.protocol);
    assert added.GoverningIn(n.zone, n.port, n.protocol) == {n};
    assert h.runtime + {n} - {n} == h.runtime;
    assert h.permanent + {n} - {n} == h.permanent;
  }
}
