/**
 The gate every Xray restart passes: starts are spaced, and one counts as
 successful only after the service has stayed active for a while.
 */
module RestartGate {
  import opened Common

  // Milliseconds.
  const MIN_SPACING := 3_000
  const VERIFY_FOR := 6_000
  const STABLE_FOR := 1_200
  const PROBE_PAUSE := 250

  /** One answer of the service manager: whether the service is active, how long
      the answer took, and how long the pause after it really lasted. */
  datatype Probe = Probe(active: bool, took: nat, pause: nat)

  datatype Answer = Answer(at: int, active: bool)

  predicate Spaced(starts: seq<int>) {
    forall i :: 0 < i < |starts| ==> starts[i - 1] + MIN_SPACING <= starts[i]
  }

  // A tail of active answers whose ends lie far enough apart.
  predicate StableFrom(answers: seq<Answer>, i: nat) {
    && i < |answers|
    && (forall k :: i <= k < |answers| ==> answers[k].active)
    && answers[|answers| - 1].at - answers[i].at >= STABLE_FOR
  }

  class Gate {
    var now: int
    var last: Option<int>
    ghost var starts: seq<int>

    constructor (now: int)
      ensures Valid() && this.now == now && starts == []
    {
      this.now, last, starts := now, None, [];
    }

    ghost predicate Valid()
      reads this
    {
      && Spaced(starts)
      && (last.None? <==> starts == [])
      && (last.Some? ==> last.value == starts[|starts| - 1] && last.value <= now)
    }

    /** Waits for the gate, asks for a restart and watches the service.  The
        clock advances by what each step takes; over says by how much a sleep
        exceeds what was asked for. */
    method RestartAndVerify(over: nat, restarts: bool, took: nat, probes: nat -> Probe) returns (ok: bool, ghost answers: seq<Answer>)
      requires Valid()
      requires forall n :: probes(n).pause >= PROBE_PAUSE
      modifies this
      ensures Valid() && now >= old(now)
      ensures exists start :: starts == old(starts) + [start] && old(now) <= start
      ensures ok <==> restarts && exists i: nat :: StableFrom(answers, i)
      ensures restarts && !ok ==> now >= starts[|starts| - 1] + took + VERIFY_FOR
      ensures |answers| <= VERIFY_FOR / PROBE_PAUSE
    {
      ok, answers := false, [];
      if last.Some? && MIN_SPACING - (now - last.value) > 0 {
        now := now + (MIN_SPACING - (now - last.value)) + over;
      }
      last, starts := Some(now), starts + [now];
      now := now + took;
      if !restarts {
        return;
      }
      ok, answers := Watch(probes);
    }

    // What the watch knows after an answer that did not end it.
    ghost predicate Watched(answers: seq<Answer>, stableSince: Option<int>, since: nat) {
      match stableSince
      case None => answers == [] || !answers[|answers| - 1].active
      case Some(at) =>
        && since < |answers| && answers[since].at == at
        && (forall k :: since <= k < |answers| ==> answers[k].active)
        && (since > 0 ==> !answers[since - 1].active)
        && answers[|answers| - 1].at - at < STABLE_FOR
    }

    ghost predicate InOrder(answers: seq<Answer>) {
      forall i, j :: 0 <= i < j < |answers| ==> answers[i].at <= answers[j].at
    }

    lemma NotYetStable(answers: seq<Answer>, stableSince: Option<int>, since: nat, i: nat)
      requires Watched(answers, stableSince, since) && InOrder(answers)
      ensures !StableFrom(answers, i)
    {
      if i < |answers| {
        match stableSince {
          case None => assert !answers[|answers| - 1].active;
          case Some(at) =>
            if i < since {
              assert !answers[since - 1].active;
            } else {
              assert answers[since].at <= answers[i].at;
            }
        }
      }
    }

    // One more answer ends the watch, or leaves it knowing as much.
    lemma WatchedOneMore(answers: seq<Answer>, stableSince: Option<int>, since: nat, a: Answer)
      requires Watched(answers, stableSince, since) && InOrder(answers)
      requires answers != [] ==> answers[|answers| - 1].at <= a.at
      ensures InOrder(answers + [a])
      ensures !a.active ==> Watched(answers + [a], None, since)
      ensures a.active ==>
                var (at, from) := if stableSince.None? then (a.at, |answers|) else (stableSince.value, since);
                if a.at - at >= STABLE_FOR then StableFrom(answers + [a], from) else Watched(answers + [a], Some(at), from)
    {
    }

    method Watch(probes: nat -> Probe) returns (ok: bool, ghost answers: seq<Answer>)
      requires Valid()
      requires forall n :: probes(n).pause >= PROBE_PAUSE
      modifies this`now
      ensures Valid() && now >= old(now)
      ensures ok <==> exists i: nat :: StableFrom(answers, i)
      ensures !ok ==> now >= old(now) + VERIFY_FOR
      ensures |answers| <= VERIFY_FOR / PROBE_PAUSE
    {
      ok, answers := false, [];
      var deadline := now + VERIFY_FOR;
      var stableSince: Option<int> := None;
      ghost var since: nat := 0;
      var n := 0;
      while now < deadline
        invariant Valid() && now >= old(now) && n == |answers|
        invariant PROBE_PAUSE * n <= now - old(now) && n <= VERIFY_FOR / PROBE_PAUSE
        invariant InOrder(answers) && (answers != [] ==> answers[|answers| - 1].at <= now)
        invariant Watched(answers, stableSince, since)
        decreases deadline - now
      {
        var p := probes(n);
        now := now + p.took;
        WatchedOneMore(answers, stableSince, since, Answer(now, p.active));
        answers := answers + [Answer(now, p.active)];
        if p.active {
          if stableSince.None? {
            stableSince, since := Some(now), |answers| - 1;
          }
          if now - stableSince.value >= STABLE_FOR {
            ok := true;
            return;
          }
        } else {
          stableSince := None;
        }
        now := now + p.pause;
        n := n + 1;
      }
      forall i: nat ensures !StableFrom(answers, i) {
        NotYetStable(answers, stableSince, since, i);
      }
    }
  }

  // ----- Start limits -----

  lemma {:induction false} SpacedApart(starts: seq<int>, i: nat, j: nat)
    requires Spaced(starts) && i <= j < |starts|
    ensures starts[i] + MIN_SPACING * (j - i) <= starts[j]
  {
    if i < j {
      SpacedApart(starts, i, j - 1);
    }
  }

  function Within(starts: seq<int>, from: int, length: nat): set<nat> {
    set i: nat | i < |starts| && from <= starts[i] <= from + length
  }

  lemma SpanBoundsSize(s: set<nat>, lo: nat, size: nat)
    requires forall i :: i in s ==> lo <= i < lo + size
    ensures |s| <= size
  {
    if size == 0 {
      assert s == {};
    } else {
      SpanBoundsSize(s - {lo + size - 1}, lo, size - 1);
    }
  }

  // No ten seconds contain more than four starts, so the service manager's
  // default limit of five is never reached by them.
  lemma AtMostFourInTenSeconds(starts: seq<int>, from: int)
    requires Spaced(starts)
    ensures |Within(starts, from, 10_000)| <= 4
  {
    var s := Within(starts, from, 10_000);
    if s != {} {
      var first := Least(s);
      forall i | i in s ensures first <= i < first + 4 {
        SpacedApart(starts, first, i);
      }
      SpanBoundsSize(s, first, 4);
    }
  }

  lemma Least(s: set<nat>) returns (m: nat)
    requires s != {}
    ensures m in s && forall i :: i in s ==> m <= i
  {
    var any :| any in s;
    m := any;
    if s - {any} == {} {
      assert s == {any};
    } else {
      var k := Least(s - {any});
      m := if k < any then k else any;
      assert forall i :: i in s ==> i in s - {any} || i == any;
    }
  }
}
