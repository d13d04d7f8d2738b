/** The undo scripts of two overlapping edits, running at the same time. */
module RecoveryInterleaved {
  import opened FirewallRules
  import opened FirewallHost
  import opened RecoveryProtocol
  import opened RecoveryRestore
  import opened RecoveryRuns
  import opened RecoveryScenarios

  ghost predicate Interleaves<T>(m: seq<T>, x: seq<T>, y: seq<T>)
    decreases |m|
  {
    if m == [] then x == [] && y == []
    else
      || (x != [] && m[0] == x[0] && Interleaves(m[1..], x[1..], y))
      || (y != [] && m[0] == y[0] && Interleaves(m[1..], x, y[1..]))
  }

  lemma {:induction false} InterleavedElements<T>(m: seq<T>, x: seq<T>, y: seq<T>)
    requires Interleaves(m, x, y)
    ensures multiset(m) == multiset(x) + multiset(y)
    decreases |m|
  {
    if m != [] {
      assert m == [m[0]] + m[1..];
      if x != [] && m[0] == x[0] && Interleaves(m[1..], x[1..], y) {
        assert x == [x[0]] + x[1..];
        InterleavedElements(m[1..], x[1..], y);
      } else {
        assert y == [y[0]] + y[1..];
        InterleavedElements(m[1..], x, y[1..]);
      }
    }
  }

  lemma OccursTwice<T>(m: seq<T>, i: nat, j: nat)
    requires i < j < |m| && m[i] == m[j]
    ensures multiset(m)[m[i]] >= 2
  {
    assert m == m[..j] + m[j..];
    assert m[..j][i] == m[i] && m[j..][0] == m[i];
  }

  predicate IsAbout(c: Cmd, layer: Layer, n: Native) {
    c.layer == layer && c.rule == n
  }

  // The commands about a rule of one layer agree: they decide, if there are any.
  lemma {:induction false} AgreedDecide(h: Host, m: seq<Cmd>, layer: Layer, n: Native, present: bool)
    requires forall i :: 0 <= i < |m| && IsAbout(m[i], layer, n) ==> m[i].present == present
    ensures n in RunScript(h, m).Layer(layer) <==>
            if exists i :: 0 <= i < |m| && IsAbout(m[i], layer, n) then present else n in h.Layer(layer)
    decreases |m|
  {
    if m != [] {
      AgreedDecide(Run(h, m[0]), m[1..], layer, n, present);
      if i :| 0 <= i < |m| && IsAbout(m[i], layer, n) && i > 0 {
        assert IsAbout(m[1..][i - 1], layer, n);
      }
    }
  }

  // The last command about a rule of one layer decides.
  lemma {:induction false} LastDecides(h: Host, m: seq<Cmd>, i: nat)
    requires i < |m| && forall j :: i < j < |m| ==> !IsAbout(m[j], m[i].layer, m[i].rule)
    ensures m[i].rule in RunScript(h, m).Layer(m[i].layer) <==> m[i].present
    decreases |m|
  {
    if i > 0 {
      LastDecides(Run(h, m[0]), m[1..], i - 1);
    } else {
      AgreedDecide(h, m, m[0].layer, m[0].rule, m[0].present);
      assert IsAbout(m[0], m[0].layer, m[0].rule);
    }
  }

  // Each command of the two scripts occurs once, and of those about b one
  // removes it and one adds it.
  lemma InterleavedOnce(m: seq<Cmd>, a: Native, b: Native, c: Native, i: nat, j: nat)
    requires a != b && b != c && a != c && Interleaves(m, EditUndoScript(a, b), EditUndoScript(b, c))
    requires i < |m| && j < |m| && m[i] == m[j]
    ensures i == j
  {
    var x, y := EditUndoScript(a, b), EditUndoScript(b, c);
    InterleavedElements(m, x, y);
    OnceEach(a, b, c, m[i]);
    if i < j {
      OccursTwice(m, i, j);
    } else if j < i {
      OccursTwice(m, j, i);
    }
  }

  lemma OnceEach(a: Native, b: Native, c: Native, d: Cmd)
    requires a != b && b != c && a != c
    ensures multiset(EditUndoScript(a, b))[d] + multiset(EditUndoScript(b, c))[d] <= 1
  {
  }

  lemma InterleavedFrom(m: seq<Cmd>, x: seq<Cmd>, y: seq<Cmd>, i: nat)
    requires Interleaves(m, x, y) && i < |m|
    ensures m[i] in x || m[i] in y
  {
    InterleavedElements(m, x, y);
    assert m[i] in multiset(m);
  }

  function MovedOn(before: Host, a: Native, c: Native): Host {
    before.(runtime := before.runtime - {a} + {c}, permanent := before.permanent - {a} + {c})
  }

  // Of the two edits of OverlappingEdits, undone in any interleaving: in each
  // layer b stays exactly when the second script adds it after the first has
  // removed it, and every other rule is as before.
  lemma InterleavedEdits(before: Host, a: Native, b: Native, c: Native, m: seq<Cmd>, layer: Layer, removed: nat, added: nat)
    requires WellFormed(Edit(a, b)) && WellFormed(Edit(b, c)) && a != c
    requires Ready(before, Edit(a, b)) && before.Nowhere(c)
    requires Interleaves(m, EditUndoScript(a, b), EditUndoScript(b, c))
    requires removed < |m| && m[removed] == Cmd(layer, b, false)
    requires added < |m| && m[added] == Cmd(layer, b, true)
    ensures b in RunScript(MovedOn(before, a, c), m).Layer(layer) <==> removed < added
    ensures forall n :: n != b ==> (n in RunScript(MovedOn(before, a, c), m).Layer(layer) <==> n in before.Layer(layer))
  {
    var moved := MovedOn(before, a, c);
    OnlyTwoAbout(m, a, b, c, layer, removed, added);
    LastDecides(moved, m, if removed < added then added else removed);
    forall n | n != b ensures n in RunScript(moved, m).Layer(layer) <==> n in before.Layer(layer) {
      OtherRuleAsBefore(before, a, b, c, m, layer, n);
    }
  }

  lemma OnlyTwoAbout(m: seq<Cmd>, a: Native, b: Native, c: Native, layer: Layer, removed: nat, added: nat)
    requires a != b && b != c && a != c && Interleaves(m, EditUndoScript(a, b), EditUndoScript(b, c))
    requires removed < |m| && m[removed] == Cmd(layer, b, false)
    requires added < |m| && m[added] == Cmd(layer, b, true)
    ensures forall k :: 0 <= k < |m| && IsAbout(m[k], layer, b) ==> k == removed || k == added
  {
    forall k: nat | k < |m| && IsAbout(m[k], layer, b) ensures k == removed || k == added {
      if m[k].present {
        InterleavedOnce(m, a, b, c, k, added);
      } else {
        InterleavedOnce(m, a, b, c, k, removed);
      }
    }
  }

  lemma OtherRuleAsBefore(before: Host, a: Native, b: Native, c: Native, m: seq<Cmd>, layer: Layer, n: Native)
    requires WellFormed(Edit(a, b)) && WellFormed(Edit(b, c)) && a != c
    requires Ready(before, Edit(a, b)) && before.Nowhere(c)
    requires Interleaves(m, EditUndoScript(a, b), EditUndoScript(b, c)) && n != b
    ensures n in RunScript(MovedOn(before, a, c), m).Layer(layer) <==> n in before.Layer(layer)
  {
    var x, y := EditUndoScript(a, b), EditUndoScript(b, c);
    forall i: nat | i < |m| && IsAbout(m[i], layer, n) ensures (n == a && m[i].present) || (n == c && !m[i].present) {
      InterleavedFrom(m, x, y, i);
    }
    AgreedDecide(MovedOn(before, a, c), m, layer, n, n == a);
    if n == a {
      assert x[0] == Cmd(Runtime, a, true) && x[1] == Cmd(Permanent, a, true);
      HasCommand(m, x, y, layer, a, true);
    } else if n == c {
      assert y[2] == Cmd(Runtime, c, false) && y[3] == Cmd(Permanent, c, false);
      HasCommand(m, x, y, layer, c, false);
    }
  }

  lemma HasCommand(m: seq<Cmd>, x: seq<Cmd>, y: seq<Cmd>, layer: Layer, n: Native, present: bool)
    requires Interleaves(m, x, y) && (Cmd(layer, n, present) in x || Cmd(layer, n, present) in y)
    ensures exists i :: 0 <= i < |m| && IsAbout(m[i], layer, n)
  {
    InterleavedElements(m, x, y);
    assert Cmd(layer, n, present) in multiset(m);
    var k :| 0 <= k < |m| && m[k] == Cmd(layer, n, present);
    assert IsAbout(m[k], layer, n);
  }

  // What a timer has yet to run.
  predicate YetToRun(s: State, u: nat, script: seq<Cmd>) {
    u in s.timers &&
    if script == [] then s.timers[u].status.Finished?
    else s.timers[u].status.Running? && s.timers[u].status.next < |s.timers[u].script| &&
         s.timers[u].script[s.timers[u].status.next..] == script
  }

  lemma FireTakesOne(s: State, u: nat, v: nat, x: seq<Cmd>, y: seq<Cmd>)
    requires u != v && x != [] && YetToRun(s, u, x) && YetToRun(s, v, y)
    ensures var t := Next(s, Fire(u, Done)); t.host == Run(s.host, x[0]) && YetToRun(t, u, x[1..]) && YetToRun(t, v, y)
  {
  }

  // Two scripts that have begun run in any interleaving of their commands.
  lemma {:induction false} InterleavingRuns(s: State, u: nat, v: nat, x: seq<Cmd>, y: seq<Cmd>, m: seq<Cmd>)
    requires u != v && YetToRun(s, u, x) && YetToRun(s, v, y) && Interleaves(m, x, y)
    ensures exists events :: After(s, events).host == RunScript(s.host, m)
    decreases |m|
  {
    if m == [] {
      assert After(s, []).host == RunScript(s.host, m);
    } else if x != [] && m[0] == x[0] && Interleaves(m[1..], x[1..], y) {
      FireTakesOne(s, u, v, x, y);
      InterleavingRuns(Next(s, Fire(u, Done)), u, v, x[1..], y, m[1..]);
      FireFirst(s, u, m);
    } else {
      FireTakesOne(s, v, u, y, x);
      InterleavingRuns(Next(s, Fire(v, Done)), u, v, x, y[1..], m[1..]);
      FireFirst(s, v, m);
    }
  }

  lemma FireFirst(s: State, u: nat, m: seq<Cmd>)
    requires m != [] && Next(s, Fire(u, Done)).host == Run(s.host, m[0])
    requires exists events :: After(Next(s, Fire(u, Done)), events).host == RunScript(Run(s.host, m[0]), m[1..])
    ensures exists events :: After(s, events).host == RunScript(s.host, m)
  {
    var rest :| After(Next(s, Fire(u, Done)), rest).host == RunScript(Run(s.host, m[0]), m[1..]);
    AfterBoth(s, [Fire(u, Done)], rest);
    AfterOne(s, Fire(u, Done));
  }
}
