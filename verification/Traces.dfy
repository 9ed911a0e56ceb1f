// Putting runs of the pipeline together.
module Traces {
  import opened Pipeline

  lemma {:induction false} AppendTrace(m: MaxAttempts, s: State, x: seq<Action>, y: seq<Action>)
    requires ValidTrace(m, s, x) && ValidTrace(m, After(m, s, x), y)
    ensures ValidTrace(m, s, x + y) && After(m, s, x + y) == After(m, After(m, s, x), y)
    decreases |x|
  {
    if x == [] {
      assert x + y == y;
    } else {
      assert (x + y)[1..] == x[1..] + y;
      AppendTrace(m, Apply(m, s, x[0]), x[1..], y);
    }
  }

  lemma Stays(m: MaxAttempts, scope: Scope, s: State)
    ensures LeadsBy(m, scope, s, s)
  {
    assert IsRun(m, scope, s, [], s);
  }

  lemma Chain(m: MaxAttempts, scope: Scope, s: State, t: State, u: State)
    requires LeadsBy(m, scope, s, t) && LeadsBy(m, scope, t, u)
    ensures LeadsBy(m, scope, s, u)
  {
    var x :| IsRun(m, scope, s, x, t);
    var y :| IsRun(m, scope, t, y, u);
    AppendTrace(m, s, x, y);
    assert IsRun(m, scope, s, x + y, u);
  }

  lemma OneStep(m: MaxAttempts, scope: Scope, s: State, a: Action)
    requires Enabled(s, a) && InScope(scope, a)
    ensures LeadsBy(m, scope, s, Apply(m, s, a))
  {
    var t := Apply(m, s, a);
    assert [a][1..] == [];
    assert ValidTrace(m, t, []) && After(m, t, []) == t;
    assert IsRun(m, scope, s, [a], t);
  }

  // One more step at the end of a run.
  lemma Go(m: MaxAttempts, scope: Scope, s: State, t: State, a: Action) returns (u: State)
    requires LeadsBy(m, scope, s, t) && Enabled(t, a) && InScope(scope, a)
    ensures u == Apply(m, t, a) && LeadsBy(m, scope, s, u)
  {
    u := Apply(m, t, a);
    OneStep(m, scope, t, a);
    Chain(m, scope, s, t, u);
  }

  lemma AnyScopeLeads(m: MaxAttempts, scope: Scope, s: State, t: State)
    requires LeadsBy(m, scope, s, t)
    ensures Leads(m, s, t)
  {
    var trace :| IsRun(m, scope, s, trace, t);
    assert IsRun(m, Anyone, s, trace, t);
  }
}
