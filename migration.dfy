/** The start-up migration runner (go-backend/migration/migration.go): apply the declared
    steps in order, skip those already recorded, record each success, stop at the first
    failure. The `migrations` table is an in-memory sequence of recorded names; whether a
    step's body fails is an oracle (the set of failing names); the bodies themselves (raw
    SQL) are not part of this model. */
module Migration {
  import opened Wrappers

  /** The declared steps, in order. */
  const Migrations: seq<string> := ["001_tunnel_out_port", "002_node_port_ranges", "003_chain_tunnel"]

  const TableError: string := "failed to create migrations table"

  function FailureMessage(name: string): string {
    "migration " + name + " failed"
  }

  /** Where a run over some steps stands: the recorded names, the names whose body ran, and
      the step that failed, if any. */
  datatype Progress = Progress(recorded: seq<string>, ran: seq<string>, failed: Option<string>)

  /** The loop of `RunMigrations` over `steps`, starting from the recorded names `applied`. */
  function Run(steps: seq<string>, applied: seq<string>, fails: set<string>): Progress {
    if |steps| == 0 then Progress(applied, [], None)
    else
      var p := Run(steps[..|steps| - 1], applied, fails);
      var m := steps[|steps| - 1];
      if p.failed.Some? || m in p.recorded then p
      else if m in fails then Progress(p.recorded, p.ran + [m], Some(m))
      else Progress(p.recorded + [m], p.ran + [m], None)
  }

  /** `RunMigrations`: `tableReady` says whether creating the migrations table succeeded. */
  method RunMigrations(steps: seq<string>, applied: seq<string>, tableReady: bool, fails: set<string>)
    returns (recorded: seq<string>, ran: seq<string>, err: Option<string>)
    ensures !tableReady ==> recorded == applied && ran == [] && err == Some(TableError)
    ensures tableReady ==> recorded == Run(steps, applied, fails).recorded && ran == Run(steps, applied, fails).ran
    ensures tableReady ==>
      match Run(steps, applied, fails).failed
      case None => err == None
      case Some(m) => err == Some(FailureMessage(m))
  {
    recorded, ran := applied, [];
    if !tableReady {
      return recorded, ran, Some(TableError);
    }
    var i := 0;
    while i < |steps|
      invariant 0 <= i <= |steps|
      invariant Run(steps[..i], applied, fails) == Progress(recorded, ran, None)
    {
      var m := steps[i];
      assert steps[..i + 1][..i] == steps[..i];
      if m in recorded {
        i := i + 1;
        continue;
      }
      ran := ran + [m];
      if m in fails {
        RunStopsAtFailure(steps, i + 1, applied, fails);
        return recorded, ran, Some(FailureMessage(m));
      }
      recorded := recorded + [m];
      i := i + 1;
    }
    assert steps[..|steps|] == steps;
    err := None;
  }

  /** Once a step has failed, later steps change nothing. */
  lemma {:induction false} RunStopsAtFailure(steps: seq<string>, i: nat, applied: seq<string>, fails: set<string>)
    requires i <= |steps|
    requires Run(steps[..i], applied, fails).failed.Some?
    ensures Run(steps, applied, fails) == Run(steps[..i], applied, fails)
    decreases |steps| - i
  {
    if i < |steps| {
      assert steps[..i + 1][..i] == steps[..i];
      RunStopsAtFailure(steps, i + 1, applied, fails);
    } else {
      assert steps[..i] == steps;
    }
  }

  /** `a` picks out some elements of `b`, keeping their order. */
  predicate IsSubsequence(a: seq<string>, b: seq<string>)
    decreases |b|
  {
    |a| == 0 ||
    (|b| > 0 &&
      if a[|a| - 1] == b[|b| - 1] then IsSubsequence(a[..|a| - 1], b[..|b| - 1])
      else IsSubsequence(a, b[..|b| - 1]))
  }

  lemma {:induction false} SubsequenceExtend(a: seq<string>, b: seq<string>, x: string)
    requires IsSubsequence(a, b)
    ensures IsSubsequence(a, b + [x])
    decreases |b|, 1
  {
    assert (b + [x])[..|b|] == b;
    if |a| > 0 && a[|a| - 1] == x {
      SubsequenceDropLast(a, b);
    }
  }

  lemma {:induction false} SubsequenceDropLast(a: seq<string>, b: seq<string>)
    requires IsSubsequence(a, b) && |a| > 0
    ensures IsSubsequence(a[..|a| - 1], b)
    decreases |b|, 0
  {
    var b' := b[..|b| - 1];
    assert b == b' + [b[|b| - 1]];
    if a[|a| - 1] != b[|b| - 1] {
      SubsequenceDropLast(a, b');
    }
    SubsequenceExtend(a[..|a| - 1], b', b[|b| - 1]);
  }

  /** The steps run in declared order, and only steps not recorded before run. */
  lemma {:induction false} RunOrder(steps: seq<string>, applied: seq<string>, fails: set<string>)
    ensures IsSubsequence(Run(steps, applied, fails).ran, steps)
    ensures forall m :: m in Run(steps, applied, fails).ran ==> m !in applied
    decreases |steps|
  {
    if |steps| > 0 {
      var init := steps[..|steps| - 1];
      var m := steps[|steps| - 1];
      RunOrder(init, applied, fails);
      RecordsGrow(init, applied, fails);
      var p := Run(init, applied, fails);
      assert steps == init + [m];
      SubsequenceExtend(p.ran, init, m);
      var ran' := p.ran + [m];
      assert ran'[..|p.ran|] == p.ran;
    }
  }

  /** A step that ran was recorded, after the names recorded before, unless it failed; a
      failing step is the last to run, is one of the failing steps and is not recorded. */
  lemma {:induction false} RecordsGrow(steps: seq<string>, applied: seq<string>, fails: set<string>)
    ensures var p := Run(steps, applied, fails);
      (p.failed.None? ==> p.recorded == applied + p.ran) &&
      (p.failed.Some? ==>
        |p.ran| > 0 && p.failed.value == p.ran[|p.ran| - 1] && p.failed.value in fails &&
        p.recorded == applied + p.ran[..|p.ran| - 1] && p.failed.value !in p.recorded)
    decreases |steps|
  {
    if |steps| > 0 {
      var init := steps[..|steps| - 1];
      RecordsGrow(init, applied, fails);
      var p := Run(init, applied, fails);
      var ran' := p.ran + [steps[|steps| - 1]];
      assert ran'[..|p.ran|] == p.ran;
    }
  }

  /** A run without failure leaves every declared step recorded. */
  lemma {:induction false} RunCompletes(steps: seq<string>, applied: seq<string>, fails: set<string>)
    ensures Run(steps, applied, fails).failed.None? ==>
      forall m :: m in steps ==> m in Run(steps, applied, fails).recorded
    decreases |steps|
  {
    if |steps| > 0 {
      var init := steps[..|steps| - 1];
      RunCompletes(init, applied, fails);
      RecordsGrow(init, applied, fails);
      assert forall x :: x in steps ==> x in init || x == steps[|steps| - 1];
    }
  }

  /** After a run without failure, a second run over the same steps applies nothing and
      records nothing, whatever would fail. */
  lemma {:induction false} SecondRunAppliesNothing(steps: seq<string>, applied: seq<string>, fails: set<string>, fails2: set<string>)
    requires Run(steps, applied, fails).failed.None?
    ensures var again := Run(steps, Run(steps, applied, fails).recorded, fails2);
      again.ran == [] && again.failed.None? && again.recorded == Run(steps, applied, fails).recorded
  {
    RunCompletes(steps, applied, fails);
    AllRecordedRunsNothing(steps, Run(steps, applied, fails).recorded, fails2);
  }

  lemma {:induction false} AllRecordedRunsNothing(steps: seq<string>, applied: seq<string>, fails: set<string>)
    requires forall m :: m in steps ==> m in applied
    ensures Run(steps, applied, fails) == Progress(applied, [], None)
    decreases |steps|
  {
    if |steps| > 0 {
      var init := steps[..|steps| - 1];
      assert forall m :: m in init ==> m in steps;
      AllRecordedRunsNothing(init, applied, fails);
    }
  }

  /** On a fresh database with no failures, the three declared steps run in order. */
  lemma FreshRunAppliesAll()
    ensures Run(Migrations, [], {}) == Progress(Migrations, Migrations, None)
  {
    var m := Migrations;
    assert m[..0] == [];
    assert m[..1] == [m[0]];
    assert m[..2] == [m[0], m[1]];
    assert m[..3] == m;
    assert Run(m[..1], [], {}) == Progress([m[0]], [m[0]], None);
    assert m[1] != m[0];
    assert Run(m[..2], [], {}) == Progress([m[0], m[1]], [m[0], m[1]], None);
    assert m[2] != m[0] && m[2] != m[1];
  }
}
