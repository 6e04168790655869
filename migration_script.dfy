/**
 * What one migration step does: a script of statements, optionally gated by an
 * add-on, run against the database and the two preference stores.
 */
module MigrationScript {
  import opened Wrappers
  import opened Schema

  const ACCOUNT_TOKEN_PREF_KEY := "ACCOUNT_TOKEN_PREF_KEY"

  /**
   * Everything a step can change: the tables, the application's default
   * shared preferences and the dedicated "_fluxc-preferences" store.
   */
  datatype Storage = Storage(tables: Tables, defaultPrefs: map<string, string>, fluxcPrefs: map<string, string>)

  /** One line of a script: an SQL statement, or the preference move of step 38. */
  datatype Action = Exec(op: Op) | MoveAccountToken

  /** A `migrate { }` block (no add-on) or a `migrateAddOn(name) { }` block. */
  datatype Step = Step(addOn: Option<string>, script: seq<Action>)

  function Ungated(script: seq<Action>): Step {
    Step(None, script)
  }

  function Gated(addOn: string, script: seq<Action>): Step {
    Step(Some(addOn), script)
  }

  /** `getString(ACCOUNT_TOKEN_PREF_KEY, "")` on the default preferences. */
  function StoredToken(prefs: map<string, string>): string {
    if ACCOUNT_TOKEN_PREF_KEY in prefs then prefs[ACCOUNT_TOKEN_PREF_KEY] else ""
  }

  /**
   * Step 38: a non-empty token is written to the fluxc preferences and removed
   * from the default preferences; an empty or absent one changes nothing.
   */
  function MoveToken(st: Storage): (r: Storage)
    ensures r.tables == st.tables
    ensures StoredToken(st.defaultPrefs) != "" ==>
      && r.fluxcPrefs == st.fluxcPrefs[ACCOUNT_TOKEN_PREF_KEY := StoredToken(st.defaultPrefs)]
      && r.defaultPrefs == st.defaultPrefs - {ACCOUNT_TOKEN_PREF_KEY}
      && ACCOUNT_TOKEN_PREF_KEY !in r.defaultPrefs
    ensures StoredToken(st.defaultPrefs) == "" ==> r == st
  {
    var token := StoredToken(st.defaultPrefs);
    if token != "" then
      st.(fluxcPrefs := st.fluxcPrefs[ACCOUNT_TOKEN_PREF_KEY := token],
          defaultPrefs := st.defaultPrefs - {ACCOUNT_TOKEN_PREF_KEY})
    else
      st
  }

  function RunAction(st: Storage, a: Action): Result<Storage, SqlError> {
    match a
    case MoveAccountToken => Ok(MoveToken(st))
    case Exec(op) =>
      match Apply(st.tables, op)
      case Ok(t) => Ok(st.(tables := t))
      case Err(e) => Err(e)
  }

  /** Runs the actions in order; the first error stops the script. */
  function RunScript(st: Storage, script: seq<Action>): Result<Storage, SqlError>
    decreases |script|
  {
    if script == [] then Ok(st)
    else
      match RunScript(st, script[..|script| - 1])
      case Ok(s) => RunAction(s, script[|script| - 1])
      case Err(e) => Err(e)
  }

  /** `migrate` runs the script; `migrateAddOn` runs it only when the add-on is active. */
  function RunStep(st: Storage, addOns: set<string>, step: Step): Result<Storage, SqlError> {
    if step.addOn.None? || step.addOn.value in addOns then RunScript(st, step.script) else Ok(st)
  }

  /** Runs the steps of one version in order; the first error stops them. */
  function RunSteps(st: Storage, addOns: set<string>, steps: seq<Step>): Result<Storage, SqlError>
    decreases |steps|
  {
    if steps == [] then Ok(st)
    else
      match RunSteps(st, addOns, steps[..|steps| - 1])
      case Ok(s) => RunStep(s, addOns, steps[|steps| - 1])
      case Err(e) => Err(e)
  }

  /** A gated step whose add-on is inactive changes nothing at all. */
  lemma InactiveAddOnIsNoOp(st: Storage, addOns: set<string>, name: string, script: seq<Action>)
    requires name !in addOns
    ensures RunStep(st, addOns, Gated(name, script)) == Ok(st)
  {
  }

  /** An active add-on's script runs exactly once, like an ungated one. */
  lemma ActiveAddOnRunsScriptOnce(st: Storage, addOns: set<string>, name: string, script: seq<Action>)
    requires name in addOns
    ensures RunStep(st, addOns, Gated(name, script)) == RunStep(st, addOns, Ungated(script))
    ensures RunStep(st, addOns, Gated(name, script)) == RunScript(st, script)
  {
  }

  /**
   * A version made of a gated step followed by an ungated one (45 and 61):
   * without the add-on only the ungated script takes effect; with it, the
   * ungated script runs on the result of the gated one.
   */
  lemma GatedThenUngated(st: Storage, addOns: set<string>, name: string, gated: seq<Action>, ungated: seq<Action>)
    ensures name !in addOns ==>
      RunSteps(st, addOns, [Gated(name, gated), Ungated(ungated)]) == RunScript(st, ungated)
    ensures name in addOns && RunScript(st, gated).Ok? ==>
      RunSteps(st, addOns, [Gated(name, gated), Ungated(ungated)]) ==
        RunScript(RunScript(st, gated).value, ungated)
    ensures name in addOns && RunScript(st, gated).Err? ==>
      RunSteps(st, addOns, [Gated(name, gated), Ungated(ungated)]) == RunScript(st, gated)
  {
    var steps := [Gated(name, gated), Ungated(ungated)];
    assert steps[..1] == [Gated(name, gated)];
    assert steps[..1][..0] == [];
    assert RunSteps(st, addOns, steps[..1]) == RunStep(st, addOns, Gated(name, gated));
    assert steps[|steps| - 1] == Ungated(ungated);
  }

  /** A script that succeeds keeps every table well formed. */
  lemma {:induction false} RunScriptPreservesWellFormed(st: Storage, script: seq<Action>)
    requires WellFormed(st.tables)
    requires RunScript(st, script).Ok?
    ensures WellFormed(RunScript(st, script).value.tables)
    decreases |script|
  {
    if script != [] {
      var prefix := script[..|script| - 1];
      RunScriptPreservesWellFormed(st, prefix);
      var s := RunScript(st, prefix).value;
      match script[|script| - 1]
      case Exec(op) => ApplyPreservesWellFormed(s.tables, op);
      case MoveAccountToken =>
    }
  }

  lemma {:induction false} RunStepsPreservesWellFormed(st: Storage, addOns: set<string>, steps: seq<Step>)
    requires WellFormed(st.tables)
    requires RunSteps(st, addOns, steps).Ok?
    ensures WellFormed(RunSteps(st, addOns, steps).value.tables)
    decreases |steps|
  {
    if steps != [] {
      var prefix := steps[..|steps| - 1];
      RunStepsPreservesWellFormed(st, addOns, prefix);
      var s := RunSteps(st, addOns, prefix).value;
      var last := steps[|steps| - 1];
      if last.addOn.None? || last.addOn.value in addOns {
        RunScriptPreservesWellFormed(s, last.script);
      }
    }
  }

  /** Once a prefix of a script has failed, the whole script fails with that error. */
  lemma {:induction false} ScriptErrorIsFinal(st: Storage, script: seq<Action>, i: nat)
    requires i <= |script| && RunScript(st, script[..i]).Err?
    ensures RunScript(st, script) == RunScript(st, script[..i])
    decreases |script| - i
  {
    if i < |script| {
      assert script[..i + 1][..i] == script[..i];
      ScriptErrorIsFinal(st, script, i + 1);
    } else {
      assert script[..i] == script;
    }
  }

  /** Once a prefix of a version's steps has failed, the version fails with that error. */
  lemma {:induction false} StepsErrorIsFinal(st: Storage, addOns: set<string>, steps: seq<Step>, i: nat)
    requires i <= |steps| && RunSteps(st, addOns, steps[..i]).Err?
    ensures RunSteps(st, addOns, steps) == RunSteps(st, addOns, steps[..i])
    decreases |steps| - i
  {
    if i < |steps| {
      assert steps[..i + 1][..i] == steps[..i];
      StepsErrorIsFinal(st, addOns, steps, i + 1);
    } else {
      assert steps[..i] == steps;
    }
  }
}
