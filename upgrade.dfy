/**
 * The version loop of `onUpgrade` as a function of the `when` table, the
 * starting storage, the active add-ons and the version range, with the
 * transaction brackets it opens and closes, and what holds of it for every
 * table.
 */
module Upgrade {
  import opened Wrappers
  import opened Schema
  import opened MigrationScript

  /** The `when (version)` dispatch: the steps of each version key. */
  type Migrations = int -> seq<Step>

  /** The body of one iteration: the `when` branch for `version`. */
  function RunVersion(steps: Migrations, st: Storage, addOns: set<string>, version: int): Result<Storage, SqlError> {
    RunSteps(st, addOns, steps(version))
  }

  /**
   * How an upgrade ends: every version committed, or a statement failed in
   * `version`, whose transaction is then not committed, so the storage is the
   * one the previous versions committed.
   */
  datatype UpgradeOutcome =
    | Upgraded(state: Storage)
    | Aborted(version: int, error: SqlError, committed: Storage)
  {
    function Final(): Storage {
      match this
      case Upgraded(s) => s
      case Aborted(_, _, c) => c
    }
  }

  /** `for (version in lo..hi)`: every version of the range, in increasing order. */
  function Run(steps: Migrations, st: Storage, addOns: set<string>, lo: int, hi: int): UpgradeOutcome
    decreases hi - lo
  {
    if hi < lo then Upgraded(st)
    else
      match Run(steps, st, addOns, lo, hi - 1)
      case Aborted(v, e, c) => Aborted(v, e, c)
      case Upgraded(s) =>
        match RunVersion(steps, s, addOns, hi)
        case Ok(s') => Upgraded(s')
        case Err(e) => Aborted(hi, e, s)
  }

  /** Continues an upgrade that has not failed with the versions `lo..hi`. */
  function Then(r: UpgradeOutcome, steps: Migrations, addOns: set<string>, lo: int, hi: int): UpgradeOutcome {
    match r
    case Upgraded(s) => Run(steps, s, addOns, lo, hi)
    case Aborted(_, _, _) => r
  }

  /**
   * Upgrading through `[a, b]` and then `[b + 1, c]` is the same as upgrading
   * through `[a, c]`: each version depends only on the storage and the add-ons.
   */
  lemma {:induction false} RunSplit(steps: Migrations, st: Storage, addOns: set<string>, a: int, b: int, c: int)
    requires a - 1 <= b <= c
    ensures Run(steps, st, addOns, a, c) == Then(Run(steps, st, addOns, a, b), steps, addOns, b + 1, c)
    decreases c - b
  {
    if b < c {
      RunSplit(steps, st, addOns, a, b, c - 1);
      match Run(steps, st, addOns, a, b)
      case Upgraded(s) =>
        assert Run(steps, st, addOns, a, c - 1) == Run(steps, s, addOns, b + 1, c - 1);
      case Aborted(_, _, _) =>
    }
  }

  /**
   * A failed upgrade failed inside the range, at a version reached with every
   * earlier version committed; the storage it reports is the one committed
   * before that version's transaction began.
   */
  lemma {:induction false} AbortIsAtomic(steps: Migrations, st: Storage, addOns: set<string>, lo: int, hi: int)
    requires Run(steps, st, addOns, lo, hi).Aborted?
    ensures lo <= Run(steps, st, addOns, lo, hi).version <= hi
    ensures Run(steps, st, addOns, lo, Run(steps, st, addOns, lo, hi).version - 1)
      == Upgraded(Run(steps, st, addOns, lo, hi).committed)
    ensures RunVersion(steps, Run(steps, st, addOns, lo, hi).committed, addOns, Run(steps, st, addOns, lo, hi).version)
      == Err(Run(steps, st, addOns, lo, hi).error)
    decreases hi - lo
  {
    if Run(steps, st, addOns, lo, hi - 1).Aborted? {
      AbortIsAtomic(steps, st, addOns, lo, hi - 1);
    }
  }

  /** An upgrade of well-formed tables, complete or not, leaves them well formed. */
  lemma {:induction false} RunPreservesWellFormed(steps: Migrations, st: Storage, addOns: set<string>, lo: int, hi: int)
    requires WellFormed(st.tables)
    ensures WellFormed(Run(steps, st, addOns, lo, hi).Final().tables)
    decreases hi - lo
  {
    if lo <= hi {
      RunPreservesWellFormed(steps, st, addOns, lo, hi - 1);
      match Run(steps, st, addOns, lo, hi - 1)
      case Upgraded(s) =>
        if RunVersion(steps, s, addOns, hi).Ok? {
          RunStepsPreservesWellFormed(s, addOns, steps(hi));
        }
      case Aborted(_, _, _) =>
    }
  }

  /** A visited version without a branch in the `when` changes nothing. */
  lemma VersionWithoutStepsIsNoOp(steps: Migrations, st: Storage, addOns: set<string>, lo: int, hi: int)
    requires lo <= hi && steps(hi) == []
    ensures Run(steps, st, addOns, lo, hi) == Run(steps, st, addOns, lo, hi - 1)
  {
    match Run(steps, st, addOns, lo, hi - 1)
    case Upgraded(s) =>
      assert RunVersion(steps, s, addOns, hi) == Ok(s);
    case Aborted(_, _, _) =>
  }

  predicate AllGatedBy(steps: seq<Step>, addOn: string) {
    forall i :: 0 <= i < |steps| ==> steps[i].addOn == Some(addOn)
  }

  /** Steps that all need an inactive add-on change nothing. */
  lemma {:induction false} InactiveStepsAreNoOps(st: Storage, addOns: set<string>, steps: seq<Step>, addOn: string)
    requires addOn !in addOns && AllGatedBy(steps, addOn)
    ensures RunSteps(st, addOns, steps) == Ok(st)
    decreases |steps|
  {
    if steps != [] {
      InactiveStepsAreNoOps(st, addOns, steps[..|steps| - 1], addOn);
    }
  }

  /**
   * A version whose steps all belong to an inactive add-on is visited without
   * effect: skipping it gives the same upgrade.
   */
  lemma InactiveVersionIsSkipped(steps: Migrations, st: Storage, addOns: set<string>, addOn: string, lo: int, v: int, hi: int)
    requires lo <= v <= hi
    requires addOn !in addOns && AllGatedBy(steps(v), addOn)
    ensures Run(steps, st, addOns, lo, hi) ==
      Then(Run(steps, st, addOns, lo, v - 1), steps, addOns, v + 1, hi)
  {
    RunSplit(steps, st, addOns, lo, v - 1, hi);
    var r := Run(steps, st, addOns, lo, v - 1);
    if r.Upgraded? {
      RunSplit(steps, r.state, addOns, v, v, hi);
      InactiveStepsAreNoOps(r.state, addOns, steps(v), addOn);
      assert Run(steps, r.state, addOns, v, v - 1) == Upgraded(r.state);
      assert Run(steps, r.state, addOns, v, v) == Upgraded(r.state);
    }
  }

  /** The transaction calls made around each visited version. */
  datatype TxEvent =
    | BeginTransaction(version: int)
    | SetTransactionSuccessful(version: int)
    | EndTransaction(version: int)

  /** The brackets of the versions `lo..hi`, all committed. */
  function Brackets(lo: int, hi: int): seq<TxEvent>
    decreases hi - lo
  {
    if hi < lo then []
    else Brackets(lo, hi - 1) + [BeginTransaction(hi), SetTransactionSuccessful(hi), EndTransaction(hi)]
  }

  /**
   * The calls an upgrade makes: full brackets for every committed version and,
   * when a statement fails, a begin without a commit for the failing version.
   */
  function Journal(lo: int, hi: int, outcome: UpgradeOutcome): seq<TxEvent> {
    match outcome
    case Upgraded(_) => Brackets(lo, hi)
    case Aborted(v, _, _) => Brackets(lo, v - 1) + [BeginTransaction(v)]
  }

  /**
   * Every version of the range gets exactly one bracket, in increasing order:
   * begin, mark successful, end.
   */
  lemma {:induction false} BracketsVisitEachVersionOnce(lo: int, hi: int)
    requires lo <= hi + 1
    ensures |Brackets(lo, hi)| == 3 * (hi - lo + 1)
    ensures forall k :: 0 <= k <= hi - lo ==>
      (Brackets(lo, hi)[3 * k] == BeginTransaction(lo + k) &&
       Brackets(lo, hi)[3 * k + 1] == SetTransactionSuccessful(lo + k) &&
       Brackets(lo, hi)[3 * k + 2] == EndTransaction(lo + k))
    decreases hi - lo
  {
    if lo <= hi {
      BracketsVisitEachVersionOnce(lo, hi - 1);
      var prev := Brackets(lo, hi - 1);
      assert Brackets(lo, hi) == prev + [BeginTransaction(hi), SetTransactionSuccessful(hi), EndTransaction(hi)];
      forall k | 0 <= k <= hi - lo
        ensures Brackets(lo, hi)[3 * k] == BeginTransaction(lo + k)
        ensures Brackets(lo, hi)[3 * k + 1] == SetTransactionSuccessful(lo + k)
        ensures Brackets(lo, hi)[3 * k + 2] == EndTransaction(lo + k)
      {
        if k < hi - lo {
          assert Brackets(lo, hi)[3 * k] == prev[3 * k];
          assert Brackets(lo, hi)[3 * k + 1] == prev[3 * k + 1];
          assert Brackets(lo, hi)[3 * k + 2] == prev[3 * k + 2];
        }
      }
    }
  }
}
