/** Which lines of an execution log still count as evidence: failures a later success cleared, and snapshots a
    later one replaced (classified-workflows/execution-evidence.ts). Log lines are taken as parsed. */
module Evidence {
  import opened Wrappers

  // ----- what one verification covers of another -----

  datatype CheckKind = CargoTest | CargoClippy
  datatype Packages = Workspace | Named(names: seq<string>)
  datatype Targets = AllTargets | DefaultTargets | Lib | CustomTargets(name: string)
  datatype Features = AllFeatures | DefaultFeatures | CustomFeatures(name: string)

  datatype Descriptor = Descriptor(
    kind: CheckKind, packages: Packages, targets: Targets, features: Features, focus: seq<string>, scope: string)

  predicate PackagesCover(successful: Packages, failed: Packages) {
    if successful.Workspace? then true
    else if failed.Workspace? then false
    else forall name :: name in failed.names ==> name in successful.names
  }

  predicate FocusCovers(successful: seq<string>, failed: seq<string>) {
    if |failed| == 0 then |successful| == 0
    else if |successful| == 0 then true
    else forall term :: term in failed ==> term in successful
  }

  predicate TargetsInclude(successful: Targets, failed: Targets) {
    if successful.AllTargets? then true
    else if failed.AllTargets? then false
    else if failed.CustomTargets? then successful == failed
    else if failed.DefaultTargets? then successful.DefaultTargets?
    else successful.Lib? || successful.DefaultTargets?
  }

  predicate Covers(successful: Descriptor, failed: Descriptor) {
    && successful.scope == failed.scope
    && successful.kind == failed.kind
    && PackagesCover(successful.packages, failed.packages)
    && TargetsInclude(successful.targets, failed.targets)
    && successful.features == failed.features
    && FocusCovers(successful.focus, failed.focus)
  }

  /** One check a cargo run may make: a unit of a target in a package, in a directory, under a feature set. */
  datatype Check = Check(kind: CheckKind, scope: string, features: Features, package: string, unit: nat, name: string)

  /** What cargo does with targets and filter terms, left open but for the library being a default target. */
  datatype Cargo = Cargo(library: set<nat>, defaults: set<nat>, custom: string -> set<nat>,
    matches: (string, string) -> bool) {
    ghost predicate Valid() { library <= defaults }

    ghost predicate Makes(targets: Targets, unit: nat) {
      match targets
      case AllTargets => true
      case DefaultTargets => unit in defaults
      case Lib => unit in library
      case CustomTargets(name) => unit in custom(name)
    }

    ghost predicate Runs(d: Descriptor, c: Check) {
      && c.kind == d.kind && c.scope == d.scope && c.features == d.features
      && (d.packages.Workspace? || c.package in d.packages.names)
      && Makes(d.targets, c.unit)
      && (|d.focus| == 0 || exists i :: 0 <= i < |d.focus| && matches(d.focus[i], c.name))
    }
  }

  /** Covering is sound: the covering run makes every check the covered one makes, whatever cargo's targets are. */
  lemma CoveringRunsASuperset(cargo: Cargo, successful: Descriptor, failed: Descriptor, c: Check)
    requires cargo.Valid() && Covers(successful, failed) && cargo.Runs(failed, c)
    ensures cargo.Runs(successful, c)
  {
    if |successful.focus| > 0 {
      var i :| 0 <= i < |failed.focus| && cargo.matches(failed.focus[i], c.name);
      assert failed.focus[i] in successful.focus;
      var j :| 0 <= j < |successful.focus| && successful.focus[j] == failed.focus[i];
    }
  }

  function Longest(names: seq<string>): nat {
    if names == [] then 0
    else if |names[0]| >= Longest(names[1..]) then |names[0]| else Longest(names[1..])
  }

  lemma {:induction false} LongestIsLongest(names: seq<string>, name: string)
    requires name in names
    ensures |name| <= Longest(names)
  {
    if name != names[0] { LongestIsLongest(names[1..], name); }
  }

  /** A package that the failed run checks and, if it can be, the successful one does not. */
  lemma MissedPackage(successful: Packages, failed: Packages) returns (name: string)
    requires failed.Named? ==> failed.names != []
    ensures failed.Workspace? || name in failed.names
    ensures !PackagesCover(successful, failed) ==> successful.Named? && name !in successful.names
  {
    name := "";
    if failed.Named? {
      name := failed.names[0];
      if n :| n in failed.names && successful.Named? && n !in successful.names { name := n; }
    } else if successful.Named? {
      name := seq(Longest(successful.names) + 1, _ => 'x');
      if name in successful.names { LongestIsLongest(successful.names, name); }
    }
  }

  /** Targets of which the failed run makes unit 1 and, if it can be, the successful one does not. */
  lemma MissedUnit(successful: Targets, failed: Targets) returns (cargo: Cargo)
    ensures cargo.Valid() && cargo.matches == ((_, _) => true)
    ensures cargo.Makes(failed, 1)
    ensures !TargetsInclude(successful, failed) ==> !cargo.Makes(successful, 1)
  {
    var nobody: string -> set<nat> := _ => {};
    var everybody: string -> set<nat> := _ => {1};
    var both: (string, string) -> bool := (_, _) => true;
    if TargetsInclude(successful, failed) {
      cargo := Cargo({1}, {1}, everybody, both);
    } else {
      match failed
      case AllTargets => cargo := Cargo({}, {}, nobody, both);
      case CustomTargets(n) => cargo := Cargo({}, {}, m => if m == n then {1} else {}, both);
      case DefaultTargets => cargo := Cargo({}, {1}, nobody, both);
      case Lib => cargo := Cargo({1}, {1}, nobody, both);
    }
  }

  /** Filter terms of which the failed run matches every name and, if it can be, the successful one matches none. */
  lemma MissedTerm(successful: seq<string>, failed: seq<string>) returns (matches: (string, string) -> bool)
    ensures |failed| == 0 || exists i :: 0 <= i < |failed| && matches(failed[i], "")
    ensures !FocusCovers(successful, failed) ==>
              |successful| > 0 && forall i :: 0 <= i < |successful| ==> !matches(successful[i], "")
  {
    matches := (_, _) => false;
    if |failed| > 0 {
      var term := failed[0];
      if t :| t in failed && t !in successful { term := t; }
      matches := (t, _) => t == term;
      var i :| 0 <= i < |failed| && failed[i] == term;
      assert matches(failed[i], "");
    }
  }

  /** Covering is complete: where it says no, targets may lie so that the covered run makes a check the other misses.
      Only a run that names no package would make none at all, and a parsed verification names one. */
  lemma NotCoveringMissesACheck(successful: Descriptor, failed: Descriptor) returns (cargo: Cargo, c: Check)
    requires !Covers(successful, failed) && (failed.packages.Named? ==> failed.packages.names != [])
    ensures cargo.Valid() && cargo.Runs(failed, c) && !cargo.Runs(successful, c)
  {
    hide PackagesCover, TargetsInclude, FocusCovers;
    var package := MissedPackage(successful.packages, failed.packages);
    cargo := MissedUnit(successful.targets, failed.targets);
    var matches := MissedTerm(successful.focus, failed.focus);
    cargo := cargo.(matches := matches);
    c := Check(failed.kind, failed.scope, failed.features, package, 1, "");
  }

  /** The one run makes every check of the other, wherever cargo's targets lie. */
  ghost predicate ChecksAll(successful: Descriptor, failed: Descriptor) {
    forall cargo: Cargo, c: Check :: cargo.Valid() && cargo.Runs(failed, c) ==> cargo.Runs(successful, c)
  }

  /** So covering is making every check. */
  lemma CoversIffChecksAll(successful: Descriptor, failed: Descriptor)
    requires failed.packages.Named? ==> failed.packages.names != []
    ensures Covers(successful, failed) <==> ChecksAll(successful, failed)
  {
    hide Covers, Cargo.Runs;
    if Covers(successful, failed) {
      forall cargo: Cargo, c: Check | cargo.Valid() && cargo.Runs(failed, c)
        ensures cargo.Runs(successful, c)
      {
        CoveringRunsASuperset(cargo, successful, failed, c);
      }
    } else {
      var cargo, c := NotCoveringMissesACheck(successful, failed);
    }
  }

  /** Covering is a preorder. */
  lemma CoversIsAPreorder(a: Descriptor, b: Descriptor, c: Descriptor)
    ensures Covers(a, a)
    ensures Covers(a, b) && Covers(b, c) ==> Covers(a, c)
  {
  }

  // ----- failures a later success cleared -----

  const EVERYWHERE := "*"

  datatype Verdict = Verdict(success: bool, digest: string, scope: string, verification: Option<Descriptor>)

  /** A parsed log line: the scope it successfully changed, and its verdict if it has an input and a scope. */
  datatype Line = Line(mutation: Option<string>, verdict: Option<Verdict>)

  predicate Succeeded(log: seq<Line>, j: int) {
    0 <= j < |log| && log[j].verdict.Some? && log[j].verdict.value.success
  }

  predicate Erred(log: seq<Line>, i: int) {
    0 <= i < |log| && log[i].verdict.Some? && !log[i].verdict.value.success
  }

  /** Something was changed in the scope, or nobody knows where, at or after a line. */
  predicate ChangedSince(log: seq<Line>, j: int, scope: string)
    requires 0 <= j
  {
    exists m :: j <= m < |log| && (log[m].mutation == Some(EVERYWHERE) || log[m].mutation == Some(scope))
  }

  /** The success speaks for the failure: the same input in the same scope, or a covering verification. */
  predicate Clears(success: Verdict, failure: Verdict) {
    || (success.digest == failure.digest && success.scope == failure.scope)
    || (success.verification.Some? && failure.verification.Some?
        && Covers(success.verification.value, failure.verification.value))
  }

  predicate ClearedBy(log: seq<Line>, i: int, j: int) {
    && 0 <= i < j && Succeeded(log, j) && Erred(log, i)
    && !ChangedSince(log, j, log[j].verdict.value.scope)
    && Clears(log[j].verdict.value, log[i].verdict.value)
  }

  predicate Superseded(log: seq<Line>, i: int) {
    exists j :: i < j < |log| && ClearedBy(log, i, j)
  }

  /** A success that still stands: nothing was changed in its scope since. */
  predicate Stands(log: seq<Line>, j: int) {
    0 <= j && Succeeded(log, j) && !ChangedSince(log, j, log[j].verdict.value.scope)
  }

  function Input(v: Verdict): (string, string) { (v.digest, v.scope) }

  /** The scan's memory: the inputs and the verifications of the standing successes from a line on. */
  ghost predicate Remembered(log: seq<Line>, from: int, inputs: set<(string, string)>, verifications: seq<Descriptor>) {
    && (forall j :: from <= j < |log| && Stands(log, j) ==>
          && Input(log[j].verdict.value) in inputs
          && (log[j].verdict.value.verification.Some? ==> log[j].verdict.value.verification.value in verifications))
    && (forall p :: p in inputs ==> exists j :: from <= j < |log| && Stands(log, j) && p == Input(log[j].verdict.value))
    && (forall d :: d in verifications ==>
          exists j :: from <= j < |log| && Stands(log, j) && log[j].verdict.value.verification == Some(d))
  }

  lemma ForgettingNothing(log: seq<Line>, from: nat, inputs: set<(string, string)>, verifications: seq<Descriptor>)
    requires from < |log| && Remembered(log, from + 1, inputs, verifications) && !Stands(log, from)
    ensures Remembered(log, from, inputs, verifications)
  {
    forall p | p in inputs
      ensures exists j :: from <= j < |log| && Stands(log, j) && p == Input(log[j].verdict.value)
    {
      var j :| from + 1 <= j < |log| && Stands(log, j) && p == Input(log[j].verdict.value);
    }
    forall d | d in verifications
      ensures exists j :: from <= j < |log| && Stands(log, j) && log[j].verdict.value.verification == Some(d)
    {
      var j :| from + 1 <= j < |log| && Stands(log, j) && log[j].verdict.value.verification == Some(d);
    }
  }

  lemma RememberingOneMore(log: seq<Line>, from: nat, inputs: set<(string, string)>, verifications: seq<Descriptor>)
    requires from < |log| && Remembered(log, from + 1, inputs, verifications) && Stands(log, from)
    ensures var v := log[from].verdict.value;
            Remembered(log, from, inputs + {Input(v)},
                       verifications + if v.verification.Some? then [v.verification.value] else [])
  {
    assert Succeeded(log, from);
    var v := log[from].verdict.value;
    var inputs2 := inputs + {Input(v)};
    var verifications2 := verifications + if v.verification.Some? then [v.verification.value] else [];
    hide Stands;
    forall p | p in inputs2
      ensures exists j :: from <= j < |log| && Stands(log, j) && p == Input(log[j].verdict.value)
    {
      if p in inputs { var j :| from + 1 <= j < |log| && Stands(log, j) && p == Input(log[j].verdict.value); }
    }
    forall d | d in verifications2
      ensures exists j :: from <= j < |log| && Stands(log, j) && log[j].verdict.value.verification == Some(d)
    {
      if d in verifications {
        var j :| from + 1 <= j < |log| && Stands(log, j) && log[j].verdict.value.verification == Some(d);
      }
    }
  }

  /** The memory decides: a failure is superseded exactly when a remembered success speaks for it. */
  lemma MemoryDecides(log: seq<Line>, i: nat, inputs: set<(string, string)>, verifications: seq<Descriptor>)
    requires i < |log| && Erred(log, i) && Remembered(log, i + 1, inputs, verifications)
    ensures var v := log[i].verdict.value;
            Superseded(log, i) <==>
              Input(v) in inputs
              || (v.verification.Some? && exists d :: d in verifications && Covers(d, v.verification.value))
  {
    hide Covers, ChangedSince;
    var v := log[i].verdict.value;
    if Superseded(log, i) {
      var j :| i < j < |log| && ClearedBy(log, i, j);
      assert Stands(log, j);
    }
    if Input(v) in inputs {
      var j :| i + 1 <= j < |log| && Stands(log, j) && Input(v) == Input(log[j].verdict.value);
      assert ClearedBy(log, i, j);
    }
    if v.verification.Some? {
      if d :| d in verifications && Covers(d, v.verification.value) {
        var j :| i + 1 <= j < |log| && Stands(log, j) && log[j].verdict.value.verification == Some(d);
        assert ClearedBy(log, i, j);
      }
    }
  }

  lemma OnlyFailuresAreSuperseded(log: seq<Line>, i: nat)
    requires i < |log| && !Erred(log, i)
    ensures !Superseded(log, i)
  {
  }

  /** One backward scan with a few sets finds exactly the failures that a later, still standing success clears. */
  method SupersededFailures(log: seq<Line>) returns (superseded: set<nat>)
    ensures forall i :: i in superseded <==> 0 <= i < |log| && Superseded(log, i)
  {
    hide Superseded, Remembered, Covers;
    var inputs: set<(string, string)> := {};
    var verifications: seq<Descriptor> := [];
    var mutated: set<string> := {};
    superseded := {};
    var index := |log|;
    NothingRemembered(log);
    while index > 0
      invariant 0 <= index <= |log|
      invariant forall s :: s in mutated <==> exists m :: index <= m < |log| && log[m].mutation == Some(s)
      invariant Remembered(log, index, inputs, verifications)
      invariant forall i :: i in superseded <==> index <= i < |log| && Superseded(log, i)
    {
      index := index - 1;
      var line := log[index];
      if line.mutation.Some? { mutated := mutated + {line.mutation.value}; }
      var success := line.verdict.Some? && line.verdict.value.success;
      var failure := line.verdict.Some? && !line.verdict.value.success;
      if !failure { OnlyFailuresAreSuperseded(log, index); }
      if success && EVERYWHERE !in mutated && line.verdict.value.scope !in mutated {
        var v := line.verdict.value;
        RememberingOneMore(log, index, inputs, verifications);
        inputs := inputs + {Input(v)};
        verifications := verifications + if v.verification.Some? then [v.verification.value] else [];
      } else {
        ForgettingNothing(log, index, inputs, verifications);
      }
      if failure {
        var v := line.verdict.value;
        MemoryDecides(log, index, inputs, verifications);
        if Input(v) in inputs
           || (v.verification.Some? && exists d :: d in verifications && Covers(d, v.verification.value)) {
          superseded := superseded + {index};
        }
      }
    }
  }

  lemma NothingRemembered(log: seq<Line>)
    ensures Remembered(log, |log|, {}, [])
  {
  }

  /** Every parsed verification names a package or the whole workspace. */
  predicate NamesPackages(v: Verdict) {
    v.verification.Some? && v.verification.value.packages.Named? ==> v.verification.value.packages.names != []
  }

  /** A later success whose scope was left alone since - it may be changed on no line from the success on, nor may
      anything be changed in an unknown place - and which was given the same input in the same scope or makes every
      check of the failed run. */
  ghost predicate MadeGood(log: seq<Line>, failure: Verdict, j: nat)
    requires j < |log|
  {
    && log[j].verdict.Some? && log[j].verdict.value.success
    && (forall m :: j <= m < |log| && log[m].mutation.Some? ==>
          log[m].mutation.value != "*" && log[m].mutation.value != log[j].verdict.value.scope)
    && var success := log[j].verdict.value;
       || (success.digest == failure.digest && success.scope == failure.scope)
       || (success.verification.Some? && failure.verification.Some?
           && ChecksAll(success.verification.value, failure.verification.value))
  }

  /** A failure no longer counts exactly when it was made good later. */
  lemma SupersededIffMadeGood(log: seq<Line>, i: nat)
    requires i < |log| && log[i].verdict.Some? && !log[i].verdict.value.success && NamesPackages(log[i].verdict.value)
    ensures Superseded(log, i) <==> exists j :: i < j < |log| && MadeGood(log, log[i].verdict.value, j)
  {
    hide Covers, ChecksAll;
    forall j | i < j < |log|
      ensures ClearedBy(log, i, j) <==> MadeGood(log, log[i].verdict.value, j)
    {
      if log[j].verdict.Some? && log[j].verdict.value.verification.Some? && log[i].verdict.value.verification.Some? {
        CoversIffChecksAll(log[j].verdict.value.verification.value, log[i].verdict.value.verification.value);
      }
    }
  }

  predicate SameInput(a: Line, b: Line) {
    a.verdict.Some? && b.verdict.Some? && Input(a.verdict.value) == Input(b.verdict.value)
  }

  /** The check a line names is a function of its input and its scope. */
  predicate InputsNameChecks(log: seq<Line>) {
    forall i, j :: 0 <= i < |log| && 0 <= j < |log| && SameInput(log[i], log[j]) ==>
      log[i].verdict.value.verification == log[j].verdict.value.verification
  }

  /** A success that clears a failure, by the same input or by covering it, also clears every failure before it that is
      covered by the cleared one. */
  lemma NarrowerFailuresAreClearedToo(log: seq<Line>, i: nat, wider: nat, j: nat)
    requires InputsNameChecks(log) && ClearedBy(log, wider, j) && j < |log|
    requires i < j && Erred(log, i) && log[i].verdict.value.verification.Some?
    requires log[wider].verdict.value.verification.Some?
    requires Covers(log[wider].verdict.value.verification.value, log[i].verdict.value.verification.value)
    ensures Superseded(log, i)
  {
    var success, cleared, narrower := log[j].verdict.value, log[wider].verdict.value, log[i].verdict.value;
    if SameInput(log[j], log[wider]) {
      assert success.verification == cleared.verification;
    } else {
      CoversIsAPreorder(success.verification.value, cleared.verification.value, narrower.verification.value);
    }
    hide Covers, ChangedSince;
    assert ClearedBy(log, i, j);
  }
}
