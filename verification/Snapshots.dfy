/** Which state snapshots of an execution log are current: the one-pass selection with a map of the latest
    snapshot of every kind and anchor (classified-workflows/execution-evidence.ts). */
module Snapshots {
  import opened Wrappers

  datatype Kind =
    | GitButlerStatus | GitButlerUncommitted
    | RegistryClaim | RegistryPhase | RegistryCompletion | RegistryTerminal
    | OtherSnapshot(name: string)
  {
    predicate OfRequest() { RegistryClaim? || RegistryPhase? || RegistryCompletion? || RegistryTerminal? }
    predicate Closes() { RegistryCompletion? || RegistryTerminal? }
    predicate Progresses() { RegistryClaim? || RegistryPhase? }
  }

  datatype Marker = Marker(kind: Kind, anchor: Option<string>, scope: string)

  const NO_ANCHOR := "scope"

  /** What the marker parser guarantees: request snapshots are anchored to a request, never to the bare scope. */
  predicate Parsed(m: Marker) {
    m.kind.OfRequest() ==> m.anchor.Some? && m.anchor.value != NO_ANCHOR
  }

  /** Snapshots with the same identity replace each other; a missing anchor is written out as the scope. */
  type Identity = (Kind, string)

  function IdentityOf(m: Marker): Identity {
    (m.kind, if m.anchor.Some? then m.anchor.value else NO_ANCHOR)
  }

  const PROJECTION: Identity := (GitButlerUncommitted, NO_ANCHOR)

  type Log = seq<Option<Marker>>

  predicate InScope(log: Log, scope: string, i: int) {
    0 <= i < |log| && log[i].Some? && log[i].value.scope == scope
  }

  /** A later snapshot of the same kind and anchor. */
  predicate Replaced(log: Log, scope: string, i: int) {
    exists j :: i < j < |log| && InScope(log, scope, i) && InScope(log, scope, j)
      && IdentityOf(log[j].value) == IdentityOf(log[i].value)
  }

  /** A claim or a phase of a request whose completion or terminal snapshot is anywhere in the log. */
  predicate Closed(log: Log, scope: string, i: int) {
    && InScope(log, scope, i) && log[i].value.kind.Progresses()
    && exists j :: 0 <= j < |log| && InScope(log, scope, j) && log[j].value.kind.Closes()
         && log[j].value.anchor == log[i].value.anchor
  }

  /** A projection of uncommitted changes with a full status after it. */
  predicate Outdated(log: Log, scope: string, i: int) {
    && InScope(log, scope, i) && IdentityOf(log[i].value) == PROJECTION
    && exists j :: i < j < |log| && InScope(log, scope, j) && log[j].value.kind.GitButlerStatus?
  }

  predicate Current(log: Log, scope: string, i: int) {
    InScope(log, scope, i) && !Replaced(log, scope, i) && !Closed(log, scope, i) && !Outdated(log, scope, i)
  }

  /** A missing anchor is the anchor written "scope". */
  predicate SameAnchor(a: Option<string>, b: Option<string>) {
    a == b || (a.None? && b == Some("scope")) || (b.None? && a == Some("scope"))
  }

  /** A later snapshot that replaces this one: one of its kind and anchor, or a full status after an unanchored
      projection of uncommitted changes. */
  predicate Overtakes(next: Marker, m: Marker) {
    || (next.kind == m.kind && SameAnchor(next.anchor, m.anchor))
    || (m.kind == GitButlerUncommitted && SameAnchor(m.anchor, None) && next.kind == GitButlerStatus)
  }

  /** A snapshot of the end of the request this one claims or advances. */
  predicate Ends(end: Marker, m: Marker) {
    && (m.kind == RegistryClaim || m.kind == RegistryPhase)
    && (end.kind == RegistryCompletion || end.kind == RegistryTerminal)
    && end.anchor == m.anchor
  }

  /** A snapshot counts exactly when nothing after it in its scope overtakes it and its request, if it claims or
      advances one, has its end nowhere in the scope. */
  lemma CurrentIff(log: Log, scope: string, i: nat)
    requires i < |log| && log[i].Some? && log[i].value.scope == scope
    ensures Current(log, scope, i) <==>
            && (forall j :: i < j < |log| && log[j].Some? && log[j].value.scope == scope ==>
                  !Overtakes(log[j].value, log[i].value))
            && (forall j :: 0 <= j < |log| && log[j].Some? && log[j].value.scope == scope ==>
                  !Ends(log[j].value, log[i].value))
  {
    assert InScope(log, scope, i);
    if Current(log, scope, i) {
      forall j | 0 <= j < |log| && log[j].Some? && log[j].value.scope == scope
        ensures i < j ==> !Overtakes(log[j].value, log[i].value)
        ensures !Ends(log[j].value, log[i].value)
      {
        assert InScope(log, scope, j);
      }
    }
  }

  // ----- one more line -----

  /** Whether one more line makes a current snapshot stale. */
  predicate Stales(old_: Marker, next: Marker) {
    || IdentityOf(old_) == IdentityOf(next)
    || (old_.kind.Progresses() && next.kind.Closes() && old_.anchor == next.anchor)
    || (IdentityOf(old_) == PROJECTION && next.kind.GitButlerStatus?)
  }

  lemma OneMoreLine(log: Log, scope: string, n: nat, i: nat)
    requires i < n < |log|
    ensures Current(log[..n + 1], scope, i) <==>
            Current(log[..n], scope, i) && !(InScope(log, scope, n) && Stales(log[i].value, log[n].value))
  {
    var before, after := log[..n], log[..n + 1];
    assert forall j :: 0 <= j < n ==> after[j] == before[j] == log[j];
    assert InScope(after, scope, i) <==> InScope(before, scope, i);
    if InScope(before, scope, i) {
      assert Replaced(after, scope, i) <==>
          Replaced(before, scope, i)
          || (InScope(log, scope, n) && IdentityOf(log[n].value) == IdentityOf(log[i].value)) by {
        ReplacedByMore(log, scope, n, i);
      }
      ClosedByMore(log, scope, n, i);
      OutdatedByMore(log, scope, n, i);
    }
  }

  lemma ReplacedByMore(log: Log, scope: string, n: nat, i: nat)
    requires i < n < |log| && InScope(log, scope, i)
    ensures Replaced(log[..n + 1], scope, i) <==>
            Replaced(log[..n], scope, i)
            || (InScope(log, scope, n) && IdentityOf(log[n].value) == IdentityOf(log[i].value))
  {
    hide IdentityOf;
    var before, after := log[..n], log[..n + 1];
    assert forall j :: 0 <= j < n ==> after[j] == before[j] == log[j];
    assert after[n] == log[n];
    if Replaced(before, scope, i) {
      var j :| i < j < |before| && InScope(before, scope, i) && InScope(before, scope, j)
        && IdentityOf(before[j].value) == IdentityOf(before[i].value);
      assert InScope(after, scope, j);
    }
    if InScope(log, scope, n) { assert InScope(after, scope, n) && InScope(after, scope, i); }
    if Replaced(after, scope, i) {
      var j :| i < j < |after| && InScope(after, scope, i) && InScope(after, scope, j)
        && IdentityOf(after[j].value) == IdentityOf(after[i].value);
      assert j < n ==> InScope(before, scope, j) && InScope(before, scope, i);
    }
  }

  lemma ClosedByMore(log: Log, scope: string, n: nat, i: nat)
    requires i < n < |log| && InScope(log, scope, i)
    ensures Closed(log[..n + 1], scope, i) <==>
            Closed(log[..n], scope, i)
            || (InScope(log, scope, n) && log[i].value.kind.Progresses() && log[n].value.kind.Closes()
                && log[i].value.anchor == log[n].value.anchor)
  {
    var before, after := log[..n], log[..n + 1];
    assert forall j :: 0 <= j < n ==> after[j] == before[j] == log[j];
    assert after[n] == log[n];
    if Closed(before, scope, i) {
      var j :| 0 <= j < |before| && InScope(before, scope, j) && before[j].value.kind.Closes()
        && before[j].value.anchor == before[i].value.anchor;
      assert InScope(after, scope, j);
    }
    if InScope(log, scope, n) { assert InScope(after, scope, n); }
    if Closed(after, scope, i) {
      var j :| 0 <= j < |after| && InScope(after, scope, j) && after[j].value.kind.Closes()
        && after[j].value.anchor == after[i].value.anchor;
      assert j < n ==> InScope(before, scope, j);
    }
  }

  lemma OutdatedByMore(log: Log, scope: string, n: nat, i: nat)
    requires i < n < |log| && InScope(log, scope, i)
    ensures Outdated(log[..n + 1], scope, i) <==>
            Outdated(log[..n], scope, i)
            || (InScope(log, scope, n) && IdentityOf(log[i].value) == PROJECTION && log[n].value.kind.GitButlerStatus?)
  {
    var before, after := log[..n], log[..n + 1];
    assert forall j :: 0 <= j < n ==> after[j] == before[j] == log[j];
    assert after[n] == log[n];
    if Outdated(before, scope, i) {
      var j :| i < j < |before| && InScope(before, scope, j) && before[j].value.kind.GitButlerStatus?;
      assert InScope(after, scope, j);
    }
    if InScope(log, scope, n) { assert InScope(after, scope, n); }
    if Outdated(after, scope, i) {
      var j :| i < j < |after| && InScope(after, scope, j) && after[j].value.kind.GitButlerStatus?;
      assert j < n ==> InScope(before, scope, j);
    }
  }

  /** The last line of a log is current unless it is a claim or a phase of a request closed before. */
  lemma LastLine(log: Log, scope: string, n: nat, closed: set<string>)
    requires n < |log| && InScope(log, scope, n) && Parsed(log[n].value)
    requires forall a :: a in closed <==> ClosedAnchor(log[..n], scope, a)
    ensures Current(log[..n + 1], scope, n) <==>
            !(log[n].value.kind.Progresses() && log[n].value.anchor.Some? && log[n].value.anchor.value in closed)
  {
    var before, after := log[..n], log[..n + 1];
    assert forall j :: 0 <= j < n ==> after[j] == before[j];
    assert after[n] == log[n];
    if log[n].value.kind.Progresses() {
      var a := log[n].value.anchor.value;
      if ClosedAnchor(before, scope, a) {
        var j :| 0 <= j < |before| && ClosingAt(before, scope, j, a);
        assert InScope(after, scope, j);
      }
      if Closed(after, scope, n) {
        var j :| 0 <= j < |after| && InScope(after, scope, j) && after[j].value.kind.Closes()
          && after[j].value.anchor == Some(a);
        assert ClosingAt(before, scope, j, a);
      }
    }
  }

  predicate ClosingAt(log: Log, scope: string, j: int, anchor: string) {
    InScope(log, scope, j) && log[j].value.kind.Closes() && log[j].value.anchor == Some(anchor)
  }

  predicate ClosedAnchor(log: Log, scope: string, anchor: string) {
    exists j :: 0 <= j < |log| && ClosingAt(log, scope, j, anchor)
  }

  lemma OneMoreAnchor(log: Log, scope: string, n: nat, anchor: string)
    requires n < |log|
    ensures ClosedAnchor(log[..n + 1], scope, anchor) <==>
            ClosedAnchor(log[..n], scope, anchor) || ClosingAt(log, scope, n, anchor)
  {
    var before, after := log[..n], log[..n + 1];
    assert forall j :: 0 <= j < n ==> after[j] == before[j];
    assert after[n] == log[n];
    if ClosedAnchor(before, scope, anchor) {
      var j :| 0 <= j < |before| && ClosingAt(before, scope, j, anchor);
      assert ClosingAt(after, scope, j, anchor);
    }
    if ClosingAt(log, scope, n, anchor) { assert ClosingAt(after, scope, n, anchor); }
    if ClosedAnchor(after, scope, anchor) {
      var j :| 0 <= j < |after| && ClosingAt(after, scope, j, anchor);
      assert j < n ==> ClosingAt(before, scope, j, anchor);
    }
  }

  // ----- the pass -----

  /** The map points at exactly the current snapshots of the lines read, under their identities. */
  ghost predicate Latest(log: Log, scope: string, n: nat, latest: map<Identity, nat>)
    requires n <= |log|
  {
    && (forall k :: k in latest ==>
            latest[k] < n && Current(log[..n], scope, latest[k]) && IdentityOf(log[latest[k]].value) == k)
    && (forall i :: 0 <= i < n && Current(log[..n], scope, i) ==>
          IdentityOf(log[i].value) in latest && latest[IdentityOf(log[i].value)] == i)
  }

  /** The keys a line takes out of the map: its own, a closed request's claim and phase, an outdated projection. */
  predicate Retires(m: Marker, key: Identity) {
    || key == IdentityOf(m)
    || (m.kind.Closes() && m.anchor.Some?
        && (key == (RegistryClaim, m.anchor.value) || key == (RegistryPhase, m.anchor.value)))
    || (m.kind.GitButlerStatus? && key == PROJECTION)
  }

  lemma RetiredAreStale(a: Marker, m: Marker)
    requires Parsed(a) && Parsed(m)
    ensures Stales(a, m) <==> Retires(m, IdentityOf(a))
  {
  }

  /** What the pass has done with the lines read. */
  ghost predicate Passed(
    log: Log, scope: string, n: nat, latest: map<Identity, nat>, closed: set<string>, superseded: set<nat>)
    requires n <= |log|
  {
    && Latest(log, scope, n, latest)
    && (forall a :: a in closed <==> ClosedAnchor(log[..n], scope, a))
    && (forall i :: i in superseded <==> InScope(log[..n], scope, i) && !Current(log[..n], scope, i))
  }

  lemma LineElsewhere(
    log: Log, scope: string, n: nat, latest: map<Identity, nat>, closed: set<string>, superseded: set<nat>)
    requires n < |log| && !InScope(log, scope, n) && Passed(log, scope, n, latest, closed, superseded)
    ensures Passed(log, scope, n + 1, latest, closed, superseded)
  {
    hide Current, Stales, ClosedAnchor;
    forall i | 0 <= i < n
      ensures Current(log[..n + 1], scope, i) <==> Current(log[..n], scope, i)
    {
      OneMoreLine(log, scope, n, i);
    }
    forall a
      ensures ClosedAnchor(log[..n + 1], scope, a) <==> ClosedAnchor(log[..n], scope, a)
    {
      OneMoreAnchor(log, scope, n, a);
    }
    CurrentIsInScope(log[..n + 1], scope, n);
  }

  lemma CurrentIsInScope(log: Log, scope: string, i: int)
    ensures Current(log, scope, i) ==> InScope(log, scope, i)
  {
  }

  /** A claim or a phase of a request closed before is superseded on arrival. */
  lemma LateLine(
    log: Log, scope: string, n: nat, latest: map<Identity, nat>, closed: set<string>, superseded: set<nat>)
    requires n < |log| && InScope(log, scope, n) && Passed(log, scope, n, latest, closed, superseded)
    requires forall i :: 0 <= i < |log| && log[i].Some? ==> Parsed(log[i].value)
    requires log[n].value.kind.Progresses() && log[n].value.anchor.Some? && log[n].value.anchor.value in closed
    ensures Passed(log, scope, n + 1, latest, closed, superseded + {n})
  {
    hide Current, ClosedAnchor, IdentityOf;
    var m := log[n].value;
    forall i | 0 <= i < n
      ensures Current(log[..n + 1], scope, i) <==> Current(log[..n], scope, i)
    {
      OneMoreLine(log, scope, n, i);
      if Current(log[..n], scope, i) { NothingCurrentIsClosed(log, scope, n, i, closed); }
    }
    forall a
      ensures ClosedAnchor(log[..n + 1], scope, a) <==> ClosedAnchor(log[..n], scope, a)
    {
      OneMoreAnchor(log, scope, n, a);
    }
    LastLine(log, scope, n, closed);
    assert InScope(log[..n + 1], scope, n);
  }

  lemma NothingCurrentIsClosed(log: Log, scope: string, n: nat, i: nat, closed: set<string>)
    requires i < n < |log| && InScope(log, scope, n) && Current(log[..n], scope, i)
    requires forall i :: 0 <= i < |log| && log[i].Some? ==> Parsed(log[i].value)
    requires forall a :: a in closed <==> ClosedAnchor(log[..n], scope, a)
    requires log[n].value.kind.Progresses() && log[n].value.anchor.Some? && log[n].value.anchor.value in closed
    ensures !Stales(log[i].value, log[n].value)
  {
    var before := log[..n];
    assert InScope(before, scope, i);
    var a := log[n].value.anchor.value;
    var j :| 0 <= j < |before| && ClosingAt(before, scope, j, a);
    assert log[i].value.kind.Progresses() && log[i].value.anchor == Some(a) ==> Closed(before, scope, i);
  }

  /** Any other line retires what it makes stale and becomes the latest of its identity. */
  lemma LineTaken(
    log: Log, scope: string, n: nat, latest: map<Identity, nat>, closed: set<string>, superseded: set<nat>,
    latest2: map<Identity, nat>, closed2: set<string>, superseded2: set<nat>)
    requires n < |log| && InScope(log, scope, n) && Passed(log, scope, n, latest, closed, superseded)
    requires forall i :: 0 <= i < |log| && log[i].Some? ==> Parsed(log[i].value)
    requires !(log[n].value.kind.Progresses() && log[n].value.anchor.Some? && log[n].value.anchor.value in closed)
    requires var m := log[n].value;
             && closed2 == closed + (if m.kind.Closes() && m.anchor.Some? then {m.anchor.value} else {})
             && (forall k :: k in latest2 <==> k == IdentityOf(m) || (k in latest && !Retires(m, k)))
             && (forall k :: k in latest2 ==> latest2[k] == if k == IdentityOf(m) then n else latest[k])
             && (forall i :: i in superseded2 <==>
                     i in superseded || exists k :: k in latest && Retires(m, k) && latest[k] == i)
    ensures Passed(log, scope, n + 1, latest2, closed2, superseded2)
  {
    hide Current, ClosedAnchor, IdentityOf, Retires, Stales;
    var m := log[n].value;
    assert InScope(log[..n + 1], scope, n);
    assert forall i :: 0 <= i < n ==> (InScope(log[..n], scope, i) <==> InScope(log[..n + 1], scope, i));
    LastLine(log, scope, n, closed);
    forall i | 0 <= i < n
      ensures Current(log[..n + 1], scope, i) <==>
                Current(log[..n], scope, i) && log[i].Some? && !Retires(m, IdentityOf(log[i].value))
    {
      OneMoreLine(log, scope, n, i);
      CurrentIsInScope(log[..n], scope, i);
      CurrentIsInScope(log[..n + 1], scope, i);
      if Current(log[..n], scope, i) || Current(log[..n + 1], scope, i) { RetiredAreStale(log[i].value, m); }
    }
    IdentityRetiresItself(m);
    forall a
      ensures a in closed2 <==> ClosedAnchor(log[..n + 1], scope, a)
    {
      OneMoreAnchor(log, scope, n, a);
    }
    forall i | 0 <= i < n && Current(log[..n + 1], scope, i)
      ensures IdentityOf(log[i].value) in latest2 && latest2[IdentityOf(log[i].value)] == i
    {
      assert Current(log[..n], scope, i);
    }
    forall k | k in latest2
      ensures latest2[k] < n + 1 && Current(log[..n + 1], scope, latest2[k]) && IdentityOf(log[latest2[k]].value) == k
    {
      if k == IdentityOf(m) {
        assert latest2[k] == n;
        assert Current(log[..n + 1], scope, n);
      } else {
        var i := latest[k];
        assert Current(log[..n], scope, i) && i < n && latest2[k] == i;
        CurrentIsInScope(log[..n], scope, i);
        assert Current(log[..n + 1], scope, i);
      }
    }
    forall i
      ensures i in superseded2 <==> InScope(log[..n + 1], scope, i) && !Current(log[..n + 1], scope, i)
    {
      if 0 <= i < n && Current(log[..n], scope, i) {
        CurrentIsInScope(log[..n], scope, i);
        assert latest[IdentityOf(log[i].value)] == i;
      }
    }
  }

  lemma IdentityRetiresItself(m: Marker)
    ensures Retires(m, IdentityOf(m))
  {
  }

  /** One pass with a map of the latest snapshots marks exactly the in-scope snapshots that are not current. */
  method SupersededSnapshots(log: Log, scope: string) returns (superseded: set<nat>)
    requires forall i :: 0 <= i < |log| && log[i].Some? ==> Parsed(log[i].value)
    ensures forall i :: i in superseded <==> InScope(log, scope, i) && !Current(log, scope, i)
  {
    hide Passed, IdentityOf, Current;
    var latest: map<Identity, nat> := map[];
    var closed: set<string> := {};
    superseded := {};
    NothingPassed(log, scope);
    for n := 0 to |log|
      invariant Passed(log, scope, n, latest, closed, superseded)
    {
      if log[n].None? || log[n].value.scope != scope {
        LineElsewhere(log, scope, n, latest, closed, superseded);
        continue;
      }
      var m := log[n].value;
      if m.kind.Progresses() && m.anchor.Some? && m.anchor.value in closed {
        LateLine(log, scope, n, latest, closed, superseded);
        superseded := superseded + {n};
        continue;
      }
      ghost var latest0, closed0, superseded0 := latest, closed, superseded;
      if m.kind.Closes() && m.anchor.Some? {
        closed := closed + {m.anchor.value};
        superseded, latest := Retire(superseded, latest, (RegistryClaim, m.anchor.value));
        superseded, latest := Retire(superseded, latest, (RegistryPhase, m.anchor.value));
      }
      if m.kind.GitButlerStatus? {
        superseded, latest := Retire(superseded, latest, PROJECTION);
      }
      superseded, latest := Retire(superseded, latest, IdentityOf(m));
      latest := latest[IdentityOf(m) := n];
      LineTaken(log, scope, n, latest0, closed0, superseded0, latest, closed, superseded);
    }
    EverythingPassed(log, scope, latest, closed, superseded);
  }

  /** The latest snapshot under a key, if any, is superseded and leaves the map. */
  method Retire(superseded: set<nat>, latest: map<Identity, nat>, key: Identity)
    returns (superseded2: set<nat>, latest2: map<Identity, nat>)
    ensures superseded2 == superseded + if key in latest then {latest[key]} else {}
    ensures latest2 == latest - {key}
  {
    superseded2, latest2 := superseded, latest;
    if key in latest { superseded2 := superseded2 + {latest[key]}; }
    latest2 := latest2 - {key};
  }

  lemma NothingPassed(log: Log, scope: string)
    ensures Passed(log, scope, 0, map[], {}, {})
  {
  }

  lemma EverythingPassed(log: Log, scope: string, latest: map<Identity, nat>, closed: set<string>, superseded: set<nat>)
    requires Passed(log, scope, |log|, latest, closed, superseded)
    ensures forall i :: i in superseded <==> InScope(log, scope, i) && !Current(log, scope, i)
  {
    assert log[..|log|] == log;
  }
}
