/** Runtime agent identifiers: a session id, a marker and a process id (runtime-identity.ts). */
module RuntimeIdentity {
  import opened Wrappers
  import opened Texts

  const PID_MARKER: Text := Ascii(":pid:")
  const MAX_SAFE_INTEGER := 9007199254740991

  datatype Identity = Identity(sessionId: Text, pid: nat)

  function RuntimeAgentId(sessionId: Text, pid: nat): Text {
    sessionId + PID_MARKER + Decimal(pid)
  }

  predicate MarkerAt(t: Text, i: int) {
    0 <= i && i + 5 <= |t| && t[i..i + 5] == PID_MARKER
  }

  /** String.prototype.lastIndexOf, searching from position i downwards. */
  function LastMarker(t: Text, i: int): (r: int)
    requires i <= |t|
    ensures r < 0 ==> forall j :: 0 <= j <= i ==> !MarkerAt(t, j)
    ensures r >= 0 ==> r <= i && MarkerAt(t, r) && forall j :: r < j <= i ==> !MarkerAt(t, j)
    decreases i + 1
  {
    if i < 0 then -1 else if MarkerAt(t, i) then i else LastMarker(t, i - 1)
  }

  predicate IsPidText(t: Text) {
    t != [] && t[0] != 48 && forall i :: 0 <= i < |t| ==> IsDigitUnit(t[i])
  }

  function Parse(agentId: Text): Option<Identity> {
    var marker := LastMarker(agentId, |agentId|);
    if marker <= 0 then None
    else
      var pidText := agentId[marker + 5..];
      if !IsPidText(pidText) || DecimalValue(pidText) > MAX_SAFE_INTEGER then None
      else Some(Identity(agentId[..marker], DecimalValue(pidText)))
  }

  predicate SameRuntimeSession(left: Text, right: Text) {
    || left == right
    || (Parse(left).Some? && Parse(right).Some?
        && Parse(left).value.sessionId == Parse(right).value.sessionId)
  }

  lemma {:induction false} DecimalHead(n: nat)
    requires n > 0
    ensures Decimal(n)[0] != 48
  {
    if n >= 10 { DecimalHead(n / 10); }
  }

  lemma {:induction false} NumeralIsCanonical(t: Text)
    requires IsPidText(t)
    ensures DecimalValue(t) > 0 && Decimal(DecimalValue(t)) == t
  {
    var front := t[..|t| - 1];
    if |t| == 1 {
      assert front == [];
    } else {
      NumeralIsCanonical(front);
      assert IsDigitUnit(t[|t| - 1]);
      assert t == front + [t[|t| - 1]];
    }
  }

  lemma MarkerIsLast(sessionId: Text, digits: Text)
    requires forall i :: 0 <= i < |digits| ==> IsDigitUnit(digits[i])
    ensures LastMarker(sessionId + PID_MARKER + digits, |sessionId + PID_MARKER + digits|) == |sessionId|
  {
    var t := sessionId + PID_MARKER + digits;
    assert t[|sessionId|..|sessionId| + 5] == PID_MARKER;
    assert MarkerAt(t, |sessionId|);
    assert PID_MARKER[4] == COLON;
    forall j | |sessionId| < j && j + 5 <= |t|
      ensures !MarkerAt(t, j)
    {
      assert t[j..j + 5][4] == t[j + 4] == digits[j + 4 - |sessionId| - 5];
    }
  }

  /** Parsing undoes printing for every session and every process id the parser can represent. */
  lemma ParsePrinted(sessionId: Text, pid: nat)
    ensures Parse(RuntimeAgentId(sessionId, pid)) ==
            if sessionId != [] && 0 < pid <= MAX_SAFE_INTEGER then Some(Identity(sessionId, pid)) else None
  {
    var t := RuntimeAgentId(sessionId, pid);
    MarkerIsLast(sessionId, Decimal(pid));
    assert t[|sessionId| + 5..] == Decimal(pid) && t[..|sessionId|] == sessionId;
    DecimalRoundTrip(pid);
    if pid > 0 { DecimalHead(pid); }
  }

  /** Printing undoes parsing: only printed identifiers parse. */
  lemma PrintParsed(agentId: Text)
    requires Parse(agentId).Some?
    ensures var p := Parse(agentId).value;
            p.sessionId != [] && p.pid > 0 && RuntimeAgentId(p.sessionId, p.pid) == agentId
  {
    var marker := LastMarker(agentId, |agentId|);
    NumeralIsCanonical(agentId[marker + 5..]);
    assert agentId == agentId[..marker] + agentId[marker..marker + 5] + agentId[marker + 5..];
  }

  /** Belonging to one session is an equivalence on printed identifiers: exactly the same session. */
  lemma SameSessionOnPrinted(a: Text, p: nat, b: Text, q: nat)
    requires a != [] && b != [] && 0 < p <= MAX_SAFE_INTEGER && 0 < q <= MAX_SAFE_INTEGER
    ensures SameRuntimeSession(RuntimeAgentId(a, p), RuntimeAgentId(b, q)) <==> a == b
  {
    ParsePrinted(a, p);
    ParsePrinted(b, q);
  }
}
