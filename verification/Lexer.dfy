/** The literal-word lexer and the masker of arguments that are no paths 
    (classified-workflows/non-path-arguments.ts). */
module Lexer {
  import opened Wrappers
  import opened Texts

  datatype Word = Word(raw: Text, value: Text, quoted: bool)

  const SINGLE: CodeUnit := 39
  const DOUBLE: CodeUnit := 34
  const DASH: CodeUnit := 45
  const MASK: Text := Ascii("NON_PATH_LITERAL")

  predicate Blank(u: CodeUnit) { u == 32 || u == 9 }
  predicate Quote(u: CodeUnit) { u == SINGLE || u == DOUBLE }

  /** What a quoted word may not contain: control characters and, in double quotes, anything that expands. */
  predicate BadQuoted(u: CodeUnit, quote: CodeUnit) {
    IsUnsafeControl(u) || (quote == DOUBLE && (u == 36 || u == 96 || u == 92))
  }

  /** What a bare word may not contain: white space, control characters and every shell metacharacter. */
  predicate BadBare(u: CodeUnit) {
    || IsSpace(u) || u <= 31 || u == 127
    || u == 39 || u == 34 || u == 35 || u == 59 || u == 38 || u == 124 || u == 60 || u == 62 || u == 96 || u == 36
    || u == 92 || u == 40 || u == 41 || u == 123 || u == 125 || u == 91 || u == 93 || u == 42 || u == 63
  }

  // ----- one word -----

  function QuoteEnd(t: Text, quote: CodeUnit, i: nat): Option<nat>
    requires i <= |t|
    decreases |t| - i
  {
    if i == |t| then None
    else if t[i] == quote then Some(i)
    else if BadQuoted(t[i], quote) then None
    else QuoteEnd(t, quote, i + 1)
  }

  function BareEnd(t: Text, i: nat): Option<nat>
    requires i <= |t|
    decreases |t| - i
  {
    if i == |t| || Blank(t[i]) then Some(i)
    else if BadBare(t[i]) then None
    else BareEnd(t, i + 1)
  }

  predicate EndsAt(t: Text, e: nat) { e == |t| || (e < |t| && Blank(t[e])) }

  function WordEnd(t: Text, s: nat): Option<nat>
    requires s < |t| && !Blank(t[s])
  {
    if Quote(t[s]) then
      var close := QuoteEnd(t, t[s], s + 1);
      if close.None? || close.value >= |t| || !EndsAt(t, close.value + 1) then None else Some(close.value + 1)
    else BareEnd(t, s)
  }

  lemma {:induction false} QuoteEndIs(t: Text, quote: CodeUnit, i: nat, c: nat)
    requires i <= |t|
    ensures QuoteEnd(t, quote, i) == Some(c) <==>
            i <= c < |t| && t[c] == quote && forall k :: i <= k < c ==> t[k] != quote && !BadQuoted(t[k], quote)
    decreases |t| - i
  {
    if i < |t| && t[i] != quote && !BadQuoted(t[i], quote) { QuoteEndIs(t, quote, i + 1, c); }
  }

  lemma {:induction false} BareEndIs(t: Text, i: nat, e: nat)
    requires i <= |t|
    ensures BareEnd(t, i) == Some(e) <==>
            i <= e <= |t| && EndsAt(t, e) && forall k :: i <= k < e ==> !Blank(t[k]) && !BadBare(t[k])
    decreases |t| - i
  {
    if i < |t| && !Blank(t[i]) && !BadBare(t[i]) { BareEndIs(t, i + 1, e); }
  }

  /** A text that is exactly one word. */
  predicate IsWord(raw: Text) {
    raw != [] && !Blank(raw[0]) && WordEnd(raw, 0) == Some(|raw|)
  }

  function WordOf(raw: Text): Word
    requires IsWord(raw)
  {
    if Quote(raw[0]) then
      assert |raw| >= 2;
      Word(raw, raw[1..|raw| - 1], true)
    else Word(raw, raw, false)
  }

  lemma WordIsQuoted(raw: Text)
    requires raw != [] && Quote(raw[0])
    ensures IsWord(raw) <==>
            |raw| >= 2 && raw[|raw| - 1] == raw[0]
            && forall k :: 1 <= k < |raw| - 1 ==> raw[k] != raw[0] && !BadQuoted(raw[k], raw[0])
  {
    if |raw| >= 2 { QuoteEndIs(raw, raw[0], 1, |raw| - 1); }
  }

  lemma WordIsBare(raw: Text)
    requires raw != [] && !Quote(raw[0])
    ensures IsWord(raw) <==> forall k :: 0 <= k < |raw| ==> !Blank(raw[k]) && !BadBare(raw[k])
  {
    if !Blank(raw[0]) { BareEndIs(raw, 0, |raw|); }
  }

  /** What stands between a word's start and its end is one word, and the end is before a blank or the end. */
  lemma WordFound(t: Text, s: nat)
    requires s < |t| && !Blank(t[s]) && WordEnd(t, s).Some?
    ensures var e := WordEnd(t, s).value;
            s < e <= |t| && EndsAt(t, e) && IsWord(t[s..e])
  {
    var e := WordEnd(t, s).value;
    if Quote(t[s]) {
      QuoteEndIs(t, t[s], s + 1, e - 1);
      WordIsQuoted(t[s..e]);
    } else {
      BareEndIs(t, s, e);
      WordIsBare(t[s..e]);
    }
  }

  /** A word followed by a blank or the end is found again, wherever it stands. */
  lemma WordRecognised(t: Text, s: nat, raw: Text)
    requires IsWord(raw) && s + |raw| <= |t| && t[s..s + |raw|] == raw && EndsAt(t, s + |raw|)
    ensures s < |t| && !Blank(t[s]) && WordEnd(t, s) == Some(s + |raw|)
  {
    assert forall k :: 0 <= k < |raw| ==> t[s + k] == raw[k];
    assert t[s] == raw[0];
    if Quote(raw[0]) {
      WordIsQuoted(raw);
      assert forall k :: s + 1 <= k < s + |raw| - 1 ==> t[k] == raw[k - s];
      QuoteEndIs(t, raw[0], s + 1, s + |raw| - 1);
    } else {
      WordIsBare(raw);
      assert forall k :: s <= k < s + |raw| ==> t[k] == raw[k - s];
      BareEndIs(t, s, s + |raw|);
    }
  }

  // ----- all words -----

  function Lex(t: Text, i: nat): Option<seq<Word>>
    requires i <= |t|
    decreases |t| - i
  {
    if i == |t| then Some([])
    else if Blank(t[i]) then Lex(t, i + 1)
    else
      var end := WordEnd(t, i);
      if end.None? then None
      else
        WordFound(t, i);
        var rest := Lex(t, end.value);
        if rest.None? then None else Some([WordOf(t[i..end.value])] + rest.value)
  }

  predicate AreWords(words: seq<Word>) {
    forall i :: 0 <= i < |words| ==> IsWord(words[i].raw) && words[i] == WordOf(words[i].raw)
  }

  lemma {:induction false} LexGivesWords(t: Text, i: nat)
    requires i <= |t| && Lex(t, i).Some?
    ensures AreWords(Lex(t, i).value)
    decreases |t| - i
  {
    hide WordOf, WordEnd;
    if i < |t| {
      if Blank(t[i]) {
        LexGivesWords(t, i + 1);
      } else {
        WordFound(t, i);
        LexGivesWords(t, WordEnd(t, i).value);
        WordKeepsRaw(t[i..WordEnd(t, i).value]);
      }
    }
  }

  lemma WordKeepsRaw(raw: Text)
    requires IsWord(raw)
    ensures WordOf(raw).raw == raw
  {
  }

  /** Where the words stand: in order, each spelled out at its place, and nothing but blanks outside of them. */
  ghost predicate Placed(t: Text, from: nat, words: seq<Word>, starts: seq<nat>) {
    && |starts| == |words|
    && (forall k :: 0 <= k < |words| ==>
          && from <= starts[k] && starts[k] + |words[k].raw| <= |t|
          && t[starts[k]..starts[k] + |words[k].raw|] == words[k].raw)
    && (forall k :: 0 < k < |words| ==> starts[k - 1] + |words[k - 1].raw| < starts[k])
    && (forall p :: from <= p < |t| ==>
            Blank(t[p]) || exists k :: 0 <= k < |words| && starts[k] <= p < starts[k] + |words[k].raw|)
  }

  lemma {:induction false} WordsArePlaced(t: Text, i: nat) returns (starts: seq<nat>)
    requires i <= |t| && Lex(t, i).Some?
    ensures Placed(t, i, Lex(t, i).value, starts)
    decreases |t| - i
  {
    hide WordEnd, IsWord, WordOf, Placed;
    if i == |t| {
      starts := [];
      NothingPlaced(t);
    } else if Blank(t[i]) {
      starts := WordsArePlaced(t, i + 1);
      PlacedAfterBlank(t, i, Lex(t, i).value, starts);
    } else {
      WordFound(t, i);
      var e := WordEnd(t, i).value;
      var rest := WordsArePlaced(t, e);
      starts := [i] + rest;
      WordKeepsRaw(t[i..e]);
      WordsStartUnblank(t, e);
      if Lex(t, e).value != [] { NextStartsLater(t, e, Lex(t, e).value, rest); }
      FirstWordPlaced(t, i, e, WordOf(t[i..e]), Lex(t, e).value, rest);
    }
  }

  lemma NothingPlaced(t: Text)
    ensures Placed(t, |t|, [], [])
  {
  }

  lemma PlacedAfterBlank(t: Text, i: nat, words: seq<Word>, starts: seq<nat>)
    requires i < |t| && Blank(t[i]) && Placed(t, i + 1, words, starts)
    ensures Placed(t, i, words, starts)
  {
    hide Blank;
  }

  lemma WordsStartUnblank(t: Text, i: nat)
    requires i <= |t| && Lex(t, i).Some?
    ensures forall k :: 0 <= k < |Lex(t, i).value| ==> Lex(t, i).value[k].raw != [] && !Blank(Lex(t, i).value[k].raw[0])
  {
    LexGivesWords(t, i);
  }

  lemma NextStartsLater(t: Text, e: nat, words: seq<Word>, rest: seq<nat>)
    requires e <= |t| && EndsAt(t, e) && Placed(t, e, words, rest) && words != []
    requires words[0].raw != [] && !Blank(words[0].raw[0])
    ensures e < rest[0]
  {
    var raw := words[0].raw;
    assert t[rest[0]..rest[0] + |raw|][0] == t[rest[0]];
  }

  /** Whatever is no blank after the first word lies in a later one. */
  lemma RestIsCovered(t: Text, i: nat, e: nat, word: Word, words: seq<Word>, rest: seq<nat>, p: nat)
    requires i < e <= |t| && word.raw == t[i..e] && Placed(t, e, words, rest) && i <= p < |t| && !Blank(t[p])
    ensures var all, starts := [word] + words, [i] + rest;
            exists k :: 0 <= k < |all| && starts[k] <= p < starts[k] + |all[k].raw|
  {
    hide Blank;
    var all, starts := [word] + words, [i] + rest;
    if p < e {
      assert starts[0] <= p < starts[0] + |all[0].raw|;
    } else {
      var k :| 0 <= k < |words| && rest[k] <= p < rest[k] + |words[k].raw|;
      assert starts[k + 1] <= p < starts[k + 1] + |all[k + 1].raw|;
    }
  }

  /** Every word is spelled where it stands and ends before the next one. */
  ghost predicate Stands(t: Text, from: nat, words: seq<Word>, starts: seq<nat>, k: nat)
    requires |starts| == |words| && k < |words|
  {
    && from <= starts[k] && starts[k] + |words[k].raw| <= |t|
    && t[starts[k]..starts[k] + |words[k].raw|] == words[k].raw
    && (k > 0 ==> starts[k - 1] + |words[k - 1].raw| < starts[k])
  }

  lemma WordStands(
    t: Text, i: nat, e: nat, word: Word, words: seq<Word>, rest: seq<nat>, k: nat)
    requires i < e <= |t| && word.raw == t[i..e] && Placed(t, e, words, rest)
    requires words != [] ==> e < rest[0]
    requires k < |words| + 1
    ensures Stands(t, i, [word] + words, [i] + rest, k)
  {
    hide Blank;
    if k > 0 {
      assert ([word] + words)[k] == words[k - 1] && ([i] + rest)[k] == rest[k - 1];
      if k > 1 { assert rest[k - 2] + |words[k - 2].raw| < rest[k - 1]; }
    }
  }

  lemma AllPlaced(t: Text, from: nat, words: seq<Word>, starts: seq<nat>)
    requires |starts| == |words|
    requires forall k :: 0 <= k < |words| ==> Stands(t, from, words, starts, k)
    requires forall p :: from <= p < |t| ==>
               Blank(t[p]) || exists k :: 0 <= k < |words| && starts[k] <= p < starts[k] + |words[k].raw|
    ensures Placed(t, from, words, starts)
  {
    hide Blank;
    forall k | 0 <= k < |words|
      ensures from <= starts[k] && starts[k] + |words[k].raw| <= |t|
      ensures t[starts[k]..starts[k] + |words[k].raw|] == words[k].raw
      ensures k > 0 ==> starts[k - 1] + |words[k - 1].raw| < starts[k]
    {
      assert Stands(t, from, words, starts, k);
    }
  }

  lemma FirstWordPlaced(t: Text, i: nat, e: nat, word: Word, words: seq<Word>, rest: seq<nat>)
    requires i < e <= |t| && word.raw == t[i..e] && Placed(t, e, words, rest)
    requires words != [] ==> e < rest[0]
    ensures Placed(t, i, [word] + words, [i] + rest)
  {
    var all, starts := [word] + words, [i] + rest;
    assert |rest| == |words|;
    hide Blank, Placed, Stands;
    forall k | 0 <= k < |all|
      ensures Stands(t, i, all, starts, k)
    {
      WordStands(t, i, e, word, words, rest, k);
    }
    forall p | i <= p < |t|
      ensures Blank(t[p]) || exists k :: 0 <= k < |all| && starts[k] <= p < starts[k] + |all[k].raw|
    {
      if !Blank(t[p]) { RestIsCovered(t, i, e, word, words, rest, p); }
    }
    AllPlaced(t, i, all, starts);
  }

  // ----- printing and lexing again -----

  function Joined(words: seq<Word>): Text {
    if |words| == 0 then [] else if |words| == 1 then words[0].raw else words[0].raw + [32] + Joined(words[1..])
  }

  lemma EndsAfter(t: Text, e: nat, last: bool)
    requires e <= |t| && (if last then e == |t| else e < |t| && t[e] == 32)
    ensures EndsAt(t, e)
  {
  }

  lemma {:induction false} LexJoined(t: Text, i: nat, words: seq<Word>)
    requires i <= |t| && AreWords(words) && t[i..] == Joined(words)
    ensures Lex(t, i) == Some(words)
    decreases |words|
  {
    hide WordEnd, WordOf, IsWord, EndsAt;
    if words != [] {
      var raw := words[0].raw;
      var e := i + |raw|;
      assert Joined(words)[..|raw|] == raw && t[i..e] == t[i..][..|raw|];
      assert |words| > 1 ==> t[e] == t[i..][|raw|] == 32;
      EndsAfter(t, e, |words| == 1);
      WordRecognised(t, i, raw);
      if |words| == 1 {
        assert Lex(t, e) == Some([]);
      } else {
        assert t[e + 1..] == t[i..][|raw| + 1..] == Joined(words[1..]);
        LexJoined(t, e + 1, words[1..]);
        assert Lex(t, e) == Lex(t, e + 1);
      }
      assert words == [words[0]] + words[1..];
    }
  }

  /** Lexing undoes printing: the space-joined raw words give the same words back. */
  lemma LexPrinted(command: Text)
    requires Lex(command, 0).Some?
    ensures Lex(Joined(Lex(command, 0).value), 0) == Lex(command, 0)
  {
    var words := Lex(command, 0).value;
    LexGivesWords(command, 0);
    assert Joined(words)[0..] == Joined(words);
    LexJoined(Joined(words), 0, words);
  }

  // ----- the lexer's loops -----

  /** Words found so far, then the rest. */
  function Then(found: seq<Word>, rest: Option<seq<Word>>): Option<seq<Word>> {
    if rest.None? then None else Some(found + rest.value)
  }

  method ScanQuoted(command: Text, quote: CodeUnit, from: nat) returns (close: Option<nat>)
    requires from <= |command|
    ensures close == QuoteEnd(command, quote, from)
  {
    var index := from;
    while index < |command| && command[index] != quote
      invariant from <= index <= |command|
      invariant QuoteEnd(command, quote, from) == QuoteEnd(command, quote, index)
    {
      if BadQuoted(command[index], quote) { return None; }
      index := index + 1;
    }
    return if index == |command| then None else Some(index);
  }

  method ScanBare(command: Text, from: nat) returns (end: Option<nat>)
    requires from <= |command|
    ensures end == BareEnd(command, from)
  {
    var index := from;
    while index < |command| && !Blank(command[index])
      invariant from <= index <= |command|
      invariant BareEnd(command, from) == BareEnd(command, index)
    {
      if BadBare(command[index]) { return None; }
      index := index + 1;
    }
    return Some(index);
  }

  method SkipBlanks(command: Text, from: nat) returns (index: nat)
    requires from <= |command|
    ensures from <= index <= |command| && (index < |command| ==> !Blank(command[index]))
    ensures Lex(command, from) == Lex(command, index)
  {
    index := from;
    while index < |command| && Blank(command[index])
      invariant from <= index <= |command|
      invariant Lex(command, from) == Lex(command, index)
    {
      index := index + 1;
    }
  }

  method ScanWord(command: Text, start: nat) returns (word: Option<Word>, end: nat)
    requires start < |command| && !Blank(command[start])
    ensures word.Some? <==> WordEnd(command, start).Some?
    ensures word.Some? ==>
              end == WordEnd(command, start).value && start < end <= |command|
              && IsWord(command[start..end]) && word.value == WordOf(command[start..end])
  {
    var quote := command[start];
    end := start;
    if Quote(quote) {
      var close := ScanQuoted(command, quote, start + 1);
      if close.None? { return None, end; }
      QuoteEndIs(command, quote, start + 1, close.value);
      end := close.value + 1;
      if end < |command| && !Blank(command[end]) { return None, end; }
      WordFound(command, start);
      assert command[start..end][1..|command[start..end]| - 1] == command[start + 1..close.value];
      word := Some(Word(command[start..end], command[start + 1..close.value], true));
    } else {
      var scanned := ScanBare(command, start);
      if scanned.None? { return None, end; }
      end := scanned.value;
      WordFound(command, start);
      word := Some(Word(command[start..end], command[start..end], false));
    }
  }

  /** The literal words of a command, if it is nothing but literal words and has at least one. */
  method LiteralWords(command: Text) returns (words: Option<seq<Word>>)
    ensures words == if Lex(command, 0) == Some([]) then None else Lex(command, 0)
  {
    hide WordEnd, WordOf, IsWord;
    var found: seq<Word> := [];
    var index := 0;
    assert Lex(command, 0).Some? ==> found + Lex(command, 0).value == Lex(command, 0).value;
    while index < |command|
      invariant index <= |command|
      invariant Lex(command, 0) == Then(found, Lex(command, index))
    {
      index := SkipBlanks(command, index);
      if index == |command| { break; }
      var word, end := ScanWord(command, index);
      if word.None? { return None; }
      assert Lex(command, end).Some? ==>
          found + ([word.value] + Lex(command, end).value) == (found + [word.value]) + Lex(command, end).value;
      found := found + [word.value];
      index := end;
    }
    assert Lex(command, index) == Some([]) && found + [] == found;
    return if |found| > 0 then Some(found) else None;
  }

  // ----- literal arguments -----

  predicate Dashed(value: Text) { StartsWith(value, [DASH]) }

  predicate FlagUnit(u: CodeUnit) {
    u == 115 || u == 104 || u == 97 || u == 107 || u == 109 || u == 120 || u == 99
  }

  /** Some of du's one-letter flags, bundled. */
  predicate DiskFlags(value: Text) {
    |value| >= 2 && value[0] == DASH && forall i :: 1 <= i < |value| ==> FlagUnit(value[i])
  }

  function WithIndex(i: nat, rest: Option<set<nat>>): Option<set<nat>> {
    if rest.None? then None else Some(rest.value + {i})
  }

  /** The arguments of du's exclude patterns, from a word on. */
  function DiskFrom(words: seq<Word>, i: nat, operands: bool): Option<set<nat>>
    decreases |words| - i
  {
    if i >= |words| then Some({})
    else if operands then if Dashed(words[i].value) then None else DiskFrom(words, i + 1, true)
    else if words[i].value == Ascii("--") then DiskFrom(words, i + 1, true)
    else if words[i].value == Ascii("-I") then
      if i + 1 >= |words| || (!words[i + 1].quoted && Dashed(words[i + 1].value)) then None
      else WithIndex(i + 1, DiskFrom(words, i + 2, false))
    else if DiskFlags(words[i].value) then DiskFrom(words, i + 1, false)
    else if Dashed(words[i].value) then None
    else DiskFrom(words, i + 1, true)
  }

  /** The titles and bodies of a new issue, from a word on. */
  function IssueFrom(words: seq<Word>, i: nat): Option<set<nat>>
    decreases |words| - i
  {
    if i >= |words| then Some({})
    else if i + 1 >= |words| || Dashed(words[i + 1].value) then None
    else if words[i].value == Ascii("--body") || words[i].value == Ascii("--title") then
      WithIndex(i + 1, IssueFrom(words, i + 2))
    else if words[i].value != Ascii("--repo") && words[i].value != Ascii("--body-file") then None
    else IssueFrom(words, i + 2)
  }

  function Literals(words: seq<Word>): Option<set<nat>>
    requires words != []
  {
    if words[0].value == Ascii("^du") then DiskFrom(words, 1, false)
    else if words[0].value == Ascii("gh") || words[0].value == Ascii("^gh") then
      if |words| < 3 || words[1].value != Ascii("issue") || words[2].value != Ascii("create") then None
      else IssueFrom(words, 3)
    else None
  }

  function Masked(words: seq<Word>, literals: set<nat>): (r: seq<Word>)
    ensures |r| == |words|
  {
    seq(|words|, i requires 0 <= i < |words| => if i in literals then Word(MASK, MASK, false) else words[i])
  }

  /** The masked view of a command. */
  function Mask(command: Text): Text {
    var words := Lex(command, 0);
    if words.None? || words.value == [] || words.value[0].quoted then command
    else
      var literals := Literals(words.value);
      if literals.None? then command else Joined(Masked(words.value, literals.value))
  }

  method DiskLiterals(words: seq<Word>) returns (r: Option<set<nat>>)
    ensures r == DiskFrom(words, 1, false)
  {
    hide Dashed, DiskFlags, Ascii;
    var literals: set<nat> := {};
    var operands := false;
    var index := 1;
    NothingAdded(DiskFrom(words, 1, false));
    while index < |words|
      invariant DiskFrom(words, 1, false) == Adding(literals, DiskFrom(words, index, operands))
      decreases |words| - index
    {
      var word := words[index];
      if operands {
        if Dashed(word.value) { return None; }
      } else if word.value == Ascii("--") {
        operands := true;
      } else if word.value == Ascii("-I") {
        if index + 1 >= |words| || (!words[index + 1].quoted && Dashed(words[index + 1].value)) { return None; }
        AddingOne(literals, index + 1, DiskFrom(words, index + 2, false));
        literals := literals + {index + 1};
        index := index + 1;
      } else if DiskFlags(word.value) {
      } else if Dashed(word.value) {
        return None;
      } else {
        operands := true;
      }
      index := index + 1;
    }
    return Some(literals);
  }

  method IssueLiterals(words: seq<Word>) returns (r: Option<set<nat>>)
    ensures r == if |words| < 3 || words[1].value != Ascii("issue") || words[2].value != Ascii("create") then None
                 else IssueFrom(words, 3)
  {
    hide Dashed, Ascii;
    if |words| < 3 || words[1].value != Ascii("issue") || words[2].value != Ascii("create") { return None; }
    var literals: set<nat> := {};
    var index := 3;
    NothingAdded(IssueFrom(words, 3));
    while index < |words|
      invariant IssueFrom(words, 3) == Adding(literals, IssueFrom(words, index))
      decreases |words| - index
    {
      if index + 1 >= |words| || Dashed(words[index + 1].value) { return None; }
      var option := words[index].value;
      if option == Ascii("--body") || option == Ascii("--title") {
        AddingOne(literals, index + 1, IssueFrom(words, index + 2));
        literals := literals + {index + 1};
      } else if option != Ascii("--repo") && option != Ascii("--body-file") {
        return None;
      }
      index := index + 2;
    }
    return Some(literals);
  }

  function Adding(literals: set<nat>, rest: Option<set<nat>>): Option<set<nat>> {
    if rest.None? then None else Some(literals + rest.value)
  }

  lemma NothingAdded(rest: Option<set<nat>>)
    ensures Adding({}, rest) == rest
  {
    if rest.Some? { assert {} + rest.value == rest.value; }
  }

  lemma AddingOne(literals: set<nat>, i: nat, rest: Option<set<nat>>)
    ensures Adding(literals, WithIndex(i, rest)) == Adding(literals + {i}, rest)
  {
    if rest.Some? { assert literals + (rest.value + {i}) == literals + {i} + rest.value; }
  }

  method MaskLiteralNonPathArguments(command: Text) returns (masked: Text)
    ensures masked == Mask(command)
  {
    hide Lex, DiskFrom, IssueFrom, Joined, Masked;
    var words := LiteralWords(command);
    if words.None? || words.value[0].quoted { return command; }
    var executable := words.value[0].value;
    var literals: Option<set<nat>> := None;
    if executable == Ascii("^du") {
      literals := DiskLiterals(words.value);
    } else if executable == Ascii("gh") || executable == Ascii("^gh") {
      literals := IssueLiterals(words.value);
    }
    if literals.None? { return command; }
    return Joined(Masked(words.value, literals.value));
  }

  // ----- what masking keeps -----

  lemma MaskIsWord()
    ensures IsWord(MASK) && WordOf(MASK) == Word(MASK, MASK, false) && !Dashed(MASK)
  {
    CapitalsAreBare("NON_PATH_LITERAL");
    WordIsBare(MASK);
    hide Ascii;
    assert !Quote(MASK[0]);
  }

  lemma CapitalsAreBare(s: string)
    requires s != [] && forall i :: 0 <= i < |s| ==> 'A' <= s[i] <= 'Z' || s[i] == '_'
    ensures forall k :: 0 <= k < |Ascii(s)| ==> !Blank(Ascii(s)[k]) && !BadBare(Ascii(s)[k])
    ensures !Quote(Ascii(s)[0]) && Ascii(s)[0] != DASH
  {
    forall k | 0 <= k < |Ascii(s)|
      ensures 65 <= Ascii(s)[k] <= 90 || Ascii(s)[k] == 95
    {
      assert Ascii(s)[k] == UnitOf(s[k]);
    }
  }

  /** The words of a masked command are the words of the command with the literal arguments replaced. */
  lemma MaskedWords(words: seq<Word>, literals: set<nat>)
    requires AreWords(words)
    ensures AreWords(Masked(words, literals))
            && Lex(Joined(Masked(words, literals)), 0) == Some(Masked(words, literals))
  {
    hide IsWord, WordOf, Lex;
    MaskIsWord();
    var masked := Masked(words, literals);
    assert Joined(masked)[0..] == Joined(masked);
    LexJoined(Joined(masked), 0, masked);
  }

  lemma {:induction false} DiskIsLater(words: seq<Word>, i: nat, operands: bool)
    requires DiskFrom(words, i, operands).Some?
    ensures forall k :: k in DiskFrom(words, i, operands).value ==> i < k < |words|
    decreases |words| - i
  {
    hide Dashed, DiskFlags, Ascii;
    if i < |words| {
      if !operands && words[i].value != Ascii("--") && words[i].value == Ascii("-I") {
        DiskIsLater(words, i + 2, false);
      } else if !operands && words[i].value != Ascii("--") && DiskFlags(words[i].value) {
        DiskIsLater(words, i + 1, false);
      } else {
        DiskIsLater(words, i + 1, true);
      }
    }
  }

  /** Replacing literal arguments does not change which arguments are literal. */
  lemma {:induction false} DiskIsStable(words: seq<Word>, masked: seq<Word>, i: nat, operands: bool)
    requires DiskFrom(words, i, operands).Some? && |masked| == |words|
    requires forall k :: i <= k < |words| ==>
               masked[k] == if k in DiskFrom(words, i, operands).value then Word(MASK, MASK, false) else words[k]
    ensures DiskFrom(masked, i, operands) == DiskFrom(words, i, operands)
    decreases |words| - i
  {
    hide Dashed, DiskFlags, Ascii;
    if i < |words| {
      DiskIsLater(words, i, operands);
      if !operands && words[i].value != Ascii("--") && words[i].value == Ascii("-I") {
        DiskIsLater(words, i + 2, false);
        MaskIsWord();
        DiskIsStable(words, masked, i + 2, false);
      } else if !operands && words[i].value != Ascii("--") && DiskFlags(words[i].value) {
        DiskIsStable(words, masked, i + 1, false);
      } else {
        DiskIsStable(words, masked, i + 1, true);
      }
    }
  }

  lemma {:induction false} IssueIsLater(words: seq<Word>, i: nat)
    requires IssueFrom(words, i).Some?
    ensures forall k :: k in IssueFrom(words, i).value ==> i < k < |words|
    decreases |words| - i
  {
    hide Dashed, Ascii;
    if i < |words| { IssueIsLater(words, i + 2); }
  }

  lemma {:induction false} IssueIsStable(words: seq<Word>, masked: seq<Word>, i: nat)
    requires IssueFrom(words, i).Some? && |masked| == |words|
    requires forall k :: i <= k < |words| ==>
               masked[k] == if k in IssueFrom(words, i).value then Word(MASK, MASK, false) else words[k]
    ensures IssueFrom(masked, i) == IssueFrom(words, i)
    decreases |words| - i
  {
    hide Dashed, Ascii;
    if i < |words| {
      IssueIsLater(words, i);
      IssueIsLater(words, i + 2);
      MaskIsWord();
      IssueIsStable(words, masked, i + 2);
    }
  }

  lemma LiteralsAreStable(words: seq<Word>)
    requires words != [] && Literals(words).Some?
    ensures Literals(Masked(words, Literals(words).value)) == Literals(words)
    ensures 0 !in Literals(words).value
  {
    hide DiskFrom, IssueFrom, Ascii;
    var literals := Literals(words).value;
    var masked := Masked(words, literals);
    if words[0].value == Ascii("^du") {
      DiskIsLater(words, 1, false);
      DiskIsStable(words, masked, 1, false);
    } else {
      IssueIsLater(words, 3);
      IssueIsStable(words, masked, 3);
    }
  }

  /** The word comes after a -I that is not literal itself. */
  predicate IsExcluded(words: seq<Word>, i: nat, literals: set<nat>, k: int) {
    i < k < |words| && words[k - 1].value == Ascii("-I") && k - 1 !in literals
  }

  /** A word with a dash in front that a du command may have. */
  predicate KnownFlag(value: Text) {
    StartsWith(value, [DASH]) ==> value == Ascii("-I") || value == Ascii("--") || DiskFlags(value)
  }

  /** Which arguments of a du command are literal: exactly the words after a -I that is not literal itself. No other
      word has a dash in front but a bundle of known flags, -I and -- do. */
  lemma {:induction false} DiskLiteralsAre(words: seq<Word>, i: nat, operands: bool)
    requires DiskFrom(words, i, operands).Some?
    ensures var literals := DiskFrom(words, i, operands).value;
            && (forall k: nat :: k in literals <==> IsExcluded(words, i, literals, k))
            && (forall k: nat :: k in literals ==> words[k].quoted || !StartsWith(words[k].value, [DASH]))
            && (forall j: nat :: i <= j < |words| && j !in literals ==> KnownFlag(words[j].value))
    decreases |words| - i
  {
    hide DiskFlags, Ascii, StartsWith;
    if i < |words| {
      DiskIsLater(words, i, operands);
      DashIsDashed();
      if operands {
        DiskLiteralsAre(words, i + 1, true);
      } else if words[i].value == Ascii("--") {
        DiskLiteralsAre(words, i + 1, true);
        DashesDiffer();
      } else if words[i].value == Ascii("-I") {
        DiskLiteralsAre(words, i + 2, false);
        DiskIsLater(words, i + 2, false);
      } else if DiskFlags(words[i].value) {
        DiskLiteralsAre(words, i + 1, false);
      } else {
        DiskLiteralsAre(words, i + 1, true);
      }
    }
  }

  lemma DashIsDashed()
    ensures Dashed(Ascii("-I"))
  {
    assert Ascii("-I")[..1] == [DASH];
  }

  lemma DashesDiffer()
    ensures Ascii("--") != Ascii("-I")
  {
    assert Ascii("--")[1] != Ascii("-I")[1];
  }

  /** An option of a new issue that takes a text, and one that takes none that is masked. */
  predicate TextOption(value: Text) { value == Ascii("--body") || value == Ascii("--title") }

  predicate OtherOption(value: Text) { value == Ascii("--repo") || value == Ascii("--body-file") }

  /** A known option stands here, with an argument that is no option. */
  predicate OptionAt(words: seq<Word>, j: nat) {
    && j + 1 < |words| && (TextOption(words[j].value) || OtherOption(words[j].value))
    && !StartsWith(words[j + 1].value, [DASH])
  }

  /** From a word on there are only known options with arguments. */
  predicate OptionsFrom(words: seq<Word>, i: nat) {
    && (|words| - i) % 2 == 0
    && forall j: nat :: i <= j < |words| && (j - i) % 2 == 0 ==> OptionAt(words, j)
  }

  /** The word is the argument of an option that takes a text. */
  predicate IsText(words: seq<Word>, i: nat, k: int) {
    i < k < |words| && (k - i) % 2 == 1 && TextOption(words[k - 1].value)
  }

  /** Which arguments of a new issue are literal: exactly those of its body and title options, if there is nothing but
      known options with arguments. */
  lemma {:induction false} IssueLiteralsAre(words: seq<Word>, i: nat)
    requires i <= |words|
    ensures IssueFrom(words, i).Some? <==> OptionsFrom(words, i)
    ensures IssueFrom(words, i).Some? ==>
              forall k: nat :: k in IssueFrom(words, i).value <==> IsText(words, i, k)
    decreases |words| - i
  {
    hide Ascii, StartsWith;
    if i + 1 < |words| {
      IssueLiteralsAre(words, i + 2);
      OptionsSplit(words, i);
      assert OtherOption(words[i].value) ==> !TextOption(words[i].value) by { OptionsDiffer(words[i].value); }
    }
  }

  lemma OptionsSplit(words: seq<Word>, i: nat)
    requires i + 1 < |words|
    ensures OptionsFrom(words, i) <==> OptionAt(words, i) && OptionsFrom(words, i + 2)
  {
    hide OptionAt;
    assert (|words| - i) % 2 == (|words| - (i + 2)) % 2;
    if OptionAt(words, i) && OptionsFrom(words, i + 2) {
      forall j: nat | i <= j < |words| && (j - i) % 2 == 0
        ensures OptionAt(words, j)
      {
        assert j != i ==> j != i + 1;
      }
    }
  }

  lemma OptionsDiffer(value: Text)
    ensures !(TextOption(value) && OtherOption(value))
  {
    assert |Ascii("--repo")| == 6 && |Ascii("--body-file")| == 11 && |Ascii("--body")| == 6 && |Ascii("--title")| == 7;
    assert Ascii("--repo")[2] != Ascii("--body")[2];
  }

  /** Masking keeps the number of words and changes only literal arguments. */
  lemma MaskChangesOnlyLiterals(command: Text)
    requires Mask(command) != command
    ensures Lex(command, 0).Some? && Lex(command, 0).value != [] && Literals(Lex(command, 0).value).Some?
    ensures var words, literals := Lex(command, 0).value, Literals(Lex(command, 0).value).value;
            Lex(Mask(command), 0) == Some(Masked(words, literals)) && 0 !in literals
  {
    hide Joined, Masked;
    var words := Lex(command, 0).value;
    LexGivesWords(command, 0);
    LiteralsAreStable(words);
    MaskedWords(words, Literals(words).value);
  }

  /** Masking twice is masking once. */
  lemma MaskIsIdempotent(command: Text)
    ensures Mask(Mask(command)) == Mask(command)
  {
    hide Joined, Lex, Literals;
    if Mask(command) != command {
      MaskChangesOnlyLiterals(command);
      var words := Lex(command, 0).value;
      var literals := Literals(words).value;
      LiteralsAreStable(words);
      assert Masked(Masked(words, literals), literals) == Masked(words, literals);
    }
  }
}
