/** Which ingested sources are the same work: what the ledger compares, in words (backlog.ts). */
module Joining {
  import opened Wrappers
  import opened Texts
  import opened Ledger
  import opened Tables
  import opened Invariants
  import opened Refinement

  // ----- joined texts -----

  /** A text splits at the first of a separating unit in one way only. */
  lemma FirstUnitSplit(a: Text, b: Text, c: Text, d: Text, unit: CodeUnit)
    requires a + [unit] + b == c + [unit] + d && unit !in a && unit !in c
    ensures a == c && b == d
  {
    var whole := a + [unit] + b;
    assert whole[|a|] == unit && whole[|c|] == unit;
    assert forall i :: 0 <= i < |a| ==> whole[i] == a[i];
    assert forall i :: 0 <= i < |c| ==> whole[i] == c[i];
    assert a == whole[..|a|] && c == whole[..|c|];
    assert b == whole[|a| + 1..] && d == whole[|c| + 1..];
  }

  predicate Without(parts: seq<Text>, unit: CodeUnit) {
    forall i :: 0 <= i < |parts| ==> unit !in parts[i]
  }

  lemma JoinHoldsUnit(parts: seq<Text>, unit: CodeUnit)
    requires |parts| > 1
    ensures unit in Join(parts, [unit])
  {
    assert Join(parts, [unit])[|parts[0]|] == unit;
  }

  /** Joining is injective on parts that are free of the separator. */
  lemma {:induction false} JoinInjective(a: seq<Text>, b: seq<Text>, unit: CodeUnit)
    requires a != [] && b != [] && Without(a, unit) && Without(b, unit) && Join(a, [unit]) == Join(b, [unit])
    ensures a == b
  {
    if |a| > 1 { JoinHoldsUnit(a, unit); }
    if |b| > 1 { JoinHoldsUnit(b, unit); }
    if |a| > 1 && |b| > 1 {
      FirstUnitSplit(a[0], Join(a[1..], [unit]), b[0], Join(b[1..], [unit]), unit);
      JoinInjective(a[1..], b[1..], unit);
      assert a == [a[0]] + a[1..] && b == [b[0]] + b[1..];
    }
  }

  // ----- the words of a text -----

  /** The maximal runs of units that are no white space. */
  function WordsOf(t: Text): (words: seq<Text>)
    ensures t != [] && !IsSpace(t[0]) ==> words != []
  {
    if t == [] then []
    else if IsSpace(t[0]) then WordsOf(t[1..])
    else if |t| == 1 || IsSpace(t[1]) then [[t[0]]] + WordsOf(t[1..])
    else [[t[0]] + WordsOf(t[1..])[0]] + WordsOf(t[1..])[1..]
  }

  lemma {:induction false} WordsSkip(t: Text)
    ensures WordsOf(t) == WordsOf(DropSpaces(t))
  {
    if t != [] && IsSpace(t[0]) { WordsSkip(t[1..]); }
  }

  lemma {:induction false} WordsHaveNoSpace(t: Text)
    ensures forall w, u :: w in WordsOf(t) && u in w ==> !IsSpace(u)
  {
    if t != [] { WordsHaveNoSpace(t[1..]); }
  }

  lemma {:induction false} DroppedEnds(t: Text)
    requires t != [] && !IsSpace(t[|t| - 1])
    ensures DropSpaces(t) != [] && !IsSpace(DropSpaces(t)[0])
    ensures !IsSpace(DropSpaces(t)[|DropSpaces(t)| - 1])
  {
    if IsSpace(t[0]) { DroppedEnds(t[1..]); }
  }

  lemma CollapseUnit(t: Text)
    requires t != [] && !IsSpace(t[0])
    ensures Collapse(t) == [t[0]] + Collapse(t[1..])
  {
  }

  lemma CollapseSpace(t: Text)
    requires t != [] && IsSpace(t[0])
    ensures Collapse(t) == [0x20] + Collapse(DropSpaces(t[1..]))
  {
  }

  lemma JoinFirst(word: Text, words: seq<Text>)
    requires words != []
    ensures Join([word] + words, [0x20]) == word + [0x20] + Join(words, [0x20])
  {
    assert ([word] + words)[1..] == words;
  }

  lemma JoinLonger(unit: CodeUnit, words: seq<Text>)
    requires words != []
    ensures Join([[unit] + words[0]] + words[1..], [0x20]) == [unit] + Join(words, [0x20])
  {
    var more := [[unit] + words[0]] + words[1..];
    assert more[1..] == words[1..];
  }

  /** Collapsing trimmed text writes its words with one space between them. */
  lemma {:induction false} CollapseJoinsWords(t: Text)
    requires t != [] && !IsSpace(t[0]) && !IsSpace(t[|t| - 1])
    ensures Collapse(t) == Join(WordsOf(t), [0x20])
    decreases |t|
  {
    hide Collapse, Join, DropSpaces, IsSpace, WordsOf;
    CollapseUnit(t);
    if |t| == 1 {
      OneWord(t);
    } else if IsSpace(t[1]) {
      var rest := DropSpaces(t[2..]);
      assert t[1..][1..] == t[2..];
      DroppedEnds(t[2..]);
      CollapseJoinsWords(rest);
      CollapseSpace(t[1..]);
      WordEnds(t);
      JoinFirst([t[0]], WordsOf(rest));
      assert [t[0]] + ([0x20] + Join(WordsOf(rest), [0x20])) == [t[0]] + [0x20] + Join(WordsOf(rest), [0x20]);
    } else {
      CollapseJoinsWords(t[1..]);
      WordGoesOn(t);
      JoinLonger(t[0], WordsOf(t[1..]));
    }
  }

  lemma WordEnds(t: Text)
    requires |t| > 1 && !IsSpace(t[0]) && IsSpace(t[1])
    ensures WordsOf(t) == [[t[0]]] + WordsOf(DropSpaces(t[2..]))
  {
    hide IsSpace;
    assert t[1..][1..] == t[2..];
    WordsSkip(t[2..]);
  }

  lemma WordGoesOn(t: Text)
    requires |t| > 1 && !IsSpace(t[0]) && !IsSpace(t[1])
    ensures WordsOf(t[1..]) != []
    ensures WordsOf(t) == [[t[0]] + WordsOf(t[1..])[0]] + WordsOf(t[1..])[1..]
  {
    hide IsSpace;
  }

  lemma OneWord(t: Text)
    requires |t| == 1 && !IsSpace(t[0])
    ensures Collapse(t) == Join(WordsOf(t), [0x20])
  {
    assert t[1..] == [];
    assert WordsOf(t) == [[t[0]]];
  }

  /** So trimmed texts collapse to the same text exactly when their words are the same. */
  lemma SameCollapseIff(a: Text, b: Text)
    requires a != [] && !IsSpace(a[0]) && !IsSpace(a[|a| - 1])
    requires b != [] && !IsSpace(b[0]) && !IsSpace(b[|b| - 1])
    ensures Collapse(a) == Collapse(b) <==> WordsOf(a) == WordsOf(b)
  {
    CollapseJoinsWords(a);
    CollapseJoinsWords(b);
    WordsHaveNoSpace(a);
    WordsHaveNoSpace(b);
    if Collapse(a) == Collapse(b) {
      forall i | 0 <= i < |WordsOf(a)|
        ensures 0x20 !in WordsOf(a)[i]
      {
        assert WordsOf(a)[i] in WordsOf(a);
      }
      forall i | 0 <= i < |WordsOf(b)|
        ensures 0x20 !in WordsOf(b)[i]
      {
        assert WordsOf(b)[i] in WordsOf(b);
      }
      JoinInjective(WordsOf(a), WordsOf(b), 0x20);
    }
  }

  lemma {:induction false} WordsOfStart(t: Text)
    ensures WordsOf(TrimStart(t)) == WordsOf(t)
  {
    if t != [] && IsSpace(t[0]) { WordsOfStart(t[1..]); }
  }

  lemma {:induction false} SpaceEndsNothing(t: Text, space: CodeUnit)
    requires IsSpace(space)
    ensures WordsOf(t + [space]) == WordsOf(t)
  {
    var more := t + [space];
    if t == [] {
      assert more[1..] == [];
    } else {
      assert more[1..] == t[1..] + [space];
      SpaceEndsNothing(t[1..], space);
    }
  }

  lemma {:induction false} WordsOfEnd(t: Text)
    ensures WordsOf(TrimEnd(t)) == WordsOf(t)
  {
    if t != [] && IsSpace(t[|t| - 1]) {
      WordsOfEnd(t[..|t| - 1]);
      SpaceEndsNothing(t[..|t| - 1], t[|t| - 1]);
      assert t[..|t| - 1] + [t[|t| - 1]] == t;
    }
  }

  lemma WordsOfTrimmed(t: Text)
    ensures WordsOf(Trim(t)) == WordsOf(t)
  {
    WordsOfStart(t);
    WordsOfEnd(TrimStart(t));
  }

  // ----- normalized requirements -----

  lemma {:induction false} NormalizedTexts(values: seq<Text>)
    requires NormalizedRequirements(values).Ok?
    ensures forall i :: 0 <= i < |values| ==>
              NormalizedRequirements(values).value[i] == Collapse(Trim(values[i])) && Trim(values[i]) != []
  {
    hide Collapse, Trim, HasUnsafeControl;
    if values != [] {
      NormalizedTexts(values[1..]);
      assert forall i :: 0 < i < |values| ==> values[i] == values[1..][i - 1];
    }
  }

  /** The same requirements, word for word. */
  predicate SameWords(a: seq<Text>, b: seq<Text>) {
    |a| == |b| && forall i :: 0 <= i < |a| ==> WordsOf(a[i]) == WordsOf(b[i])
  }

  lemma SameTextIff(a: Text, b: Text)
    requires Trim(a) != [] && Trim(b) != []
    ensures Collapse(Trim(a)) == Collapse(Trim(b)) <==> WordsOf(a) == WordsOf(b)
  {
    hide Trim, Collapse, WordsOf;
    TrimIsExact(a);
    TrimIsExact(b);
    WordsOfTrimmed(a);
    WordsOfTrimmed(b);
    SameCollapseIff(Trim(a), Trim(b));
  }

  /** Requirements normalize to the same texts exactly when they say the same, word for word. */
  lemma NormalizedIff(a: seq<Text>, b: seq<Text>)
    requires NormalizedRequirements(a).Ok? && NormalizedRequirements(b).Ok?
    ensures NormalizedRequirements(a) == NormalizedRequirements(b) <==> SameWords(a, b)
  {
    hide NormalizedRequirements, Collapse, Trim, WordsOf;
    NormalizedTexts(a);
    NormalizedTexts(b);
    var x, y := NormalizedRequirements(a).value, NormalizedRequirements(b).value;
    if |a| == |b| {
      forall i | 0 <= i < |a|
        ensures x[i] == y[i] <==> WordsOf(a[i]) == WordsOf(b[i])
      {
        SameTextIff(a[i], b[i]);
      }
      if SameWords(a, b) { assert x == y; }
    }
  }

  lemma NormalizedHaveNoSeparator(values: seq<Text>)
    requires NormalizedRequirements(values).Ok?
    ensures Without(NormalizedRequirements(values).value, SEPARATOR)
  {
    hide NormalizedRequirements;
    forall i | 0 <= i < |values|
      ensures SEPARATOR !in NormalizedRequirements(values).value[i]
    {
      SafeHasNoSeparator(NormalizedRequirements(values).value[i]);
    }
  }

  lemma SafeHasNoSeparator(t: Text)
    requires !HasUnsafeControl(t)
    ensures SEPARATOR !in t
  {
    assert IsUnsafeControl(SEPARATOR);
  }

  // ----- what an ingestion compares -----

  /** The digested requirements of a source. */
  function Requirements(input: IngestInput): Text
    requires NormalizedRequirements(input.requirements).Ok?
  {
    Join(NormalizedRequirements(input.requirements).value, [0x1F])
  }

  function ScopeOf(scope: Option<Text>): Text {
    if scope.Some? then Trim(scope.value) else []
  }

  /** The digested scope and requirements of a source that is recognised by its exact content. */
  function ScopedContent(sha: Text -> Digest, input: IngestInput): Text
    requires NormalizedRequirements(input.requirements).Ok? && input.dedupe.ExactContent?
  {
    ScopeOf(input.dedupe.scope) + [0x1F] + sha(Requirements(input))
  }

  /** Whether an ingested source is the item's work already: its digest for the way the source is recognised, or - for
      a canonical key - a source of the item with the same requirements; an item named outright need not be open. */
  predicate IsWorkOf(sha: Text -> Digest, st: Backlog, input: IngestInput, item: Item)
    requires NormalizedRequirements(input.requirements).Ok?
  {
    && item.project == input.project
    && match input.dedupe
       case ExactContent(_) => !item.state.Terminal? && item.dedupeDigest == sha(ScopedContent(sha, input))
       case SourceOnly(_) =>
         !item.state.Terminal? && item.dedupeDigest == sha(KindName(input.kind) + [COLON] + Trim(input.sourceId))
       case CanonicalKey(key) =>
         && !item.state.Terminal?
         && (item.dedupeDigest == sha(Ascii("canonical") + [0x1F] + Trim(key))
             || exists i :: 0 <= i < |st.sources| && st.sources[i].itemId == item.id
                  && st.sources[i].contentDigest == sha(Requirements(input)))
       case ItemId(id) => item.id == Trim(id)
  }

  /** The item after the source joined it: urgent if either is, no older than the source, otherwise as it was. */
  predicate TakesIn(known: Item, item: Item, input: IngestInput) {
    && item.(priority := known.priority, revision := known.revision, updatedAt := known.updatedAt) == known
    && (item.priority == Urgent <==> known.priority == Urgent || input.priority == Urgent)
    && item.revision == known.revision + 1
    && item.updatedAt == if known.updatedAt >= input.observedAt then known.updatedAt else input.observedAt
  }

  /** The item a source starts when it is no item's work. */
  predicate Begins(sha: Text -> Digest, item: Item, input: IngestInput)
    requires NormalizedRequirements(input.requirements).Ok?
  {
    && item.id == Trim(input.newItemId) && item.project == input.project && item.priority == input.priority
    && item.state == (if input.initial == StartReady then Ready else Unreconciled)
    && item.revision == 1 && item.createdAt == item.updatedAt == input.observedAt
    && match input.dedupe
       case ExactContent(_) => item.dedupeDigest == sha(ScopedContent(sha, input))
       case SourceOnly(_) => item.dedupeDigest == sha(KindName(input.kind) + [COLON] + Trim(input.sourceId))
       case CanonicalKey(key) => item.dedupeDigest == sha(Ascii("canonical") + [0x1F] + Trim(key))
       case ItemId(_) => false
  }

  /** The digest an ingestion looks for. */
  function Sought(sha: Text -> Digest, st: Backlog, input: IngestInput): Result<Digest, LedgerError>
    requires NormalizedRequirements(input.requirements).Ok? && ValidatedDedupe(input.dedupe).Ok?
  {
    DedupeDigest(sha, st, input.project, ValidatedDedupe(input.dedupe).value, input.kind, Trim(input.sourceId),
                 sha(Requirements(input)))
  }

  function Match(sha: Text -> Digest, st: Backlog, input: IngestInput): Option<Item>
    requires NormalizedRequirements(input.requirements).Ok? && ValidatedDedupe(input.dedupe).Ok?
    requires Sought(sha, st, input).Ok?
  {
    var dedupe := ValidatedDedupe(input.dedupe).value;
    if dedupe.ItemId? then FindItem(st.items, dedupe.itemId)
    else FindJoined(st, st.items, input.project, dedupe, Sought(sha, st, input).value, sha(Requirements(input)))
  }

  lemma MatchIsWork(sha: Text -> Digest, st: Backlog, input: IngestInput)
    requires NormalizedRequirements(input.requirements).Ok? && ValidatedDedupe(input.dedupe).Ok?
    requires Sought(sha, st, input).Ok?
    ensures match Match(sha, st, input)
            case Some(known) => known in st.items && IsWorkOf(sha, st, input, known)
            case None => !input.dedupe.ItemId? && forall item :: item in st.items ==> !IsWorkOf(sha, st, input, item)
  {
    hide NormalizedRequirements, Requirements, Trim, IsIdentifier, HasUnsafeControl, Ascii, KindName;
  }

  /** An ingestion of a new source, step by step. */
  lemma IngestionIs(sha: Text -> Digest, st: Backlog, input: IngestInput)
    requires Ingest(sha, st, input).Ok? && FindSource(st.sources, input.kind, SourceIdOf(input)).None?
    ensures NormalizedRequirements(input.requirements).Ok? && ValidatedDedupe(input.dedupe).Ok?
    ensures Sought(sha, st, input).Ok? && 0 <= input.observedAt
    ensures var r, found := Ingest(sha, st, input).value, Match(sha, st, input);
            && r.created == found.None?
            && r.item == (if found.Some? then Joined(found.value, input.priority, input.observedAt)
                          else Item(Trim(input.newItemId), input.project, input.priority,
                                    if input.initial.StartReady? then Ready else Unreconciled,
                                    Sought(sha, st, input).value, 1, input.observedAt, input.observedAt))
            && r.state.items == if found.None? then st.items + [r.item] else Replace(st.items, r.item)
  {
    hide RequirementId, NormalizedRequirements, Join, RequirementRecords, Trim, IsIdentifier, HasUnsafeControl,
         ValidatedDedupe, DedupeDigest, FindJoined, Replace;
  }

  lemma SoughtIsDigest(sha: Text -> Digest, st: Backlog, input: IngestInput, item: Item)
    requires NormalizedRequirements(input.requirements).Ok? && ValidatedDedupe(input.dedupe).Ok?
    requires Sought(sha, st, input).Ok? && !input.dedupe.ItemId? && 0 <= input.observedAt
    requires item == Item(Trim(input.newItemId), input.project, input.priority,
                          if input.initial.StartReady? then Ready else Unreconciled,
                          Sought(sha, st, input).value, 1, input.observedAt, input.observedAt)
    ensures Begins(sha, item, input)
  {
    hide NormalizedRequirements, Requirements, Trim, IsIdentifier, HasUnsafeControl, Ascii, KindName;
  }

  /** What ingesting a new source does to the items: it joins the first item whose work it is, and starts one if it is
      nobody's. */
  lemma IngestedItem(sha: Text -> Digest, st: Backlog, input: IngestInput)
    requires Ingest(sha, st, input).Ok? && FindSource(st.sources, input.kind, SourceIdOf(input)).None?
    ensures NormalizedRequirements(input.requirements).Ok?
    ensures var r := Ingest(sha, st, input).value;
            if r.created then
              && Begins(sha, r.item, input) && r.state.items == st.items + [r.item]
              && forall item :: item in st.items ==> !IsWorkOf(sha, st, input, item)
            else
              && r.state.items == Replace(st.items, r.item)
              && exists known :: known in st.items && IsWorkOf(sha, st, input, known) && TakesIn(known, r.item, input)
  {
    hide Ingest, NormalizedRequirements, ValidatedDedupe, Sought, Match, IsWorkOf, Begins, Replace, Trim;
    IngestionIs(sha, st, input);
    MatchIsWork(sha, st, input);
    var r, found := Ingest(sha, st, input).value, Match(sha, st, input);
    if found.Some? {
      assert TakesIn(found.value, r.item, input);
    } else {
      SoughtIsDigest(sha, st, input, r.item);
    }
  }

  // ----- the same work -----

  /** The same scope, and requirements that say the same word for word. */
  predicate SameWork(a: IngestInput, b: IngestInput)
    requires a.dedupe.ExactContent? && b.dedupe.ExactContent?
  {
    ScopeOf(a.dedupe.scope) == ScopeOf(b.dedupe.scope) && SameWords(a.requirements, b.requirements)
  }

  /** The hash tells these two texts apart. */
  predicate TellsApart(sha: Text -> Digest, a: Text, b: Text) {
    a != b ==> sha(a) != sha(b)
  }

  /** The hash tells apart the requirements of two sources, and their scopes with the requirements. */
  predicate Distinguishes(sha: Text -> Digest, a: IngestInput, b: IngestInput)
    requires NormalizedRequirements(a.requirements).Ok? && NormalizedRequirements(b.requirements).Ok?
    requires a.dedupe.ExactContent? && b.dedupe.ExactContent?
  {
    TellsApart(sha, Requirements(a), Requirements(b)) && TellsApart(sha, ScopedContent(sha, a), ScopedContent(sha, b))
  }

  lemma SameRequirementsIff(a: IngestInput, b: IngestInput)
    requires NormalizedRequirements(a.requirements).Ok? && NormalizedRequirements(b.requirements).Ok?
    requires a.requirements != [] && b.requirements != []
    ensures Requirements(a) == Requirements(b) <==> SameWords(a.requirements, b.requirements)
  {
    hide NormalizedRequirements, SameWords, Join;
    NormalizedIff(a.requirements, b.requirements);
    NormalizedHaveNoSeparator(a.requirements);
    NormalizedHaveNoSeparator(b.requirements);
    if Requirements(a) == Requirements(b) {
      JoinInjective(
        NormalizedRequirements(a.requirements).value, NormalizedRequirements(b.requirements).value, SEPARATOR);
    }
  }

  /** Sources of the same work have the same digest; sources of different work have different ones, if the hash tells
      their texts apart. */
  lemma SameDigestIff(sha: Text -> Digest, a: IngestInput, b: IngestInput)
    requires NormalizedRequirements(a.requirements).Ok? && NormalizedRequirements(b.requirements).Ok?
    requires a.dedupe.ExactContent? && b.dedupe.ExactContent? && a.requirements != [] && b.requirements != []
    ensures SameWork(a, b) ==> sha(ScopedContent(sha, a)) == sha(ScopedContent(sha, b))
    ensures Distinguishes(sha, a, b) && sha(ScopedContent(sha, a)) == sha(ScopedContent(sha, b)) ==> SameWork(a, b)
  {
    hide NormalizedRequirements, Requirements, SameWords, ScopeOf;
    SameRequirementsIff(a, b);
    var x, y := ScopeOf(a.dedupe.scope), ScopeOf(b.dedupe.scope);
    var c, d := sha(Requirements(a)), sha(Requirements(b));
    if x + [0x1F] + c == y + [0x1F] + d { LastPartSplit(x, c, y, d); }
  }

  lemma LastPartSplit(a: Text, b: Text, c: Text, d: Text)
    requires a + [0x1F] + b == c + [0x1F] + d && |b| == |d|
    ensures a == c && b == d
  {
    var whole := a + [0x1F] + b;
    assert whole[..|a|] == a && whole[..|c|] == c;
    assert whole[|a| + 1..] == b && whole[|c| + 1..] == d;
  }

  /** No two items have the same identifier, and no two open items of the project the same digest. */
  predicate Separate(st: Backlog, project: Text) {
    forall a, b :: a in st.items && b in st.items && (a.id == b.id || Twins(a, b, project)) ==> a == b
  }

  predicate Twins(a: Item, b: Item, project: Text) {
    a.project == project && b.project == project && a.Open() && b.Open() && a.dedupeDigest == b.dedupeDigest
  }

  lemma AcceptedHasRequirements(sha: Text -> Digest, st: Backlog, input: IngestInput)
    requires Ingest(sha, st, input).Ok?
    ensures input.requirements != [] && NormalizedRequirements(input.requirements).Ok?
  {
    hide NormalizedRequirements, Join, RequirementRecords, DedupeDigest;
  }

  lemma CreatedDigest(sha: Text -> Digest, st: Backlog, input: IngestInput)
    requires Ingest(sha, st, input).Ok? && FindSource(st.sources, input.kind, SourceIdOf(input)).None?
    requires input.dedupe.ExactContent?
    ensures NormalizedRequirements(input.requirements).Ok?
    ensures Ingest(sha, st, input).value.item.dedupeDigest == sha(ScopedContent(sha, input))
  {
    hide Ingest, NormalizedRequirements, ScopedContent;
    IngestedItem(sha, st, input);
  }

  /** A source recognised by its exact content joins an open item of the project that an earlier such source started or
      joined, if scope and requirements are the same. If they are not, and the hash tells these texts apart, it does
      not: it joins another item, or starts one. */
  lemma SameWorkJoins(
    sha: Text -> Digest, before: Backlog, earlier: IngestInput, st: Backlog, input: IngestInput, item: Item)
    requires Ingest(sha, before, earlier).Ok?
    requires FindSource(before.sources, earlier.kind, SourceIdOf(earlier)).None?
    requires Ingest(sha, st, input).Ok? && FindSource(st.sources, input.kind, SourceIdOf(input)).None?
    requires earlier.dedupe.ExactContent? && input.dedupe.ExactContent? && earlier.project == input.project
    requires item in st.items && item.project == input.project && item.Open()
    requires item.dedupeDigest == Ingest(sha, before, earlier).value.item.dedupeDigest
    requires Separate(st, input.project) && item.id != Trim(input.newItemId)
    ensures NormalizedRequirements(earlier.requirements).Ok? && NormalizedRequirements(input.requirements).Ok?
    ensures var r := Ingest(sha, st, input).value;
            SameWork(earlier, input) ==> !r.created && r.item.id == item.id
    ensures var r := Ingest(sha, st, input).value;
            Distinguishes(sha, earlier, input) && !SameWork(earlier, input) ==> r.item.id != item.id
  {
    hide Ingest, NormalizedRequirements, SameWork, Distinguishes, ScopedContent, Trim;
    AcceptedHasRequirements(sha, before, earlier);
    AcceptedHasRequirements(sha, st, input);
    CreatedDigest(sha, before, earlier);
    IngestedItem(sha, st, input);
    SameDigestIff(sha, earlier, input);
    DigestDecides(sha, st, input, item);
  }

  /** The source joins an open item exactly when its digest is the item's. */
  lemma DigestDecides(sha: Text -> Digest, st: Backlog, input: IngestInput, item: Item)
    requires Ingest(sha, st, input).Ok? && FindSource(st.sources, input.kind, SourceIdOf(input)).None?
    requires NormalizedRequirements(input.requirements).Ok? && input.dedupe.ExactContent?
    requires item in st.items && item.project == input.project && item.Open() && Separate(st, input.project)
    requires item.id != Trim(input.newItemId)
    ensures var r := Ingest(sha, st, input).value;
            r.item.id == item.id <==> item.dedupeDigest == sha(ScopedContent(sha, input))
    ensures var r := Ingest(sha, st, input).value;
            r.item.id == item.id ==> !r.created
  {
    hide Ingest, NormalizedRequirements, ScopedContent, Trim;
    IngestedItem(sha, st, input);
    var r := Ingest(sha, st, input).value;
    if !r.created {
      var known :| known in st.items && IsWorkOf(sha, st, input, known) && TakesIn(known, r.item, input);
      assert item.id == known.id ==> item == known;
      assert item.dedupeDigest == known.dedupeDigest ==> Twins(item, known, input.project);
    }
  }

  // ----- what an ingestion stores -----

  /** The stored source says where the work came from, on whose authority and with which requirements. */
  predicate SourceTells(sha: Text -> Digest, source: Source, input: IngestInput)
    requires NormalizedRequirements(input.requirements).Ok?
  {
    && source.kind == input.kind && source.id == Trim(input.sourceId) && source.observedAt == input.observedAt
    && source.contentDigest == sha(Requirements(input))
    && match input.authority
       case RoutingOnly => source.authority == RoutingOnly
       case AuthenticatedOwner(ref) => source.authority == AuthenticatedOwner(Trim(ref))
       case RepositoryPolicy(ref) => source.authority == RepositoryPolicy(Trim(ref))
  }

  /** The i-th stored requirement is the i-th given one, its words written with one space between them. */
  predicate RequirementTells(sha: Text -> Digest, r: Requirement, input: IngestInput, itemId: Text, i: nat)
    requires i < |input.requirements|
  {
    && r.id == RequirementId(input.kind, Trim(input.sourceId), i) && r.itemId == itemId
    && r.sourceKind == input.kind && r.sourceId == Trim(input.sourceId)
    && r.text == Join(WordsOf(input.requirements[i]), [0x20]) && r.digest == sha(r.text)
  }

  lemma NormalizedIsWords(values: seq<Text>, i: nat)
    requires NormalizedRequirements(values).Ok? && i < |values|
    ensures NormalizedRequirements(values).value[i] == Join(WordsOf(values[i]), [0x20])
  {
    hide NormalizedRequirements, Collapse, Trim, WordsOf, Join;
    NormalizedTexts(values);
    TrimIsExact(values[i]);
    WordsOfTrimmed(values[i]);
    CollapseJoinsWords(Trim(values[i]));
  }

  lemma IngestedRows(sha: Text -> Digest, st: Backlog, input: IngestInput)
    requires Ingest(sha, st, input).Ok? && FindSource(st.sources, input.kind, SourceIdOf(input)).None?
    ensures NormalizedRequirements(input.requirements).Ok?
    ensures var r := Ingest(sha, st, input).value;
            && r.state.sources == st.sources + [r.state.sources[|st.sources|]]
            && SourceTells(sha, r.state.sources[|st.sources|], input)
            && r.state.sources[|st.sources|].itemId == r.item.id
            && r.state.requirements == st.requirements + RequirementRecords(
                                                           sha, NormalizedRequirements(input.requirements).value,
                                                           r.item.id, input.kind, Trim(input.sourceId))
  {
    hide RequirementId, NormalizedRequirements, Join, RequirementRecords, Trim, IsIdentifier, HasUnsafeControl, Ascii,
         KindName, DedupeDigest, FindJoined;
  }

  /** A new source is stored with its requirements in order. */
  lemma IngestedRequirementsTell(sha: Text -> Digest, st: Backlog, input: IngestInput)
    requires Ingest(sha, st, input).Ok? && FindSource(st.sources, input.kind, SourceIdOf(input)).None?
    ensures NormalizedRequirements(input.requirements).Ok?
    ensures var r := Ingest(sha, st, input).value;
            && |r.state.sources| == |st.sources| + 1 && |r.state.requirements| >= |st.requirements|
            && SourceTells(sha, NewSource(st, r), input) && NewSource(st, r).itemId == r.item.id
            && |NewRequirements(st, r)| == |input.requirements|
            && forall i :: 0 <= i < |input.requirements| ==>
                 RequirementTells(sha, NewRequirements(st, r)[i], input, r.item.id, i)
  {
    hide Ingest, NormalizedRequirements, Join, Trim, RequirementId, WordsOf;
    IngestedRows(sha, st, input);
    var r := Ingest(sha, st, input).value;
    var texts := NormalizedRequirements(input.requirements).value;
    var records := RequirementRecords(sha, texts, r.item.id, input.kind, Trim(input.sourceId));
    assert NewRequirements(st, r) == records;
    forall i | 0 <= i < |input.requirements|
      ensures RequirementTells(sha, records[i], input, r.item.id, i)
    {
      NormalizedIsWords(input.requirements, i);
    }
  }
}
