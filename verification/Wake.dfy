/** Waking an operational role for actionable external work: what a wake says does not depend on row order, and a
    session never hears the same wake twice in a row (backlog-wake.ts). */
module Wake {
  import opened Wrappers
  import opened Texts
  import opened Ledger
  import opened Tables
  import opened Loader
  import opened Listing
  import opened Sorting
  import Registry

  // ----- the scan of the session's entries -----

  datatype Entry = Pause(valid: bool, paused: bool) | Circuit(valid: bool, open: bool) | OtherEntry

  datatype Verdict = Go | Hold | Corrupt

  function Ruling(e: Entry): Verdict {
    match e
    case Pause(valid, paused) => if !valid then Corrupt else if paused then Hold else Go
    case Circuit(valid, open) => if !valid then Corrupt else if open then Hold else Go
    case OtherEntry => Go
  }

  /** The entry is the latest of its kind. */
  predicate LatestPause(entries: seq<Entry>, i: int) {
    0 <= i < |entries| && entries[i].Pause? && forall j :: i < j < |entries| ==> !entries[j].Pause?
  }

  predicate LatestCircuit(entries: seq<Entry>, i: int) {
    0 <= i < |entries| && entries[i].Circuit? && forall j :: i < j < |entries| ==> !entries[j].Circuit?
  }

  predicate Rules(entries: seq<Entry>, i: int) { LatestPause(entries, i) || LatestCircuit(entries, i) }

  /** Only the latest pause and the latest circuit count, and of two objections the later one. */
  ghost predicate ScanSays(entries: seq<Entry>, verdict: Verdict) {
    if verdict.Go? then forall i :: Rules(entries, i) ==> Ruling(entries[i]).Go?
    else exists i :: Objects(entries, i) && Ruling(entries[i]) == verdict
  }

  /** The latest of the two that objects. */
  ghost predicate Objects(entries: seq<Entry>, i: int) {
    && 0 <= i < |entries| && Rules(entries, i) && !Ruling(entries[i]).Go?
    && forall j :: i < j && Rules(entries, j) ==> Ruling(entries[j]).Go?
  }

  /** One backward scan: only the latest pause and the latest circuit count, and of two objections the later one. */
  method ScanEntries(entries: seq<Entry>) returns (verdict: Verdict)
    ensures ScanSays(entries, verdict)
  {
    var seenPause, seenCircuit := false, false;
    var index := |entries|;
    while index > 0
      invariant 0 <= index <= |entries|
      invariant seenPause <==> exists j :: index <= j < |entries| && entries[j].Pause?
      invariant seenCircuit <==> exists j :: index <= j < |entries| && entries[j].Circuit?
      invariant forall i :: index <= i && Rules(entries, i) ==> Ruling(entries[i]).Go?
    {
      index := index - 1;
      var e := entries[index];
      if e.OtherEntry? || (e.Pause? && seenPause) || (e.Circuit? && seenCircuit) { continue; }
      assert Rules(entries, index);
      if e.Pause? { seenPause := true; } else { seenCircuit := true; }
      var ruling := Ruling(e);
      if !ruling.Go? {
        assert Objects(entries, index);
        return ruling;
      }
    }
    return Go;
  }

  lemma OneVerdict(entries: seq<Entry>, v: Verdict, w: Verdict)
    requires ScanSays(entries, v) && ScanSays(entries, w)
    ensures v == w
  {
    hide Rules;
    if !v.Go? && !w.Go? {
      var i :| Objects(entries, i) && Ruling(entries[i]) == v;
      var j :| Objects(entries, j) && Ruling(entries[j]) == w;
      assert i == j;
    }
  }

  // ----- what a wake says -----

  predicate External(source: Source) {
    source.kind.RegistryRequest? || source.kind.TrackerItem? || source.kind.BacklogDocument?
  }

  datatype Owner = Owner(project: Text, agentId: Text, leaseIds: seq<Text>)

  /** Ready external work of the project, or work already held under one of the owner's leases. */
  predicate Actionable(st: Backlog, item: Item, me: Owner) {
    && item.project == me.project
    && (exists i :: 0 <= i < |st.sources| && External(st.sources[i]) && st.sources[i].itemId == item.id)
    && (item.state.Ready?
        || (item.state.Held() && item.state.agentId == me.agentId && item.state.leaseId in me.leaseIds))
  }

  function DigestsOf(requirements: seq<Requirement>, itemId: Text): seq<Digest> {
    if requirements == [] then []
    else
      var last := requirements[|requirements| - 1];
      DigestsOf(requirements[..|requirements| - 1], itemId) + if last.itemId == itemId then [last.digest] else []
  }

  lemma OneMoreDigest(requirements: seq<Requirement>, n: nat, id: Text)
    requires n < |requirements|
    ensures DigestsOf(requirements[..n + 1], id)
            == DigestsOf(requirements[..n], id)
               + if requirements[n].itemId == id then [requirements[n].digest] else []
  {
    assert requirements[..n + 1][..n] == requirements[..n];
  }

  /** The requirement digests of every item, gathered in one pass. */
  method DigestsByItem(requirements: seq<Requirement>) returns (digests: map<Text, seq<Digest>>)
    ensures forall id :: (if id in digests then digests[id] else []) == DigestsOf(requirements, id)
  {
    digests := map[];
    assert forall id :: DigestsOf(requirements[..0], id) == [];
    hide DigestsOf;
    for n := 0 to |requirements|
      invariant forall id :: (if id in digests then digests[id] else []) == DigestsOf(requirements[..n], id)
    {
      forall id {
        OneMoreDigest(requirements, n, id);
      }
      var r := requirements[n];
      var known := if r.itemId in digests then digests[r.itemId] else [];
      digests := digests[r.itemId := known + [r.digest]];
    }
    assert requirements[..|requirements|] == requirements;
  }

  lemma {:induction false} DigestsAre(requirements: seq<Requirement>, itemId: Text, d: Digest)
    ensures d in DigestsOf(requirements, itemId) <==>
            exists r :: r in requirements && r.itemId == itemId && r.digest == d
  {
    if requirements != [] {
      var front, last := requirements[..|requirements| - 1], requirements[|requirements| - 1];
      DigestsAre(front, itemId, d);
      assert forall r :: r in requirements <==> r in front || r == last;
    }
  }

  /** The comparator tells identifiers apart; other texts may tie. */
  ghost predicate TellsApart(le: (Text, Text) -> bool) {
    forall a, b :: IsIdentifier(a) && IsIdentifier(b) && le(a, b) && le(b, a) ==> a == b
  }

  /** Only identifiers are compared, as in every ledger the reader accepts. */
  ghost predicate Named(st: Backlog) {
    && (forall item :: item in st.items ==> IsIdentifier(item.id))
    && (forall source :: source in st.sources ==> IsIdentifier(source.id))
  }

  /** By kind and, where kinds tie, by identifier. */
  predicate SourceLe(le: (Text, Text) -> bool, a: Source, b: Source) {
    var x, y := KindName(a.kind), KindName(b.kind);
    if le(x, y) && le(y, x) then le(a.id, b.id) else le(x, y)
  }

  lemma AsciiIsIdentifier(s: string)
    requires 1 <= |s| <= 256
    requires forall i :: 0 <= i < |s| ==> 'a' <= s[i] <= 'z' || s[i] == '-'
    ensures IsIdentifier(Ascii(s))
  {
  }

  lemma KindIsIdentifier(kind: SourceKind)
    ensures IsIdentifier(KindName(kind))
  {
    match kind
    case OwnerMessage => AsciiIsIdentifier("owner-message");
    case BridgeMessage => AsciiIsIdentifier("bridge-message");
    case RegistryRequest => AsciiIsIdentifier("registry-request");
    case BranchTodo => AsciiIsIdentifier("branch-todo");
    case TrackerItem => AsciiIsIdentifier("tracker-item");
    case BacklogDocument => AsciiIsIdentifier("backlog-document");
  }

  /** Distinct digests in order. */
  ghost predicate Digested(requirements: seq<Requirement>, itemId: Text, digests: seq<Digest>) {
    && Sorted((a: Digest, b: Digest) => TextLe(a, b), digests)
    && (forall i, j :: 0 <= i < j < |digests| ==> digests[i] != digests[j])
    && forall d :: d in digests <==> d in DigestsOf(requirements, itemId)
  }

  /** The least external source of an item. */
  ghost predicate Least(le: (Text, Text) -> bool, sources: seq<Source>, itemId: Text, s: Source) {
    && s in sources && External(s) && s.itemId == itemId
    && forall other :: other in sources && External(other) && other.itemId == itemId ==> SourceLe(le, s, other)
  }

  /** What a wake carries, beside the project, the role and the owner, all of it hashed into the fingerprint. */
  datatype Content = Content(items: seq<Item>, digests: seq<seq<Digest>>, references: seq<Source>)

  /** The actionable items by identifier, each with its digests, and one reference for each of the first five. */
  ghost predicate Says(le: (Text, Text) -> bool, st: Backlog, me: Owner, c: Content) {
    && Sorted((a: Item, b: Item) => le(a.id, b.id), c.items)
    && (forall i, j :: 0 <= i < j < |c.items| ==> c.items[i] != c.items[j])
    && (forall item :: item in c.items <==> item in st.items && Actionable(st, item, me))
    && |c.digests| == |c.items|
    && (forall k :: 0 <= k < |c.items| ==> Digested(st.requirements, c.items[k].id, c.digests[k]))
    && |c.references| == (if |c.items| <= 5 then |c.items| else 5)
    && forall k :: 0 <= k < |c.references| ==> Least(le, st.sources, c.items[k].id, c.references[k])
  }

  ghost predicate UniqueRows(st: Backlog) {
    && (forall a, b :: a in st.items && b in st.items && a.id == b.id ==> a == b)
    && (forall a, b :: a in st.sources && b in st.sources && a.kind == b.kind && a.id == b.id ==> a == b)
  }

  lemma SameActionable(a: Backlog, b: Backlog, me: Owner, item: Item)
    requires multiset(a.sources) == multiset(b.sources) && Actionable(a, item, me)
    ensures Actionable(b, item, me)
  {
    var i :| 0 <= i < |a.sources| && External(a.sources[i]) && a.sources[i].itemId == item.id;
    assert a.sources[i] in multiset(b.sources);
    var j :| 0 <= j < |b.sources| && b.sources[j] == a.sources[i];
  }

  lemma SameItems(le: (Text, Text) -> bool, a: Backlog, b: Backlog, me: Owner, c: Content, d: Content)
    requires TellsApart(le) && Named(a) && SameLedger(a, b) && UniqueRows(a)
    requires Says(le, a, me, c) && Says(le, b, me, d)
    ensures c.items == d.items
  {
    hide Actionable, Digested, Least, IsIdentifier;
    forall item
      ensures item in c.items <==> item in d.items
    {
      assert item in a.items <==> item in multiset(a.items);
      assert item in b.items <==> item in multiset(b.items);
      if Actionable(a, item, me) { SameActionable(a, b, me, item); }
      if Actionable(b, item, me) { SameActionable(b, a, me, item); }
    }
    DistinctPermutation(c.items, d.items);
    var byId := (x: Item, y: Item) => le(x.id, y.id);
    assert NoTies(byId, c.items) by {
      forall i, j | 0 <= i < |c.items| && 0 <= j < |c.items| && byId(c.items[i], c.items[j])
          && byId(c.items[j], c.items[i])
        ensures c.items[i] == c.items[j]
      {
        assert c.items[i] in a.items && c.items[j] in a.items;
      }
    }
    SortedIsUnique(byId, c.items, d.items);
  }

  lemma SameDigests(a: seq<Requirement>, b: seq<Requirement>, itemId: Text, x: seq<Digest>, y: seq<Digest>)
    requires multiset(a) == multiset(b) && Digested(a, itemId, x) && Digested(b, itemId, y)
    ensures x == y
  {
    forall d
      ensures d in DigestsOf(a, itemId) <==> d in DigestsOf(b, itemId)
    {
      DigestsAre(a, itemId, d);
      DigestsAre(b, itemId, d);
      assert forall r :: r in a <==> r in multiset(a);
      assert forall r :: r in b <==> r in multiset(b);
    }
    DistinctPermutation(x, y);
    var byText := (p: Digest, q: Digest) => TextLe(p, q);
    forall i, j | 0 <= i < |x| && 0 <= j < |x| && byText(x[i], x[j]) && byText(x[j], x[i])
      ensures x[i] == x[j]
    {
      TextOrder(x[i], x[j]);
    }
    SortedIsUnique(byText, x, y);
  }

  lemma SameReference(le: (Text, Text) -> bool, a: Backlog, b: Backlog, itemId: Text, s: Source, t: Source)
    requires TellsApart(le) && Named(a) && SameLedger(a, b) && UniqueRows(a)
    requires Least(le, a.sources, itemId, s) && Least(le, b.sources, itemId, t)
    ensures s == t
  {
    hide IsIdentifier, KindName;
    assert s in multiset(b.sources) && t in multiset(a.sources);
    assert SourceLe(le, s, t) && SourceLe(le, t, s);
    KindIsIdentifier(s.kind);
    KindIsIdentifier(t.kind);
    assert KindName(s.kind) == KindName(t.kind);
    KindNameInjective(s.kind, t.kind);
  }

  /** Whatever order items, sources and requirements are read in, a wake says the same: the same fingerprint, the
      same count, the same references. */
  lemma WakeIgnoresRowOrder(le: (Text, Text) -> bool, a: Backlog, b: Backlog, me: Owner, c: Content, d: Content)
    requires TellsApart(le) && Named(a) && SameLedger(a, b) && UniqueRows(a)
    requires Says(le, a, me, c) && Says(le, b, me, d)
    ensures c == d
  {
    hide Digested, Least, UniqueRows, TellsApart, Named;
    SameItems(le, a, b, me, c, d);
    forall k | 0 <= k < |c.items|
      ensures c.digests[k] == d.digests[k]
    {
      SameDigests(a.requirements, b.requirements, c.items[k].id, c.digests[k], d.digests[k]);
    }
    forall k | 0 <= k < |c.references|
      ensures c.references[k] == d.references[k]
    {
      SameReference(le, a, b, c.items[k].id, c.references[k], d.references[k]);
    }
  }

  lemma RowsAreUnique(t: Tables, project: Text, st: Backlog)
    requires Represents(t, project, st)
    ensures UniqueRows(st)
  {
    forall a, b | a in st.items && b in st.items && a.id == b.id
      ensures a == b
    {
      assert t.items[a.id] == a && t.items[b.id] == b;
    }
    forall a, b | a in st.sources && b in st.sources && a.kind == b.kind && a.id == b.id
      ensures a == b
    {
      assert t.sources[KeyOf(a)] == a && t.sources[KeyOf(b)] == b;
    }
  }

  // ----- how a wake is composed -----

  ghost predicate DistinctItems(items: seq<Item>) {
    forall i, j :: 0 <= i < j < |items| ==> items[i] != items[j]
  }

  ghost predicate HasExternal(sources: seq<Source>, itemId: Text) {
    exists i :: 0 <= i < |sources| && External(sources[i]) && sources[i].itemId == itemId
  }

  method ExternalItems(sources: seq<Source>) returns (ids: set<Text>)
    ensures forall id :: id in ids <==> HasExternal(sources, id)
  {
    ids := {};
    for n := 0 to |sources|
      invariant forall id :: id in ids <==> exists i :: 0 <= i < n && External(sources[i]) && sources[i].itemId == id
    {
      if External(sources[n]) { ids := ids + {sources[n].itemId}; }
    }
  }

  method ActionableItems(st: Backlog, me: Owner) returns (items: seq<Item>)
    ensures forall item :: item in items <==> item in st.items && Actionable(st, item, me)
    ensures DistinctItems(st.items) ==> DistinctItems(items)
  {
    var external := ExternalItems(st.sources);
    items := [];
    for n := 0 to |st.items|
      invariant forall item :: item in items <==> item in st.items[..n] && Actionable(st, item, me)
      invariant DistinctItems(st.items) ==> DistinctItems(items)
    {
      var item := st.items[n];
      assert item.id in external <==> HasExternal(st.sources, item.id);
      assert DistinctItems(st.items) ==> item !in st.items[..n];
      if item.project == me.project && item.id in external
         && (item.state.Ready?
             || (item.state.Held() && item.state.agentId == me.agentId && item.state.leaseId in me.leaseIds)) {
        items := items + [item];
      }
    }
    assert st.items[..|st.items|] == st.items;
  }

  method DistinctDigests(digests: seq<Digest>) returns (distinct: seq<Digest>)
    ensures forall d :: d in distinct <==> d in digests
    ensures forall i, j :: 0 <= i < j < |distinct| ==> distinct[i] != distinct[j]
    ensures Sorted((a: Digest, b: Digest) => TextLe(a, b), distinct)
  {
    var seen: seq<Digest> := [];
    for n := 0 to |digests|
      invariant forall d :: d in seen <==> d in digests[..n]
      invariant forall i, j :: 0 <= i < j < |seen| ==> seen[i] != seen[j]
    {
      if digests[n] !in seen { seen := seen + [digests[n]]; }
    }
    assert digests[..|digests|] == digests;
    var byText := (a: Digest, b: Digest) => TextLe(a, b);
    distinct := InsertionSort(byText, seen);
    TextIsLinear(byText);
    SortSorts(byText, seen);
    PermutationStaysDistinct(seen, distinct);
  }

  lemma TextIsLinear(byText: (Digest, Digest) -> bool)
    requires forall a: Digest, b: Digest :: byText(a, b) == TextLe(a, b)
    ensures Linear(byText)
  {
    forall a: Digest, b: Digest
      ensures byText(a, b) || byText(b, a)
    {
      TextOrder(a, b);
    }
    forall a: Digest, b: Digest, c: Digest | byText(a, b) && byText(b, c)
      ensures byText(a, c)
    {
      TextLeIsTransitive(a, b, c);
    }
  }

  lemma PermutationStaysDistinct<T>(a: seq<T>, b: seq<T>)
    requires multiset(a) == multiset(b)
    requires forall i, j :: 0 <= i < j < |a| ==> a[i] != a[j]
    ensures forall i, j :: 0 <= i < j < |b| ==> b[i] != b[j]
    ensures forall x :: x in a <==> x in b
  {
    assert forall x :: x in a <==> x in multiset(a);
    assert forall x :: x in b <==> x in multiset(b);
    forall i, j | 0 <= i < j < |b|
      ensures b[i] != b[j]
    {
      DistinctMultiset(a, b[i]);
      TwiceIsTwo(b, i, j);
    }
  }

  lemma TwiceIsTwo<T>(s: seq<T>, i: nat, j: nat)
    requires i < j < |s|
    ensures s[i] == s[j] ==> multiset(s)[s[i]] >= 2
  {
    assert s == s[..j] + [s[j]] + s[j + 1..];
    assert s[..j][i] == s[i];
    assert s[i] in multiset(s[..j]);
  }

  lemma SourcesAreLinear(le: (Text, Text) -> bool, byKey: (Source, Source) -> bool)
    requires Linear(le) && forall a, b :: byKey(a, b) == SourceLe(le, a, b)
    ensures Linear(byKey)
  {
    hide KindName;
    forall a: Source, b: Source
      ensures byKey(a, b) || byKey(b, a)
    {
      assert le(KindName(a.kind), KindName(b.kind)) || le(KindName(b.kind), KindName(a.kind));
      assert le(a.id, b.id) || le(b.id, a.id);
    }
    forall a: Source, b: Source, c: Source | byKey(a, b) && byKey(b, c)
      ensures byKey(a, c)
    {
      KeysCompose(le, a, b, c);
    }
  }

  lemma KeysCompose(le: (Text, Text) -> bool, a: Source, b: Source, c: Source)
    requires Linear(le) && SourceLe(le, a, b) && SourceLe(le, b, c)
    ensures SourceLe(le, a, c)
  {
    hide KindName;
    var x, y, z := KindName(a.kind), KindName(b.kind), KindName(c.kind);
    assert le(x, y) && le(y, z) && le(x, z);
    if le(z, x) {
      assert le(y, x) && le(z, y);
      assert le(a.id, b.id) && le(b.id, c.id);
    }
  }

  method OwnSources(sources: seq<Source>, itemId: Text) returns (own: seq<Source>)
    ensures forall x :: x in own <==> x in sources && External(x) && x.itemId == itemId
  {
    own := [];
    for n := 0 to |sources|
      invariant forall x :: x in own <==> x in sources[..n] && External(x) && x.itemId == itemId
    {
      if sources[n].itemId == itemId && External(sources[n]) { own := own + [sources[n]]; }
    }
    assert sources[..|sources|] == sources;
  }

  lemma FirstIsLeast<T(!new)>(le: (T, T) -> bool, s: seq<T>)
    requires Linear(le) && s != []
    ensures var sorted := InsertionSort(le, s);
            sorted != [] && sorted[0] in s && forall x :: x in s ==> le(sorted[0], x)
  {
    SortSorts(le, s);
    var sorted := InsertionSort(le, s);
    assert forall x :: x in s <==> x in multiset(s);
    assert forall x :: x in sorted <==> x in multiset(sorted);
    assert s[0] in sorted;
    forall x | x in s
      ensures le(sorted[0], x)
    {
      var k :| 0 <= k < |sorted| && sorted[k] == x;
    }
  }

  /** The first external source of an item, by kind and then by identifier. */
  method LeastSource(le: (Text, Text) -> bool, sources: seq<Source>, itemId: Text) returns (s: Source)
    requires Linear(le) && HasExternal(sources, itemId)
    ensures Least(le, sources, itemId, s)
  {
    hide Linear, Sorted, External, SourceLe;
    var own := OwnSources(sources, itemId);
    assert own != [] by {
      var i :| 0 <= i < |sources| && External(sources[i]) && sources[i].itemId == itemId;
      assert sources[i] in own;
    }
    var byKey := (a: Source, b: Source) => SourceLe(le, a, b);
    SourcesAreLinear(le, byKey);
    FirstIsLeast(byKey, own);
    s := InsertionSort(byKey, own)[0];
  }

  /** The actionable items sorted by identifier. */
  method SortedItems(le: (Text, Text) -> bool, st: Backlog, me: Owner) returns (items: seq<Item>)
    requires Linear(le) && DistinctItems(st.items)
    ensures Sorted((a: Item, b: Item) => le(a.id, b.id), items) && DistinctItems(items)
    ensures forall item :: item in items <==> item in st.items && Actionable(st, item, me)
  {
    hide Actionable, Linear;
    var found := ActionableItems(st, me);
    var byId := (a: Item, b: Item) => le(a.id, b.id);
    assert Linear(byId) by { ItemsAreLinear(le, byId); }
    items := InsertionSort(byId, found);
    SortSorts(byId, found);
    PermutationStaysDistinct(found, items);
  }

  lemma ItemsAreLinear(le: (Text, Text) -> bool, byId: (Item, Item) -> bool)
    requires Linear(le) && forall a, b :: byId(a, b) == le(a.id, b.id)
    ensures Linear(byId)
  {
  }

  ghost predicate AllDigested(requirements: seq<Requirement>, items: seq<Item>, digests: seq<seq<Digest>>) {
    |digests| == |items| && forall k :: 0 <= k < |items| ==> Digested(requirements, items[k].id, digests[k])
  }

  method DigestsOfItems(requirements: seq<Requirement>, items: seq<Item>) returns (digests: seq<seq<Digest>>)
    ensures AllDigested(requirements, items, digests)
  {
    hide DigestsOf, Sorted;
    var byItem := DigestsByItem(requirements);
    digests := [];
    for n := 0 to |items|
      invariant |digests| == n && forall k :: 0 <= k < n ==> Digested(requirements, items[k].id, digests[k])
    {
      var distinct := DistinctDigests(if items[n].id in byItem then byItem[items[n].id] else []);
      digests := digests + [distinct];
    }
  }

  method FirstReferences(le: (Text, Text) -> bool, sources: seq<Source>, items: seq<Item>)
    returns (references: seq<Source>)
    requires Linear(le) && forall item :: item in items ==> HasExternal(sources, item.id)
    ensures |references| == (if |items| <= 5 then |items| else 5)
    ensures forall k :: 0 <= k < |references| ==> Least(le, sources, items[k].id, references[k])
  {
    hide Linear, Least, HasExternal;
    references := [];
    var first := if |items| <= 5 then |items| else 5;
    for n := 0 to first
      invariant |references| == n && forall k :: 0 <= k < n ==> Least(le, sources, items[k].id, references[k])
    {
      var least := LeastSource(le, sources, items[n].id);
      references := references + [least];
    }
  }

  /** What a wake carries, composed as the program does: filter, sort, distinct digests, first references. */
  method WakeContent(le: (Text, Text) -> bool, st: Backlog, me: Owner) returns (c: Content)
    requires Linear(le) && DistinctItems(st.items)
    ensures Says(le, st, me, c)
  {
    hide Linear, Least, Digested, Sorted;
    var items := SortedItems(le, st, me);
    var digests := DigestsOfItems(st.requirements, items);
    forall item | item in items
      ensures HasExternal(st.sources, item.id)
    {
      assert Actionable(st, item, me);
    }
    hide Actionable;
    var references := FirstReferences(le, st.sources, items);
    c := Content(items, digests, references);
  }

  // ----- the wake -----

  /** What is hashed of an item, and what a wake names of a source. */
  datatype Told = Told(id: Text, kind: StateKind, priority: Priority, digests: seq<Digest>)

  datatype Reference = Reference(itemId: Text, kind: SourceKind, id: Text)

  type Hash = (Text, Text, Text, Text, seq<Told>, seq<Reference>) -> Digest

  datatype Plan = Plan(fingerprint: Digest, actionable: nat, role: Text, references: seq<Reference>)

  datatype WakeInput = WakeInput(
    st: Backlog, leases: seq<Lease>, agentId: Text, project: Text, now: int,
    active: bool, tools: bool, available: bool, entries: seq<Entry>, last: Option<Digest>)

  function ToldOf(c: Content): seq<Told>
    requires |c.digests| == |c.items|
  {
    seq(|c.items|, k requires 0 <= k < |c.items| =>
      Told(c.items[k].id, c.items[k].state.Kind(), c.items[k].priority, c.digests[k]))
  }

  function ReferencesOf(c: Content): seq<Reference> {
    seq(|c.references|, k requires 0 <= k < |c.references| =>
      Reference(c.references[k].itemId, c.references[k].kind, c.references[k].id))
  }

  /** The agent's operational leases of the project, in force, in the order the snapshot lists them. */
  function OwnLeases(leases: seq<Lease>, input: WakeInput): seq<Lease> {
    if leases == [] then []
    else
      var lease := leases[0];
      (if lease.owner.id == input.agentId && lease.status.Active? && lease.project == input.project
          && lease.mode.Operational? && lease.expiresAt > input.now then [lease] else [])
      + OwnLeases(leases[1..], input)
  }

  function LeaseIds(leases: seq<Lease>): seq<Text> {
    seq(|leases|, i requires 0 <= i < |leases| => leases[i].id)
  }

  function OwnerOf(input: WakeInput): Owner {
    Owner(input.project, input.agentId, LeaseIds(OwnLeases(input.leases, input)))
  }

  /** Nothing to do or nothing new says nothing. */
  function PlanOf(hash: Hash, input: WakeInput, lease: Lease, c: Content): Option<Plan>
    requires |c.digests| == |c.items|
  {
    if c.items == [] then None else
      var fingerprint := hash(input.project, lease.role, lease.id, input.agentId, ToldOf(c), ReferencesOf(c));
      if Some(fingerprint) == input.last then None
      else Some(Plan(fingerprint, |c.items|, lease.role, ReferencesOf(c)))
  }

  ghost predicate Plans(
    le: (Text, Text) -> bool, hash: Hash, input: WakeInput, r: Result<Option<Plan>, Registry.RegistryError>)
  {
    if !input.active || !input.tools || !input.available then r == Ok(None)
    else exists v :: ScanSays(input.entries, v) && PlansAfter(le, hash, input, v, r)
  }

  ghost predicate PlansAfter(
    le: (Text, Text) -> bool, hash: Hash, input: WakeInput, v: Verdict,
    r: Result<Option<Plan>, Registry.RegistryError>)
  {
    var own := OwnLeases(input.leases, input);
    if v.Corrupt? then r == Err(Registry.RegistryError.Corrupt)
    else if v.Hold? || own == [] then r == Ok(None)
    else exists c ::
      Says(le, input.st, OwnerOf(input), c) && |c.digests| == |c.items| && r == Ok(PlanOf(hash, input, own[0], c))
  }

  /** The whole decision whether to wake, and with what. */
  method OperationalBacklogWake(le: (Text, Text) -> bool, hash: Hash, input: WakeInput)
    returns (r: Result<Option<Plan>, Registry.RegistryError>)
    requires Linear(le) && DistinctItems(input.st.items)
    ensures Plans(le, hash, input, r)
  {
    hide Linear, Says, ScanSays, DistinctItems;
    if !input.active || !input.tools || !input.available { return Ok(None); }
    var verdict := ScanEntries(input.entries);
    if verdict.Corrupt? { return Err(Registry.RegistryError.Corrupt); }
    if verdict.Hold? { return Ok(None); }
    var own := OwnLeases(input.leases, input);
    if own == [] { return Ok(None); }
    var c := WakeContent(le, input.st, OwnerOf(input));
    assert |c.digests| == |c.items| by { SaysAllDigests(le, input.st, OwnerOf(input), c); }
    return Ok(PlanOf(hash, input, own[0], c));
  }

  /** The session's last pause was lifted and its last circuit closed, as far as there are any. */
  ghost predicate Unobjected(entries: seq<Entry>) {
    forall i :: 0 <= i < |entries| ==>
      && (entries[i].Pause? && (forall j :: i < j < |entries| ==> !entries[j].Pause?) ==>
            entries[i].valid && !entries[i].paused)
      && (entries[i].Circuit? && (forall j :: i < j < |entries| ==> !entries[j].Circuit?) ==>
            entries[i].valid && !entries[i].open)
  }

  /** An operational lease of the agent's own in the project, active and unexpired. */
  predicate OwnLease(lease: Lease, input: WakeInput) {
    && lease.owner.id == input.agentId && lease.project == input.project && lease.mode == Operational
    && lease.status == Active && lease.expiresAt > input.now
  }

  /** Work of the project from outside - a request, a tracker item or a document - that is ready, or that the agent
      holds under one of its operational leases. */
  ghost predicate HasWork(input: WakeInput, item: Item) {
    && item in input.st.items && item.project == input.project
    && (exists s :: s in input.st.sources && s.itemId == item.id
          && (s.kind == RegistryRequest || s.kind == TrackerItem || s.kind == BacklogDocument))
    && (item.state == Ready
        || (item.state.Held() && item.state.agentId == input.agentId
            && exists l :: l in input.leases && OwnLease(l, input) && l.id == item.state.leaseId))
  }

  lemma {:induction false} OwnLeasesAre(leases: seq<Lease>, input: WakeInput)
    ensures forall l :: l in OwnLeases(leases, input) <==> l in leases && OwnLease(l, input)
  {
    if leases != [] {
      OwnLeasesAre(leases[1..], input);
      assert forall l :: l in leases <==> l == leases[0] || l in leases[1..];
    }
  }

  lemma WorkIsActionable(input: WakeInput, item: Item)
    ensures item in input.st.items && Actionable(input.st, item, OwnerOf(input)) <==> HasWork(input, item)
  {
    OwnLeasesAre(input.leases, input);
    var own := OwnLeases(input.leases, input);
    assert forall id :: id in LeaseIds(own) <==> exists l :: l in own && l.id == id by {
      forall id
        ensures id in LeaseIds(own) <==> exists l :: l in own && l.id == id
      {
        if id in LeaseIds(own) {
          var i :| 0 <= i < |LeaseIds(own)| && LeaseIds(own)[i] == id;
          assert own[i] in own;
        }
        if l :| l in own && l.id == id {
          var i :| 0 <= i < |own| && own[i] == l;
          assert LeaseIds(own)[i] == id;
        }
      }
    }
    hide OwnLeases, LeaseIds;
    if HasWork(input, item) {
      var s :| s in input.st.sources && s.itemId == item.id && External(s);
      var i :| 0 <= i < |input.st.sources| && input.st.sources[i] == s;
    }
  }

  lemma GoIffUnobjected(entries: seq<Entry>, v: Verdict)
    requires ScanSays(entries, v)
    ensures v.Go? <==> Unobjected(entries)
  {
    if v.Go? {
      forall i | 0 <= i < |entries|
        ensures entries[i].Pause? && (forall j :: i < j < |entries| ==> !entries[j].Pause?) ==>
                  entries[i].valid && !entries[i].paused
        ensures entries[i].Circuit? && (forall j :: i < j < |entries| ==> !entries[j].Circuit?) ==>
                  entries[i].valid && !entries[i].open
      {
        assert Rules(entries, i) ==> Ruling(entries[i]).Go?;
      }
    } else {
      var i :| Objects(entries, i) && Ruling(entries[i]) == v;
      assert Rules(entries, i) && !Ruling(entries[i]).Go?;
    }
  }

  /** There is something to wake for: an active session with its tools, room for a message and no objection, an
      operational lease in force, and work. */
  ghost predicate Wakeable(input: WakeInput) {
    && input.active && input.tools && input.available && Unobjected(input.entries)
    && (exists l :: l in input.leases && OwnLease(l, input))
    && exists item :: HasWork(input, item)
  }

  /** A wake is planned exactly when there is something to wake for, unless its fingerprint is the last one's. */
  lemma WakesIff(
    le: (Text, Text) -> bool, hash: Hash, input: WakeInput, r: Result<Option<Plan>, Registry.RegistryError>)
    requires Plans(le, hash, input, r)
    ensures r.Ok? && r.value.Some? ==> Wakeable(input) && Some(r.value.value.fingerprint) != input.last
    ensures Wakeable(input) ==> r.Ok? && (r.value.None? ==> input.last.Some?)
  {
    hide Unobjected, ScanSays, HasWork, Digested, Sorted, Least, Actionable;
    if input.active && input.tools && input.available {
      var v :| ScanSays(input.entries, v) && PlansAfter(le, hash, input, v, r);
      GoIffUnobjected(input.entries, v);
      OwnLeasesAre(input.leases, input);
      var own := OwnLeases(input.leases, input);
      if own != [] { assert own[0] in own; }
      if v.Go? && own != [] {
        var c :| Says(le, input.st, OwnerOf(input), c) && |c.digests| == |c.items|
          && r == Ok(PlanOf(hash, input, own[0], c));
        forall item
          ensures item in c.items <==> HasWork(input, item)
        {
          WorkIsActionable(input, item);
        }
        if c.items != [] { assert c.items[0] in c.items; }
      }
    }
  }

  lemma SaysAllDigests(le: (Text, Text) -> bool, st: Backlog, me: Owner, c: Content)
    requires Says(le, st, me, c)
    ensures |c.digests| == |c.items|
  {
  }

  /** The decision does not depend on the order in which items, sources and requirements were read. */
  lemma PlanIgnoresRowOrder(
    le: (Text, Text) -> bool, hash: Hash, a: WakeInput, b: WakeInput,
    r: Result<Option<Plan>, Registry.RegistryError>, q: Result<Option<Plan>, Registry.RegistryError>)
    requires TellsApart(le) && Named(a.st) && UniqueRows(a.st)
    requires b == a.(st := b.st) && SameLedger(a.st, b.st)
    requires Plans(le, hash, a, r) && Plans(le, hash, b, q)
    ensures r == q
  {
    hide TellsApart, Named, Says, ScanSays, SameLedger, UniqueRows;
    SameLeases(a.leases, a, b);
    if a.active && a.tools && a.available {
      var v :| ScanSays(a.entries, v) && PlansAfter(le, hash, a, v, r);
      var w :| ScanSays(b.entries, w) && PlansAfter(le, hash, b, w, q);
      OneVerdict(a.entries, v, w);
      if v.Go? && OwnLeases(a.leases, a) != [] {
        var c :| Says(le, a.st, OwnerOf(a), c) && |c.digests| == |c.items|
          && r == Ok(PlanOf(hash, a, OwnLeases(a.leases, a)[0], c));
        var d :| Says(le, b.st, OwnerOf(b), d) && |d.digests| == |d.items|
          && q == Ok(PlanOf(hash, b, OwnLeases(b.leases, b)[0], d));
        WakeIgnoresRowOrder(le, a.st, b.st, OwnerOf(a), c, d);
      }
    }
  }

  lemma {:induction false} SameLeases(leases: seq<Lease>, a: WakeInput, b: WakeInput)
    requires b == a.(st := b.st)
    ensures OwnLeases(leases, a) == OwnLeases(leases, b)
  {
    if leases != [] { SameLeases(leases[1..], a, b); }
  }

  /** Two readings of the same tables, in whatever row order, give the same decision. */
  lemma ReloadingGivesTheSamePlan(
    le: (Text, Text) -> bool, hash: Hash, t: Tables, a: WakeInput, b: WakeInput,
    r: Result<Option<Plan>, Registry.RegistryError>, q: Result<Option<Plan>, Registry.RegistryError>)
    requires TellsApart(le) && b == a.(st := b.st) && LoaderAccepts(a.st)
    requires Represents(t, a.project, a.st) && Represents(t, a.project, b.st)
    requires Plans(le, hash, a, r) && Plans(le, hash, b, q)
    ensures DistinctItems(a.st.items) && r == q
  {
    hide Plans, UniqueRows, TellsApart, SameLedger, Named, LoaderAccepts;
    AcceptedIsNamed(a.st);
    LoadedItemsAreDistinct(t, a.project, a.st);
    ReloadGivesTheSame(t, a.project, a.st, b.st);
    RowsAreUnique(t, a.project, a.st);
    PlanIgnoresRowOrder(le, hash, a, b, r, q);
  }

  lemma AcceptedIsNamed(st: Backlog)
    requires LoaderAccepts(st)
    ensures Named(st)
  {
    hide IsIdentifier, StateSafe, SafeText, EvidenceReconciles;
  }

  lemma LoadedItemsAreDistinct(t: Tables, project: Text, st: Backlog)
    requires Represents(t, project, st)
    ensures DistinctItems(st.items)
  {
  }

  // ----- the controller -----

  datatype SessionEvent = SessionStarts | SessionShutsDown

  datatype Sent = Sent(generation: nat, fingerprint: Digest)

  class WakeController {
    var active: bool
    var generation: nat
    var lastFingerprint: Option<Digest>
    ghost var sent: seq<Sent>

    /** No two wakes in a row of one session agree. */
    ghost predicate History()
      reads this
    {
      && (forall k :: 0 <= k < |sent| ==> sent[k].generation <= generation)
      && (forall k :: 0 < k < |sent| && sent[k - 1].generation == sent[k].generation ==>
            sent[k - 1].fingerprint != sent[k].fingerprint)
    }

    /** The last fingerprint is the one the running session heard last. */
    ghost predicate Valid()
      reads this
    {
      && History()
      && (lastFingerprint.Some? ==> active && sent != [] && sent[|sent| - 1] == Sent(generation, lastFingerprint.value))
      && (active && sent != [] && sent[|sent| - 1].generation == generation ==>
            lastFingerprint == Some(sent[|sent| - 1].fingerprint))
    }

    constructor ()
      ensures Valid() && sent == [] && !active
    {
      active, generation, lastFingerprint := false, 0, None;
      sent := [];
    }

    method SessionEvent(event: SessionEvent)
      requires History()
      modifies this
      ensures Valid() && sent == old(sent)
      ensures generation == old(generation) + 1 && active == event.SessionStarts? && lastFingerprint.None?
    {
      generation := generation + 1;
      active := event.SessionStarts?;
      lastFingerprint := None;
    }

    /** One reconciliation begun in some generation: `found` is the fingerprint of what there is to say, if anything,
        `delivered` whether the host takes the message, `during` what happens to the session while it does. */
    method Reconcile(expected: nat, found: Option<Digest>, delivered: bool, during: seq<SessionEvent>)
      requires Valid()
      modifies this
      ensures Valid()
      ensures sent == old(sent) ||
              (old(active) && expected == old(generation) && delivered && found.Some? && found != old(lastFingerprint)
               && sent == old(sent) + [Sent(expected, found.value)])
      ensures old(active) && expected == old(generation) && delivered && found.Some?
              && found != old(lastFingerprint) ==>
                sent != old(sent)
    {
      if !active || expected != generation { return; }
      if found.None? || found == lastFingerprint { return; }
      if !delivered { return; }
      sent := sent + [Sent(expected, found.value)];
      for i := 0 to |during|
        invariant History() && sent == old(sent) + [Sent(expected, found.value)]
        invariant if i == 0 then active && generation == expected else generation > expected && Valid()
      {
        SessionEvent(during[i]);
      }
      if active && expected == generation { lastFingerprint := found; }
    }
  }
}
