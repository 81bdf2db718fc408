/** What the snapshot decoder admits, and when a request's chunks pass as requirements (canonical-backlog.ts,
    sqlite-store.ts). */
module Decoding {
  import opened Wrappers
  import opened Texts
  import opened Ledger
  import opened Chunks
  import opened Reconcile
  import opened ReconcileAgain

  // ----- snapshot items -----

  predicate SafeRequirement(t: Text) {
    Trim(t) != [] && |t| <= MAX_REQUIREMENT_UNITS && !HasUnsafeControl(t)
  }

  /** One record with its canonical identifier passes the decoder. */
  predicate CanonicalItem(scopeId: Text, item: (Text, FeedRecord)) {
    && IsIdentifier(item.0) && IsIdentifier(item.1.sourceId)
    && StartsWith(item.1.sourceId, scopeId + [COLON] + item.0 + [COLON])
    && 0 < |item.1.requirements| <= 32
    && (forall i :: 0 <= i < |item.1.requirements| ==> SafeRequirement(item.1.requirements[i]))
    && (if item.1.status.FeedBlocked? then SafeRequirement(item.1.reason) else item.1.reason == [])
  }

  ghost predicate Distinct(items: seq<(Text, FeedRecord)>) {
    forall i, j :: 0 <= i < j < |items| ==> items[i].0 != items[j].0 && items[i].1.sourceId != items[j].1.sourceId
  }

  /** The decoder's loop accepts exactly the lists of canonical items without a repeated identifier or source. */
  method CanonicalItems(scopeId: Text, items: seq<(Text, FeedRecord)>) returns (accepted: bool)
    ensures accepted <==> (forall i :: 0 <= i < |items| ==> CanonicalItem(scopeId, items[i])) && Distinct(items)
  {
    hide CanonicalItem;
    var sourceIds: set<Text> := {};
    var canonicalIds: set<Text> := {};
    for index := 0 to |items|
      invariant forall s :: s in sourceIds <==> exists i :: 0 <= i < index && items[i].1.sourceId == s
      invariant forall c :: c in canonicalIds <==> exists i :: 0 <= i < index && items[i].0 == c
      invariant forall i :: 0 <= i < index ==> CanonicalItem(scopeId, items[i])
      invariant Distinct(items[..index])
    {
      var item := items[index];
      if !CanonicalItem(scopeId, item) || item.1.sourceId in sourceIds || item.0 in canonicalIds {
        return false;
      }
      sourceIds := sourceIds + {item.1.sourceId};
      canonicalIds := canonicalIds + {item.0};
    }
    assert items[..|items|] == items;
    return true;
  }

  // ----- records grouped by identifier -----

  predicate HeldIn(groups: seq<(Text, seq<FeedRecord>)>, record: (Text, FeedRecord)) {
    exists i, a :: 0 <= i < |groups| && 0 <= a < |groups[i].1| && groups[i].0 == record.0 && groups[i].1[a] == record.1
  }

  predicate GroupsApart(groups: seq<(Text, seq<FeedRecord>)>) {
    forall i, j, a, b :: 0 <= i < j < |groups| && 0 <= a < |groups[i].1| && 0 <= b < |groups[j].1| ==>
      groups[i].1[a].sourceId != groups[j].1[b].sourceId
  }

  predicate NewSourceIn(groups: seq<(Text, seq<FeedRecord>)>, sourceId: Text) {
    forall i, a :: 0 <= i < |groups| && 0 <= a < |groups[i].1| ==> groups[i].1[a].sourceId != sourceId
  }

  lemma {:induction false} AddedIsHeld(
      groups: seq<(Text, seq<FeedRecord>)>, id: Text, record: FeedRecord, x: (Text, FeedRecord))
    requires forall i :: 0 <= i < |groups| ==> groups[i].1 != []
    requires HeldIn(AddTo(groups, id, record), x)
    ensures HeldIn(groups, x) || x == (id, record)
  {
    var r := AddTo(groups, id, record);
    var i, a :| 0 <= i < |r| && 0 <= a < |r[i].1| && r[i].0 == x.0 && r[i].1[a] == x.1;
    if groups != [] && groups[0].0 != id && i > 0 {
      var rest := groups[1..];
      assert forall k :: 0 <= k < |rest| ==> rest[k] == groups[k + 1];
      assert AddTo(rest, id, record)[i - 1] == r[i];
      AddedIsHeld(rest, id, record, x);
      if HeldIn(rest, x) {
        var k, c :| 0 <= k < |rest| && 0 <= c < |rest[k].1| && rest[k].0 == x.0 && rest[k].1[c] == x.1;
        assert groups[k + 1].0 == x.0 && groups[k + 1].1[c] == x.1;
      }
    }
  }

  lemma {:induction false} RegroupedIsHeld(records: seq<(Text, FeedRecord)>, x: (Text, FeedRecord))
    requires HeldIn(Regroup(records), x)
    ensures x in records
  {
    if records != [] {
      var front, last := records[..|records| - 1], records[|records| - 1];
      AddedIsHeld(Regroup(front), last.0, last.1, x);
      if x != last { RegroupedIsHeld(front, x); }
    }
  }

  lemma {:induction false} AddedStaysApart(groups: seq<(Text, seq<FeedRecord>)>, id: Text, record: FeedRecord)
    requires forall i :: 0 <= i < |groups| ==> groups[i].1 != []
    requires GroupsApart(groups) && NewSourceIn(groups, record.sourceId)
    ensures GroupsApart(AddTo(groups, id, record))
  {
    if groups != [] && groups[0].0 != id {
      var rest := groups[1..];
      assert forall i :: 0 <= i < |rest| ==> rest[i] == groups[i + 1];
      AddedStaysApart(rest, id, record);
      var r := AddTo(rest, id, record);
      forall i, a, b | 0 <= i < |r| && 0 <= a < |groups[0].1| && 0 <= b < |r[i].1|
        ensures groups[0].1[a].sourceId != r[i].1[b].sourceId
      {
        AddedIsHeld(rest, id, record, (r[i].0, r[i].1[b]));
      }
    }
  }

  /** Grouping records of distinct sources keeps the groups' sources apart. */
  lemma {:induction false} RegroupedStaysApart(records: seq<(Text, FeedRecord)>)
    requires forall i, j :: 0 <= i < j < |records| ==> records[i].1.sourceId != records[j].1.sourceId
    ensures GroupsApart(Regroup(records))
  {
    if records != [] {
      var front, last := records[..|records| - 1], records[|records| - 1];
      RegroupedStaysApart(front);
      var groups := Regroup(front);
      forall i, a | 0 <= i < |groups| && 0 <= a < |groups[i].1|
        ensures groups[i].1[a].sourceId != last.1.sourceId
      {
        RegroupedIsHeld(front, (groups[i].0, groups[i].1[a]));
      }
      AddedStaysApart(groups, last.0, last.1);
    }
  }

  /** What a decoder admits about a record and its identifier, and about two records of one identifier. */
  predicate DecodedRecords(scope: Text, records: seq<(Text, FeedRecord)>) {
    && (forall i :: 0 <= i < |records| ==>
          IsIdentifier(records[i].1.sourceId) && StartsWith(records[i].1.sourceId, scope + records[i].0 + [COLON]))
    && (forall i, j :: 0 <= i < j < |records| ==> records[i].1.sourceId != records[j].1.sourceId)
    && (forall i, j :: 0 <= i < j < |records| && records[i].0 == records[j].0 ==>
          records[i].1.status == records[j].1.status)
  }

  /** The records of one group carry its identifier and agree on the status. */
  predicate DecodedPages(scope: Text, group: (Text, seq<FeedRecord>)) {
    forall a :: 0 <= a < |group.1| ==>
      && IsIdentifier(group.1[a].sourceId) && StartsWith(group.1[a].sourceId, scope + group.0 + [COLON])
      && group.1[a].status == group.1[0].status
  }

  lemma GroupsAreDecoded(scope: Text, records: seq<(Text, FeedRecord)>)
    requires DecodedRecords(scope, records)
    ensures GroupsApart(Regroup(records))
    ensures forall i :: 0 <= i < |Regroup(records)| ==> DecodedPages(scope, Regroup(records)[i])
  {
    hide IsIdentifier, StartsWith, Regroup;
    RegroupedStaysApart(records);
    var groups := Regroup(records);
    forall i, a | 0 <= i < |groups| && 0 <= a < |groups[i].1|
      ensures IsIdentifier(groups[i].1[a].sourceId)
      ensures StartsWith(groups[i].1[a].sourceId, scope + groups[i].0 + [COLON])
      ensures groups[i].1[a].status == groups[i].1[0].status
    {
      RegroupedIsHeld(records, (groups[i].0, groups[i].1[a]));
      RegroupedIsHeld(records, (groups[i].0, groups[i].1[0]));
    }
  }

  /** What the decoders admit is decoded in the sense of the reconciliation results: one record for every canonical
      item, any number of pages for a branch todo. */
  lemma DecodedFeeds(project: Text, kind: SourceKind, scopeId: Text, observedAt: int, records: seq<(Text, FeedRecord)>)
    ensures DecodedSnapshot(scopeId, records) ==> Decoded(CanonicalFeed(project, kind, scopeId, observedAt, records))
    ensures DecodedTodos(records) ==> Decoded(BranchTodoFeed(project, observedAt, records))
  {
    if DecodedSnapshot(scopeId, records) { CanonicalIsDecoded(project, kind, scopeId, observedAt, records); }
    if DecodedTodos(records) { TodosAreDecoded(project, observedAt, records); }
  }

  lemma CanonicalIsDecoded(
    project: Text, kind: SourceKind, scopeId: Text, observedAt: int, records: seq<(Text, FeedRecord)>)
    requires DecodedSnapshot(scopeId, records)
    ensures Decoded(CanonicalFeed(project, kind, scopeId, observedAt, records))
  {
    hide IsIdentifier, StartsWith, KindName, Regroup;
    assert DecodedRecords(scopeId + [COLON], records);
    GroupsAreDecoded(scopeId + [COLON], records);
  }

  lemma TodosAreDecoded(project: Text, observedAt: int, records: seq<(Text, FeedRecord)>)
    requires DecodedTodos(records)
    ensures Decoded(BranchTodoFeed(project, observedAt, records))
  {
    hide IsIdentifier, StartsWith, Regroup;
    assert forall t: Text :: [] + t + [COLON] == t + [COLON];
    assert DecodedRecords([], records);
    GroupsAreDecoded([], records);
  }

  // ----- branch todos and their pages -----

  datatype Page = Page(index: int, count: int)

  datatype Todo = Todo(canonicalId: Text, record: FeedRecord, page: Option<Page>)

  /** One todo passes on its own. */
  predicate CanonicalTodo(todo: Todo) {
    && IsIdentifier(todo.canonicalId) && IsIdentifier(todo.record.sourceId)
    && StartsWith(todo.record.sourceId, todo.canonicalId + [COLON])
    && 0 < |todo.record.requirements| <= 32
    && (forall i :: 0 <= i < |todo.record.requirements| ==> SafeRequirement(todo.record.requirements[i]))
    && (todo.page.Some? ==> 0 <= todo.page.value.index < todo.page.value.count <= MAX_TODOS)
    && (if todo.record.status.FeedBlocked? then SafeRequirement(todo.record.reason) else todo.record.reason == [])
  }

  const MAX_TODOS := 5_000

  function TodosOf(todos: seq<Todo>, id: Text): seq<Todo> {
    if todos == [] then []
    else
      var last := todos[|todos| - 1];
      TodosOf(todos[..|todos| - 1], id) + if last.canonicalId == id then [last] else []
  }

  predicate SamePages(first: Todo, todo: Todo) {
    && first.page.Some? && todo.page.Some? && todo.page.value.count == first.page.value.count
    && todo.record.status == first.record.status && todo.record.reason == first.record.reason
  }

  /** A todo without pages stands alone; with pages it has each of them once, all of one status and reason. */
  predicate PagesAgree(todos: seq<Todo>)
    requires todos != []
  {
    if todos[0].page.None? then |todos| == 1
    else
      && |todos| == todos[0].page.value.count
      && (forall i :: 0 <= i < |todos| ==> SamePages(todos[0], todos[i]))
      && (forall i, j :: 0 <= i < j < |todos| ==> todos[i].page.value.index != todos[j].page.value.index)
  }

  predicate DistinctTodos(todos: seq<Todo>) {
    forall i, j :: 0 <= i < j < |todos| ==> todos[i].record.sourceId != todos[j].record.sourceId
  }

  ghost predicate AdmittedTodos(todos: seq<Todo>) {
    && |todos| <= MAX_TODOS && (forall i :: 0 <= i < |todos| ==> CanonicalTodo(todos[i])) && DistinctTodos(todos)
    && (forall id :: TodosOf(todos, id) != [] ==> PagesAgree(TodosOf(todos, id)))
  }

  method AgreeingPages(todos: seq<Todo>) returns (agree: bool)
    requires todos != []
    ensures agree <==> PagesAgree(todos)
  {
    var first := todos[0];
    if first.page.None? { return |todos| == 1; }
    if |todos| != first.page.value.count { return false; }
    var indexes: set<int> := {};
    for i := 0 to |todos|
      invariant forall k :: 0 <= k < i ==> SamePages(first, todos[k])
      invariant forall n :: n in indexes <==> exists k :: 0 <= k < i && todos[k].page.value.index == n
      invariant forall k, l :: 0 <= k < l < i ==> todos[k].page.value.index != todos[l].page.value.index
    {
      if !SamePages(first, todos[i]) || todos[i].page.value.index in indexes { return false; }
      indexes := indexes + {todos[i].page.value.index};
    }
    return true;
  }

  method DistinctSources(todos: seq<Todo>) returns (distinct: bool)
    ensures distinct <==> DistinctTodos(todos)
  {
    var sourceIds: set<Text> := {};
    for i := 0 to |todos|
      invariant forall s :: s in sourceIds <==> exists k :: 0 <= k < i && todos[k].record.sourceId == s
      invariant DistinctTodos(todos[..i])
    {
      if todos[i].record.sourceId in sourceIds { return false; }
      sourceIds := sourceIds + {todos[i].record.sourceId};
    }
    assert todos[..|todos|] == todos;
    return true;
  }

  method GroupedTodos(todos: seq<Todo>) returns (groups: map<Text, seq<Todo>>)
    ensures forall id :: id in groups <==> TodosOf(todos, id) != []
    ensures forall id :: id in groups ==> groups[id] == TodosOf(todos, id)
  {
    groups := map[];
    for i := 0 to |todos|
      invariant forall id :: id in groups <==> TodosOf(todos[..i], id) != []
      invariant forall id :: id in groups ==> groups[id] == TodosOf(todos[..i], id)
    {
      var todo := todos[i];
      assert todos[..i + 1][..i] == todos[..i];
      var records := if todo.canonicalId in groups then groups[todo.canonicalId] else [];
      groups := groups[todo.canonicalId := records + [todo]];
    }
    assert todos[..|todos|] == todos;
  }

  /** The decoder accepts exactly the admitted todos. */
  method BranchTodos(todos: seq<Todo>) returns (accepted: bool)
    ensures accepted <==> AdmittedTodos(todos)
  {
    hide CanonicalTodo, PagesAgree, DistinctTodos, TodosOf;
    if |todos| > MAX_TODOS || !(forall i :: 0 <= i < |todos| ==> CanonicalTodo(todos[i])) { return false; }
    var distinct := DistinctSources(todos);
    if !distinct { return false; }
    var groups := GroupedTodos(todos);
    accepted := AgreeingGroups(groups);
  }

  method AgreeingGroups(groups: map<Text, seq<Todo>>) returns (agree: bool)
    requires forall id :: id in groups ==> groups[id] != []
    ensures agree <==> forall id :: id in groups ==> PagesAgree(groups[id])
  {
    hide PagesAgree;
    var ids := groups.Keys;
    while ids != {}
      invariant ids <= groups.Keys
      invariant forall id :: id in groups.Keys - ids ==> PagesAgree(groups[id])
    {
      var id :| id in ids;
      agree := AgreeingPages(groups[id]);
      if !agree { return; }
      ids := ids - {id};
    }
    return true;
  }

  function Records(todos: seq<Todo>): seq<(Text, FeedRecord)> {
    seq(|todos|, i requires 0 <= i < |todos| => (todos[i].canonicalId, todos[i].record))
  }

  lemma {:induction false} TodoIsOf(todos: seq<Todo>, i: nat)
    requires i < |todos|
    ensures todos[i] in TodosOf(todos, todos[i].canonicalId)
  {
    if i < |todos| - 1 { TodoIsOf(todos[..|todos| - 1], i); }
  }

  lemma {:induction false} OneOfEach(todos: seq<Todo>, id: Text)
    requires forall i, j :: 0 <= i < j < |todos| ==> todos[i].canonicalId != todos[j].canonicalId
    ensures |TodosOf(todos, id)| <= 1
    ensures forall todo :: todo in TodosOf(todos, id) ==> todo in todos && todo.canonicalId == id
  {
    if todos != [] {
      var front := todos[..|todos| - 1];
      OneOfEach(front, id);
      if TodosOf(front, id) != [] { assert TodosOf(front, id)[0] in front; }
    }
  }

  /** Todos without pages pass if each passes on its own and none repeats an identifier or a source. */
  lemma UnpagedAreAdmitted(todos: seq<Todo>)
    requires |todos| <= MAX_TODOS && DistinctTodos(todos)
    requires forall i :: 0 <= i < |todos| ==> CanonicalTodo(todos[i]) && todos[i].page.None?
    requires forall i, j :: 0 <= i < j < |todos| ==> todos[i].canonicalId != todos[j].canonicalId
    ensures AdmittedTodos(todos)
  {
    hide CanonicalTodo, TodosOf;
    forall id | TodosOf(todos, id) != []
      ensures PagesAgree(TodosOf(todos, id))
    {
      OneOfEach(todos, id);
      assert TodosOf(todos, id)[0] in todos;
    }
  }

  /** What the todo decoder accepts, paged or not, is a decoded snapshot of the reconciliation results. */
  lemma AdmittedIsDecoded(project: Text, observedAt: int, todos: seq<Todo>)
    requires AdmittedTodos(todos)
    ensures Decoded(BranchTodoFeed(project, observedAt, Records(todos)))
  {
    hide IsIdentifier, StartsWith, SafeRequirement, TodosOf;
    forall i, j | 0 <= i < j < |todos| && todos[i].canonicalId == todos[j].canonicalId
      ensures todos[i].record.status == todos[j].record.status && todos[i].record.reason == todos[j].record.reason
    {
      TodoIsOf(todos, i);
      TodoIsOf(todos, j);
      assert PagesAgree(TodosOf(todos, todos[i].canonicalId));
    }
    TodosAreDecoded(project, observedAt, Records(todos));
  }

  /** What the snapshot decoder accepts is a decoded snapshot of the reconciliation results. */
  lemma AcceptedIsDecoded(
    project: Text, kind: SourceKind, scopeId: Text, observedAt: int, items: seq<(Text, FeedRecord)>)
    requires (forall i :: 0 <= i < |items| ==> CanonicalItem(scopeId, items[i])) && Distinct(items)
    ensures Decoded(CanonicalFeed(project, kind, scopeId, observedAt, items))
  {
    hide SafeRequirement, IsIdentifier, StartsWith, CanonicalFeed, Decoded;
    DecodedFeeds(project, kind, scopeId, observedAt, items);
  }

  // ----- chunks as requirements -----

  lemma {:induction false} RequirementsPassIff(parts: seq<Text>)
    requires forall i :: 0 <= i < |parts| ==> |parts[i]| <= MAX_REQUIREMENT_UNITS && !HasUnsafeControl(parts[i])
    ensures NormalizedRequirements(parts).Ok? <==> forall i :: 0 <= i < |parts| ==> !Blank(parts[i])
  {
    hide Trim;
    if parts != [] {
      assert forall i :: 0 < i < |parts| ==> parts[i] == parts[1..][i - 1];
      RequirementsPassIff(parts[1..]);
      assert (forall i :: 0 <= i < |parts| ==> !Blank(parts[i])) <==>
          (!Blank(parts[0]) && forall i :: 0 <= i < |parts[1..]| ==> !Blank(parts[1..][i])) by {
        assert forall i :: 0 <= i < |parts[1..]| ==> parts[1..][i] == parts[i + 1];
      }
      TrimIsSafe(parts[0]);
    }
  }

  lemma {:induction false} NonBlankIsAll(parts: seq<Text>)
    ensures NonBlank(parts) == parts <==> forall i :: 0 <= i < |parts| ==> !Blank(parts[i])
    ensures |NonBlank(parts)| <= |parts|
  {
    hide Blank;
    if parts != [] {
      NonBlankIsAll(parts[1..]);
      assert forall i :: 0 < i < |parts| ==> parts[i] == parts[1..][i - 1];
      if !Blank(parts[0]) {
        assert NonBlank(parts) == [parts[0]] + NonBlank(parts[1..]);
        assert parts == [parts[0]] + parts[1..];
        if NonBlank(parts) == parts { assert NonBlank(parts[1..]) == NonBlank(parts)[1..] == parts[1..]; }
      }
    }
  }

  lemma ChunksAreSafe(text: Text)
    requires !HasUnsafeControl(text)
    ensures forall i :: 0 <= i < |ChunksFrom(text, 0)| ==>
              |ChunksFrom(text, 0)[i]| <= CHUNK_UNITS && !HasUnsafeControl(ChunksFrom(text, 0)[i])
  {
    ChunksFromAreSafe(text, 0);
  }

  lemma {:induction false} ChunksFromAreSafe(text: Text, offset: nat)
    requires offset <= |text| && !HasUnsafeControl(text)
    ensures forall i :: 0 <= i < |ChunksFrom(text, offset)| ==>
              |ChunksFrom(text, offset)[i]| <= CHUNK_UNITS && !HasUnsafeControl(ChunksFrom(text, offset)[i])
    decreases |text| - offset
  {
    if offset < |text| {
      var end := ChunkEnd(text, offset);
      ChunksFromAreSafe(text, end);
      assert forall i :: 0 <= i < end - offset ==> text[offset..end][i] == text[offset + i];
    }
  }

  /** Control-free text passes chunk by chunk exactly when the canonical source would keep every chunk of it. */
  lemma ChunksPassIff(text: Text)
    requires !HasUnsafeControl(text)
    ensures NormalizedRequirements(ChunksFrom(text, 0)).Ok? <==> Remaining(text, 0) == ChunksFrom(text, 0)
  {
    ChunksAreSafe(text);
    RequirementsPassIff(ChunksFrom(text, 0));
    NonBlankIsAll(ChunksFrom(text, 0));
  }
}
