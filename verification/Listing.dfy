/** Listing registry rows page by page: one order whatever order the rows arrive in, pages that cover it exactly,
    and lines bounded in bytes (listing.ts). */
module Listing {
  import opened Wrappers
  import opened Texts
  import opened Ledger
  import opened Tables

  // ----- orders -----

  ghost predicate Sorted<T>(le: (T, T) -> bool, s: seq<T>) {
    forall i, j :: 0 <= i < j < |s| ==> le(s[i], s[j])
  }

  /** No two different elements tie. */
  ghost predicate NoTies<T>(le: (T, T) -> bool, s: seq<T>) {
    forall i, j :: 0 <= i < |s| && 0 <= j < |s| && le(s[i], s[j]) && le(s[j], s[i]) ==> s[i] == s[j]
  }

  lemma HeadsAgree<T>(le: (T, T) -> bool, a: seq<T>, b: seq<T>)
    requires Sorted(le, a) && Sorted(le, b) && NoTies(le, a)
    requires a != [] && b != [] && a[0] in b && b[0] in a
    ensures a[0] == b[0]
  {
    var i :| 0 <= i < |a| && a[i] == b[0];
    var j :| 0 <= j < |b| && b[j] == a[0];
    assert i > 0 && j > 0 ==> le(a[0], a[i]) && le(b[0], b[j]);
  }

  lemma TailsAreSorted<T>(le: (T, T) -> bool, a: seq<T>)
    requires Sorted(le, a) && a != []
    ensures Sorted(le, a[1..]) && (NoTies(le, a) ==> NoTies(le, a[1..]))
    ensures multiset(a[1..]) == multiset(a) - multiset{a[0]}
  {
    var tail := a[1..];
    assert forall i :: 0 <= i < |tail| ==> tail[i] == a[i + 1];
    assert a == [a[0]] + tail;
  }

  /** Sorting by an order without ties has one result. */
  lemma {:induction false} SortedIsUnique<T>(le: (T, T) -> bool, a: seq<T>, b: seq<T>)
    requires Sorted(le, a) && Sorted(le, b) && multiset(a) == multiset(b) && NoTies(le, a)
    ensures a == b
    decreases |a|
  {
    hide Sorted, NoTies;
    assert |multiset(a)| == |multiset(b)|;
    if a != [] {
      assert a[0] in multiset(b) && b[0] in multiset(a);
      HeadsAgree(le, a, b);
      TailsAreSorted(le, a);
      TailsAreSorted(le, b);
      SortedIsUnique(le, a[1..], b[1..]);
      assert a == [a[0]] + a[1..] && b == [b[0]] + b[1..];
    }
  }

  /** Strings in the order of their code units. */
  predicate TextLe(a: Text, b: Text) {
    a == [] || (b != [] && (a[0] < b[0] || (a[0] == b[0] && TextLe(a[1..], b[1..]))))
  }

  lemma {:induction false} TextOrder(a: Text, b: Text)
    ensures TextLe(a, b) || TextLe(b, a)
    ensures TextLe(a, b) && TextLe(b, a) ==> a == b
  {
    if a != [] && b != [] {
      TextOrder(a[1..], b[1..]);
      if a[0] == b[0] && a[1..] == b[1..] { assert a == [a[0]] + a[1..] && b == [b[0]] + b[1..]; }
    }
  }

  lemma {:induction false} TextLeIsTransitive(a: Text, b: Text, c: Text)
    requires TextLe(a, b) && TextLe(b, c)
    ensures TextLe(a, c)
  {
    if a != [] && b != [] && c != [] && a[0] == b[0] == c[0] { TextLeIsTransitive(a[1..], b[1..], c[1..]); }
  }

  /** Urgent requests first, then the older ones, then by identifier. */
  predicate RequestLe(a: Request, b: Request) {
    if a.priority.Urgent? != b.priority.Urgent? then a.priority.Urgent?
    else if a.createdAt != b.createdAt then a.createdAt < b.createdAt
    else TextLe(a.id, b.id)
  }

  /** The listing order of requests is total, and only requests with one identifier tie. */
  lemma RequestOrder(a: Request, b: Request, c: Request)
    ensures RequestLe(a, b) || RequestLe(b, a)
    ensures RequestLe(a, b) && RequestLe(b, c) ==> RequestLe(a, c)
    ensures RequestLe(a, b) && RequestLe(b, a) ==> a.id == b.id
  {
    TextOrder(a.id, b.id);
    if TextLe(a.id, b.id) && TextLe(b.id, c.id) { TextLeIsTransitive(a.id, b.id, c.id); }
  }

  /** The texts agree on their first n units, and then the first one ends or has the lesser unit. */
  predicate LessAt(a: Text, b: Text, n: nat) {
    n <= |a| && n <= |b| && a[..n] == b[..n] && (n == |a| || (n < |b| && a[n] < b[n]))
  }

  /** Texts are ordered by the first unit in which they differ, a shorter one before what it starts. */
  lemma {:induction false} TextLeIff(a: Text, b: Text)
    ensures TextLe(a, b) <==> exists n: nat :: LessAt(a, b, n)
  {
    if a == [] || (b != [] && a[0] < b[0]) {
      assert LessAt(a, b, 0);
    } else if b != [] && a[0] == b[0] {
      TextLeIff(a[1..], b[1..]);
      if n: nat :| LessAt(a[1..], b[1..], n) {
        assert a[..n + 1] == [a[0]] + a[1..][..n] && b[..n + 1] == [b[0]] + b[1..][..n];
        assert LessAt(a, b, n + 1);
      }
      if n: nat :| LessAt(a, b, n) {
        assert n > 0;
        assert a[1..][..n - 1] == a[..n][1..] && b[1..][..n - 1] == b[..n][1..];
        assert LessAt(a[1..], b[1..], n - 1);
      }
    } else if n: nat :| LessAt(a, b, n) {
      if n > 0 { assert a[..n][0] == b[..n][0]; }
    }
  }

  /** In a sorted listing no urgent request comes after a normal one, and of two equally urgent ones the older comes
      first, or, if they are equally old, the one with the lesser identifier. */
  lemma SortedListing(s: seq<Request>, i: nat, j: nat)
    requires Sorted(RequestLe, s) && i < j < |s|
    ensures s[j].priority == Urgent ==> s[i].priority == Urgent
    ensures s[i].priority == s[j].priority ==>
              s[i].createdAt < s[j].createdAt
              || (s[i].createdAt == s[j].createdAt && TextLe(s[i].id, s[j].id))
  {
    assert RequestLe(s[i], s[j]);
  }

  /** However the rows arrive, and whichever way they are sorted, the requests are listed in the same order. */
  lemma OneRequestOrder(rows: seq<Request>, others: seq<Request>, a: seq<Request>, b: seq<Request>)
    requires forall i, j :: 0 <= i < j < |rows| ==> rows[i].id != rows[j].id
    requires multiset(rows) == multiset(others)
    requires multiset(a) == multiset(rows) && Sorted(RequestLe, a)
    requires multiset(b) == multiset(others) && Sorted(RequestLe, b)
    ensures a == b
  {
    forall i, j | 0 <= i < |a| && 0 <= j < |a| && RequestLe(a[i], a[j]) && RequestLe(a[j], a[i])
      ensures a[i] == a[j]
    {
      RequestOrder(a[i], a[j], a[i]);
      assert a[i] in multiset(rows) && a[j] in multiset(rows);
    }
    SortedIsUnique(RequestLe, a, b);
  }

  // ----- pages -----

  datatype Sections<A, L, R> = Sections(agents: seq<A>, leases: seq<L>, requests: seq<R>) {
    function Total(): nat {
      var two := if |agents| >= |leases| then |agents| else |leases|;
      if two >= |requests| then two else |requests|
    }

    function Then(next: Sections<A, L, R>): Sections<A, L, R> {
      Sections(agents + next.agents, leases + next.leases, requests + next.requests)
    }
  }

  /** Array.prototype.slice with a start and an end that may lie beyond the array. */
  function Slice<T>(s: seq<T>, start: nat, end: nat): seq<T>
    requires start <= end
  {
    if start >= |s| then [] else if end >= |s| then s[start..] else s[start..end]
  }

  datatype Page<A, L, R> = Page(rows: Sections<A, L, R>, nextOffset: Option<nat>)

  function ListingPage<A, L, R>(all: Sections<A, L, R>, limit: int, offset: int): Option<Page<A, L, R>> {
    if limit < 1 || limit > 20 || offset < 0 then None
    else if offset > 0 && offset >= all.Total() then None
    else
      Some(Page(
        Sections(Slice(all.agents, offset, offset + limit), Slice(all.leases, offset, offset + limit),
                 Slice(all.requests, offset, offset + limit)),
        if offset + limit < all.Total() then Some(offset + limit) else None))
  }

  /** A page is refused exactly for a limit outside of 1 to 20, an offset below 0, or one beyond every section - but
      never the first page. */
  lemma PageIsRefusedIff<A, L, R>(all: Sections<A, L, R>, limit: int, offset: int)
    ensures ListingPage(all, limit, offset).None? <==>
            || limit < 1 || limit > 20 || offset < 0
            || (offset > 0 && |all.agents| <= offset && |all.leases| <= offset && |all.requests| <= offset)
  {
    hide Slice;
  }

  /** What a caller has gathered when following the offsets to the end; None if any call is refused. */
  function Gathered<A, L, R>(all: Sections<A, L, R>, limit: int, offset: int): Option<Sections<A, L, R>>
    decreases all.Total() - offset
  {
    var page := ListingPage(all, limit, offset);
    if page.None? then None
    else if page.value.nextOffset.None? then Some(page.value.rows)
    else
      var rest := Gathered(all, limit, page.value.nextOffset.value);
      if rest.None? then None else Some(page.value.rows.Then(rest.value))
  }

  function From<A, L, R>(all: Sections<A, L, R>, offset: nat): Sections<A, L, R> {
    Sections(Slice(all.agents, offset, offset + |all.agents|), Slice(all.leases, offset, offset + |all.leases|),
             Slice(all.requests, offset, offset + |all.requests|))
  }

  lemma SliceThenRest<T>(s: seq<T>, offset: nat, limit: nat)
    ensures Slice(s, offset, offset + limit) + Slice(s, offset + limit, offset + limit + |s|)
            == Slice(s, offset, offset + |s|)
  {
  }

  lemma LastSlice<T>(s: seq<T>, offset: nat, limit: nat)
    requires |s| <= offset + limit
    ensures Slice(s, offset, offset + limit) == Slice(s, offset, offset + |s|)
  {
  }

  lemma {:induction false} GatheredFrom<A, L, R>(all: Sections<A, L, R>, limit: nat, offset: nat)
    requires 1 <= limit <= 20 && (offset == 0 || offset < all.Total())
    ensures Gathered(all, limit, offset) == Some(From(all, offset))
    decreases all.Total() - offset
  {
    hide Slice;
    if offset + limit < all.Total() {
      GatheredFrom(all, limit, offset + limit);
      SliceThenRest(all.agents, offset, limit);
      SliceThenRest(all.leases, offset, limit);
      SliceThenRest(all.requests, offset, limit);
    } else {
      LastSlice(all.agents, offset, limit);
      LastSlice(all.leases, offset, limit);
      LastSlice(all.requests, offset, limit);
    }
  }

  /** Following the offsets from 0 is never refused, ends, and gathers every section exactly once, in order. */
  lemma PagesCoverTheListing<A, L, R>(all: Sections<A, L, R>, limit: nat)
    requires 1 <= limit <= 20
    ensures Gathered(all, limit, 0) == Some(all)
  {
    GatheredFrom(all, limit, 0);
    assert From(all, 0) == all;
  }

  // ----- bounded lines -----

  /** A character and the bytes of its UTF-8 encoding (RFC 3629, section 3). */
  type Character = c: (nat, nat) | 1 <= c.1 <= 4 witness (0, 1)

  function Bytes(line: seq<Character>): nat {
    if line == [] then 0 else Bytes(line[..|line| - 1]) + line[|line| - 1].1
  }

  const DOT: Character := (46, 1)

  /** A line of at most 512 bytes stays as it is; a longer one is cut after the last character that leaves room for
      three dots. */
  method BoundedLine(line: seq<Character>) returns (result: seq<Character>)
    ensures Bytes(line) <= 512 ==> result == line
    ensures Bytes(line) > 512 ==>
              exists n :: 0 <= n < |line| && result == line[..n] + [DOT, DOT, DOT]
                && Bytes(line[..n]) <= 509 < Bytes(line[..n + 1])
    ensures Bytes(result) <= 512
  {
    assert line[..|line|] == line;
    if Bytes(line) <= 512 { return line; }
    result := [];
    var bytes := 0;
    var index := 0;
    while index < |line|
      invariant 0 <= index <= |line| && result == line[..index] && bytes == Bytes(result) <= 509
    {
      assert line[..index + 1][..index] == line[..index];
      if bytes + line[index].1 > 509 { break; }
      bytes := bytes + line[index].1;
      result := result + [line[index]];
      index := index + 1;
    }
    assert index < |line|;
    ThreeDots(result);
    result := result + [DOT, DOT, DOT];
  }

  lemma ThreeDots(line: seq<Character>)
    ensures Bytes(line + [DOT, DOT, DOT]) == Bytes(line) + 3
  {
    var three, two, one := line + [DOT, DOT, DOT], line + [DOT, DOT], line + [DOT];
    assert three[..|three| - 1] == two && two[..|two| - 1] == one && one[..|one| - 1] == line;
    assert Bytes(one) == Bytes(line) + 1;
    assert Bytes(two) == Bytes(one) + 1;
  }
}
