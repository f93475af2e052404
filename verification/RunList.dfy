/** Listing Runs newest first, one page at a time. */
module RunList {
  import opened Prelude
  import opened Sorting
  import opened Strings
  import opened RunRecords
  import opened RunEngine

  // ---- The order of directory names -----------------------------------------------------------------

  predicate Descends(a: string, b: string) { !Before(a, b) }

  lemma DescendsOrder()
    ensures TotalPreorder(Descends)
  {
    forall a, b ensures Descends(a, b) || Descends(b, a) { BeforeTotal(a, b); }
    forall a, b, c | Descends(a, b) && Descends(b, c) ensures Descends(a, c) {
      BeforeTotal(a, b);
      BeforeTotal(b, c);
      if Before(a, c) {
        if a == b || b == c { BeforeTotal(a, c); }
        else {
          BeforeTransitive(c, b, a);
          BeforeTotal(a, c);
        }
      }
    }
  }

  // ---- The listing -------------------------------------------------------------------------------------

  /** One row of the list, from the metadata alone. */
  datatype Summary = Summary(
    id: string, owner: string, status: Status, wait: Option<Wait>, skipReason: Option<string>, summary: Option<string>,
    failedStage: Option<string>, failureHint: Option<string>, connectionState: Option<string>)

  function ToSummary(meta: Meta): Summary {
    Summary(meta.id, meta.owner, meta.status, meta.wait, meta.skipReason, meta.summary,
            if meta.status == Failed then meta.failedStage else None,
            if meta.status == Failed then meta.failureHint else None,
            meta.connectionState)
  }

  /** Absent `owner` lists every Module's Runs; absent `limit` lists them all. */
  datatype Query = Query(owner: Option<string>, limit: Option<int>, cursor: Option<string>)

  datatype Page = Page(runs: seq<Summary>, nextCursor: Option<string>)

  function Select(names: seq<string>, p: string -> bool): seq<string> {
    if names == [] then [] else (if p(names[0]) then [names[0]] else []) + Select(names[1..], p)
  }

  function Named(cursor: Option<string>): string -> bool {
    (name: string) => IsRunId(name) && (cursor.Some? ==> Before(name, cursor.value))
  }

  /** The run directories below the cursor, newest first. */
  function Below(entries: seq<string>, cursor: Option<string>): seq<string> {
    Sort(Select(entries, Named(cursor)), Descends)
  }

  predicate Wanted(disk: Disk, owner: Option<string>, name: string) {
    Recordable(disk, name) && (owner.Some? ==> disk[name].meta.value.owner == owner.value)
  }

  function Row(disk: Disk, owner: Option<string>, name: string): seq<Summary> {
    if Wanted(disk, owner, name) then [ToSummary(disk[name].meta.value)] else []
  }

  /** The summaries of the wanted Runs among `names`, in their order. */
  function Rows(disk: Disk, owner: Option<string>, names: seq<string>): seq<Summary> {
    if names == [] then []
    else Row(disk, owner, names[0]) + Rows(disk, owner, names[1..])
  }

  predicate Full(limit: Option<int>, count: nat) { limit.Some? && count >= limit.value }

  /** How many names are looked at before a page that already holds `have` rows is full. */
  function Examined(disk: Disk, q: Query, names: seq<string>, have: nat): nat {
    if names == [] || Full(q.limit, have) then 0
    else 1 + Examined(disk, q, names[1..], have + if Wanted(disk, q.owner, names[0]) then 1 else 0)
  }

  lemma {:induction false} ExaminedBound(disk: Disk, q: Query, names: seq<string>, have: nat)
    ensures Examined(disk, q, names, have) <= |names|
  {
    if names != [] && !Full(q.limit, have) {
      ExaminedBound(disk, q, names[1..], have + if Wanted(disk, q.owner, names[0]) then 1 else 0);
    }
  }

  function ListPage(disk: Disk, entries: seq<string>, q: Query): Page {
    var ordered := Below(entries, q.cursor);
    var n := Examined(disk, q, ordered, 0);
    ExaminedBound(disk, q, ordered, 0);
    var runs := Rows(disk, q.owner, ordered[..n]);
    Page(runs,
         if Full(q.limit, |runs|) && n < |ordered| && runs != [] then Some(runs[|runs| - 1].id) else None)
  }

  method List(disk: Disk, entries: seq<string>, q: Query) returns (page: Page)
    ensures page == ListPage(disk, entries, q)
  {
    var ordered := Below(entries, q.cursor);
    var runs, examined := Scan(disk, ordered, q);
    var more := Full(q.limit, |runs|) && examined < |ordered|;
    page := Page(runs, if more && runs != [] then Some(runs[|runs| - 1].id) else None);
  }

  /** The loop over the ordered names, which stops as soon as the page is full. */
  method Scan(disk: Disk, ordered: seq<string>, q: Query) returns (runs: seq<Summary>, examined: nat)
    ensures examined == Examined(disk, q, ordered, 0) <= |ordered|
    ensures runs == Rows(disk, q.owner, ordered[..examined])
  {
    runs, examined := [], 0;
    assert ordered[0..] == ordered;
    while examined < |ordered| && !Full(q.limit, |runs|)
      invariant examined <= |ordered|
      invariant runs == Rows(disk, q.owner, ordered[..examined])
      invariant Examined(disk, q, ordered, 0) == examined + Examined(disk, q, ordered[examined..], |runs|)
    {
      var entry := ordered[examined];
      assert ordered[examined..][1..] == ordered[examined + 1..];
      RowsSnoc(disk, q.owner, ordered, examined);
      examined := examined + 1;
      if entry in disk && disk[entry].meta.Some? {
        var meta := disk[entry].meta.value;
        if q.owner.None? || meta.owner == q.owner.value {
          runs := runs + [ToSummary(meta)];
        }
      }
    }
  }

  lemma {:induction false} RowsConcat(disk: Disk, owner: Option<string>, a: seq<string>, b: seq<string>)
    ensures Rows(disk, owner, a + b) == Rows(disk, owner, a) + Rows(disk, owner, b)
  {
    if a == [] {
      assert a + b == b;
    } else {
      assert (a + b)[0] == a[0] && (a + b)[1..] == a[1..] + b;
      RowsConcat(disk, owner, a[1..], b);
    }
  }

  lemma RowsSnoc(disk: Disk, owner: Option<string>, names: seq<string>, i: nat)
    requires i < |names|
    ensures Rows(disk, owner, names[..i + 1])
         == Rows(disk, owner, names[..i]) + Row(disk, owner, names[i])
  {
    assert names[..i + 1] == names[..i] + [names[i]];
    RowsConcat(disk, owner, names[..i], [names[i]]);
    assert [names[i]][1..] == [];
  }

  // ---- Following the cursor ------------------------------------------------------------------------------

  ghost predicate Distinct(names: seq<string>) {
    forall i, j :: 0 <= i < j < |names| ==> names[i] != names[j]
  }

  /** Each directory carries its own Run's id, and the directory listing names no entry twice. */
  ghost predicate WellNamed(disk: Disk, entries: seq<string>) {
    && Distinct(entries)
    && (forall name :: Recordable(disk, name) ==> disk[name].meta.value.id == name)
  }

  ghost predicate StrictlyDescending(names: seq<string>) {
    forall i, j :: 0 <= i < j < |names| ==> Before(names[j], names[i])
  }

  lemma {:induction false} SelectMembers(names: seq<string>, p: string -> bool)
    ensures forall x :: x in Select(names, p) <==> x in names && p(x)
    ensures forall x :: multiset(Select(names, p))[x] == if p(x) then multiset(names)[x] else 0
  {
    if names != [] {
      SelectMembers(names[1..], p);
      assert names == [names[0]] + names[1..];
    }
  }

  lemma {:induction false} DistinctCounts(names: seq<string>)
    requires Distinct(names)
    ensures forall x :: multiset(names)[x] <= 1
  {
    if names != [] {
      DistinctCounts(names[1..]);
      assert names == [names[0]] + names[1..];
      assert names[0] !in names[1..];
    }
  }

  lemma CountsDistinct(names: seq<string>, i: nat, j: nat)
    requires i < j < |names| && names[i] == names[j]
    ensures multiset(names)[names[i]] >= 2
  {
    assert names == names[..j] + names[j..];
    assert names[i] == names[..j][i] && names[i] in names[..j];
    assert names[j] == names[j..][0] && names[j] in names[j..];
    assert multiset(names) == multiset(names[..j]) + multiset(names[j..]);
  }

  /** The names below a cursor come strictly newest first. */
  lemma BelowDescends(entries: seq<string>, cursor: Option<string>)
    requires Distinct(entries)
    ensures StrictlyDescending(Below(entries, cursor))
    ensures forall x :: x in Below(entries, cursor) <==> x in entries && Named(cursor)(x)
  {
    var chosen, ordered := Select(entries, Named(cursor)), Below(entries, cursor);
    DescendsOrder();
    SortOrders(chosen, Descends);
    SelectMembers(entries, Named(cursor));
    DistinctCounts(entries);
    forall x ensures x in ordered <==> x in chosen { SameElements(ordered, chosen, x); }
    forall i, j | 0 <= i < j < |ordered| ensures Before(ordered[j], ordered[i]) {
      assert Descends(ordered[i], ordered[j]);
      BeforeTotal(ordered[i], ordered[j]);
      if ordered[i] == ordered[j] { CountsDistinct(ordered, i, j); }
    }
  }

  lemma SameEmpty(a: seq<string>, b: seq<string>)
    requires forall x :: x in a <==> x in b
    ensures a == [] <==> b == []
  {
    if a != [] { assert a[0] in b; }
    if b != [] { assert b[0] in a; }
  }

  lemma {:induction false} StrictlyUnique(a: seq<string>, b: seq<string>)
    requires StrictlyDescending(a) && StrictlyDescending(b) && forall x :: x in a <==> x in b
    ensures a == b
  {
    SameEmpty(a, b);
    if a != [] && b != [] {
      assert a[0] in b && b[0] in a;
      BeforeTotal(a[0], b[0]);
      NotAgain(a);
      NotAgain(b);
      assert a == [a[0]] + a[1..] && b == [b[0]] + b[1..];
      forall x ensures x in a[1..] <==> x in b[1..] {
        assert x in a <==> x == a[0] || x in a[1..];
        assert x in b <==> x == b[0] || x in b[1..];
      }
      StrictlyUnique(a[1..], b[1..]);
    }
  }

  lemma NotAgain(a: seq<string>)
    requires StrictlyDescending(a) && a != []
    ensures a[0] !in a[1..]
  {
    BeforeIrreflexive(a[0]);
  }

  lemma SuffixMembers(ordered: seq<string>, j: nat)
    requires StrictlyDescending(ordered) && j < |ordered|
    ensures StrictlyDescending(ordered[j + 1..])
    ensures forall x :: x in ordered[j + 1..] <==> x in ordered && Before(x, ordered[j])
  {
    forall x ensures x in ordered[j + 1..] <==> x in ordered && Before(x, ordered[j]) {
      if x in ordered && Before(x, ordered[j]) {
        var i :| 0 <= i < |ordered| && ordered[i] == x;
        BeforeTotal(ordered[j], x);
        assert i > j;
        assert ordered[j + 1..][i - j - 1] == x;
      }
      if x in ordered[j + 1..] {
        var i :| 0 <= i < |ordered[j + 1..]| && ordered[j + 1..][i] == x;
        assert ordered[j + 1 + i] == x;
      }
    }
  }

  /** Continuing below the name at position `j` is continuing after it. */
  lemma BelowIsSuffix(entries: seq<string>, cursor: Option<string>, j: nat)
    requires Distinct(entries)
    requires j < |Below(entries, cursor)|
    ensures Below(entries, Some(Below(entries, cursor)[j])) == Below(entries, cursor)[j + 1..]
  {
    var ordered := Below(entries, cursor);
    var c := ordered[j];
    BelowDescends(entries, cursor);
    BelowDescends(entries, Some(c));
    SuffixMembers(ordered, j);
    assert c in ordered;
    forall x ensures x in Below(entries, Some(c)) <==> x in ordered[j + 1..] {
      if cursor.Some? && Before(x, c) { BeforeTransitive(x, c, cursor.value); }
    }
    StrictlyUnique(Below(entries, Some(c)), ordered[j + 1..]);
  }

  lemma BelowShrinks(entries: seq<string>, cursor: Option<string>, j: nat)
    requires Distinct(entries) && j < |Below(entries, cursor)|
    ensures |Below(entries, Some(Below(entries, cursor)[j]))| < |Below(entries, cursor)|
  {
    BelowIsSuffix(entries, cursor, j);
    DropsSome(Below(entries, cursor), j);
  }

  lemma DropsSome(names: seq<string>, j: nat)
    requires j < |names|
    ensures |names[j + 1..]| < |names|
  {
  }

  /** A page that stops early stops right after a Run it lists, and is full. */
  lemma {:induction false} StopsAfterRow(disk: Disk, q: Query, names: seq<string>, have: nat)
    requires !Full(q.limit, have)
    ensures var n := Examined(disk, q, names, have);
      n < |names| ==> n > 0 && Wanted(disk, q.owner, names[n - 1]) && Full(q.limit, have + |Rows(disk, q.owner, names[..n])|)
  {
    ExaminedBound(disk, q, names, have);
    if names != [] {
      var have' := have + if Wanted(disk, q.owner, names[0]) then 1 else 0;
      var n' := Examined(disk, q, names[1..], have');
      ExaminedBound(disk, q, names[1..], have');
      assert names[..n' + 1] == [names[0]] + names[1..][..n'];
      RowsConcat(disk, q.owner, [names[0]], names[1..][..n']);
      assert [names[0]][1..] == [];
      if !Full(q.limit, have') {
        StopsAfterRow(disk, q, names[1..], have');
      } else {
        assert n' == 0;
      }
    }
  }

  /** The last Run of a page that stops early is the one it stopped after. */
  lemma LastRow(disk: Disk, q: Query, ordered: seq<string>, n: nat)
    requires !Full(q.limit, 0) && n == Examined(disk, q, ordered, 0) < |ordered|
    ensures n > 0 && Wanted(disk, q.owner, ordered[n - 1])
    ensures var runs := Rows(disk, q.owner, ordered[..n]);
      Full(q.limit, |runs|) && runs != [] && runs[|runs| - 1] == ToSummary(disk[ordered[n - 1]].meta.value)
  {
    StopsAfterRow(disk, q, ordered, 0);
    RowsSnoc(disk, q.owner, ordered, n - 1);
  }

  /** The next cursor is the name at which the page stopped. */
  lemma NextCursor(disk: Disk, entries: seq<string>, q: Query)
    requires WellNamed(disk, entries) && !Full(q.limit, 0)
    ensures var ordered := Below(entries, q.cursor); var n := Examined(disk, q, ordered, 0);
      && n <= |ordered|
      && (ListPage(disk, entries, q).nextCursor == if n < |ordered| && n > 0 then Some(ordered[n - 1]) else None)
      && (n < |ordered| ==> n > 0)
  {
    var ordered := Below(entries, q.cursor);
    ExaminedBound(disk, q, ordered, 0);
    if Examined(disk, q, ordered, 0) < |ordered| { LastRow(disk, q, ordered, Examined(disk, q, ordered, 0)); }
  }

  lemma EmptyPage(disk: Disk, entries: seq<string>, q: Query)
    requires Full(q.limit, 0)
    ensures ListPage(disk, entries, q) == Page([], None)
  {
    assert Below(entries, q.cursor)[..0] == [];
  }

  /** Ask for a page, then for the page below its cursor, until there is none. */
  ghost function Follow(disk: Disk, entries: seq<string>, q: Query): seq<Summary>
    requires WellNamed(disk, entries)
    decreases |Below(entries, q.cursor)|
  {
    var page := ListPage(disk, entries, q);
    if page.nextCursor.None? then page.runs
    else
      FollowShrinks(disk, entries, q);
      page.runs + Follow(disk, entries, q.(cursor := page.nextCursor))
  }

  lemma CursorMeansRoom(disk: Disk, entries: seq<string>, q: Query)
    requires ListPage(disk, entries, q).nextCursor.Some?
    ensures !Full(q.limit, 0)
  {
    if Full(q.limit, 0) { EmptyPage(disk, entries, q); }
  }

  /** Where a page stops, and what it says then. */
  lemma PageIs(disk: Disk, entries: seq<string>, q: Query) returns (n: nat)
    requires WellNamed(disk, entries) && !Full(q.limit, 0)
    ensures n <= |Below(entries, q.cursor)| && (n < |Below(entries, q.cursor)| ==> n > 0)
    ensures ListPage(disk, entries, q)
         == Page(Rows(disk, q.owner, Below(entries, q.cursor)[..n]),
                 if n < |Below(entries, q.cursor)| then Some(Below(entries, q.cursor)[n - 1]) else None)
  {
    NextCursor(disk, entries, q);
    n := Examined(disk, q, Below(entries, q.cursor), 0);
  }

  lemma FollowShrinks(disk: Disk, entries: seq<string>, q: Query)
    requires WellNamed(disk, entries) && ListPage(disk, entries, q).nextCursor.Some?
    ensures !Full(q.limit, 0)
    ensures |Below(entries, ListPage(disk, entries, q).nextCursor)| < |Below(entries, q.cursor)|
  {
    CursorMeansRoom(disk, entries, q);
    var n := PageIs(disk, entries, q);
    BelowShrinks(entries, q.cursor, n - 1);
  }

  /** Every Run below the cursor, in one list. */
  function Unpaged(disk: Disk, entries: seq<string>, q: Query): seq<Summary> {
    Rows(disk, q.owner, Below(entries, q.cursor))
  }

  /** What is listed below a page's last name is the rest of the list. */
  lemma RestIs(disk: Disk, entries: seq<string>, q: Query, n: nat)
    requires Distinct(entries) && 0 < n <= |Below(entries, q.cursor)|
    ensures Unpaged(disk, entries, q)
         == Rows(disk, q.owner, Below(entries, q.cursor)[..n])
            + Unpaged(disk, entries, q.(cursor := Some(Below(entries, q.cursor)[n - 1])))
  {
    BelowIsSuffix(entries, q.cursor, n - 1);
    RowsSplit(disk, q.owner, Below(entries, q.cursor), n, Below(entries, Some(Below(entries, q.cursor)[n - 1])));
  }

  lemma {:induction false} FollowIsUnpaged(disk: Disk, entries: seq<string>, q: Query)
    requires WellNamed(disk, entries) && !Full(q.limit, 0)
    ensures Follow(disk, entries, q) == Unpaged(disk, entries, q)
    decreases |Below(entries, q.cursor)|
  {
    var n := PageIs(disk, entries, q);
    var ordered := Below(entries, q.cursor);
    if n < |ordered| {
      RestIs(disk, entries, q, n);
      BelowShrinks(entries, q.cursor, n - 1);
      FollowIsUnpaged(disk, entries, q.(cursor := Some(ordered[n - 1])));
    } else {
      assert ordered[..n] == ordered;
    }
  }

  lemma RowsSplit(disk: Disk, owner: Option<string>, names: seq<string>, n: nat, rest: seq<string>)
    requires n <= |names| && rest == names[n..]
    ensures Rows(disk, owner, names) == Rows(disk, owner, names[..n]) + Rows(disk, owner, rest)
  {
    assert names == names[..n] + rest;
    RowsConcat(disk, owner, names[..n], rest);
  }

  lemma {:induction false} RowsWanted(disk: Disk, owner: Option<string>, names: seq<string>)
    requires forall name :: Recordable(disk, name) ==> disk[name].meta.value.id == name
    ensures forall r :: r in Rows(disk, owner, names) ==> r.id in names && Wanted(disk, owner, r.id)
                                                          && r == ToSummary(disk[r.id].meta.value)
    ensures forall x :: x in names && Wanted(disk, owner, x) ==> ToSummary(disk[x].meta.value) in Rows(disk, owner, names)
  {
    if names != [] {
      RowsWanted(disk, owner, names[1..]);
      assert forall x :: x in names <==> x == names[0] || x in names[1..];
    }
  }

  /**
    Following the cursor gives back the unpaged list, with any Module filter, exactly when
    a page may hold a Run — or there was none to list.
   */
  lemma PagingComplete(disk: Disk, entries: seq<string>, q: Query)
    requires WellNamed(disk, entries)
    ensures Follow(disk, entries, q) == Unpaged(disk, entries, q)
            <==> !(q.limit.Some? && q.limit.value < 1) || Unpaged(disk, entries, q) == []
  {
    if q.limit.Some? && q.limit.value < 1 {
      var ordered := Below(entries, q.cursor);
      assert Examined(disk, q, ordered, 0) == 0 && ordered[..0] == [];
    } else {
      FollowIsUnpaged(disk, entries, q);
    }
  }

  /** One Run in the store, and a page that may hold none: following the cursor lists nothing. */
  lemma NothingPaged(disk: Disk, id: string, meta: Meta)
    requires IsRunId(id) && meta.id == id && disk == map[id := RunDir(Some(meta), [], map[])]
    ensures WellNamed(disk, [id])
    ensures Follow(disk, [id], Query(None, Some(0), None)) == []
    ensures Unpaged(disk, [id], Query(None, Some(0), None)) == [ToSummary(meta)]
  {
    var q := Query(None, Some(0), None);
    EmptyPage(disk, [id], q);
    BelowDescends([id], None);
    assert id in Below([id], None);
    StrictlyUnique(Below([id], None), [id]);
    assert [id][1..] == [];
    assert Wanted(disk, None, id) && Row(disk, None, id) == [ToSummary(meta)];
  }

  /** Strictly newest first. */
  ghost predicate StrictRows(rows: seq<Summary>) {
    forall i, j :: 0 <= i < j < |rows| ==> Before(rows[j].id, rows[i].id)
  }

  lemma StrictCons(row: Summary, rest: seq<Summary>)
    requires StrictRows(rest) && forall r :: r in rest ==> Before(r.id, row.id)
    ensures StrictRows([row] + rest)
  {
  }

  lemma {:induction false} RowsStrict(disk: Disk, owner: Option<string>, names: seq<string>)
    requires forall name :: Recordable(disk, name) ==> disk[name].meta.value.id == name
    requires StrictlyDescending(names)
    ensures StrictRows(Rows(disk, owner, names))
  {
    if names != [] {
      var rest := Rows(disk, owner, names[1..]);
      RowsStrict(disk, owner, names[1..]);
      RowsWanted(disk, owner, names[1..]);
      if Wanted(disk, owner, names[0]) {
        forall r | r in rest ensures Before(r.id, names[0]) {
          var k :| 0 <= k < |names[1..]| && names[1..][k] == r.id;
          assert names[k + 1] == r.id;
        }
        StrictCons(ToSummary(disk[names[0]].meta.value), rest);
      }
    }
  }

  /** The unpaged list: every readable Run of the store that is asked for, once, strictly newest first. */
  lemma UnpagedIsEveryRun(disk: Disk, entries: seq<string>, q: Query)
    requires WellNamed(disk, entries) && q.cursor.None? && forall name :: name in disk ==> name in entries
    ensures var rows := Unpaged(disk, entries, q);
      && StrictRows(rows)
      && (forall r :: r in rows ==> IsRunId(r.id) && Wanted(disk, q.owner, r.id) && Summarizes(r, disk[r.id].meta.value))
      && (forall id :: IsRunId(id) && Wanted(disk, q.owner, id) ==> ToSummary(disk[id].meta.value) in rows)
  {
    BelowDescends(entries, q.cursor);
    RowsStrict(disk, q.owner, Below(entries, q.cursor));
    RowsWanted(disk, q.owner, Below(entries, q.cursor));
  }

  function Ids(rows: seq<Summary>): seq<string> {
    seq(|rows|, i requires 0 <= i < |rows| => rows[i].id)
  }

  /** It is the listing a recovery sweep works through. */
  lemma ListingForSweep(disk: Disk, entries: seq<string>, owner: string)
    requires WellNamed(disk, entries) && forall name :: name in disk ==> name in entries
    ensures IsListing(disk, owner, Ids(Unpaged(disk, entries, Query(Some(owner), None, None))))
  {
    var q := Query(Some(owner), None, None);
    var rows := Unpaged(disk, entries, q);
    UnpagedIsEveryRun(disk, entries, q);
    forall id ensures id in Ids(rows) <==> Readable(disk, id) && disk[id].meta.value.owner == owner {
      if id in Ids(rows) {
        var i :| 0 <= i < |rows| && rows[i].id == id;
        assert rows[i] in rows;
      }
      if Readable(disk, id) && disk[id].meta.value.owner == owner {
        assert Wanted(disk, q.owner, id);
        var i :| 0 <= i < |rows| && rows[i] == ToSummary(disk[id].meta.value);
        assert Ids(rows)[i] == id;
      }
    }
    forall i, j | 0 <= i < j < |Ids(rows)| ensures Ids(rows)[i] != Ids(rows)[j] {
      assert Before(rows[j].id, rows[i].id);
      BeforeIrreflexive(rows[i].id);
    }
  }

  // ---- One page -------------------------------------------------------------------------------------------------

  /** How many rows a page with a limit may hold. */
  function Room(limit: int): nat { if limit > 0 then limit else 0 }

  lemma {:induction false} FirstRows(disk: Disk, q: Query, names: seq<string>, have: nat)
    requires q.limit.Some? ==> have <= Room(q.limit.value)
    ensures var n := Examined(disk, q, names, have); var all := Rows(disk, q.owner, names);
      && n <= |names| && Rows(disk, q.owner, names[..n]) <= all
      && |Rows(disk, q.owner, names[..n])|
         == if q.limit.None? || |all| <= Room(q.limit.value) - have then |all| else Room(q.limit.value) - have
  {
    ExaminedBound(disk, q, names, have);
    var n := Examined(disk, q, names, have);
    if names == [] || Full(q.limit, have) {
      assert names[..n] == [];
    } else {
      var have' := have + if Wanted(disk, q.owner, names[0]) then 1 else 0;
      FirstRows(disk, q, names[1..], have');
      assert names[..n] == [names[0]] + names[1..][..n - 1] && names == [names[0]] + names[1..];
      assert names[..n][0] == names[0] && names[..n][1..] == names[1..][..n - 1];
    }
  }

  /** The names a page leaves below the last Run it lists. */
  ghost predicate MoreBelow(entries: seq<string>, last: string) {
    exists name :: name in entries && IsRunId(name) && Before(name, last)
  }

  /**
    A page lists the newest wanted Runs below the cursor, as many as its limit allows, and names the
    last one as the next cursor exactly if it is full and some directory lies below that Run.
   */
  lemma PageExactly(disk: Disk, entries: seq<string>, q: Query)
    requires WellNamed(disk, entries)
    ensures var page := ListPage(disk, entries, q); var all := Unpaged(disk, entries, q);
      && page.runs == (if q.limit.None? || |all| <= Room(q.limit.value) then all else all[..Room(q.limit.value)])
      && page.nextCursor == if q.limit.Some? && q.limit.value > 0 && |page.runs| == q.limit.value
                               && MoreBelow(entries, page.runs[|page.runs| - 1].id)
                            then Some(page.runs[|page.runs| - 1].id) else None
  {
    var ordered, page := Below(entries, q.cursor), ListPage(disk, entries, q);
    var n := Examined(disk, q, ordered, 0);
    FirstRows(disk, q, ordered, 0);
    if q.limit.Some? && q.limit.value > 0 && |page.runs| == q.limit.value {
      LastListed(disk, entries, q, n);
    }
  }

  /** A full page stopped right after its last Run, and what it did not look at is what lies below that. */
  lemma LastListed(disk: Disk, entries: seq<string>, q: Query, n: nat)
    requires WellNamed(disk, entries) && n == Examined(disk, q, Below(entries, q.cursor), 0) <= |Below(entries, q.cursor)|
    requires q.limit.Some? && q.limit.value > 0
    requires |Rows(disk, q.owner, Below(entries, q.cursor)[..n])| == q.limit.value
    ensures var rows := Rows(disk, q.owner, Below(entries, q.cursor)[..n]);
      MoreBelow(entries, rows[|rows| - 1].id) <==> n < |Below(entries, q.cursor)|
  {
    var ordered := Below(entries, q.cursor);
    StopsFull(disk, q, ordered, 0);
    RowsSnoc(disk, q.owner, ordered, n - 1);
    BelowIsSuffix(entries, q.cursor, n - 1);
    RestBelow(entries, ordered[n - 1]);
  }

  lemma RestBelow(entries: seq<string>, last: string)
    requires Distinct(entries)
    ensures MoreBelow(entries, last) <==> Below(entries, Some(last)) != []
  {
    var rest := Below(entries, Some(last));
    BelowDescends(entries, Some(last));
    if rest != [] { assert rest[0] in rest; }
    if MoreBelow(entries, last) {
      var name :| name in entries && IsRunId(name) && Before(name, last);
      assert name in rest;
    }
  }

  lemma {:induction false} StopsFull(disk: Disk, q: Query, names: seq<string>, have: nat)
    requires q.limit.Some? && !Full(q.limit, have)
    requires Examined(disk, q, names, have) <= |names|
    requires have + |Rows(disk, q.owner, names[..Examined(disk, q, names, have)])| == q.limit.value
    ensures var n := Examined(disk, q, names, have); n > 0 && Wanted(disk, q.owner, names[n - 1])
  {
    var n := Examined(disk, q, names, have);
    var have' := have + if Wanted(disk, q.owner, names[0]) then 1 else 0;
    assert names[..n] == [names[0]] + names[1..][..n - 1];
    assert names[..n][1..] == names[1..][..n - 1];
    if !Full(q.limit, have') { StopsFull(disk, q, names[1..], have'); }
  }

  /** A row shows its Run's record, and where it failed only while it has. */
  predicate Summarizes(row: Summary, meta: Meta) {
    && row.id == meta.id && row.owner == meta.owner && row.status == meta.status && row.wait == meta.wait
    && row.skipReason == meta.skipReason && row.summary == meta.summary && row.connectionState == meta.connectionState
    && row.failedStage == (if meta.status == Failed then meta.failedStage else None)
    && row.failureHint == (if meta.status == Failed then meta.failureHint else None)
  }
}
