/** Listing payments newest first, page by page (internal/application/query/cursor.go,
    internal/adapter/outbound/postgres/payment_repo.go, internal/testsupport/fake/fake.go). */
module Pagination {
  import opened Outcomes
  import opened Cursor
  import opened Calendar
  import opened MapSum

  /** What a list query looks at in a payment. */
  datatype Entry = Entry(
    createdAt: Instant, status: string, callerService: string, gatewayType: string, referenceId: string)

  type Rows = map<nat, Entry>

  datatype Filter = Filter(
    status: string, callerService: string, gatewayType: string, referenceId: string,
    from: Option<Instant>, to: Option<Instant>, after: Option<PageKey>)

  /** The two repositories match a reference filter differently. */
  datatype Repository = Postgres | InMemory

  function KeyOf(rows: Rows, id: nat): PageKey
    requires id in rows
  {
    PageKey(rows[id].createdAt, id)
  }

  /** Postgres timestamps and UUIDs fit the formats a cursor writes. */
  predicate ValidRows(rows: Rows) {
    forall id :: id in rows ==> ValidKey(KeyOf(rows, id))
  }

  predicate Stored(rows: Rows, k: PageKey) {
    k.id in rows && rows[k.id].createdAt == k.createdAt
  }

  // ---------------------------------------------------------------- newest first

  predicate NewerFirst(a: PageKey, b: PageKey) {
    if a.createdAt != b.createdAt then Earlier(b.createdAt, a.createdAt) else a.id > b.id
  }

  lemma NewerFirstIsAnOrder(a: PageKey, b: PageKey, c: PageKey)
    ensures !NewerFirst(a, a)
    ensures NewerFirst(a, b) && NewerFirst(b, c) ==> NewerFirst(a, c)
    ensures a == b || NewerFirst(a, b) || NewerFirst(b, a)
  {
  }

  /** The later instant comes first, and of equal instants the larger id. */
  lemma NewerFirstMeans(a: PageKey, b: PageKey)
    requires ValidInstant(a.createdAt) && ValidInstant(b.createdAt)
    ensures NewerFirst(a, b) <==>
            var x, y := Nanos(a.createdAt), Nanos(b.createdAt); y < x || (y == x && b.id < a.id)
  {
    hide ValidInstant, Nanos, Earlier;
    EarlierIff(b.createdAt, a.createdAt);
  }

  predicate Descending(keys: seq<PageKey>) {
    forall i, j :: 0 <= i < j < |keys| ==> NewerFirst(keys[i], keys[j])
  }

  // ---------------------------------------------------------------- filters

  /** SQL LIKE: % is any text, _ any character, and a backslash takes the next character literally. */
  predicate Like(pattern: string, s: string)
    decreases |pattern|, |s|
  {
    if pattern == "" then s == ""
    else if pattern[0] == '%' then Like(pattern[1..], s) || (s != "" && Like(pattern, s[1..]))
    else if pattern[0] == '_' then s != "" && Like(pattern[1..], s[1..])
    else if pattern[0] == '\\' && |pattern| > 1 then s != "" && s[0] == pattern[1] && Like(pattern[2..], s[1..])
    else s != "" && s[0] == pattern[0] && Like(pattern[1..], s[1..])
  }

  predicate HasPrefix(s: string, prefix: string) {
    |prefix| <= |s| && s[..|prefix|] == prefix
  }

  predicate ReferenceMatches(repo: Repository, wanted: string, referenceId: string) {
    match repo
    case Postgres => Like(wanted + "%", referenceId)
    case InMemory => HasPrefix(referenceId, wanted)
  }

  /** Everything a filter asks of a row except its position. */
  predicate Matches(repo: Repository, f: Filter, e: Entry) {
    && (f.status == "" || e.status == f.status)
    && (f.callerService == "" || e.callerService == f.callerService)
    && (f.gatewayType == "" || e.gatewayType == f.gatewayType)
    && (f.referenceId == "" || ReferenceMatches(repo, f.referenceId, e.referenceId))
    && (f.from.None? || !Earlier(e.createdAt, f.from.value))
    && (f.to.None? || !Earlier(f.to.value, e.createdAt))
  }

  predicate Follows(after: Option<PageKey>, k: PageKey) {
    after.None? || NewerFirst(after.value, k)
  }

  predicate Wanted(repo: Repository, rows: Rows, f: Filter, k: PageKey) {
    Stored(rows, k) && Matches(repo, f, rows[k.id])
  }

  predicate Selected(repo: Repository, rows: Rows, f: Filter, k: PageKey) {
    Wanted(repo, rows, f, k) && Follows(f.after, k)
  }

  lemma PositionAside(repo: Repository, rows: Rows, f: Filter, after: Option<PageKey>, k: PageKey)
    ensures Wanted(repo, rows, f.(after := after), k) == Wanted(repo, rows, f, k)
  {
  }

  /** A filter lets a row through exactly if the row has each value it names, was created within its time
      range, both ends included, and comes after its position. */
  lemma SelectedIff(repo: Repository, rows: Rows, f: Filter, id: nat)
    requires id in rows && ValidInstant(rows[id].createdAt) && ValidBounds(f)
    ensures var e, at := rows[id], Nanos(rows[id].createdAt);
            Selected(repo, rows, f, KeyOf(rows, id)) <==>
              && f.status in {"", e.status} && f.callerService in {"", e.callerService}
              && f.gatewayType in {"", e.gatewayType}
              && (f.referenceId == "" || ReferenceMatches(repo, f.referenceId, e.referenceId))
              && (f.from.Some? ==> Nanos(f.from.value) <= at) && (f.to.Some? ==> at <= Nanos(f.to.value))
              && (f.after.Some? ==>
                    var last := Nanos(f.after.value.createdAt);
                    at < last || (at == last && id < f.after.value.id))
  {
    hide ValidInstant, Nanos, Earlier, NewerFirst, ReferenceMatches;
    var e := rows[id];
    if f.from.Some? {
      EarlierIff(e.createdAt, f.from.value);
    }
    if f.to.Some? {
      EarlierIff(f.to.value, e.createdAt);
    }
    if f.after.Some? {
      NewerFirstMeans(f.after.value, KeyOf(rows, id));
    }
  }

  /** A filter's instants are calendar instants. */
  predicate ValidBounds(f: Filter) {
    && (f.from.Some? ==> ValidInstant(f.from.value)) && (f.to.Some? ==> ValidInstant(f.to.value))
    && (f.after.Some? ==> ValidInstant(f.after.value.createdAt))
  }

  /** No character of the text is special in a LIKE pattern. */
  predicate NoWildcards(s: string) {
    forall i :: 0 <= i < |s| ==> s[i] != '%' && s[i] != '_' && s[i] != '\\'
  }

  /** A text every pattern wanted + "%" matches. */
  function Example(wanted: string): string {
    if wanted == "" then ""
    else if wanted[0] == '%' || wanted[0] == '_' then "x" + Example(wanted[1..])
    else if wanted == "\\" then "%"
    else if wanted[0] == '\\' then [wanted[1]] + Example(wanted[2..])
    else [wanted[0]] + Example(wanted[1..])
  }

  lemma LikeStep(head: string, pattern: string, c: char, s: string)
    requires Like(pattern, s)
    requires head == "%" || head == "_" || head == ['\\', c] || (head == [c] && NoWildcards(head))
    ensures Like(head + pattern, [c] + s)
  {
    var p, t := head + pattern, [c] + s;
    assert t[1..] == s;
    assert p[|head|..] == pattern;
    if head == "%" {
      assert Like(p[1..], s);
      assert Like(p, s);
    }
  }

  lemma {:induction false} ExampleMatches(wanted: string)
    ensures Like(wanted + "%", Example(wanted))
    ensures |Example(wanted)| <= |wanted|
    ensures Example(wanted) == wanted ==> NoWildcards(wanted)
  {
    if wanted == "" {
      assert wanted + "%" == "%";
    } else if wanted == "\\" {
      assert wanted + "%" == "\\%";
    } else {
      hide Like;
      var n := if wanted[0] == '\\' then 2 else 1;
      var head, tail, c := wanted[..n], wanted[n..], Example(wanted)[0];
      ExampleMatches(tail);
      assert Example(wanted) == [c] + Example(tail);
      LikeStep(head, tail + "%", c, Example(tail));
      assert head + (tail + "%") == wanted + "%";
      assert wanted == head + tail;
    }
  }

  lemma {:induction false} PlainPatternIsPrefix(wanted: string, s: string)
    requires NoWildcards(wanted)
    ensures Like(wanted + "%", s) <==> HasPrefix(s, wanted)
  {
    if wanted == "" {
      assert wanted + "%" == "%";
      AnythingMatches(s);
    } else if s == "" {
      assert (wanted + "%")[0] == wanted[0];
    } else {
      PlainPatternIsPrefix(wanted[1..], s[1..]);
      assert (wanted + "%")[1..] == wanted[1..] + "%";
      if HasPrefix(s, wanted) {
        assert s[0] == s[..|wanted|][0];
        assert s[1..][..|wanted| - 1] == wanted[1..];
      }
      if s[0] == wanted[0] && HasPrefix(s[1..], wanted[1..]) {
        assert s[..|wanted|] == [s[0]] + s[1..][..|wanted| - 1];
      }
    }
  }

  lemma {:induction false} AnythingMatches(s: string)
    ensures Like("%", s)
  {
    if s != "" {
      AnythingMatches(s[1..]);
    }
  }

  /** The reference filter is documented as a prefix match. The query passes it to LIKE unescaped, so
      Postgres agrees with the prefix match of the in-memory repository on every reference exactly
      when the filter has no %, _ or backslash. */
  lemma PrefixMatchIffNoWildcards(wanted: string)
    ensures (forall s :: ReferenceMatches(Postgres, wanted, s) <==> ReferenceMatches(InMemory, wanted, s))
            <==> NoWildcards(wanted)
  {
    if NoWildcards(wanted) {
      forall s ensures ReferenceMatches(Postgres, wanted, s) <==> ReferenceMatches(InMemory, wanted, s) {
        PlainPatternIsPrefix(wanted, s);
      }
    } else {
      ExampleMatches(wanted);
      assert ReferenceMatches(Postgres, wanted, Example(wanted));
      assert !ReferenceMatches(InMemory, wanted, Example(wanted));
    }
  }

  // ---------------------------------------------------------------- one page

  /** keys are the newest selected rows, newest first, at most limit of them. */
  ghost predicate Newest(repo: Repository, rows: Rows, f: Filter, limit: nat, keys: seq<PageKey>) {
    && Descending(keys)
    && |keys| <= limit
    && (forall k :: k in keys ==> Selected(repo, rows, f, k))
    && (forall k, l :: Selected(repo, rows, f, k) && k !in keys && l in keys ==> NewerFirst(l, k))
    && (forall k :: Selected(repo, rows, f, k) && k !in keys ==> |keys| == limit)
  }

  /** Puts a new key at its place in a descending list. */
  method Insert(keys: seq<PageKey>, k: PageKey) returns (r: seq<PageKey>)
    requires Descending(keys) && k !in keys
    ensures Descending(r)
    ensures forall l :: l in r <==> l == k || l in keys
  {
    var i := 0;
    while i < |keys| && NewerFirst(keys[i], k)
      invariant 0 <= i <= |keys|
      invariant forall j :: 0 <= j < i ==> NewerFirst(keys[j], k)
    {
      i := i + 1;
    }
    forall j | i <= j < |keys| ensures NewerFirst(k, keys[j]) {
      NewerFirstIsAnOrder(k, keys[i], keys[j]);
    }
    r := keys[..i] + [k] + keys[i..];
    forall l ensures l in r <==> l == k || l in keys {
      assert keys == keys[..i] + keys[i..];
    }
  }

  method ListPaginated(repo: Repository, rows: Rows, f: Filter, limit: int) returns (keys: seq<PageKey>)
    ensures Newest(repo, rows, f, if limit <= 0 then 50 else limit, keys)
    ensures ValidRows(rows) ==>
              && (forall k :: k in keys ==> k.id in rows && k.createdAt == rows[k.id].createdAt && ValidKey(k))
              && (forall i, j :: 0 <= i < j < |keys| ==>
                    var x, y := Nanos(keys[i].createdAt), Nanos(keys[j].createdAt);
                    y < x || (y == x && keys[j].id < keys[i].id))
              && (forall id, k | id in rows && k in keys ::
                    Selected(repo, rows, f, KeyOf(rows, id)) && KeyOf(rows, id) !in keys ==>
                    var x, y := Nanos(k.createdAt), Nanos(rows[id].createdAt);
                    y < x || (y == x && id < k.id))
  {
    keys := [];
    var rest := rows.Keys;
    while rest != {}
      invariant rest <= rows.Keys
      invariant Descending(keys)
      invariant forall k :: k in keys <==> k.id !in rest && Selected(repo, rows, f, k)
      decreases |rest|
    {
      var id :| id in rest;
      var k := KeyOf(rows, id);
      rest := rest - {id};
      if Selected(repo, rows, f, k) {
        keys := Insert(keys, k);
      }
    }
    var most := if limit <= 0 then 50 else limit;
    FirstAreNewest(repo, rows, f, most, keys);
    if |keys| > most {
      keys := keys[..most];
    }
    if ValidRows(rows) {
      NewestAsNumbers(repo, rows, f, most, keys);
    }
  }

  /** What newest first means, in instants and ids. */
  lemma NewestAsNumbers(repo: Repository, rows: Rows, f: Filter, limit: nat, keys: seq<PageKey>)
    requires ValidRows(rows) && Newest(repo, rows, f, limit, keys)
    ensures forall k :: k in keys ==> k.id in rows && k.createdAt == rows[k.id].createdAt && ValidKey(k)
    ensures forall i, j :: 0 <= i < j < |keys| ==>
              var x, y := Nanos(keys[i].createdAt), Nanos(keys[j].createdAt);
              y < x || (y == x && keys[j].id < keys[i].id)
    ensures forall id, k | id in rows && k in keys ::
              Selected(repo, rows, f, KeyOf(rows, id)) && KeyOf(rows, id) !in keys ==>
              var x, y := Nanos(k.createdAt), Nanos(rows[id].createdAt);
              y < x || (y == x && id < k.id)
  {
    hide NewerFirst, Nanos, Matches, Follows, ValidInstant;
    forall k | k in keys ensures k.id in rows && k.createdAt == rows[k.id].createdAt && ValidKey(k) {
      SelectedIsValid(repo, rows, f, k);
    }
    forall i, j | 0 <= i < j < |keys|
      ensures var x, y := Nanos(keys[i].createdAt), Nanos(keys[j].createdAt);
              y < x || (y == x && keys[j].id < keys[i].id)
    {
      assert keys[i] in keys && keys[j] in keys;
      NewerFirstMeans(keys[i], keys[j]);
    }
    forall id, k | id in rows && k in keys && Selected(repo, rows, f, KeyOf(rows, id)) && KeyOf(rows, id) !in keys
      ensures var x, y := Nanos(k.createdAt), Nanos(rows[id].createdAt);
              y < x || (y == x && id < k.id)
    {
      assert ValidKey(KeyOf(rows, id));
      NewerFirstMeans(k, KeyOf(rows, id));
    }
  }

  lemma FirstAreNewest(repo: Repository, rows: Rows, f: Filter, limit: nat, all: seq<PageKey>)
    requires Descending(all)
    requires forall k :: k in all <==> Selected(repo, rows, f, k)
    ensures Newest(repo, rows, f, limit, if |all| > limit then all[..limit] else all)
  {
    hide Selected, NewerFirst;
    if |all| > limit {
      var keys := all[..limit];
      assert all == keys + all[limit..];
      forall k, l | k in all && k !in keys && l in keys ensures NewerFirst(l, k) {
        var i :| 0 <= i < |all| && all[i] == k;
        var j :| 0 <= j < limit && keys[j] == l;
        assert forall h :: 0 <= h < limit ==> all[h] in keys;
      }
    }
  }

  /** What listPage answers: the newest limit rows after the cursor, and a cursor to go on from
      exactly when more rows are left. */
  ghost predicate IsPage(repo: Repository, rows: Rows, f: Filter, cursor: string, limit: nat, keys: seq<PageKey>,
      next: string) {
    DecodeCursor(cursor).Ok? &&
    var here := f.(after := DecodeCursor(cursor).value);
    && Newest(repo, rows, here, limit, keys)
    && (next == "" <==> forall k :: Selected(repo, rows, here, k) ==> k in keys)
    && (next != "" ==> keys != [] && ValidKey(keys[|keys| - 1]) && next == EncodeCursor(keys[|keys| - 1]))
  }

  method ListPage(repo: Repository, rows: Rows, f: Filter, cursor: string, limit: int)
    returns (page: Result<(seq<PageKey>, string)>)
    requires ValidRows(rows) && limit >= 1
    ensures page.Ok? <==> DecodeCursor(cursor).Ok?
    ensures page.Err? ==> page.code == InvalidInput
    ensures page.Ok? ==> IsPage(repo, rows, f, cursor, limit, page.value.0, page.value.1)
    ensures page.Ok? ==>
              var keys := page.value.0;
              && (forall k :: k in keys ==> k.id in rows && k.createdAt == rows[k.id].createdAt && ValidKey(k))
              && (forall i, j :: 0 <= i < j < |keys| ==>
                    var x, y := Nanos(keys[i].createdAt), Nanos(keys[j].createdAt);
                    y < x || (y == x && keys[j].id < keys[i].id))
  {
    var after := DecodeCursor(cursor);
    if after.Err? {
      RefusalsAreInvalidInput(cursor);
      return Err(after.code);
    }
    var here := f.(after := after.value);
    var keys := ListPaginated(repo, rows, here, limit + 1); // one extra row tells whether a next page exists
    var next := "";
    OneExtraRowTells(repo, rows, f, cursor, limit, keys);
    hide IsPage, ValidKey, Selected, NewerFirst, DecodeCursor, EncodeCursor;
    if |keys| > limit {
      keys := keys[..limit];
      next := EncodeCursor(keys[limit - 1]);
    }
    PageAsNumbers(repo, rows, f, cursor, limit, keys, next);
    page := Ok((keys, next));
  }

  lemma PageAsNumbers(repo: Repository, rows: Rows, f: Filter, cursor: string, limit: nat, keys: seq<PageKey>,
      next: string)
    requires ValidRows(rows) && IsPage(repo, rows, f, cursor, limit, keys, next)
    ensures forall k :: k in keys ==> k.id in rows && k.createdAt == rows[k.id].createdAt && ValidKey(k)
    ensures forall i, j :: 0 <= i < j < |keys| ==>
              var x, y := Nanos(keys[i].createdAt), Nanos(keys[j].createdAt);
              y < x || (y == x && keys[j].id < keys[i].id)
  {
    hide Newest, ValidRows, Nanos;
    NewestAsNumbers(repo, rows, f.(after := DecodeCursor(cursor).value), limit, keys);
  }

  lemma OneExtraRowTells(repo: Repository, rows: Rows, f: Filter, cursor: string, limit: nat, all: seq<PageKey>)
    requires ValidRows(rows) && limit >= 1 && DecodeCursor(cursor).Ok?
    requires Newest(repo, rows, f.(after := DecodeCursor(cursor).value), limit + 1, all)
    ensures |all| <= limit ==> IsPage(repo, rows, f, cursor, limit, all, "")
    ensures |all| > limit ==> (
      && ValidKey(all[limit - 1])
      && IsPage(repo, rows, f, cursor, limit, all[..limit], EncodeCursor(all[limit - 1])))
  {
    hide ValidRows, Selected, NewerFirst, DecodeCursor, EncodeCursor, ValidKey;
    var here := f.(after := DecodeCursor(cursor).value);
    if |all| > limit {
      var last := all[limit - 1];
      PageOfOneMore(repo, rows, here, limit, all);
      assert last in all;
      SelectedIsValid(repo, rows, here, last);
      CursorRoundTrip(last);
    }
  }

  lemma RefusalsAreInvalidInput(cursor: string)
    requires DecodeCursor(cursor).Err?
    ensures DecodeCursor(cursor).code == InvalidInput
  {
  }

  lemma SelectedIsValid(repo: Repository, rows: Rows, f: Filter, k: PageKey)
    requires ValidRows(rows) && Selected(repo, rows, f, k)
    ensures ValidKey(k)
  {
    assert k == KeyOf(rows, k.id);
  }

  lemma LastIsNew(keys: seq<PageKey>)
    requires keys != [] && Descending(keys)
    ensures keys[|keys| - 1] !in keys[..|keys| - 1]
  {
    var front, last := keys[..|keys| - 1], keys[|keys| - 1];
    NewerFirstIsAnOrder(last, last, last);
    hide NewerFirst;
    forall i | 0 <= i < |front| ensures front[i] != last {
      assert NewerFirst(keys[i], last);
    }
  }

  lemma PageOfOneMore(repo: Repository, rows: Rows, f: Filter, limit: nat, all: seq<PageKey>)
    requires limit >= 1 && |all| == limit + 1 && Newest(repo, rows, f, limit + 1, all)
    ensures Newest(repo, rows, f, limit, all[..limit])
    ensures Selected(repo, rows, f, all[limit]) && all[limit] !in all[..limit]
  {
    hide Selected, NewerFirst;
    var keys := all[..limit];
    var extra := all[limit];
    assert all == keys + [extra];
    forall l | l in keys ensures NewerFirst(l, extra) {
      var j :| 0 <= j < limit && all[j] == l;
    }
    LastIsNew(all);
    assert extra in all;
  }

  // ---------------------------------------------------------------- following next_cursor

  /** One request of a client that pages through a list: the rows it met and the answer it got. */
  datatype Visit = Visit(rows: Rows, limit: nat, keys: seq<PageKey>, next: string)

  /** The client starts without a cursor and sends back next_cursor until none comes. Payments may
      be inserted and change between its requests. */
  ghost predicate Walk(repo: Repository, f: Filter, visits: seq<Visit>) {
    visits == [] ||
    var front, last := visits[..|visits| - 1], visits[|visits| - 1];
    && Walk(repo, f, front)
    && (front != [] ==> NextCursor(front) != "")
    && last.limit >= 1
    && IsPage(repo, last.rows, f, NextCursor(front), last.limit, last.keys, last.next)
  }

  function NextCursor(visits: seq<Visit>): string {
    if visits == [] then "" else visits[|visits| - 1].next
  }

  function Listed(visits: seq<Visit>): seq<PageKey> {
    if visits == [] then [] else Listed(visits[..|visits| - 1]) + visits[|visits| - 1].keys
  }

  predicate Ended(visits: seq<Visit>) {
    visits != [] && NextCursor(visits) == ""
  }

  /** Where the next request starts: after the last row listed so far. */
  predicate ResumesAfter(listed: seq<PageKey>, cursor: string) {
    && (cursor == "" || listed != [])
    && (cursor != "" ==> DecodeCursor(cursor) == Ok(Some(listed[|listed| - 1])))
  }

  lemma AppendDescending(a: seq<PageKey>, b: seq<PageKey>)
    requires Descending(a) && Descending(b)
    requires a != [] ==> forall k :: k in b ==> NewerFirst(a[|a| - 1], k)
    ensures Descending(a + b)
  {
    var c := a + b;
    forall i, j | 0 <= i < j < |c| ensures NewerFirst(c[i], c[j]) {
      if i < |a| <= j {
        assert b[j - |a|] in b;
        NewerFirstIsAnOrder(a[i], a[|a| - 1], c[j]);
      }
    }
  }

  lemma PageFollows(repo: Repository, rows: Rows, f: Filter, cursor: string, limit: nat, keys: seq<PageKey>,
      next: string, before: seq<PageKey>)
    requires IsPage(repo, rows, f, cursor, limit, keys, next)
    requires ResumesAfter(before, cursor) && Descending(before) && (cursor == "" ==> before == [])
    ensures Descending(before + keys)
    ensures ResumesAfter(before + keys, next)
  {
    hide NewerFirst, Wanted, DecodeCursor, EncodeCursor, ValidKey;
    if before != [] {
      forall k | k in keys ensures NewerFirst(before[|before| - 1], k) {
        assert Selected(repo, rows, f.(after := DecodeCursor(cursor).value), k);
      }
    }
    AppendDescending(before, keys);
    if next != "" {
      CursorRoundTrip(keys[|keys| - 1]);
    }
  }

  lemma {:induction false} WalkDescends(repo: Repository, f: Filter, visits: seq<Visit>)
    requires Walk(repo, f, visits)
    ensures Descending(Listed(visits))
    ensures ResumesAfter(Listed(visits), NextCursor(visits))
    decreases |visits|
  {
    if visits != [] {
      hide IsPage, NewerFirst, DecodeCursor;
      var front, last := visits[..|visits| - 1], visits[|visits| - 1];
      WalkDescends(repo, f, front);
      PageFollows(repo, last.rows, f, NextCursor(front), last.limit, last.keys, last.next, Listed(front));
    }
  }

  /** Only payments that were stored and matching when their page was made are listed. */
  lemma {:induction false} ListedWasStored(repo: Repository, f: Filter, visits: seq<Visit>, k: PageKey)
    requires Walk(repo, f, visits) && k in Listed(visits)
    ensures exists v :: v in visits && k in v.keys && Wanted(repo, v.rows, f, k)
    decreases |visits|
  {
    hide Wanted, NewerFirst, DecodeCursor, EncodeCursor, Descending;
    var front, last := visits[..|visits| - 1], visits[|visits| - 1];
    if k in last.keys {
      var after := DecodeCursor(NextCursor(front)).value;
      assert Selected(repo, last.rows, f.(after := after), k);
      PositionAside(repo, last.rows, f, after, k);
      assert last in visits;
    } else {
      ListedWasStored(repo, f, front, k);
    }
  }

  /** Whatever happens to the store meanwhile, the pages of a walk together run strictly back in time, and
      of equal instants by falling id: no payment comes twice. */
  lemma NothingListedTwice(repo: Repository, f: Filter, visits: seq<Visit>)
    requires Walk(repo, f, visits) && forall v :: v in visits ==> ValidRows(v.rows)
    ensures var keys := Listed(visits);
            && (forall i, j :: 0 <= i < j < |keys| ==>
                  var x, y := Nanos(keys[i].createdAt), Nanos(keys[j].createdAt);
                  y < x || (y == x && keys[j].id < keys[i].id))
            && (forall i, j :: 0 <= i < j < |keys| ==> keys[i] != keys[j])
  {
    hide NewerFirst, Nanos, ValidInstant, Matches;
    var keys := Listed(visits);
    WalkDescends(repo, f, visits);
    forall k | k in keys ensures ValidInstant(k.createdAt) {
      ListedWasStored(repo, f, visits, k);
      var v :| v in visits && k in v.keys && Wanted(repo, v.rows, f, k);
      assert ValidKey(KeyOf(v.rows, k.id));
    }
    forall i, j | 0 <= i < j < |keys|
      ensures var x, y := Nanos(keys[i].createdAt), Nanos(keys[j].createdAt);
              y < x || (y == x && keys[j].id < keys[i].id)
    {
      assert keys[i] in keys && keys[j] in keys;
      NewerFirstMeans(keys[i], keys[j]);
    }
  }

  /** k is stored and matching at every request of the walk. */
  ghost predicate Present(repo: Repository, f: Filter, visits: seq<Visit>, k: PageKey) {
    forall v :: v in visits ==> Wanted(repo, v.rows, f, k)
  }

  lemma PageAdvances(repo: Repository, rows: Rows, f: Filter, cursor: string, limit: nat, keys: seq<PageKey>,
      next: string, k: PageKey)
    requires limit >= 1 && IsPage(repo, rows, f, cursor, limit, keys, next)
    requires Wanted(repo, rows, f, k) && Follows(DecodeCursor(cursor).value, k)
    ensures k in keys || (next != "" && DecodeCursor(next).Ok? && Follows(DecodeCursor(next).value, k))
  {
    hide NewerFirst, Wanted, DecodeCursor, EncodeCursor, ValidKey;
    PositionAside(repo, rows, f, DecodeCursor(cursor).value, k);
    assert Selected(repo, rows, f.(after := DecodeCursor(cursor).value), k);
    if k !in keys {
      assert keys[|keys| - 1] in keys;
      CursorRoundTrip(keys[|keys| - 1]);
    }
  }

  /** A payment present throughout is listed already or lies after the cursor. */
  lemma {:induction false} ListedOrAhead(repo: Repository, f: Filter, visits: seq<Visit>, k: PageKey)
    requires Walk(repo, f, visits) && Present(repo, f, visits, k)
    ensures var cursor := NextCursor(visits);
            k in Listed(visits) || (!Ended(visits) && DecodeCursor(cursor).Ok?
                && Follows(DecodeCursor(cursor).value, k))
    decreases |visits|
  {
    if visits == [] {
      assert DecodeCursor("") == Ok(None);
    } else {
      hide IsPage, NewerFirst, DecodeCursor, Wanted;
      var front, last := visits[..|visits| - 1], visits[|visits| - 1];
      assert last in visits;
      ListedOrAhead(repo, f, front, k);
      if k !in Listed(front) {
        PageAdvances(repo, last.rows, f, NextCursor(front), last.limit, last.keys, last.next, k);
      }
    }
  }

  /** Following next_cursor to the end lists every payment that was stored and matching throughout,
      exactly once. */
  lemma WalkListsEachOnce(repo: Repository, f: Filter, visits: seq<Visit>, k: PageKey)
    requires Walk(repo, f, visits) && Ended(visits) && Present(repo, f, visits, k)
    ensures k in Listed(visits)
    ensures multiset(Listed(visits))[k] == 1
  {
    ListedOrAhead(repo, f, visits, k);
    WalkDescends(repo, f, visits);
    OnceInDescending(Listed(visits), k);
  }

  lemma {:induction false} OnceInDescending(keys: seq<PageKey>, k: PageKey)
    requires Descending(keys)
    ensures multiset(keys)[k] == if k in keys then 1 else 0
  {
    if keys != [] {
      var front, last := keys[..|keys| - 1], keys[|keys| - 1];
      OnceInDescending(front, k);
      LastIsNew(keys);
      assert keys == front + [last];
    }
  }

  // ---------------------------------------------------------------- on a store that stands still

  ghost predicate StandsStill(visits: seq<Visit>, rows: Rows, limit: nat) {
    forall v :: v in visits ==> v.rows == rows && v.limit == limit
  }

  ghost function MatchingIds(repo: Repository, rows: Rows, f: Filter): set<nat> {
    set id | id in rows && Wanted(repo, rows, f, KeyOf(rows, id))
  }

  function IdsOf(keys: seq<PageKey>): set<nat> {
    set k | k in keys :: k.id
  }

  lemma {:induction false} DistinctIds(rows: Rows, keys: seq<PageKey>)
    requires Descending(keys) && forall k :: k in keys ==> Stored(rows, k)
    ensures |IdsOf(keys)| == |keys|
  {
    if keys != [] {
      hide NewerFirst;
      var front, last := keys[..|keys| - 1], keys[|keys| - 1];
      LastIsNew(keys);
      assert keys == front + [last];
      DistinctIds(rows, front);
      assert last in keys;
      assert last.id !in IdsOf(front);
      assert IdsOf(keys) == IdsOf(front) + {last.id};
    }
  }

  lemma WantedIds(repo: Repository, rows: Rows, f: Filter, k: PageKey)
    requires Wanted(repo, rows, f, k)
    ensures Stored(rows, k) && k.id in MatchingIds(repo, rows, f)
  {
    assert k == KeyOf(rows, k.id);
  }

  /** On a store that stands still a walk only ever lists matching rows, as many as it has ids. */
  lemma ListedIds(repo: Repository, f: Filter, visits: seq<Visit>, rows: Rows, limit: nat)
    requires Walk(repo, f, visits) && StandsStill(visits, rows, limit)
    ensures IdsOf(Listed(visits)) <= MatchingIds(repo, rows, f)
    ensures |IdsOf(Listed(visits))| == |Listed(visits)|
    ensures forall k :: k in Listed(visits) ==> Stored(rows, k)
  {
    hide Walk, Descending, Listed, Stored, Wanted, NextCursor, MatchingIds;
    forall k | k in Listed(visits) ensures Stored(rows, k) && k.id in MatchingIds(repo, rows, f) {
      ListedWasStored(repo, f, visits, k);
      WantedIds(repo, rows, f, k);
    }
    WalkDescends(repo, f, visits);
    DistinctIds(rows, Listed(visits));
  }

  lemma PageIsFull(repo: Repository, rows: Rows, f: Filter, cursor: string, limit: nat, keys: seq<PageKey>,
      next: string)
    requires IsPage(repo, rows, f, cursor, limit, keys, next)
    ensures |keys| <= limit && (next != "" ==> |keys| == limit)
  {
    hide Selected, NewerFirst, DecodeCursor, EncodeCursor, ValidKey;
  }

  lemma OneMorePage(pages: nat, all: nat, limit: nat, listed: nat, added: nat)
    requires all == pages + 1 && listed <= pages * limit && added <= limit
    ensures listed + added <= all * limit
    ensures listed == pages * limit && added == limit ==> listed + added == all * limit
  {
    assert all * limit == pages * limit + limit;
  }

  /** Every page but the last is full. */
  lemma {:induction false} PagesAreFull(repo: Repository, f: Filter, visits: seq<Visit>, rows: Rows, limit: nat)
    requires Walk(repo, f, visits) && StandsStill(visits, rows, limit)
    ensures |Listed(visits)| <= |visits| * limit
    ensures NextCursor(visits) != "" ==> |Listed(visits)| == |visits| * limit
    decreases |visits|
  {
    if visits != [] {
      hide IsPage;
      var front, last := visits[..|visits| - 1], visits[|visits| - 1];
      assert last in visits;
      assert Listed(visits) == Listed(front) + last.keys && NextCursor(visits) == last.next;
      assert front != [] ==> NextCursor(front) != "";
      PageIsFull(repo, last.rows, f, NextCursor(front), last.limit, last.keys, last.next);
      PagesAreFull(repo, f, front, rows, limit);
      hide Walk, Listed, NextCursor, StandsStill;
      OneMorePage(|front|, |visits|, limit, |Listed(front)|, |last.keys|);
    }
  }

  lemma MoreIsLeft(repo: Repository, rows: Rows, f: Filter, cursor: string, limit: nat, keys: seq<PageKey>,
      next: string)
    returns (k: PageKey)
    requires IsPage(repo, rows, f, cursor, limit, keys, next) && next != ""
    ensures Wanted(repo, rows, f, k)
    ensures DecodeCursor(next).Ok? && Follows(DecodeCursor(next).value, k)
  {
    hide NewerFirst, Wanted, DecodeCursor, EncodeCursor, ValidKey;
    var here := f.(after := DecodeCursor(cursor).value);
    k :| Selected(repo, rows, here, k) && k !in keys;
    PositionAside(repo, rows, f, here.after, k);
    assert keys[|keys| - 1] in keys;
    CursorRoundTrip(keys[|keys| - 1]);
  }

  lemma FollowingIsUnlisted(listed: seq<PageKey>, k: PageKey)
    requires Descending(listed) && listed != [] && NewerFirst(listed[|listed| - 1], k)
    ensures k !in listed
  {
    var last := listed[|listed| - 1];
    NewerFirstIsAnOrder(k, k, k);
    forall i | 0 <= i < |listed| ensures listed[i] != k {
      NewerFirstIsAnOrder(listed[i], last, k);
    }
  }

  /** While a walk has not ended, at least one row is still to come. */
  lemma UnfinishedWalkMisses(repo: Repository, f: Filter, visits: seq<Visit>, rows: Rows, limit: nat)
    requires Walk(repo, f, visits) && StandsStill(visits, rows, limit) && NextCursor(visits) != ""
    ensures |visits| * limit < |MatchingIds(repo, rows, f)|
  {
    hide IsPage, NewerFirst, Descending, Wanted, DecodeCursor, Listed, MatchingIds;
    var front, last := visits[..|visits| - 1], visits[|visits| - 1];
    assert last in visits;
    var k := MoreIsLeft(repo, rows, f, NextCursor(front), limit, last.keys, last.next);
    WalkDescends(repo, f, visits);
    FollowingIsUnlisted(Listed(visits), k);
    ListedIds(repo, f, visits, rows, limit);
    PagesAreFull(repo, f, visits, rows, limit);
    WantedIds(repo, rows, f, k);
    UnlistedIdIsNew(rows, Listed(visits), k);
    SubsetSize(IdsOf(Listed(visits)), MatchingIds(repo, rows, f));
  }

  lemma UnlistedIdIsNew(rows: Rows, listed: seq<PageKey>, k: PageKey)
    requires k !in listed && Stored(rows, k)
    requires forall l :: l in listed ==> Stored(rows, l)
    ensures k.id !in IdsOf(listed)
  {
  }

  /** A walk over a store that stands still lists exactly the matching payments, and ends: after one
      page if nothing or one page's worth matches, otherwise after as many pages as that takes. */
  lemma WalkEndsInTime(repo: Repository, f: Filter, visits: seq<Visit>, rows: Rows, limit: nat)
    requires Walk(repo, f, visits) && StandsStill(visits, rows, limit) && visits != []
    ensures var n := |MatchingIds(repo, rows, f)|;
            && (|visits| == 1 || (|visits| - 1) * limit < n)
            && (Ended(visits) ==> IdsOf(Listed(visits)) == MatchingIds(repo, rows, f) && n <= |visits| * limit)
            && (!Ended(visits) ==> |visits| * limit < n)
  {
    hide IsPage, NewerFirst, Descending, DecodeCursor, Wanted, Listed, Stored;
    var front := visits[..|visits| - 1];
    if front != [] {
      UnfinishedWalkMisses(repo, f, front, rows, limit);
    }
    if Ended(visits) {
      ListedIds(repo, f, visits, rows, limit);
      PagesAreFull(repo, f, visits, rows, limit);
      forall id | id in MatchingIds(repo, rows, f) ensures id in IdsOf(Listed(visits)) {
        var k := KeyOf(rows, id);
        WalkListsEachOnce(repo, f, visits, k);
        assert k.id == id;
      }
    } else {
      UnfinishedWalkMisses(repo, f, visits, rows, limit);
    }
  }
}
