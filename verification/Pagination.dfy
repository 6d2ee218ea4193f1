/** Cursor pagination over a table that changes between the pages. */
module Pagination {
  import opened Model

  /** A live row that matches the filter. sortId is its identity column. */
  datatype Row = Row(id: nat, sortId: int, name: string, content: int)

  /** orderById and prefixed choose the order; the API refuses requests that ask for both. */
  datatype Query = Query(orderById: bool, prefixed: bool, limit: int)

  datatype Key = BySort(n: int) | ById(id: nat) | ByName(name: string, n: int)

  /** A decoded cursor text: a decimal number, a UUID, a JSON pair, or anything else. */
  datatype Cursor = Number(n: int) | Uuid(id: nat) | Pair(name: string, n: int) | Garbage

  datatype Position = Start | After(key: Key) | Invalid

  datatype Page = Page(items: seq<Row>, next: Option<Cursor>)

  const MAX_CURSOR_NAME := 512

  function KeyOf(q: Query, r: Row): Key {
    if q.orderById then ById(r.id)
    else if q.prefixed then ByName(Lower(r.name), r.sortId)
    else BySort(r.sortId)
  }

  function CursorOf(q: Query, r: Row): Cursor {
    if q.orderById then Uuid(r.id)
    else if q.prefixed then Pair(Lower(r.name), r.sortId)
    else Number(r.sortId)
  }

  /** Where the query continues. The filter reads the cursor only without a name prefix, and List only in name order. */
  function PositionOf(q: Query, cursor: Option<Cursor>): Position {
    if cursor.None? then Start
    else if !q.prefixed && q.orderById then
      if cursor.value.Uuid? then After(ById(cursor.value.id)) else Invalid
    else if !q.prefixed then
      if cursor.value.Number? && cursor.value.n >= 1 then After(BySort(cursor.value.n)) else Invalid
    else if q.orderById then Start
    else if cursor.value.Pair? && cursor.value.n >= 1 && |cursor.value.name| <= MAX_CURSOR_NAME
    then After(ByName(cursor.value.name, cursor.value.n))
    else Invalid
  }

  function PageSize(q: Query): (n: nat)
    ensures 1 <= n <= 1000
    ensures 1 <= q.limit <= 1000 ==> n == q.limit
    ensures q.limit < 1 ==> n == 100
    ensures q.limit > 1000 ==> n == 1000
  {
    if q.limit < 1 then 100 else if q.limit > 1000 then 1000 else q.limit
  }

  /* ---------- the order ---------- */

  predicate Less(a: string, b: string) {
    if b == [] then false
    else if a == [] then true
    else a[0] < b[0] || (a[0] == b[0] && Less(a[1..], b[1..]))
  }

  lemma {:induction false} LessTransitive(a: string, b: string, c: string)
    requires Less(a, b) && Less(b, c)
    ensures Less(a, c)
  {
    if a != [] && a[0] == b[0] == c[0] {
      LessTransitive(a[1..], b[1..], c[1..]);
    }
  }

  lemma {:induction false} LessIrreflexive(a: string)
    ensures !Less(a, a)
  {
    if a != [] {
      LessIrreflexive(a[1..]);
    }
  }

  lemma {:induction false} LessTotal(a: string, b: string)
    ensures a == b || Less(a, b) || Less(b, a)
  {
    if a != [] && b != [] && a[0] == b[0] {
      LessTotal(a[1..], b[1..]);
      assert a == [a[0]] + a[1..] && b == [b[0]] + b[1..];
    }
  }

  predicate Before(a: Key, b: Key) {
    match (a, b)
    case (BySort(m), BySort(n)) => m < n
    case (ById(m), ById(n)) => m < n
    case (ByName(x, m), ByName(y, n)) => Less(x, y) || (x == y && m < n)
    case _ => false
  }

  lemma {:induction false} BeforeTransitive(a: Key, b: Key, c: Key)
    requires Before(a, b) && Before(b, c)
    ensures Before(a, c)
  {
    if a.ByName? && Less(a.name, b.name) && Less(b.name, c.name) {
      LessTransitive(a.name, b.name, c.name);
    }
  }

  lemma {:induction false} BeforeIrreflexive(a: Key)
    ensures !Before(a, a)
  {
    if a.ByName? {
      LessIrreflexive(a.name);
    }
  }

  lemma {:induction false} BeforeTotal(q: Query, r: Row, s: Row)
    ensures KeyOf(q, r) == KeyOf(q, s) || Before(KeyOf(q, r), KeyOf(q, s)) || Before(KeyOf(q, s), KeyOf(q, r))
  {
    LessTotal(Lower(r.name), Lower(s.name));
  }

  /* ---------- what a cursor says ---------- */

  /** The cursor is not one of the kind that the order calls for; with both orders combined it is not looked at. */
  predicate Refused(q: Query, cursor: Option<Cursor>) {
    if q.orderById && q.prefixed then false
    else
      match cursor
      case None => false
      case Some(Uuid(_)) => !q.orderById
      case Some(Number(n)) => q.orderById || q.prefixed || n < 1
      case Some(Pair(name, n)) => !q.prefixed || n < 1 || |name| > 512
      case Some(Garbage) => true
  }

  /** A refused cursor has no position, and any other one continues behind the row that it names. */
  lemma {:induction false} PositionMeans(q: Query, cursor: Option<Cursor>)
    ensures PositionOf(q, cursor).Invalid? <==> Refused(q, cursor)
    ensures forall r :: !Refused(q, cursor) ==>
              (Behind(PositionOf(q, cursor), KeyOf(q, r)) <==>
               || cursor.None? || (q.orderById && q.prefixed)
               || (cursor.value.Uuid? && cursor.value.id < r.id)
               || (cursor.value.Number? && cursor.value.n < r.sortId)
               || (cursor.value.Pair? && (Less(cursor.value.name, Lower(r.name))
                                          || (cursor.value.name == Lower(r.name) && cursor.value.n < r.sortId))))
  {}

  /* ---------- one page ---------- */

  predicate Behind(pos: Position, k: Key) {
    pos.Start? || (pos.After? && Before(pos.key, k))
  }

  ghost predicate Ascending(q: Query, rows: seq<Row>) {
    forall i, j :: 0 <= i < j < |rows| ==> Before(KeyOf(q, rows[i]), KeyOf(q, rows[j]))
  }

  /** The rows of the table that come after a position. */
  ghost function Rest(q: Query, table: set<Row>, pos: Position): set<Row> {
    set r | r in table && Behind(pos, KeyOf(q, r))
  }

  /** What SELECT ... ORDER BY key LIMIT n returns. */
  ghost predicate Selected(rows: seq<Row>, q: Query, table: set<Row>, pos: Position, n: nat) {
    && |rows| <= n && Ascending(q, rows)
    && (forall i :: 0 <= i < |rows| ==> rows[i] in Rest(q, table, pos))
    && (forall r :: r in Rest(q, table, pos) && r !in rows ==>
            |rows| == n > 0 && Before(KeyOf(q, rows[n - 1]), KeyOf(q, r)))
  }

  /** The next rows in order. A cursor is returned exactly when rows remain, and these come after the last item. */
  ghost predicate IsPage(p: Page, q: Query, table: set<Row>, pos: Position) {
    && Selected(p.items, q, table, pos, PageSize(q))
    && (p.next.Some? <==> exists r :: r in Rest(q, table, pos) && r !in p.items)
    && (p.next.Some? ==> |p.items| == PageSize(q) && p.next == Some(CursorOf(q, p.items[|p.items| - 1])))
  }

  method List(q: Query, cursor: Option<Cursor>, fetched: seq<Row>, ghost table: set<Row>) returns (page: Option<Page>)
    requires Selected(fetched, q, table, PositionOf(q, cursor), PageSize(q) + 1)
    ensures page.None? <==> Refused(q, cursor)
    ensures page.Some? ==> IsPage(page.value, q, table, PositionOf(q, cursor))
  {
    var position := PositionOf(q, cursor);
    PositionMeans(q, cursor);
    if position.Invalid? {
      return None;
    }
    var limit := PageSize(q);
    if |fetched| > limit {
      CutPage(q, fetched, table, position, limit);
      return Some(Page(fetched[..limit], Some(CursorOf(q, fetched[limit - 1]))));
    }
    return Some(Page(fetched, None));
  }

  /** Cutting the extra row off leaves the first `limit` rows, and that row is one that remains. */
  lemma {:induction false} CutPage(q: Query, rows: seq<Row>, table: set<Row>, pos: Position, limit: nat)
    requires Selected(rows, q, table, pos, limit + 1) && |rows| == limit + 1 && limit >= 1
    ensures Selected(rows[..limit], q, table, pos, limit)
    ensures rows[limit] in Rest(q, table, pos) && rows[limit] !in rows[..limit]
  {
    var last := KeyOf(q, rows[limit - 1]);
    forall i | 0 <= i < limit ensures rows[i] != rows[limit] {
      BeforeIrreflexive(KeyOf(q, rows[i]));
    }
    forall i | 0 <= i < limit ensures rows[i] in rows[..limit] {
      assert rows[..limit][i] == rows[i];
    }
    forall r | r in Rest(q, table, pos) && r !in rows[..limit] ensures Before(last, KeyOf(q, r)) {
      if r in rows {
        var i :| 0 <= i < |rows| && rows[i] == r;
        assert i == limit;
      } else {
        BeforeTransitive(last, KeyOf(q, rows[limit]), KeyOf(q, r));
      }
    }
  }

  /* ---------- cursors ---------- */

  /** The combination the API refuses. */
  predicate Follows(q: Query) {
    !(q.orderById && q.prefixed)
  }

  predicate Encodable(q: Query, r: Row) {
    q.orderById || (r.sortId >= 1 && (q.prefixed ==> |Lower(r.name)| <= MAX_CURSOR_NAME))
  }

  /** A returned cursor continues after the row it was made from exactly when the two orders are not combined, the
      row has an identity and its name is not too long. */
  lemma {:induction false} CursorRoundTrip(q: Query, r: Row)
    ensures PositionOf(q, Some(CursorOf(q, r))) == After(KeyOf(q, r)) <==> Follows(q) && Encodable(q, r)
  {}

  /** With both orders the cursor is ignored: every page is the first one. */
  lemma {:induction false} IgnoredCursorRepeats(q: Query, cursor: Option<Cursor>, table: set<Row>, first: Page,
                                                second: Page)
    requires !Follows(q) && IsPage(first, q, table, Start) && Keyed(q, table)
    requires IsPage(second, q, table, PositionOf(q, cursor))
    ensures second == first
  {
    SamePage(q, table, Start, first, second);
  }

  /** Keys identify the rows of a table: id and sort_id are unique. */
  ghost predicate Keyed(q: Query, table: set<Row>) {
    && (forall r, s :: r in table && s in table && KeyOf(q, r) == KeyOf(q, s) ==> r == s)
    && forall r :: r in table ==> Encodable(q, r)
  }

  lemma {:induction false} NotEarlier(q: Query, table: set<Row>, pos: Position, a: seq<Row>, b: seq<Row>, n: nat,
                                      i: nat)
    requires Selected(a, q, table, pos, n) && Selected(b, q, table, pos, n)
    requires i < |a| && i < |b| && a[..i] == b[..i]
    ensures !Before(KeyOf(q, a[i]), KeyOf(q, b[i]))
  {
    if Before(KeyOf(q, a[i]), KeyOf(q, b[i])) {
      BeforeIrreflexive(KeyOf(q, a[i]));
      forall j | 0 <= j < i ensures b[j] != a[i] {
        assert a[..i][j] == b[..i][j];
      }
      if a[i] in b {
        var j :| 0 <= j < |b| && b[j] == a[i];
        if j > i {
          BeforeTransitive(KeyOf(q, a[i]), KeyOf(q, b[i]), KeyOf(q, a[i]));
        }
      } else {
        if i < |b| - 1 {
          BeforeTransitive(KeyOf(q, b[i]), KeyOf(q, b[|b| - 1]), KeyOf(q, a[i]));
        }
        BeforeTransitive(KeyOf(q, a[i]), KeyOf(q, b[i]), KeyOf(q, a[i]));
      }
    }
  }

  lemma {:induction false} SamePrefix(q: Query, table: set<Row>, pos: Position, a: seq<Row>, b: seq<Row>, n: nat,
                                      i: nat)
    requires Selected(a, q, table, pos, n) && Selected(b, q, table, pos, n) && Keyed(q, table)
    requires i <= |a| && i <= |b|
    ensures a[..i] == b[..i]
  {
    if i > 0 {
      SamePrefix(q, table, pos, a, b, n, i - 1);
      NotEarlier(q, table, pos, a, b, n, i - 1);
      NotEarlier(q, table, pos, b, a, n, i - 1);
      BeforeTotal(q, a[i - 1], b[i - 1]);
      assert a[i - 1] in table && b[i - 1] in table;
      assert a[..i] == a[..i - 1] + [a[i - 1]] && b[..i] == b[..i - 1] + [b[i - 1]];
    }
  }

  lemma {:induction false} NotLonger(q: Query, table: set<Row>, pos: Position, a: seq<Row>, b: seq<Row>, n: nat)
    requires Selected(a, q, table, pos, n) && Selected(b, q, table, pos, n) && Keyed(q, table)
    ensures |b| <= |a|
  {
    if |a| < |b| {
      SamePrefix(q, table, pos, a, b, n, |a|);
      var r := b[|a|];
      if r in a {
        var j :| 0 <= j < |a| && a[j] == r;
        assert b[..|a|][j] == r;
        BeforeIrreflexive(KeyOf(q, r));
      }
    }
  }

  /** A table and a position determine the page. */
  lemma {:induction false} SamePage(q: Query, table: set<Row>, pos: Position, a: Page, b: Page)
    requires IsPage(a, q, table, pos) && IsPage(b, q, table, pos) && Keyed(q, table)
    ensures a == b
  {
    NotLonger(q, table, pos, a.items, b.items, PageSize(q));
    NotLonger(q, table, pos, b.items, a.items, PageSize(q));
    SamePrefix(q, table, pos, a.items, b.items, PageSize(q), |a.items|);
    assert a.items[..|a.items|] == a.items && b.items[..|a.items|] == b.items;
  }

  /* ---------- following the cursors ---------- */

  /** pages[i] is read from tables[i]; each page but the last leads to the next one. */
  ghost predicate Walk(q: Query, tables: seq<set<Row>>, pages: seq<Page>, pos: Position) {
    && |pages| == |tables| > 0
    && IsPage(pages[0], q, tables[0], pos) && Keyed(q, tables[0])
    && (|pages| > 1 ==> pages[0].next.Some? && Walk(q, tables[1..], pages[1..], PositionOf(q, pages[0].next)))
  }

  ghost predicate Complete(pages: seq<Page>) {
    pages != [] && pages[|pages| - 1].next.None?
  }

  function Items(pages: seq<Page>): seq<Row> {
    if pages == [] then [] else pages[0].items + Items(pages[1..])
  }

  /** The position after a page with a cursor is its last item. */
  lemma {:induction false} NextPosition(q: Query, table: set<Row>, pos: Position, p: Page)
    requires IsPage(p, q, table, pos) && Keyed(q, table) && Follows(q) && p.next.Some?
    ensures p.items != [] && PositionOf(q, p.next) == After(KeyOf(q, p.items[|p.items| - 1]))
  {
    var last := p.items[|p.items| - 1];
    assert last in Rest(q, table, pos);
    CursorRoundTrip(q, last);
  }

  /** Whatever is inserted, changed or removed between the pages, the keys of the returned rows strictly increase. */
  lemma {:induction false} WalkAscends(q: Query, tables: seq<set<Row>>, pages: seq<Page>, pos: Position)
    requires Walk(q, tables, pages, pos) && Follows(q)
    ensures Ascending(q, Items(pages))
    ensures forall i :: 0 <= i < |Items(pages)| ==> Behind(pos, KeyOf(q, Items(pages)[i]))
    decreases |pages|
  {
    var items, rest := pages[0].items, Items(pages[1..]);
    forall i | 0 <= i < |items| ensures Behind(pos, KeyOf(q, items[i])) {
      assert items[i] in Rest(q, tables[0], pos);
    }
    if |pages| > 1 {
      NextPosition(q, tables[0], pos, pages[0]);
      WalkAscends(q, tables[1..], pages[1..], PositionOf(q, pages[0].next));
      AppendAscends(q, items, rest, pos);
    } else {
      assert Items(pages) == items;
    }
  }

  lemma {:induction false} AppendAscends(q: Query, items: seq<Row>, rest: seq<Row>, pos: Position)
    requires items != [] && Ascending(q, items) && Ascending(q, rest)
    requires forall i :: 0 <= i < |items| ==> Behind(pos, KeyOf(q, items[i]))
    requires forall i :: 0 <= i < |rest| ==> Behind(After(KeyOf(q, items[|items| - 1])), KeyOf(q, rest[i]))
    ensures Ascending(q, items + rest)
    ensures forall i :: 0 <= i < |items + rest| ==> Behind(pos, KeyOf(q, (items + rest)[i]))
  {
    var all, last := items + rest, KeyOf(q, items[|items| - 1]);
    forall i, j | 0 <= i < |items| && 0 <= j < |rest| ensures Before(KeyOf(q, items[i]), KeyOf(q, rest[j])) {
      if i < |items| - 1 {
        BeforeTransitive(KeyOf(q, items[i]), last, KeyOf(q, rest[j]));
      }
    }
    forall j | 0 <= j < |rest| ensures Behind(pos, KeyOf(q, rest[j])) {
      if pos.After? {
        BeforeTransitive(pos.key, last, KeyOf(q, rest[j]));
      }
    }
  }

  /** No key is returned twice. */
  lemma {:induction false} NoKeyTwice(q: Query, tables: seq<set<Row>>, pages: seq<Page>, i: nat, j: nat)
    requires Walk(q, tables, pages, Start) && Follows(q)
    requires i < j < |Items(pages)|
    ensures KeyOf(q, Items(pages)[i]) != KeyOf(q, Items(pages)[j])
  {
    WalkAscends(q, tables, pages, Start);
    BeforeIrreflexive(KeyOf(q, Items(pages)[i]));
  }

  ghost predicate HasKey(q: Query, rows: seq<Row>, k: Key) {
    exists i :: 0 <= i < |rows| && KeyOf(q, rows[i]) == k
  }

  ghost predicate KeyIn(q: Query, table: set<Row>, k: Key) {
    exists r :: r in table && KeyOf(q, r) == k
  }

  /** What a page leaves out comes after it. */
  lemma {:induction false} LeftForLater(q: Query, table: set<Row>, pos: Position, p: Page, k: Key)
    requires IsPage(p, q, table, pos) && Keyed(q, table) && Follows(q)
    requires Behind(pos, k) && KeyIn(q, table, k) && !HasKey(q, p.items, k)
    ensures p.next.Some? && Behind(PositionOf(q, p.next), k)
  {
    var r :| r in table && KeyOf(q, r) == k;
    assert r in Rest(q, table, pos);
    NextPosition(q, table, pos, p);
  }

  lemma {:induction false} HasKeyAppend(q: Query, a: seq<Row>, b: seq<Row>, k: Key)
    ensures HasKey(q, a, k) || HasKey(q, b, k) ==> HasKey(q, a + b, k)
  {
    if HasKey(q, a, k) {
      var i :| 0 <= i < |a| && KeyOf(q, a[i]) == k;
      assert (a + b)[i] == a[i];
    } else if HasKey(q, b, k) {
      var i :| 0 <= i < |b| && KeyOf(q, b[i]) == k;
      assert (a + b)[|a| + i] == b[i];
    }
  }

  /** A row that is there under the same key when every page is read is returned by a walk that reaches the end. */
  lemma {:induction false} NothingMissed(q: Query, tables: seq<set<Row>>, pages: seq<Page>, pos: Position, k: Key)
    requires Walk(q, tables, pages, pos) && Follows(q) && Complete(pages)
    requires Behind(pos, k) && forall t :: 0 <= t < |tables| ==> KeyIn(q, tables[t], k)
    ensures HasKey(q, Items(pages), k)
    decreases |pages|
  {
    hide IsPage, Keyed, Behind, PositionOf, HasKey, KeyIn, Follows;
    HasKeyAppend(q, pages[0].items, Items(pages[1..]), k);
    if !HasKey(q, pages[0].items, k) {
      LeftForLater(q, tables[0], pos, pages[0], k);
      NothingMissed(q, tables[1..], pages[1..], PositionOf(q, pages[0].next), k);
    }
  }

  /** Every row that is there throughout is returned exactly once. */
  lemma {:induction false} ExactlyOnce(q: Query, tables: seq<set<Row>>, pages: seq<Page>, k: Key)
    requires Walk(q, tables, pages, Start) && Follows(q) && Complete(pages)
    requires forall t :: 0 <= t < |tables| ==> KeyIn(q, tables[t], k)
    ensures exists i :: 0 <= i < |Items(pages)| && KeyOf(q, Items(pages)[i]) == k
                     && forall j :: 0 <= j < |Items(pages)| && j != i ==> KeyOf(q, Items(pages)[j]) != k
  {
    NothingMissed(q, tables, pages, Start, k);
    var i :| 0 <= i < |Items(pages)| && KeyOf(q, Items(pages)[i]) == k;
    forall j | 0 <= j < |Items(pages)| && j != i ensures KeyOf(q, Items(pages)[j]) != k {
      if i < j {
        NoKeyTwice(q, tables, pages, i, j);
      } else {
        NoKeyTwice(q, tables, pages, j, i);
      }
    }
  }

  /* ---------- a fixed table ---------- */

  lemma {:induction false} ItemCount(q: Query, rows: seq<Row>)
    requires Ascending(q, rows)
    ensures |Rows(rows)| == |rows|
  {
    if rows != [] {
      var n := |rows| - 1;
      var front := rows[..n];
      ItemCount(q, front);
      forall i | 0 <= i < n ensures rows[i] != rows[n] {
        BeforeIrreflexive(KeyOf(q, rows[n]));
      }
      assert Rows(rows) == Rows(front) + {rows[n]};
    }
  }

  ghost function Rows(items: seq<Row>): set<Row> {
    set r | r in items
  }

  lemma {:induction false} RowsAppend(a: seq<Row>, b: seq<Row>)
    ensures Rows(a + b) == Rows(a) + Rows(b)
  {}

  lemma {:induction false} NotAfterLast(q: Query, items: seq<Row>, r: Row)
    requires Ascending(q, items) && items != [] && Before(KeyOf(q, items[|items| - 1]), KeyOf(q, r))
    ensures r !in items
  {
    if r in items {
      var i :| 0 <= i < |items| && items[i] == r;
      BeforeIrreflexive(KeyOf(q, r));
      if i < |items| - 1 {
        BeforeTransitive(KeyOf(q, r), KeyOf(q, items[|items| - 1]), KeyOf(q, r));
      }
    }
  }

  /** After a page with a cursor the rest is what was there without the page. */
  lemma {:induction false} RestAfterPage(q: Query, table: set<Row>, pos: Position, p: Page)
    requires IsPage(p, q, table, pos) && Keyed(q, table) && Follows(q) && p.next.Some?
    ensures Rest(q, table, PositionOf(q, p.next)) == Rest(q, table, pos) - Rows(p.items)
  {
    NextPosition(q, table, pos, p);
    var here, there, n := Rest(q, table, pos), Rest(q, table, PositionOf(q, p.next)), |p.items| - 1;
    var last := KeyOf(q, p.items[n]);
    assert p.items[n] in here;
    forall r ensures r in there <==> r in here && r !in p.items {
      if r in there {
        if pos.After? {
          BeforeTransitive(pos.key, last, KeyOf(q, r));
        }
        NotAfterLast(q, p.items, r);
      }
    }
  }

  lemma {:induction false} RestCount(q: Query, table: set<Row>, pos: Position, p: Page)
    requires IsPage(p, q, table, pos)
    ensures Rows(p.items) <= Rest(q, table, pos) && |Rows(p.items)| == |p.items|
    ensures |Rest(q, table, pos) - Rows(p.items)| == |Rest(q, table, pos)| - |p.items|
    ensures p.next.Some? <==> Rest(q, table, pos) != Rows(p.items)
    ensures p.next.Some? ==> |Rest(q, table, pos)| > |p.items|
  {
    var here, items := Rest(q, table, pos), Rows(p.items);
    ItemCount(q, p.items);
    assert here == (here - items) + items;
    if p.next.Some? {
      var r :| r in here && r !in p.items;
      assert r in here - items;
    }
  }

  /** On a table that does not change, a walk that reaches the end returns every row, in as few pages as fit. */
  lemma {:induction false} FixedTable(q: Query, table: set<Row>, tables: seq<set<Row>>, pages: seq<Page>, pos: Position)
    requires Walk(q, tables, pages, pos) && Follows(q) && Complete(pages)
    requires forall t :: 0 <= t < |tables| ==> tables[t] == table
    ensures |pages| == if Rest(q, table, pos) == {} then 1 else CeilDiv(|Rest(q, table, pos)|, PageSize(q))
    ensures Rows(Items(pages)) == Rest(q, table, pos)
    decreases |pages|
  {
    hide Rest, Rows, Keyed, Behind, Selected;
    var p := pages[0];
    assert tables[0] == table;
    PageFits(q, table, pos, p);
    RestCount(q, table, pos, p);
    if |pages| > 1 {
      RestAfterPage(q, table, pos, p);
      FixedTable(q, table, tables[1..], pages[1..], PositionOf(q, p.next));
      RowsAppend(p.items, Items(pages[1..]));
    } else {
      assert Items(pages) == p.items;
    }
  }

  lemma {:induction false} PageFits(q: Query, table: set<Row>, pos: Position, p: Page)
    requires IsPage(p, q, table, pos)
    ensures |p.items| <= PageSize(q) && (p.next.Some? ==> |p.items| == PageSize(q))
  {}
}
