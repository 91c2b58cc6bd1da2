/** Paging through an account history served by an untrusted server, with bounded reads and ordered clocks. */
module HistoryPager {
  import opened Outcomes

  const MAX_PAGES: nat := 100
  const PAGE_SIZE: nat := 100
  const MAX_ROWS: nat := 10000

  type Id = nat

  datatype Row = Row(id: Option<Id>, user: Option<nat>)

  datatype Cursor = NoCursor | Malformed | Next(code: nat)

  /** One answer: `count` is None when it is not an integer. */
  datatype Page = Page(rows: seq<Row>, count: Option<int>, next: Cursor)

  /** What is read. The account and the funding come as one page each. */
  datatype Path = Account | Orders | Protections | Funding

  /** One completed read, as evidence: when it ran, what and which offset it asked for, and what came back. */
  datatype Component = Component(started: int, finished: int, path: Path, offset: nat, cursor: Option<nat>, page: Page,
                                 size: nat)

  /** The rows of a series of reads, in order. */
  function RowsOf(history: seq<Component>): seq<Row> {
    if history == [] then [] else RowsOf(history[..|history| - 1]) + history[|history| - 1].page.rows
  }

  predicate DistinctIds(rows: seq<Row>) {
    && (forall x :: x in rows ==> x.id.Some?)
    && forall i, j :: 0 <= i < j < |rows| ==> rows[i].id != rows[j].id
  }

  /** Each read asked for exactly the number of rows already held. */
  ghost predicate OffsetsAreHoldings(history: seq<Component>) {
    forall i :: 0 <= i < |history| ==> history[i].offset == |RowsOf(history[..i])|
  }

  /** No read began before the one before it had ended. */
  predicate ClocksOrdered(history: seq<Component>) {
    && (forall i :: 0 <= i < |history| ==> history[i].started <= history[i].finished)
    && forall i :: 0 < i < |history| ==> history[i - 1].finished <= history[i].started
  }

  predicate RowAllowed(row: Row, orders: bool, account: nat) {
    && row.id.Some?
    && (orders ==> row.user == Some(account))
    && (row.user.Some? ==> row.user == Some(account))
  }

  function IdSet(rows: seq<Row>): set<Id> {
    set x | x in rows && x.id.Some? :: x.id.value
  }

  lemma NothingHeld()
    ensures DistinctIds([]) && IdSet([]) == {} && RowsOf([]) == [] && OffsetsAreHoldings([])
  {
  }

  /** One more row keeps the rows distinct exactly when its identity is new. */
  lemma OneMore(held: seq<Row>, row: Row)
    requires DistinctIds(held)
    ensures DistinctIds(held + [row]) <==> row.id.Some? && row.id.value !in IdSet(held)
    ensures row.id.Some? ==> IdSet(held + [row]) == IdSet(held) + {row.id.value}
  {
    var more := held + [row];
    if row.id.Some? && row.id.value in IdSet(held) {
      var x :| x in held && x.id == row.id;
      var i :| 0 <= i < |held| && held[i] == x;
      assert more[i].id == more[|held|].id;
    }
    if DistinctIds(more) {
      assert more[|held|] == row && row in more;
    }
  }

  lemma NotDistinct(all: seq<Row>, front: seq<Row>, row: Row, rest: seq<Row>)
    requires all == front + [row] + rest
    ensures DistinctIds(all) ==> DistinctIds(front + [row])
  {
    var part := front + [row];
    assert forall i :: 0 <= i < |part| ==> part[i] == all[i];
    assert forall x :: x in part ==> x in all;
  }

  function Least(a: nat, b: nat): nat {
    if a < b then a else b
  }

  /** The page an honest server gives of an unchanging list; where rows remain it may add a cursor of its choice. */
  predicate HonestPage(list: seq<Row>, offset: nat, orders: bool, page: Page)
    requires offset <= |list|
  {
    var end := Least(offset + PAGE_SIZE, |list|);
    && page.rows == list[offset..end]
    && page.count == Some(|list|)
    && (page.next == NoCursor || (orders && end < |list| && page.next.Next?))
  }

  /** Pages at different offsets never carry the same cursor. */
  ghost predicate FreshCursors(server: (nat, nat, Option<nat>) -> Page, size: nat) {
    forall k: nat, a: nat, x, l: nat, b: nat, y {:trigger server(k, a, x), server(l, b, y)} ::
      a < b <= size && server(k, a, x).next.Next? ==> server(k, a, x).next != server(l, b, y).next
  }

  /** Every read of this server, at any time and with any cursor, is an honest page of `list`, and every cursor it
      hands out is fresh. */
  ghost predicate HonestServer(server: (nat, nat, Option<nat>) -> Page, list: seq<Row>, orders: bool) {
    && FreshCursors(server, |list|)
    && forall k: nat, offset: nat, cursor :: offset <= |list| ==> HonestPage(list, offset, orders, server(k, offset, cursor))
  }

  /** These cursors were all handed out with pages before `offset`. */
  ghost predicate HandedOut(server: (nat, nat, Option<nat>) -> Page, cursors: set<nat>, offset: nat) {
    forall c :: c in cursors ==> exists k: nat, o: nat, x :: o < offset && server(k, o, x).next == Next(c)
  }

  lemma NoneHandedOut(server: (nat, nat, Option<nat>) -> Page)
    ensures HandedOut(server, {}, 0)
  {
  }

  /** A cursor of the page at `offset` is not among them. */
  lemma CursorIsFresh(server: (nat, nat, Option<nat>) -> Page, list: seq<Row>, orders: bool, cursors: set<nat>,
                      k: nat, offset: nat, x: Option<nat>, later: nat)
    requires HonestServer(server, list, orders) && HandedOut(server, cursors, offset) && offset <= |list|
    ensures offset <= later ==> HandedOut(server, cursors, later)
    ensures server(k, offset, x).next.Next? ==>
      && server(k, offset, x).next.code !in cursors
      && (offset < later ==> HandedOut(server, cursors + {server(k, offset, x).next.code}, later))
  {
  }

  /** The row has an identity and names no other account; an order names this one. */
  predicate OwnRow(x: Row, orders: bool, account: nat) {
    x.id.Some? && if orders then x.user == Some(account) else x.user in {None, Some(account)}
  }

  /** The result of a paging pass: the rows it holds are this account's and distinct, and as many as every single page
      reported. */
  ghost predicate Complete(history: seq<Component>, count: nat, orders: bool, account: nat) {
    && DistinctIds(RowsOf(history))
    && |RowsOf(history)| == count <= MAX_ROWS
    && (forall c :: c in history ==> c.page.count == Some(count))
    && forall x :: x in RowsOf(history) ==> OwnRow(x, orders, account)
  }

  lemma AllAdmitted(history: seq<Component>, count: nat, orders: bool, account: nat)
    requires DistinctIds(RowsOf(history)) && |RowsOf(history)| == count <= MAX_ROWS
    requires forall c :: c in history ==> c.page.count == Some(count)
    requires forall x :: x in RowsOf(history) ==> RowAllowed(x, orders, account)
    ensures Complete(history, count, orders, account)
  {
    hide DistinctIds, RowsOf;
  }

  lemma RowsAppend(history: seq<Component>, c: Component)
    ensures RowsOf(history + [c]) == RowsOf(history) + c.page.rows
  {
  }

  lemma OffsetsAppend(history: seq<Component>, c: Component)
    requires OffsetsAreHoldings(history) && c.offset == |RowsOf(history)|
    ensures OffsetsAreHoldings(history + [c])
  {
    var longer := history + [c];
    forall i | 0 <= i < |longer| ensures longer[i].offset == |RowsOf(longer[..i])| {
      if i < |history| { assert longer[..i] == history[..i]; } else { assert longer[..i] == history; }
    }
  }

  /** One more read of a pass that began after `start`. */
  lemma SegmentGrows(start: seq<Component>, segment: seq<Component>, now: seq<Component>) returns (longer: seq<Component>)
    requires start + segment <= now && |now| == |start| + |segment| + 1
    requires OffsetsAreHoldings(segment) && now[|now| - 1].offset == |RowsOf(segment)|
    ensures longer == segment + [now[|now| - 1]] && now == start + longer && now[|start|..] == longer
    ensures OffsetsAreHoldings(longer) && RowsOf(longer) == RowsOf(segment) + now[|now| - 1].page.rows
  {
    hide RowsOf, OffsetsAreHoldings;
    longer := segment + [now[|now| - 1]];
    RowsAppend(segment, now[|now| - 1]);
    OffsetsAppend(segment, now[|now| - 1]);
  }

  /** An honest server of a list of at most ten thousand distinct rows, all of this account. */
  ghost predicate HonestRun(server: (nat, nat, Option<nat>) -> Page, list: seq<Row>, orders: bool, account: nat) {
    && HonestServer(server, list, orders) && DistinctIds(list) && |list| <= MAX_ROWS
    && forall x :: x in list ==> OwnRow(x, orders, account)
  }

  lemma HonestBound(server: (nat, nat, Option<nat>) -> Page, list: seq<Row>, orders: bool, account: nat)
    ensures HonestRun(server, list, orders, account) ==> |list| <= MAX_ROWS
  {
  }

  /** What the capture has learned so far. */
  datatype Progress = Progress(seen: set<Id>, cursors: set<nat>, expected: Option<int>, next: Option<nat>)

  /** An honest page continues the list and is admitted. */
  lemma HonestRead(server: (nat, nat, Option<nat>) -> Page, list: seq<Row>, orders: bool, account: nat, k: nat,
                   held: seq<Row>, cursor: Option<nat>)
    requires HonestRun(server, list, orders, account) && |held| <= |list| && held == list[..|held|]
    ensures
      var page := server(k, |held|, cursor);
      && HonestPage(list, |held|, orders, page) && |list| <= MAX_ROWS
      && held + page.rows == list[..Least(|held| + PAGE_SIZE, |list|)] && DistinctIds(held + page.rows)
      && forall x :: x in page.rows ==> RowAllowed(x, orders, account)
  {
    var page := server(k, |held|, cursor);
    assert HonestPage(list, |held|, orders, page);
    forall x | x in page.rows ensures RowAllowed(x, orders, account) {
      assert x in list;
    }
  }

  lemma HonestCursor(server: (nat, nat, Option<nat>) -> Page, list: seq<Row>, orders: bool, account: nat,
                     cursors: set<nat>, k: nat, held: seq<Row>, x: Option<nat>)
    requires HonestRun(server, list, orders, account) && |held| <= |list| && HandedOut(server, cursors, |held|)
    ensures
      var next, end := server(k, |held|, x).next, Least(|held| + PAGE_SIZE, |list|);
      && HandedOut(server, cursors, end)
      && (next.Next? ==> next.code !in cursors && HandedOut(server, cursors + {next.code}, end))
  {
    assert HonestPage(list, |held|, orders, server(k, |held|, x));
    CursorIsFresh(server, list, orders, cursors, k, |held|, x, Least(|held| + PAGE_SIZE, |list|));
  }

  class Collector {
    const account: nat
    /** The server's answer to the k-th read of this collector, path by path: any behaviour over time is such a
        function. */
    const servers: Path -> (nat, nat, Option<nat>) -> Page
    const maxBytes: nat
    /** The clock reading the capture began with, and how long it may take. */
    const started: int
    const maxSpan: int
    var history: seq<Component>
    var previous: int
    var bytes: nat

    constructor (account: nat, servers: Path -> (nat, nat, Option<nat>) -> Page, maxBytes: nat, maxSpan: int, now: int)
      ensures Valid() && history == [] && this.account == account && this.servers == servers
      ensures this.maxBytes == maxBytes && this.maxSpan == maxSpan && this.started == now
    {
      this.account, this.servers, this.maxBytes, this.maxSpan, this.started := account, servers, maxBytes, maxSpan, now;
      history, previous, bytes := [], now, 0;
    }

    ghost predicate Valid()
      reads this
    {
      && ClocksOrdered(history) && (history != [] ==> history[|history| - 1].finished == previous) && bytes <= maxBytes
      && started <= previous && forall c :: c in history ==> started <= c.started && c.finished <= previous
    }

    /** One bounded read between two clock readings that may not run backwards. */
    method Read(path: Path, offset: nat, cursor: Option<nat>) returns (r: Outcome<Page>)
      requires Valid()
      modifies `history, `previous, `bytes
      ensures Valid() && old(history) <= history
      ensures r.Done? ==>
        && |history| == |old(history)| + 1
        && var c := history[|history| - 1];
           && c.path == path && c.offset == offset && c.cursor == cursor
           && c.page == r.value == servers(path)(|old(history)|, offset, cursor)
      ensures r.IsFailure() ==> history == old(history)
    {
      var before: int, after: int, size: nat, failed: bool := *, *, *, *;
      if failed || before < previous || after < before || bytes + size > maxBytes { return Raised; }
      var page := servers(path)(|history|, offset, cursor);
      history := history + [Component(before, after, path, offset, cursor, page, size)];
      previous, bytes := after, bytes + size;
      return Done(page);
    }

    function ListPath(orders: bool): Path {
      if orders then Orders else Protections
    }

    /** The list server of this pass is honest about `list`. */
    ghost predicate Honest(list: seq<Row>, orders: bool) {
      HonestRun(servers(ListPath(orders)), list, orders, account)
    }

    /** Take one page's rows: each must be owned and new. */
    method TakeRows(rows: seq<Row>, orders: bool, seen: set<Id>, ghost held: seq<Row>) returns (r: Outcome<set<Id>>)
      requires DistinctIds(held) && seen == IdSet(held) && |seen| == |held|
      ensures r.Done? <==> DistinctIds(held + rows) && forall x :: x in rows ==> RowAllowed(x, orders, account)
      ensures r.Done? ==> r.value == IdSet(held + rows) && |r.value| == |held + rows|
    {
      var now := seen;
      assert held + rows[..0] == held;
      for i := 0 to |rows|
        invariant DistinctIds(held + rows[..i]) && now == IdSet(held + rows[..i]) && |now| == |held + rows[..i]|
        invariant forall x :: x in rows[..i] ==> RowAllowed(x, orders, account)
      {
        var row := rows[i];
        assert rows[..i + 1] == rows[..i] + [row];
        assert held + rows[..i + 1] == (held + rows[..i]) + [row];
        OneMore(held + rows[..i], row);
        if !RowAllowed(row, orders, account) || row.id.value in now {
          NotDistinct(held + rows, held + rows[..i], row, rows[i + 1..]);
          return Raised;
        }
        now := now + {row.id.value};
      }
      assert rows[..|rows|] == rows;
      return Done(now);
    }

    /** One pass of the loop in `pages`: read a page at the offset of the rows held and admit it. */
    method TakePage(orders: bool, p: Progress, ghost held: seq<Row>, ghost list: seq<Row>)
      returns (r: Outcome<Progress>, readFailed: bool)
      requires Valid() && DistinctIds(held) && p.seen == IdSet(held) && |p.seen| == |held|
      modifies `history, `previous, `bytes
      ensures Valid() && old(history) <= history && |history| <= |old(history)| + 1
      ensures |history| > |old(history)| ==> history[|old(history)|].offset == |held|
      ensures readFailed <==> history == old(history)
      ensures readFailed ==> r.IsFailure()
      ensures r.Done? ==>
        && var page := history[|old(history)|].page;
           r.value.expected == page.count && r.value.expected.Some? && 0 <= r.value.expected.value <= MAX_ROWS
           && (p.expected.Some? ==> r.value.expected == p.expected)
           && (forall x :: x in page.rows ==> RowAllowed(x, orders, account))
           && DistinctIds(held + page.rows) && r.value.seen == IdSet(held + page.rows) && |r.value.seen| == |held + page.rows|
      ensures Honest(list, orders) && held == list[..Least(|held|, |list|)] && !readFailed
              && (p.expected.Some? ==> p.expected == Some(|list|)) && HandedOut(servers(ListPath(orders)), p.cursors, |held|) ==>
        && r.Done? && held + history[|old(history)|].page.rows == list[..Least(|held| + PAGE_SIZE, |list|)]
        && r.value.expected == Some(|list|)
        && HandedOut(servers(ListPath(orders)), r.value.cursors, Least(|held| + PAGE_SIZE, |list|))
        && (Least(|held| + PAGE_SIZE, |list|) == |list| ==> r.value.next == None)
    {
      hide Valid, RowsOf, DistinctIds, IdSet, HonestRun, RowAllowed, HandedOut;
      ghost var start := history;
      var page := Read(ListPath(orders), |p.seen|, p.next);
      if page.IsFailure() { return if page.Crashed? then Crashed else Raised, true; }
      if Honest(list, orders) && held == list[..Least(|held|, |list|)] {
        HonestRead(servers(ListPath(orders)), list, orders, account, |start|, held, p.next);
        if HandedOut(servers(ListPath(orders)), p.cursors, |held|) {
          HonestCursor(servers(ListPath(orders)), list, orders, account, p.cursors, |start|, held, p.next);
        }
      }
      var rows, count, next := page.value.rows, page.value.count, page.value.next;
      if count == None || !(0 <= count.value <= MAX_ROWS) || |rows| > PAGE_SIZE { return Raised, false; }
      if p.expected.Some? && p.expected != count { return Raised, false; }
      var taken := TakeRows(rows, orders, p.seen, held);
      if taken.IsFailure() { return if taken.Crashed? then Crashed else Raised, false; }
      if next == Malformed { return Raised, false; }
      if next.Next? && (!orders || next.code in p.cursors) { return Raised, false; }
      return Done(Progress(taken.value, if next.Next? then p.cursors + {next.code} else p.cursors, count,
                           if next.Next? then Some(next.code) else None)), false;
    }

    /** The inner `pages`: at most a hundred reads, each at the offset of the rows held, and a result only when
        the rows are as many as every page reported. */
    method Pages(orders: bool, ghost list: seq<Row>) returns (r: Outcome<nat>, readFailed: bool)
      requires Valid()
      modifies `history, `previous, `bytes
      ensures Valid() && old(history) <= history && |history| <= |old(history)| + MAX_PAGES
      ensures OffsetsAreHoldings(history[|old(history)|..])
      ensures r.Done? ==> Complete(history[|old(history)|..], r.value, orders, account) && !readFailed
      ensures Honest(list, orders) && !readFailed ==>
        r == Done(|list|) && RowsOf(history[|old(history)|..]) == list
    {
      hide Valid, OffsetsAreHoldings, RowsOf, DistinctIds, IdSet, HonestRun, HandedOut, Complete, RowAllowed;
      ghost var start := history;
      ghost var honest := Honest(list, orders);
      HonestBound(servers(ListPath(orders)), list, orders, account);
      var p := Progress({}, {}, None, None);
      ghost var held: seq<Row>, segment: seq<Component> := [], [];
      NothingHeld();
      NoneHandedOut(servers(ListPath(orders)));
      assert start + segment == start;
      for k := 0 to MAX_PAGES
        invariant Valid() && history == start + segment && |segment| == k
        invariant OffsetsAreHoldings(segment) && held == RowsOf(segment)
        invariant DistinctIds(held) && p.seen == IdSet(held) && |p.seen| == |held|
        invariant forall c :: c in segment ==> c.page.count == p.expected
        invariant forall x :: x in held ==> RowAllowed(x, orders, account)
        invariant k > 0 ==> p.expected.Some? && |held| < p.expected.value <= MAX_ROWS
        invariant k == 0 ==> p.expected == None
        invariant honest ==> |held| == k * PAGE_SIZE <= |list| && held == list[..|held|]
        invariant honest && k > 0 ==> p.expected == Some(|list|)
        invariant honest ==> HandedOut(servers(ListPath(orders)), p.cursors, |held|)
      {
        ghost var before := history;
        var taken, failed := TakePage(orders, p, held, list);
        if failed {
          assert history[|start|..] == segment;
          return if taken.Crashed? then Crashed else Raised, true;
        }
        ghost var c := history[|before|];
        segment := SegmentGrows(start, segment, history);
        if taken.IsFailure() { return if taken.Crashed? then Crashed else Raised, false; }
        p := taken.value;
        held := held + c.page.rows;
        if |p.seen| == p.expected.value {
          if p.next.Some? { return Raised, false; }
          AllAdmitted(segment, |p.seen|, orders, account);
          return Done(|p.seen|), false;
        }
        if history[|history| - 1].page.rows == [] || |p.seen| > p.expected.value { return Raised, false; }
      }
      assert history[|start|..] == segment;
      return Raised, false;
    }

    /** Every read of the capture ran between its first clock reading and the end of its allotted time. */
    ghost predicate WithinSpan()
      reads this
    {
      forall c :: c in history ==> started <= c.started && c.finished <= started + maxSpan
    }

    /** The closing clock check of `capture_once`. */
    method Finish() returns (r: Outcome<()>)
      requires Valid()
      ensures r.Done? ==> WithinSpan()
    {
      var finished: int := *;
      if finished < previous || finished - started > maxSpan { return Raised; }
      return Done(());
    }

    /** `capture_once`: the account is proven before and after, around two paging passes and the funding. `refused` is
        a read that failed, or a check of the account, the funding or the closing clock that did. */
    method CaptureOnce(ghost orderList: seq<Row>, ghost protectionList: seq<Row>)
      returns (r: Outcome<(nat, nat)>, refused: bool)
      requires Valid() && history == []
      modifies `history, `previous, `bytes
      ensures Valid() && |history| <= 2 * MAX_PAGES + 3
      ensures r.Done? ==> WithinSpan()
      ensures r.Done? ==>
        exists i, j :: 1 <= i <= j <= |history| - 2
          && Complete(history[1..i], r.value.0, true, account) && Complete(history[i..j], r.value.1, false, account)
          && OffsetsAreHoldings(history[1..i]) && OffsetsAreHoldings(history[i..j])
          && (Honest(orderList, true) ==> RowsOf(history[1..i]) == orderList && r.value.0 == |orderList|)
          && (Honest(protectionList, false) ==> RowsOf(history[i..j]) == protectionList && r.value.1 == |protectionList|)
      ensures Honest(orderList, true) && Honest(protectionList, false) && !refused ==> r.Done?
    {
      hide Valid, Complete, OffsetsAreHoldings, WithinSpan, RowsOf, Honest;
      refused := true;
      r := Raised;
      var me := Read(Account, 0, None);
      if !me.Done? { return; }
      var same: bool, bounded: bool, still: bool := *, *, *;
      if !same { return; }
      var orders, failed := Pages(true, orderList);
      if !orders.Done? { return Raised, failed; }
      ghost var i := |history|;
      ghost var first := history;
      var protections, lost := Pages(false, protectionList);
      if !protections.Done? { return Raised, lost; }
      ghost var j := |history|;
      ghost var second := history;
      var funding := Read(Funding, 0, None);
      if !funding.Done? || !bounded { return; }
      var again := Read(Account, 0, None);
      if !again.Done? || !still { return; }
      var finished := Finish();
      if !finished.Done? { return; }
      assert history[1..i] == first[1..] && history[i..j] == second[i..];
      return Done((orders.value, protections.value)), false;
    }
  }
}
