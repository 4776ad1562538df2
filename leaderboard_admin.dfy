/** The administrator's leaderboard handlers: list the stored boards a page
    at a time, create a board (running at once when none runs, otherwise
    waiting), and stop a board. */
module LeaderboardAdmin {
  import opened Common
  import opened Ordering
  import opened LeaderboardGeneral

  const PageSize := 12

  /** A create request: the prize of each slot, the duration and the type. */
  datatype CreateRequest = CreateRequest(prizes: seq<int>, duration: real, kind: string)

  datatype AdminError = NotFound

  /** One page of the listing and the number of boards the search matches. */
  datatype ListPage = ListPage(count: nat, boards: seq<Board>)

  function CreatedTime(b: Board): int { b.createdAt }

  /** `type` contains `search` (compared exactly, see the README). */
  predicate Contains(text: string, search: string)
  {
    exists i | 0 <= i <= |text| - |search| :: OccursAt(text, search, i)
  }

  predicate OccursAt(text: string, search: string, i: int)
  {
    0 <= i <= |text| - |search| && text[i..i + |search|] == search
  }

  function Matching(boards: seq<Board>, search: string): (r: seq<Board>)
    ensures forall b <- r :: b in boards && Contains(b.kind, search)
    ensures forall b <- boards :: Contains(b.kind, search) ==> b in r
  {
    if |boards| == 0 then []
    else
      var rest := Matching(boards[1..], search);
      assert forall b :: b in boards <==> b == boards[0] || b in boards[1..];
      if Contains(boards[0].kind, search) then [boards[0]] + rest else rest
  }

  /** The slice `skip offset, take 12` of a sorted listing. */
  function Page(sorted: seq<Board>, offset: nat): (r: seq<Board>)
    ensures |r| <= PageSize
    ensures |r| == if offset >= |sorted| then 0 else Min(PageSize, |sorted| - offset)
    ensures forall i :: 0 <= i < |r| ==> r[i] == sorted[offset + i]
    ensures forall b <- r :: b in sorted
  {
    var start := Min(offset, |sorted|);
    sorted[start..Min(start + PageSize, |sorted|)]
  }

  /** The page of the matching boards, newest first; None for a page below
      1, whose negative offset the store refuses. */
  function ListBoards(boards: seq<Board>, page: int, search: string): (r: Option<ListPage>)
    ensures r.None? <==> page < 1
    ensures r.Some? ==> r.value.count == |Matching(boards, search)|
    ensures r.Some? ==> r.value.boards == Page(SortBy(Matching(boards, search), CreatedTime), (page - 1) * PageSize)
    ensures r.Some? ==> Descending(r.value.boards, CreatedTime)
    ensures r.Some? ==> forall b <- r.value.boards :: b in boards && Contains(b.kind, search)
  {
    var offset := (page - 1) * PageSize;
    if offset < 0 then None
    else
      var matching := Matching(boards, search);
      var sorted := SortBy(matching, CreatedTime);
      var page := Page(sorted, offset);
      SortedMembers(matching, CreatedTime);
      SliceDescending(sorted, Min(offset, |sorted|), Min(Min(offset, |sorted|) + PageSize, |sorted|), CreatedTime);
      Some(ListPage(|matching|, page))
  }

  /** Consecutive pages tile a listing: page p followed by page p+1 is
      exactly the 24 entries from offset (p-1)*12 on, so paging neither
      skips nor repeats a board. */
  lemma PagesTile(sorted: seq<Board>, page: int)
    requires page >= 1
    ensures var from := Min((page - 1) * PageSize, |sorted|);
      Page(sorted, (page - 1) * PageSize) + Page(sorted, page * PageSize)
        == sorted[from..Min(from + 2 * PageSize, |sorted|)]
  {
    var from := Min((page - 1) * PageSize, |sorted|);
    var mid := Min(from + PageSize, |sorted|);
    assert Min(page * PageSize, |sorted|) == mid;
    assert sorted[from..mid] + sorted[mid..Min(mid + PageSize, |sorted|)] == sorted[from..Min(from + 2 * PageSize, |sorted|)];
  }

  /** Create: the new board runs exactly when no stored board runs, and only
      then are points reset and its timer armed; otherwise it waits as
      `created`. Either way at most one board runs. */
  method CreateBoard(store: Store, request: CreateRequest, id: string, createdAt: int, timeLeft: TimeLeft)
      returns (board: Board)
    requires store.Valid()
    requires forall b <- store.boards :: b.id != id
    modifies store
    ensures store.Valid()
    ensures board.state == Running <==> forall b <- old(store.boards) :: b.state != Running
    ensures board == Board(id, seq(|request.prizes|, i requires 0 <= i < |request.prizes| => Slot(request.prizes[i], None, None)),
                           Floor(request.duration), request.kind, board.state, createdAt)
    ensures store.boards == old(store.boards) + [board]
    ensures board.state == Running ==> store.points == Reset(old(store.points)) && store.timer == Some(Scheduled(id, timeLeft(board)))
    ensures board.state == Created ==> store.points == old(store.points) && store.timer == old(store.timer)
    ensures store.balances == old(store.balances) && store.payments == old(store.payments)
  {
    var running := FirstRunning(store.boards);
    var duration := Floor(request.duration);
    var winners := seq(|request.prizes|, i requires 0 <= i < |request.prizes| => Slot(request.prizes[i], None, None));
    board := Board(id, winners, duration, request.kind, if running >= 0 then Created else Running, createdAt);
    ghost var before := store.boards;
    store.boards := store.boards + [board];
    assert forall i :: 0 <= i < |before| ==> store.boards[i] == before[i];
    if running < 0 {
      store.points := Reset(store.points);
    }
    if board.state == Running {
      store.Start(board, timeLeft);
      assert store.boards[|store.boards| - 1] == board;
    }
  }

  /** Stop: a board still `created` is deleted; any other is set to
      `canceled` and the pending completion timer, whichever board it
      belongs to, is cleared. An unknown id changes nothing. */
  method StopBoard(store: Store, id: string) returns (r: Result<Board, AdminError>)
    requires store.Valid()
    modifies store
    ensures store.Valid()
    ensures FindById(old(store.boards), id) == -1 ==> r == Err(NotFound) && unchanged(store)
    ensures var k := FindById(old(store.boards), id);
      k >= 0 && old(store.boards)[k].state == Created ==>
        && r == Ok(old(store.boards)[k])
        && store.boards == old(store.boards)[..k] + old(store.boards)[k + 1..]
        && store.timer == old(store.timer)
    ensures var k := FindById(old(store.boards), id);
      k >= 0 && old(store.boards)[k].state != Created ==>
        && r == Ok(old(store.boards)[k].(state := Canceled))
        && store.boards == old(store.boards)[k := old(store.boards)[k].(state := Canceled)]
        && store.timer.None?
    ensures forall b <- store.boards :: b.id != id || b.state == Canceled
    ensures store.points == old(store.points) && store.balances == old(store.balances) && store.payments == old(store.payments)
  {
    var k := FindById(store.boards, id);
    if k == -1 {
      return Err(NotFound);
    }
    r := StopAt(store, k);
  }

  /** Stop the board found at `k`. */
  method StopAt(store: Store, k: int) returns (r: Result<Board, AdminError>)
    requires store.Valid() && 0 <= k < |store.boards|
    modifies store
    ensures store.Valid()
    ensures old(store.boards)[k].state == Created ==>
      && r == Ok(old(store.boards)[k])
      && store.boards == old(store.boards)[..k] + old(store.boards)[k + 1..]
      && store.timer == old(store.timer)
    ensures old(store.boards)[k].state != Created ==>
      && r == Ok(old(store.boards)[k].(state := Canceled))
      && store.boards == old(store.boards)[k := old(store.boards)[k].(state := Canceled)]
      && store.timer.None?
    ensures forall b <- store.boards :: b.id != old(store.boards)[k].id || b.state == Canceled
    ensures store.points == old(store.points) && store.balances == old(store.balances) && store.payments == old(store.payments)
  {
    var board := store.boards[k];
    if board.state == Created {
      DeleteBoard(store, k);
      r := Ok(board);
    } else {
      CancelBoard(store, k);
      r := Ok(board.(state := Canceled));
    }
  }

  /** Delete a board that is still waiting. */
  method DeleteBoard(store: Store, k: int)
    requires store.Valid() && 0 <= k < |store.boards| && store.boards[k].state == Created
    modifies store
    ensures store.Valid()
    ensures store.boards == old(store.boards)[..k] + old(store.boards)[k + 1..]
    ensures forall b <- store.boards :: b.id != old(store.boards)[k].id
    ensures store.timer == old(store.timer) && store.points == old(store.points)
    ensures store.balances == old(store.balances) && store.payments == old(store.payments)
  {
    RemoveKeeps(store.boards, k, store.timer);
    store.boards := store.boards[..k] + store.boards[k + 1..];
  }

  /** Cancel a board that has started: its completion timer goes with it. */
  method CancelBoard(store: Store, k: int)
    requires store.Valid() && 0 <= k < |store.boards|
    modifies store
    ensures store.Valid()
    ensures store.boards == old(store.boards)[k := old(store.boards)[k].(state := Canceled)]
    ensures forall b <- store.boards :: b.id != old(store.boards)[k].id || b.state == Canceled
    ensures store.timer.None? && store.points == old(store.points)
    ensures store.balances == old(store.balances) && store.payments == old(store.payments)
  {
    CancelKeeps(store.boards, k);
    store.boards := store.boards[k := store.boards[k].(state := Canceled)];
    store.timer := None;
  }

  /** Deleting a board that does not run keeps ids distinct, runs no new
      board, keeps the timer's board, and leaves the deleted id absent. */
  lemma RemoveKeeps(boards: seq<Board>, k: int, timer: Option<Scheduled>)
    requires UniqueIds(boards) && AtMostOneRunning(boards) && 0 <= k < |boards| && boards[k].state != Running
    requires timer.Some? ==> exists i :: 0 <= i < |boards| && boards[i].id == timer.value.boardId && boards[i].state == Running
    ensures var after := boards[..k] + boards[k + 1..];
      && UniqueIds(after) && AtMostOneRunning(after)
      && (forall b <- after :: b.id != boards[k].id)
      && (timer.Some? ==> exists i :: 0 <= i < |after| && after[i].id == timer.value.boardId && after[i].state == Running)
  {
    var after := boards[..k] + boards[k + 1..];
    assert forall i :: 0 <= i < |after| ==> after[i] == boards[if i < k then i else i + 1];
    if timer.Some? {
      var t :| 0 <= t < |boards| && boards[t].id == timer.value.boardId && boards[t].state == Running;
      var u := if t < k then t else t - 1;
      assert after[u] == boards[t];
    }
  }

  /** Canceling a board keeps ids distinct, runs no new board, and leaves no
      board with that id other than canceled. */
  lemma CancelKeeps(boards: seq<Board>, k: int)
    requires UniqueIds(boards) && AtMostOneRunning(boards) && 0 <= k < |boards|
    ensures var after := boards[k := boards[k].(state := Canceled)];
      && UniqueIds(after) && AtMostOneRunning(after)
      && (forall b <- after :: b.id != boards[k].id || b.state == Canceled)
  {
    var after := boards[k := boards[k].(state := Canceled)];
    assert forall i :: 0 <= i < |after| ==> after[i].id == boards[i].id;
  }
}
