/** The wagering leaderboard: at most one board runs at a time; when its time
    is up its prize slots are paid to the users ranked highest by points, it
    becomes `completed`, and the oldest board waiting in `created` starts
    running with everyone's points reset.

    The stored boards, the users' points and balances, the payout
    transactions and the pending completion timer are the fields of one
    store. The points ranking a handler reads and the time a board has left
    are passed in. */
module LeaderboardGeneral {
  import opened Common

  datatype BoardState = Created | Running | Completed | Canceled

  /** A prize slot. A new board holds only the prize; a completed one also
      the points of the user it paid, or 0 and no user when nobody ranked
      there. */
  datatype Slot = Slot(prize: int, points: Option<int>, userId: Option<string>)

  datatype Board = Board(
    id: string,
    winners: seq<Slot>,
    duration: int,
    kind: string,
    state: BoardState,
    createdAt: int)

  /** A row of the points ranking, highest first. */
  datatype Ranked = Ranked(id: string, points: int)

  /** A slot as shown while the board runs: the user now ranked there. */
  datatype Standing = Standing(prize: int, points: int, user: Option<Ranked>)

  /** A completed `leaderboardPayout` balance transaction. */
  datatype Payment = Payment(amount: int, userId: string)

  /** The completion callback waiting on its timer. */
  datatype Scheduled = Scheduled(boardId: string, delay: int)

  /** What the time-left helper yields for a board, in milliseconds. */
  type TimeLeft = Board -> int

  /** Users the completion query ranks, and the ranking the display reads. */
  const PaidRanks := 10
  const ShownRanks := 50

  /** The users ordered by points, highest first, as the store returns them:
      each user once. */
  ghost predicate ByPoints(users: seq<Ranked>)
  {
    && (forall i, j :: 0 <= i < j < |users| ==> users[j].points <= users[i].points)
    && (forall i, j :: 0 <= i < |users| && 0 <= j < |users| && users[i].id == users[j].id ==> i == j)
  }

  /** A points query with `take: n`: the first `n` users of the ranking. */
  function Top(users: seq<Ranked>, n: nat): (r: seq<Ranked>)
    ensures |r| == Min(|users|, n)
    ensures forall i :: 0 <= i < |r| ==> r[i] == users[i]
  {
    users[..Min(|users|, n)]
  }


  /** The first board with this id, or -1. */
  function FindById(boards: seq<Board>, id: string): (r: int)
    ensures -1 <= r < |boards|
    ensures r == -1 <==> forall b <- boards :: b.id != id
    ensures 0 <= r ==> boards[r].id == id
  {
    if |boards| == 0 then -1
    else if boards[0].id == id then 0
    else
      var k := FindById(boards[1..], id);
      if k == -1 then -1 else k + 1
  }

  /** `findFirst({state: 'running'})`: the first running board, or -1. */
  function FirstRunning(boards: seq<Board>): (r: int)
    ensures -1 <= r < |boards|
    ensures r == -1 <==> forall b <- boards :: b.state != Running
    ensures 0 <= r ==> boards[r].state == Running
  {
    if |boards| == 0 then -1
    else if boards[0].state == Running then 0
    else
      var k := FirstRunning(boards[1..]);
      if k == -1 then -1 else k + 1
  }

  /** `findFirst({state: 'created'}, createdAt ascending)`: the oldest board
      waiting to run (the first listed among equally old ones), or -1. */
  function OldestCreated(boards: seq<Board>): (r: int)
    ensures -1 <= r < |boards|
    ensures r == -1 <==> forall b <- boards :: b.state != Created
    ensures 0 <= r ==> boards[r].state == Created
    ensures 0 <= r ==> forall b <- boards :: b.state == Created ==> boards[r].createdAt <= b.createdAt
  {
    if |boards| == 0 then -1
    else
      var init := boards[..|boards| - 1];
      var last := boards[|boards| - 1];
      var k := OldestCreated(init);
      assert forall b :: b in boards <==> b in init || b == last;
      if last.state == Created && (k == -1 || last.createdAt < boards[k].createdAt) then |boards| - 1 else k
  }

  ghost predicate AtMostOneRunning(boards: seq<Board>)
  {
    forall i, j :: 0 <= i < |boards| && 0 <= j < |boards| && boards[i].state == Running && boards[j].state == Running ==> i == j
  }

  ghost predicate UniqueIds(boards: seq<Board>)
  {
    forall i, j :: 0 <= i < |boards| && 0 <= j < |boards| && boards[i].id == boards[j].id ==> i == j
  }

  /** The display pairing: slot i shows the prize with the i-th ranked user
      and their points, or 0 points and no user past the end of the ranking. */
  function PairWinners(slots: seq<Slot>, ranking: seq<Ranked>): (r: seq<Standing>)
    ensures |r| == |slots|
    ensures forall i :: 0 <= i < |slots| ==> r[i].prize == slots[i].prize
    ensures forall i :: 0 <= i < |slots| && i < |ranking| ==> r[i].user == Some(ranking[i]) && r[i].points == ranking[i].points
    ensures forall i :: 0 <= i < |slots| && i >= |ranking| ==> r[i].user.None? && r[i].points == 0
  {
    seq(|slots|, i requires 0 <= i < |slots| =>
      if i < |ranking| then Standing(slots[i].prize, ranking[i].points, Some(ranking[i]))
      else Standing(slots[i].prize, 0, None))
  }

  /** The winners a completion records: one per slot, in order, with the
      prize kept. */
  function Settled(slots: seq<Slot>, ranking: seq<Ranked>): (r: seq<Slot>)
    ensures |r| == |slots|
    ensures forall i :: 0 <= i < |r| ==> r[i].prize == slots[i].prize && (r[i].userId.Some? <==> i < |ranking|)
  {
    seq(|slots|, i requires 0 <= i < |slots| =>
      if i < |ranking| then Slot(slots[i].prize, Some(ranking[i].points), Some(ranking[i].id))
      else Slot(slots[i].prize, Some(0), None))
  }

  /** The payments a completion makes: one per slot that has a ranked user. */
  function Payments(slots: seq<Slot>, ranking: seq<Ranked>): (r: seq<Payment>)
    ensures |r| == Min(|slots|, |ranking|)
    ensures forall i :: 0 <= i < |r| ==> r[i].userId == ranking[i].id && r[i].amount == slots[i].prize
  {
    var n := Min(|slots|, |ranking|);
    seq(n, i requires 0 <= i < n => Payment(slots[i].prize, ranking[i].id))
  }

  /** The balance increments of the payments, applied in order. */
  function Credit(balances: map<string, int>, payments: seq<Payment>): (r: map<string, int>)
    requires forall p <- payments :: p.userId in balances
    ensures r.Keys == balances.Keys
  {
    if |payments| == 0 then balances
    else
      var last := payments[|payments| - 1];
      var before := Credit(balances, payments[..|payments| - 1]);
      before[last.userId := before[last.userId] + last.amount]
  }

  /** Everyone's points back to 0. */
  function Reset(points: map<string, int>): (r: map<string, int>)
    ensures r.Keys == points.Keys && forall u <- r.Keys :: r[u] == 0
  {
    map u | u in points.Keys :: 0
  }

  /** Completion records one winner per prize slot, in slot order, with its
      prize: the ranked user and their points where the ranking reaches,
      0 points and no user after it. */
  lemma SettledSlots(slots: seq<Slot>, ranking: seq<Ranked>)
    ensures |Settled(slots, ranking)| == |slots|
    ensures forall i :: 0 <= i < |slots| ==>
      var s := Settled(slots, ranking)[i];
      && s.prize == slots[i].prize
      && (i < |ranking| ==> s.userId == Some(ranking[i].id) && s.points == Some(ranking[i].points))
      && (i >= |ranking| ==> s.userId.None? && s.points == Some(0))
  {
  }

  /** The amount credited to one user by a run of payments. */
  function PaidTo(payments: seq<Payment>, userId: string): int
  {
    if |payments| == 0 then 0
    else PaidTo(payments[..|payments| - 1], userId)
         + (if payments[|payments| - 1].userId == userId then payments[|payments| - 1].amount else 0)
  }

  /** Applying the payments raises each balance by exactly what was paid to
      that user, and no other balance moves. */
  lemma {:induction false} CreditAdds(balances: map<string, int>, payments: seq<Payment>)
    requires forall p <- payments :: p.userId in balances
    ensures forall u <- balances.Keys :: Credit(balances, payments)[u] == balances[u] + PaidTo(payments, u)
  {
    if |payments| > 0 {
      CreditAdds(balances, payments[..|payments| - 1]);
    }
  }

  /** With a ranking of distinct users (as the store returns it), each user
      ranked within the prize slots is paid exactly the prize of their slot,
      and a user ranked outside them, or not ranked, is paid nothing. */
  lemma {:induction false} PaidExactlyPrize(slots: seq<Slot>, ranking: seq<Ranked>, userId: string)
    requires forall i, j :: 0 <= i < |ranking| && 0 <= j < |ranking| && ranking[i].id == ranking[j].id ==> i == j
    ensures forall i :: 0 <= i < |slots| && i < |ranking| && ranking[i].id == userId ==>
      PaidTo(Payments(slots, ranking), userId) == slots[i].prize
    ensures (forall i :: 0 <= i < |slots| && i < |ranking| ==> ranking[i].id != userId) ==>
      PaidTo(Payments(slots, ranking), userId) == 0
  {
    var n := Min(|slots|, |ranking|);
    var ps := Payments(slots, ranking);
    PaidToPrefix(slots, ranking, userId, n);
    assert ps[..n] == ps;
  }

  /** The first `k` payments credit `userId` the prize of its slot if that
      slot is among them, and nothing otherwise. */
  lemma {:induction false} PaidToPrefix(slots: seq<Slot>, ranking: seq<Ranked>, userId: string, k: nat)
    requires forall i, j :: 0 <= i < |ranking| && 0 <= j < |ranking| && ranking[i].id == ranking[j].id ==> i == j
    requires k <= Min(|slots|, |ranking|)
    ensures forall i :: 0 <= i < k && ranking[i].id == userId ==> PaidTo(Payments(slots, ranking)[..k], userId) == slots[i].prize
    ensures (forall i :: 0 <= i < k ==> ranking[i].id != userId) ==> PaidTo(Payments(slots, ranking)[..k], userId) == 0
  {
    var ps := Payments(slots, ranking);
    if k > 0 {
      PaidToPrefix(slots, ranking, userId, k - 1);
      assert ps[..k][..k - 1] == ps[..k - 1];
      assert ps[..k][k - 1] == Payment(slots[k - 1].prize, ranking[k - 1].id);
    }
    if k == Min(|slots|, |ranking|) {
      assert ps[..k] == ps;
    }
  }

  /** The balances a completion leaves: each of the ten users ranked highest
      who has a prize slot gains exactly that slot's prize, and every other
      balance is unchanged. */
  lemma CompletionPays(balances: map<string, int>, slots: seq<Slot>, users: seq<Ranked>)
    requires ByPoints(users)
    requires forall u <- users :: u.id in balances
    ensures forall i :: 0 <= i < |slots| && i < |users| && i < PaidRanks ==>
      Credit(balances, Payments(slots, Top(users, PaidRanks)))[users[i].id] == balances[users[i].id] + slots[i].prize
    ensures forall u <- balances.Keys :: (forall i :: 0 <= i < |slots| && i < |users| && i < PaidRanks ==> users[i].id != u) ==>
      Credit(balances, Payments(slots, Top(users, PaidRanks)))[u] == balances[u]
  {
    var ranking := Top(users, PaidRanks);
    var ps := Payments(slots, ranking);
    PayeesKnown(balances, slots, ranking);
    CreditAdds(balances, ps);
    forall u <- balances.Keys ensures Credit(balances, ps)[u] == balances[u] + PaidTo(ps, u) {
    }
    forall i | 0 <= i < |slots| && i < |users| && i < PaidRanks
      ensures Credit(balances, ps)[users[i].id] == balances[users[i].id] + slots[i].prize
    {
      PaidExactlyPrize(slots, ranking, users[i].id);
    }
    forall u <- balances.Keys | (forall i :: 0 <= i < |slots| && i < |users| && i < PaidRanks ==> users[i].id != u)
      ensures Credit(balances, ps)[u] == balances[u]
    {
      PaidExactlyPrize(slots, ranking, u);
    }
  }

  /** Every payee of a completion is a ranked user, so has a balance. */
  lemma PayeesKnown(balances: map<string, int>, slots: seq<Slot>, ranking: seq<Ranked>)
    requires forall u <- ranking :: u.id in balances
    ensures forall p <- Payments(slots, ranking) :: p.userId in balances
  {
    var ps := Payments(slots, ranking);
    forall p <- ps ensures p.userId in balances {
      var j :| 0 <= j < |ps| && ps[j] == p;
      assert ranking[j] in ranking;
    }
  }

  /** The loop of a completion: for each slot in order, push its winner
      and, when the ranking reaches it, the payment to the ranked user. */
  method SettleSlots(slots: seq<Slot>, ranking: seq<Ranked>) returns (winners: seq<Slot>, paid: seq<Payment>)
    ensures winners == Settled(slots, ranking) && paid == Payments(slots, ranking)
    ensures |winners| == |slots| && |paid| == Min(|slots|, |ranking|)
    ensures forall i :: 0 <= i < |paid| ==> paid[i].amount == slots[i].prize && paid[i].userId == ranking[i].id
  {
    winners, paid := [], [];
    for i := 0 to |slots|
      invariant winners == Settled(slots[..i], ranking)
      invariant paid == Payments(slots[..i], ranking)
    {
      if i < |ranking| {
        winners := winners + [Slot(slots[i].prize, Some(ranking[i].points), Some(ranking[i].id))];
        paid := paid + [Payment(slots[i].prize, ranking[i].id)];
      } else {
        winners := winners + [Slot(slots[i].prize, Some(0), None)];
      }
      assert slots[..i + 1][..i] == slots[..i];
    }
    assert slots[..|slots|] == slots;
  }

  /** Completing the running board keeps ids distinct and leaves no board
      running. */
  lemma CompleteKeeps(boards: seq<Board>, k: int, done: Board)
    requires AtMostOneRunning(boards) && UniqueIds(boards) && 0 <= k < |boards| && boards[k].state == Running
    requires done.id == boards[k].id && done.state == Completed
    ensures UniqueIds(boards[k := done])
    ensures forall b <- boards[k := done] :: b.state != Running
  {
    var after := boards[k := done];
    forall i | 0 <= i < |after| ensures after[i].state != Running {
    }
    forall i, j | 0 <= i < |after| && 0 <= j < |after| && after[i].id == after[j].id ensures i == j {
      assert boards[i].id == after[i].id && boards[j].id == after[j].id;
    }
  }

  /** Completing the one running board and promoting a waiting one leaves
      exactly one running. */
  lemma CompleteThenPromote(boards: seq<Board>, k: int, next: int, done: Board)
    requires AtMostOneRunning(boards) && 0 <= k < |boards| && boards[k].state == Running
    requires 0 <= next < |boards| && boards[next].state == Created && done.state == Completed
    requires UniqueIds(boards[k := done])
    ensures AtMostOneRunning(boards[k := done][next := boards[k := done][next].(state := Running)])
    ensures UniqueIds(boards[k := done][next := boards[k := done][next].(state := Running)])
  {
    var mid := boards[k := done];
    var after := mid[next := mid[next].(state := Running)];
    forall i | 0 <= i < |after| && i != next ensures after[i].state != Running {
    }
    RestateKeepsIds(mid, next, Running);
  }

  /** Changing one board's state keeps the ids distinct. */
  lemma RestateKeepsIds(boards: seq<Board>, k: int, state: BoardState)
    requires UniqueIds(boards) && 0 <= k < |boards|
    ensures UniqueIds(boards[k := boards[k].(state := state)])
  {
    var after := boards[k := boards[k].(state := state)];
    forall i, j | 0 <= i < |after| && 0 <= j < |after| && after[i].id == after[j].id ensures i == j {
      assert boards[i].id == after[i].id && boards[j].id == after[j].id;
    }
  }

  class Store {
    var boards: seq<Board>
    /** Each user's `leaderboardPoints`. */
    var points: map<string, int>
    var balances: map<string, int>
    var payments: seq<Payment>
    /** `generalLeaderboardTimeout` while it is pending. */
    var timer: Option<Scheduled>

    /** At most one board runs, ids are distinct, and a pending timer belongs
        to the running board. */
    ghost predicate Valid()
      reads this
    {
      && AtMostOneRunning(boards)
      && UniqueIds(boards)
      && (timer.Some? ==> exists i :: 0 <= i < |boards| && boards[i].id == timer.value.boardId && boards[i].state == Running)
    }

    constructor(boards: seq<Board>, points: map<string, int>, balances: map<string, int>)
      requires AtMostOneRunning(boards) && UniqueIds(boards)
      ensures Valid()
      ensures this.boards == boards && this.points == points && this.balances == balances
      ensures payments == [] && timer.None?
    {
      this.boards, this.points, this.balances := boards, points, balances;
      payments, timer := [], None;
    }

    /** The running board as the display shows it, its slots paired with the
        50 users ranked highest; nothing while no board runs. */
    function GetData(users: seq<Ranked>): (r: Option<(Board, seq<Standing>)>)
      reads this
      ensures r.None? <==> forall b <- boards :: b.state != Running
      ensures r.Some? ==> r.value.0 == boards[FirstRunning(boards)] && r.value.0.state == Running
      ensures r.Some? ==> r.value.1 == PairWinners(r.value.0.winners, Top(users, ShownRanks))
      ensures r.Some? ==> |r.value.1| == |r.value.0.winners|
      ensures r.Some? ==> forall i :: 0 <= i < |r.value.1| ==>
        (r.value.1[i].user.Some? <==> i < |users| && i < ShownRanks)
    {
      var k := FirstRunning(boards);
      if k == -1 then None else Some((boards[k], PairWinners(boards[k].winners, Top(users, ShownRanks))))
    }

    /** What completing the board at `k` of `boards0` leaves: its slots
        settled against the ten users ranked highest and paid, the board
        `completed`, and the oldest waiting board (found before the
        completion) running with points reset and its timer armed; with no
        board waiting, no timer. */
    ghost predicate CompletedAt(k: int, users: seq<Ranked>, timeLeft: TimeLeft,
      boards0: seq<Board>, points0: map<string, int>, balances0: map<string, int>, payments0: seq<Payment>)
      reads this
      requires 0 <= k < |boards0|
      requires forall u <- users :: u.id in balances0
    {
      var ranking := Top(users, PaidRanks);
      var slots := boards0[k].winners;
      var done := boards0[k].(winners := Settled(slots, ranking), state := Completed);
      var next := OldestCreated(boards0);
      && balances == Credit(balances0, Payments(slots, ranking))
      && payments == payments0 + Payments(slots, ranking)
      && (next == -1 ==> boards == boards0[k := done] && points == points0 && timer.None?)
      && (next >= 0 ==>
            && boards == boards0[k := done][next := boards0[k := done][next].(state := Running)]
            && points == Reset(points0)
            && timer == Some(Scheduled(boards[next].id, timeLeft(boards[next]))))
    }

    /** Start: arm the completion timer for the board. */
    method Start(board: Board, timeLeft: TimeLeft)
      modifies this
      ensures timer == Some(Scheduled(board.id, timeLeft(board)))
      ensures boards == old(boards) && points == old(points) && balances == old(balances) && payments == old(payments)
    {
      timer := Some(Scheduled(board.id, timeLeft(board)));
    }

    /** Promote the board at `k`: it runs, everyone's points are reset, and
        its timer is armed. */
    method Promote(k: int, timeLeft: TimeLeft)
      requires 0 <= k < |boards|
      modifies this
      ensures boards == old(boards)[k := old(boards)[k].(state := Running)]
      ensures points == Reset(old(points))
      ensures timer == Some(Scheduled(boards[k].id, timeLeft(boards[k])))
      ensures balances == old(balances) && payments == old(payments)
    {
      boards := boards[k := boards[k].(state := Running)];
      points := Reset(points);
      Start(boards[k], timeLeft);
    }

    /** Complete: clear the timer; if the board is still stored, record one
        winner per slot and pay every ranked one, mark it `completed`, then
        promote the oldest waiting board, found before any of this. A board
        no longer stored leaves everything but the timer as it was. */
    method Complete(board: Board, users: seq<Ranked>, timeLeft: TimeLeft)
      requires Valid() && ByPoints(users)
      requires forall u <- users :: u.id in balances
      modifies this
      ensures FindById(old(boards), board.id) == -1 ==>
        && boards == old(boards) && balances == old(balances) && payments == old(payments)
        && points == old(points) && timer.None?
      ensures FindById(old(boards), board.id) >= 0 ==>
        CompletedAt(FindById(old(boards), board.id), users, timeLeft, old(boards), old(points), old(balances), old(payments))
      ensures |boards| == |old(boards)|
      ensures (FindById(old(boards), board.id) == -1 || old(boards)[FindById(old(boards), board.id)].state == Running)
        ==> Valid()
    {
      timer := None;
      var k := FindById(boards, board.id);
      var next := OldestCreated(boards);
      if k == -1 {
        return;
      }
      var wasRunning := boards[k].state == Running;
      Record(k, Top(users, PaidRanks));
      if wasRunning {
        CompleteKeeps(old(boards), k, boards[k]);
      }
      if next >= 0 {
        if wasRunning {
          CompleteThenPromote(old(boards), k, next, boards[k]);
        }
        Promote(next, timeLeft);
        if wasRunning {
          assert boards[next].id == timer.value.boardId && boards[next].state == Running;
        }
      }
    }

    /** Completing the running board whose time is up: the completion of
        that board, and the store stays valid. */
    method Expire(active: int, users: seq<Ranked>, timeLeft: TimeLeft)
      requires Valid() && 0 <= active < |boards| && boards[active].state == Running
      requires ByPoints(users)
      requires forall u <- users :: u.id in balances
      modifies this
      ensures Valid()
      ensures CompletedAt(active, users, timeLeft, old(boards), old(points), old(balances), old(payments))
      ensures |boards| == |old(boards)| && boards[active].state == Completed
    {
      assert FindById(boards, boards[active].id) == active;
      Complete(boards[active], users, timeLeft);
    }

    /** The recording half of a completion: the board at `k` gets its
        winners and `completed`, and every ranked winner is paid. */
    method Record(k: int, ranking: seq<Ranked>)
      requires 0 <= k < |boards|
      requires forall u <- ranking :: u.id in balances
      modifies this
      ensures var slots := old(boards)[k].winners;
        && boards == old(boards)[k := old(boards)[k].(winners := Settled(slots, ranking), state := Completed)]
        && balances == Credit(old(balances), Payments(slots, ranking))
        && payments == old(payments) + Payments(slots, ranking)
      ensures points == old(points) && timer == old(timer)
    {
      var slots := boards[k].winners;
      var winners, paid := SettleSlots(slots, ranking);
      assert forall p <- paid :: p.userId in balances by {
        forall p <- paid ensures p.userId in balances {
          var j :| 0 <= j < |paid| && paid[j] == p;
          assert ranking[j] in ranking;
        }
      }
      boards := boards[k := boards[k].(winners := winners, state := Completed)];
      balances := Credit(balances, paid);
      payments := payments + paid;
    }

    /** Startup: a running board with time left gets its timer; one whose
        time is up is completed at once; with none running, the oldest
        waiting board is promoted. */
    method Init(users: seq<Ranked>, timeLeft: TimeLeft)
      requires Valid() && ByPoints(users)
      requires forall u <- users :: u.id in balances
      modifies this
      ensures Valid()
      ensures var active := FirstRunning(old(boards));
        active >= 0 && timeLeft(old(boards)[active]) > 0 ==>
          && boards == old(boards) && timer == Some(Scheduled(boards[active].id, timeLeft(boards[active])))
          && balances == old(balances) && points == old(points) && payments == old(payments)
      ensures var active := FirstRunning(old(boards));
        active >= 0 && timeLeft(old(boards)[active]) <= 0 ==>
          && CompletedAt(active, users, timeLeft, old(boards), old(points), old(balances), old(payments))
          && boards[active].state == Completed
      ensures var next := OldestCreated(old(boards));
        FirstRunning(old(boards)) == -1 && next >= 0 ==>
          && boards == old(boards)[next := old(boards)[next].(state := Running)]
          && points == Reset(old(points)) && balances == old(balances) && payments == old(payments)
          && timer == Some(Scheduled(boards[next].id, timeLeft(boards[next])))
      ensures FirstRunning(old(boards)) == -1 && OldestCreated(old(boards)) == -1 ==>
        && boards == old(boards) && points == old(points) && balances == old(balances)
        && payments == old(payments) && timer == old(timer)
    {
      var active := FirstRunning(boards);
      var next := OldestCreated(boards);
      if active >= 0 {
        var board := boards[active];
        if timeLeft(board) > 0 {
          timer := Some(Scheduled(board.id, timeLeft(board)));
        } else {
          Expire(active, users, timeLeft);
        }
      } else if next >= 0 {
        RestateKeepsIds(boards, next, Running);
        Promote(next, timeLeft);
      }
    }
  }
}
