/** The recent-bets caches: three bounded newest-first lists (every settled
    bet, whale bets, lucky bets) seeded at startup from the eight game tables
    and extended by every newly published bet; and the per-user list fetched
    when a client asks for the bets data. */
module BetsController {
  import opened Common
  import opened BetsUtils
  import opened Ordering

  /** Longest length of every cached list and of a user's own list. */
  const Take := 15
  const WhaleMinPayout := 100000
  const LuckyMinPayout := 1000
  const LuckyMinMultiplier := 5.0

  /** The game tables, in the order their query results are combined. */
  const Methods: seq<string> := ["crash", "roll", "blackjack", "duels", "mines", "towers", "unbox", "battles"]

  /** A stake as stored: a number, a structured blackjack stake of which only
      the main bet counts, or nothing (null or undefined). */
  datatype Amount = Missing | Number(n: int) | Parts(main: int)

  /** A settled game row as a table query returns it, its user row included. */
  datatype Row = Row(
    userId: string,
    amount: Amount,
    payout: Option<int>,
    multiplier: Option<real>,
    user: Option<Profile>,
    updatedAt: int,
    createdAt: int,
    bot: bool)

  /** A bet as cached and published. */
  datatype Bet = Bet(
    amount: Amount,
    payout: Option<int>,
    multiplier: Option<real>,
    user: Option<FormattedUser>,
    updatedAt: int,
    createdAt: int,
    game: string)

  /** What a client receives for the bets data request. */
  datatype BetsData = BetsData(all: seq<Bet>, whale: seq<Bet>, lucky: seq<Bet>, my: seq<Bet>)

  /** Which cached list a startup query fills. */
  datatype Category = All | Whale | Lucky

  function BetTime(b: Bet): int { b.updatedAt }
  function RowTime(r: Row): int { r.updatedAt }

  /** Entry condition of the whale list: a payout of at least 100000. A zero
      or missing payout is falsy and fails it like any small one. */
  predicate IsWhale(payout: Option<int>)
  {
    payout.Some? && payout.value >= WhaleMinPayout
  }

  /** Entry condition of the lucky list: a payout of at least 1000 and a
      multiplier of at least 5. */
  predicate IsLucky(payout: Option<int>, multiplier: Option<real>)
  {
    && payout.Some? && payout.value >= LuckyMinPayout
    && multiplier.Some? && multiplier.value >= LuckyMinMultiplier
  }

  /** The `where` of each startup query: any settled bet, a whale bet, a
      lucky bet. */
  predicate Qualifies(category: Category, row: Row)
  {
    match category
    case All => row.payout.Some?
    case Whale => IsWhale(row.payout)
    case Lucky => IsLucky(row.payout, row.multiplier)
  }

  /** The duels and battles tables hold bot stakes; their queries add
      `bot = false`. */
  predicate HasBots(game: string)
  {
    game == "duels" || game == "battles"
  }

  /** A table query: the rows meeting `where` (and, on a table with bots,
      placed by a human), newest first, at most 15. */
  function FindMany(rows: seq<Row>, game: string, where: Row -> bool): (r: seq<Row>)
    ensures |r| <= Take
    ensures forall row <- r :: row in rows && where(row)
    ensures HasBots(game) ==> forall row <- r :: !row.bot
    ensures Descending(r, RowTime)
  {
    var matching := Filter(rows, game, where);
    NewestBy(matching, RowTime, Take)
  }

  /** Which rows a table query returns: the newest 15 of the matching rows,
      each as often as it matches, or all of them when there are no more
      than 15; a matching row left out is no newer than any row returned. */
  lemma FindManyNewest(rows: seq<Row>, game: string, where: Row -> bool)
    ensures var r, matching := FindMany(rows, game, where), Filter(rows, game, where);
      && |r| == Min(|matching|, Take)
      && multiset(r) <= multiset(matching)
      && (|matching| <= Take ==> multiset(r) == multiset(matching))
      && forall row <- matching :: row in r || forall kept <- r :: RowTime(row) <= RowTime(kept)
  {
    var matching := Filter(rows, game, where);
    NewestKept(matching, RowTime, Take);
    NewestFrom(matching, RowTime, Take);
  }

  function Filter(rows: seq<Row>, game: string, where: Row -> bool): (r: seq<Row>)
    ensures forall row <- r :: row in rows && where(row) && !(HasBots(game) && row.bot)
    ensures forall row <- rows :: where(row) && !(HasBots(game) && row.bot) ==> row in r
  {
    if |rows| == 0 then []
    else
      var rest := Filter(rows[1..], game, where);
      assert forall row :: row in rows <==> row == rows[0] || row in rows[1..];
      if where(rows[0]) && !(HasBots(game) && rows[0].bot) then [rows[0]] + rest else rest
  }

  /** The bet cached for a startup row: a structured blackjack stake becomes
      its main bet, any other stake is kept; the user is projected and the
      table recorded. */
  function CacheBet(row: Row, game: string): (r: Bet)
    ensures r.payout == row.payout && r.multiplier == row.multiplier && r.updatedAt == row.updatedAt
    ensures r.user == FormatUser(row.user) && r.game == game
    ensures game == "blackjack" && row.amount.Parts? ==> r.amount == Number(row.amount.main)
    ensures !(game == "blackjack" && row.amount.Parts?) ==> r.amount == row.amount
  {
    var amount := if game == "blackjack" && row.amount.Parts? then Number(row.amount.main) else row.amount;
    Bet(amount, row.payout, row.multiplier, FormatUser(row.user), row.updatedAt, row.createdAt, game)
  }

  function Tagged(rows: seq<Row>, game: string): (r: seq<Bet>)
    ensures |r| == |rows|
    ensures forall i :: 0 <= i < |rows| ==> r[i] == CacheBet(rows[i], game)
  {
    seq(|rows|, i requires 0 <= i < |rows| => CacheBet(rows[i], game))
  }

  /** The rows of every table's query result, tagged with their table, in
      table order. */
  function Combined(results: seq<seq<Row>>): (r: seq<Bet>)
    requires |results| <= |Methods|
  {
    if |results| == 0 then []
    else Combined(results[..|results| - 1]) + Tagged(results[|results| - 1], Methods[|results| - 1])
  }

  /** Every combined bet is the cached form of a row of the table it is
      tagged with. */
  lemma {:induction false} CombinedFrom(results: seq<seq<Row>>)
    requires |results| <= |Methods|
    ensures forall b <- Combined(results) :: exists i, row :: 0 <= i < |results| && row in results[i] && b == CacheBet(row, Methods[i])
  {
    if |results| > 0 {
      var n := |results| - 1;
      CombinedFrom(results[..n]);
      forall b <- Combined(results)
        ensures exists i, row :: 0 <= i < |results| && row in results[i] && b == CacheBet(row, Methods[i])
      {
        if b in Combined(results[..n]) {
          var i, row :| 0 <= i < n && row in results[..n][i] && b == CacheBet(row, Methods[i]);
          assert results[..n][i] == results[i];
        } else {
          var j :| 0 <= j < |results[n]| && Tagged(results[n], Methods[n])[j] == b;
          assert results[n][j] in results[n];
        }
      }
    }
  }

  /** One startup query per table for the given category. */
  function Queries(tables: seq<seq<Row>>, category: Category): (r: seq<seq<Row>>)
    requires |tables| == |Methods|
    ensures |r| == |Methods|
    ensures forall i :: 0 <= i < |r| ==> r[i] == FindMany(tables[i], Methods[i], row => Qualifies(category, row))
  {
    seq(|Methods|, i requires 0 <= i < |Methods| => FindMany(tables[i], Methods[i], row => Qualifies(category, row)))
  }

  /** The list a startup query result yields: the combined bets sorted
      newest first and cut to 15. The loops push every row of every table in
      table order. */
  method MapAndSortResults(results: seq<seq<Row>>) returns (r: seq<Bet>)
    requires |results| <= |Methods|
    ensures r == NewestBy(Combined(results), BetTime, Take)
    ensures |r| <= Take && Descending(r, BetTime)
    ensures forall b <- r :: b in Combined(results)
  {
    var combined: seq<Bet> := [];
    var i := 0;
    while i < |results|
      invariant 0 <= i <= |results|
      invariant combined == Combined(results[..i])
    {
      var game := Methods[i];
      var j := 0;
      while j < |results[i]|
        invariant 0 <= j <= |results[i]|
        invariant combined == Combined(results[..i]) + Tagged(results[i][..j], game)
      {
        var bet := results[i][j];
        combined := combined + [CacheBet(bet, game)];
        j := j + 1;
      }
      assert results[i][..j] == results[i];
      assert results[..i + 1][..i] == results[..i];
      i := i + 1;
    }
    assert results[..i] == results;
    r := NewestBy(combined, BetTime, Take);
  }

  /** The bet a user's own list holds for a row: the blackjack stake is read
      as `amount.main`, which on a plain number is undefined and on a missing
      stake throws. */
  function UserBet(row: Row, game: string): (r: Option<Bet>)
    ensures r.None? <==> game == "blackjack" && row.amount.Missing?
    ensures r.Some? ==> r.value.payout == row.payout && r.value.updatedAt == row.updatedAt && r.value.game == game
    ensures r.Some? && game == "blackjack" && row.amount.Number? ==> r.value.amount == Missing
    ensures r.Some? && game != "blackjack" ==> r.value == CacheBet(row, game)
    ensures game == "blackjack" && row.amount.Parts? ==> r == Some(CacheBet(row, game))
    ensures game == "blackjack" && row.amount.Number? ==> r == Some(CacheBet(row, game).(amount := Missing))
  {
    if game != "blackjack" then Some(CacheBet(row, game))
    else match row.amount
      case Missing => None
      case Number(_) => Some(CacheBet(row, game).(amount := Missing))
      case Parts(main) => Some(CacheBet(row, game))
  }

  function UserBets(rows: seq<Row>, game: string): (r: Option<seq<Bet>>)
    ensures r.None? <==> exists row <- rows :: UserBet(row, game).None?
    ensures r.Some? ==> |r.value| == |rows| && forall i :: 0 <= i < |rows| ==> Some(r.value[i]) == UserBet(rows[i], game)
  {
    if |rows| == 0 then Some([])
    else
      assert forall row :: row in rows <==> row == rows[0] || row in rows[1..];
      match (UserBet(rows[0], game), UserBets(rows[1..], game))
      case (Some(b), Some(rest)) => Some([b] + rest)
      case _ => None
  }

  /** The parts spread into one array, in order; None as soon as one part
      is None (its mapping threw). */
  function Merge<U>(parts: seq<Option<seq<U>>>): Option<seq<U>>
  {
    if |parts| == 0 then Some([])
    else
      var n := |parts| - 1;
      match (Merge(parts[..n]), parts[n])
      case (Some(front), Some(last)) => Some(front + last)
      case _ => None
  }

  /** A merge that succeeds holds every part, as often as the part does. */
  lemma {:induction false} MergeHolds<U>(parts: seq<Option<seq<U>>>, i: nat)
    requires i < |parts| && Merge(parts).Some?
    ensures parts[i].Some? && multiset(parts[i].value) <= multiset(Merge(parts).value)
  {
    var n := |parts| - 1;
    var front, last := Merge(parts[..n]).value, parts[n].value;
    assert multiset(front + last) == multiset(front) + multiset(last);
    if i < n {
      assert parts[..n][i] == parts[i];
      MergeHolds(parts[..n], i);
    }
  }

  /** Everything a successful merge holds comes from one of the parts. */
  lemma {:induction false} MergeFrom<U>(parts: seq<Option<seq<U>>>)
    requires Merge(parts).Some?
    ensures forall x <- Merge(parts).value :: exists i :: 0 <= i < |parts| && parts[i].Some? && x in parts[i].value
  {
    if |parts| > 0 {
      var n := |parts| - 1;
      var front, last := Merge(parts[..n]).value, parts[n].value;
      MergeFrom(parts[..n]);
      forall x <- front + last
        ensures exists i :: 0 <= i < |parts| && parts[i].Some? && x in parts[i].value
      {
        if x in front {
          var i :| 0 <= i < n && parts[..n][i].Some? && x in parts[..n][i].value;
          assert parts[i] == parts[..n][i];
        } else {
          assert x in parts[n].value;
        }
      }
    }
  }

  /** A merge fails exactly when one of its parts is missing. */
  lemma {:induction false} MergeFails<U>(parts: seq<Option<seq<U>>>)
    ensures Merge(parts).None? <==> exists i :: 0 <= i < |parts| && parts[i].None?
  {
    if |parts| > 0 {
      var n := |parts| - 1;
      MergeFails(parts[..n]);
      if Merge(parts[..n]).None? {
        var i :| 0 <= i < n && parts[..n][i].None?;
        assert parts[i] == parts[..n][i];
      } else {
        forall i | 0 <= i < n ensures parts[i].Some? {
          assert parts[i] == parts[..n][i];
        }
      }
    }
  }

  /** The lengths of the parts, 0 for a missing one. */
  function Lengths<U>(parts: seq<Option<seq<U>>>): (r: seq<nat>)
    ensures |r| == |parts|
    ensures forall i :: 0 <= i < |parts| ==> r[i] == (if parts[i].Some? then |parts[i].value| else 0)
  {
    seq(|parts|, i requires 0 <= i < |parts| => if parts[i].Some? then |parts[i].value| else 0)
  }

  /** The sum of a list of counts. */
  function SumOf(s: seq<nat>): nat
  {
    if |s| == 0 then 0 else SumOf(s[..|s| - 1]) + s[|s| - 1]
  }

  /** A successful spread is as long as its parts together. */
  lemma {:induction false} MergeLength<U>(parts: seq<Option<seq<U>>>)
    requires Merge(parts).Some?
    ensures |Merge(parts).value| == SumOf(Lengths(parts))
  {
    if |parts| > 0 {
      var n := |parts| - 1;
      MergeLength(parts[..n]);
      assert Lengths(parts)[..n] == Lengths(parts[..n]);
    }
  }

  /** Capping every count at `t` and then the total at `t` caps the total
      of the uncapped counts at `t`. */
  lemma {:induction false} CappedSum(s: seq<nat>, c: seq<nat>, t: nat)
    requires |c| == |s|
    requires forall i :: 0 <= i < |s| ==> c[i] == Min(s[i], t)
    ensures Min(SumOf(c), t) == Min(SumOf(s), t)
  {
    if |s| > 0 {
      var n := |s| - 1;
      CappedSum(s[..n], c[..n], t);
    }
  }

  /** The bets of each table's query result, one part per table. */
  function Parts(results: seq<seq<Row>>, games: seq<string>): (r: seq<Option<seq<Bet>>>)
    requires |results| <= |games|
    ensures |r| == |results|
    ensures forall i :: 0 <= i < |results| ==> r[i] == UserBets(results[i], games[i])
  {
    seq(|results|, i requires 0 <= i < |results| => UserBets(results[i], games[i]))
  }

  /** The user's bets of every table's query result, in table order; None
      as soon as one row makes the handler throw. */
  function AllUserBets(results: seq<seq<Row>>, games: seq<string>): (r: Option<seq<Bet>>)
    requires |results| <= |games|
    ensures r.Some? ==> forall b <- r.value :: exists i, row :: 0 <= i < |results| && row in results[i] && Some(b) == UserBet(row, games[i])
  {
    var parts := Parts(results, games);
    AllUserBetsFrom(results, games, parts);
    Merge(parts)
  }

  /** Each bet of a successful merge is the bet of some row of some result. */
  lemma AllUserBetsFrom(results: seq<seq<Row>>, games: seq<string>, parts: seq<Option<seq<Bet>>>)
    requires |results| <= |games| && parts == Parts(results, games)
    ensures Merge(parts).Some? ==> forall b <- Merge(parts).value :: exists i, row :: 0 <= i < |results| && row in results[i] && Some(b) == UserBet(row, games[i])
  {
    if Merge(parts).Some? {
      MergeFrom(parts);
      forall b <- Merge(parts).value
        ensures exists i, row :: 0 <= i < |results| && row in results[i] && Some(b) == UserBet(row, games[i])
      {
        var i :| 0 <= i < |parts| && parts[i].Some? && b in parts[i].value;
        var j :| 0 <= j < |parts[i].value| && parts[i].value[j] == b;
        assert Some(b) == UserBet(results[i][j], games[i]);
        assert results[i][j] in results[i];
      }
    }
  }

  /** The merged list holds every bet of each table's result, as often as
      that result yields it. */
  lemma AllUserBetsHold(results: seq<seq<Row>>, games: seq<string>, i: nat, all: seq<Bet>)
    requires |results| <= |games| && i < |results|
    requires AllUserBets(results, games) == Some(all)
    ensures UserBets(results[i], games[i]).Some?
    ensures multiset(UserBets(results[i], games[i]).value) <= multiset(all)
  {
    MergeHolds(Parts(results, games), i);
  }

  /** Every row of every result yields its bet in the merged list. */
  lemma AllUserBetsComplete(results: seq<seq<Row>>, games: seq<string>)
    requires |results| <= |games|
    requires AllUserBets(results, games).Some?
    ensures forall i, row :: 0 <= i < |results| && row in results[i] ==>
      UserBet(row, games[i]).Some? && UserBet(row, games[i]).value in AllUserBets(results, games).value
  {
    var all := AllUserBets(results, games).value;
    forall i, row | 0 <= i < |results| && row in results[i]
      ensures UserBet(row, games[i]).Some? && UserBet(row, games[i]).value in all
    {
      AllUserBetsHold(results, games, i, all);
      var mine := UserBets(results[i], games[i]).value;
      var j :| 0 <= j < |results[i]| && results[i][j] == row;
      assert Some(mine[j]) == UserBet(row, games[i]);
      assert multiset(mine)[mine[j]] > 0;
    }
  }

  /** The merge fails exactly when some result holds a blackjack row without
      a stake. */
  lemma AllUserBetsFail(results: seq<seq<Row>>, games: seq<string>)
    requires |results| <= |games|
    ensures AllUserBets(results, games).None? <==>
      exists i, row :: 0 <= i < |results| && row in results[i] && games[i] == "blackjack" && row.amount.Missing?
  {
    var parts := Parts(results, games);
    MergeFails(parts);
    if Merge(parts).None? {
      var i :| 0 <= i < |parts| && parts[i].None?;
      var row :| row in results[i] && UserBet(row, games[i]).None?;
    }
  }

  /** A row of the user's own list: placed by that user and settled. */
  predicate OwnSettled(userId: string, row: Row)
  {
    row.userId == userId && row.payout.Some?
  }

  /** One own-list query per table. */
  function UserQueries(tables: seq<seq<Row>>, userId: string): (r: seq<seq<Row>>)
    requires |tables| == |Methods|
    ensures |r| == |Methods|
    ensures forall i :: 0 <= i < |r| ==> r[i] == FindMany(tables[i], Methods[i], row => OwnSettled(userId, row))
  {
    seq(|Methods|, i requires 0 <= i < |Methods| => FindMany(tables[i], Methods[i], row => OwnSettled(userId, row)))
  }

  /** A user's own list: each table's newest 15 settled bets by that user
      (no bot stakes), merged, sorted newest first and cut to 15. None when
      a blackjack row without a stake makes the handler throw. */
  function FetchUserBets(tables: seq<seq<Row>>, userId: string): (r: Option<seq<Bet>>)
    requires |tables| == |Methods|
    ensures r.None? <==> exists i, row :: 0 <= i < |Methods| && row in UserQueries(tables, userId)[i] && Methods[i] == "blackjack" && row.amount.Missing?
    ensures r.Some? ==> |r.value| <= Take && Descending(r.value, BetTime)
    ensures r.Some? ==>
      && AllUserBets(UserQueries(tables, userId), Methods).Some?
      && |r.value| == Min(|AllUserBets(UserQueries(tables, userId), Methods).value|, Take)
    ensures r.Some? ==> forall b <- r.value :: exists i, row :: 0 <= i < |Methods| && row in tables[i] && OwnSettled(userId, row) && Some(b) == UserBet(row, Methods[i])
  {
    var results := UserQueries(tables, userId);
    AllUserBetsFail(results, Methods);
    match AllUserBets(results, Methods)
    case None => None
    case Some(all) =>
      OwnProvenance(tables, userId);
      Some(NewestBy(all, BetTime, Take))
  }

  /** Every bet the merge of a user's queries yields comes from a settled
      row of that user. */
  lemma OwnProvenance(tables: seq<seq<Row>>, userId: string)
    requires |tables| == |Methods|
    requires AllUserBets(UserQueries(tables, userId), Methods).Some?
    ensures forall b <- AllUserBets(UserQueries(tables, userId), Methods).value ::
      exists i, row :: 0 <= i < |Methods| && row in tables[i] && OwnSettled(userId, row) && Some(b) == UserBet(row, Methods[i])
  {
    var results := UserQueries(tables, userId);
    forall b <- AllUserBets(results, Methods).value
      ensures exists i, row :: 0 <= i < |Methods| && row in tables[i] && OwnSettled(userId, row) && Some(b) == UserBet(row, Methods[i])
    {
      var i, row :| 0 <= i < |results| && row in results[i] && Some(b) == UserBet(row, Methods[i]);
      assert row in tables[i] && OwnSettled(userId, row);
    }
  }

  /** A user's own list holds their newest settled bets: a settled row of
      the user that the table query can see, and whose bet is not in the
      list, is no newer than any bet the list holds. */
  lemma OwnBetsNewest(tables: seq<seq<Row>>, userId: string)
    requires |tables| == |Methods|
    requires FetchUserBets(tables, userId).Some?
    ensures forall i, row :: 0 <= i < |Methods| && row in tables[i] && OwnSettled(userId, row) && !(HasBots(Methods[i]) && row.bot) ==>
      || (UserBet(row, Methods[i]).Some? && UserBet(row, Methods[i]).value in FetchUserBets(tables, userId).value)
      || forall b <- FetchUserBets(tables, userId).value :: row.updatedAt <= b.updatedAt
  {
    forall i, row | 0 <= i < |Methods| && row in tables[i] && OwnSettled(userId, row) && !(HasBots(Methods[i]) && row.bot)
      ensures || (UserBet(row, Methods[i]).Some? && UserBet(row, Methods[i]).value in FetchUserBets(tables, userId).value)
              || forall b <- FetchUserBets(tables, userId).value :: row.updatedAt <= b.updatedAt
    {
      var results := UserQueries(tables, userId);
      assert results[i] == FindMany(tables[i], Methods[i], row => OwnSettled(userId, row));
      FindManyNewest(tables[i], Methods[i], row => OwnSettled(userId, row));
      MergedKeepsNewest(results, Methods, i, row, Filter(tables[i], Methods[i], row => OwnSettled(userId, row)));
    }
  }

  /** How many settled rows of the user each table's query could return. */
  function OwnCounts(tables: seq<seq<Row>>, userId: string): (r: seq<nat>)
    requires |tables| == |Methods|
    ensures |r| == |Methods|
    ensures forall i :: 0 <= i < |r| ==> r[i] == |Filter(tables[i], Methods[i], row => OwnSettled(userId, row))|
  {
    seq(|Methods|, i requires 0 <= i < |Methods| => |Filter(tables[i], Methods[i], row => OwnSettled(userId, row))|)
  }

  /** A user's own list is as long as it can be: 15 bets, or every settled
      row of the user the table queries can see when there are fewer. */
  lemma OwnBetsCount(tables: seq<seq<Row>>, userId: string)
    requires |tables| == |Methods|
    requires FetchUserBets(tables, userId).Some?
    ensures |FetchUserBets(tables, userId).value| == Min(SumOf(OwnCounts(tables, userId)), Take)
  {
    var results := UserQueries(tables, userId);
    var parts := Parts(results, Methods);
    MergeLength(parts);
    var counts := OwnCounts(tables, userId);
    forall i | 0 <= i < |Methods| ensures Lengths(parts)[i] == Min(counts[i], Take) {
      assert results[i] == FindMany(tables[i], Methods[i], row => OwnSettled(userId, row));
      FindManyNewest(tables[i], Methods[i], row => OwnSettled(userId, row));
    }
    CappedSum(counts, Lengths(parts), Take);
  }

  /** One table's part of OwnBetsNewest: a row its query could have
      returned either yields a kept bet or is no newer than any kept bet. */
  lemma MergedKeepsNewest(results: seq<seq<Row>>, games: seq<string>, i: nat, row: Row, matching: seq<Row>)
    requires |results| <= |games| && i < |results|
    requires AllUserBets(results, games).Some?
    requires row in matching
    requires |results[i]| == Min(|matching|, Take)
    requires |matching| <= Take ==> multiset(results[i]) == multiset(matching)
    requires forall m <- matching :: m in results[i] || forall kept <- results[i] :: RowTime(m) <= RowTime(kept)
    ensures || (UserBet(row, games[i]).Some? && UserBet(row, games[i]).value in NewestBy(AllUserBets(results, games).value, BetTime, Take))
            || forall b <- NewestBy(AllUserBets(results, games).value, BetTime, Take) :: row.updatedAt <= b.updatedAt
  {
    var all := AllUserBets(results, games).value;
    var own := results[i];
    NewestKept(all, BetTime, Take);
    AllUserBetsHold(results, games, i, all);
    var w := UserBets(own, games[i]).value;
    if row in own {
      var j :| 0 <= j < |own| && own[j] == row;
      assert Some(w[j]) == UserBet(row, games[i]);
      assert multiset(w)[w[j]] > 0;
    } else {
      assert multiset(matching)[row] > 0 && multiset(own)[row] == 0;
      assert |matching| > Take;
      assert |w| == Take;
      assert forall y <- w :: BetTime(y) >= row.updatedAt by {
        forall y <- w ensures BetTime(y) >= row.updatedAt {
          var j :| 0 <= j < |w| && w[j] == y;
          assert Some(w[j]) == UserBet(own[j], games[i]);
          assert own[j] in own;
        }
      }
      TakeDominates(all, BetTime, Take, w, row.updatedAt);
    }
  }

  /** The result of PushRecent on a list kept at 15: the bet in front, then
      the list's first 14. */
  function Recent(list: seq<Bet>, bet: Bet): (r: seq<Bet>)
  {
    ([bet] + list)[..Min(|list| + 1, Take)]
  }

  /** `list.unshift(bet)` followed by one `pop` when it grew past 15. */
  function PushRecent(list: seq<Bet>, bet: Bet): (r: seq<Bet>)
    ensures |r| > 0 && r[0] == bet
    ensures |list| <= Take ==> r == Recent(list, bet) && |r| <= Take
    ensures |list| >= Take ==> r[1..] == list[..|list| - 1]
  {
    var pushed := [bet] + list;
    if |pushed| > Take then pushed[..|pushed| - 1] else pushed
  }

  function Reverse<T>(s: seq<T>): (r: seq<T>)
    ensures |r| == |s|
    ensures forall i :: 0 <= i < |s| ==> r[i] == s[|s| - 1 - i]
  {
    if |s| == 0 then [] else Reverse(s[1..]) + [s[0]]
  }

  /** A list after the bets are published one after another. */
  function Replay(list: seq<Bet>, bets: seq<Bet>): seq<Bet>
    decreases |bets|
  {
    if |bets| == 0 then list else Replay(PushRecent(list, bets[0]), bets[1..])
  }

  /** Publishing bets one by one leaves the 15 most recently published
      first, newest in front, followed by what the list held before while
      room remains. */
  lemma {:induction false} ReplayKeepsNewest(list: seq<Bet>, bets: seq<Bet>)
    requires |list| <= Take
    ensures Replay(list, bets) == (Reverse(bets) + list)[..Min(|bets| + |list|, Take)]
    decreases |bets|
  {
    if |bets| > 0 {
      var b := bets[0];
      var pushed := PushRecent(list, b);
      ReplayKeepsNewest(pushed, bets[1..]);
      var front := Reverse(bets[1..]);
      assert Reverse(bets) == front + [b];
      var lhs := (front + pushed)[..Min(|bets| - 1 + |pushed|, Take)];
      var rhs := (Reverse(bets) + list)[..Min(|bets| + |list|, Take)];
      assert |lhs| == |rhs|;
      forall k | 0 <= k < |lhs| ensures lhs[k] == rhs[k] {
        if k < |front| {
        } else if k == |front| {
        } else {
          assert pushed[k - |front|] == list[k - |front| - 1];
        }
      }
    }
  }

  class BetCaches {
    var all: seq<Bet>
    var whale: seq<Bet>
    var lucky: seq<Bet>

    /** Every list holds at most 15 bets, and the whale and lucky lists only
        bets meeting their entry condition. */
    ghost predicate Valid()
      reads this
    {
      && |all| <= Take && |whale| <= Take && |lucky| <= Take
      && (forall b <- whale :: IsWhale(b.payout))
      && (forall b <- lucky :: IsLucky(b.payout, b.multiplier))
    }

    constructor()
      ensures Valid() && all == [] && whale == [] && lucky == []
    {
      all, whale, lucky := [], [], [];
    }

    /** A new bet goes in front of `all`; in front of `whale` exactly when it
        is a whale bet and of `lucky` exactly when it is a lucky bet; a list
        whose condition fails is left as it was. */
    method PublishNewBet(bet: Bet)
      requires Valid()
      modifies this
      ensures Valid()
      ensures all == PushRecent(old(all), bet)
      ensures whale == if IsWhale(bet.payout) then PushRecent(old(whale), bet) else old(whale)
      ensures lucky == if IsLucky(bet.payout, bet.multiplier) then PushRecent(old(lucky), bet) else old(lucky)
    {
      all := PushRecent(all, bet);
      if IsWhale(bet.payout) {
        whale := PushRecent(whale, bet);
      }
      if IsLucky(bet.payout, bet.multiplier) {
        lucky := PushRecent(lucky, bet);
      }
    }

    /** Startup: each list becomes the newest 15 bets of its category across
        the eight tables. */
    method InitBets(tables: seq<seq<Row>>)
      requires |tables| == |Methods|
      modifies this
      ensures Valid()
      ensures all == Seeded(tables, All)
      ensures whale == Seeded(tables, Whale)
      ensures lucky == Seeded(tables, Lucky)
    {
      all := SeedList(tables, All);
      whale := SeedList(tables, Whale);
      assert forall b <- whale :: IsWhale(b.payout);
      lucky := SeedList(tables, Lucky);
      assert forall b <- lucky :: IsLucky(b.payout, b.multiplier);
    }

    /** The bets data request: nothing is sent without a user (the send sits
        inside the user branch); with one, the three lists and the user's own. */
    function Payload(user: Option<Profile>, tables: seq<seq<Row>>): (r: Option<BetsData>)
      requires |tables| == |Methods|
      reads this
      ensures user.None? ==> r.None?
      ensures r.Some? ==> r.value.all == all && r.value.whale == whale && r.value.lucky == lucky
      ensures r.Some? ==> FetchUserBets(tables, user.value.id) == Some(r.value.my)
      ensures user.Some? ==> (r.Some? <==> FetchUserBets(tables, user.value.id).Some?)
    {
      if user.None? then None
      else match FetchUserBets(tables, user.value.id)
        case None => None
        case Some(my) => Some(BetsData(all, whale, lucky, my))
    }
  }

  /** A bet seeded from a category's startup query meets that category's
      entry condition, the same one a published bet must meet. */
  lemma SeededQualify(tables: seq<seq<Row>>, category: Category)
    requires |tables| == |Methods|
    ensures forall b <- Combined(Queries(tables, category)) :: b.payout.Some?
    ensures category == Whale ==> forall b <- Combined(Queries(tables, category)) :: IsWhale(b.payout)
    ensures category == Lucky ==> forall b <- Combined(Queries(tables, category)) :: IsLucky(b.payout, b.multiplier)
  {
    var results := Queries(tables, category);
    CombinedFrom(results);
    forall b <- Combined(results)
      ensures b.payout.Some?
      ensures category == Whale ==> IsWhale(b.payout)
      ensures category == Lucky ==> IsLucky(b.payout, b.multiplier)
    {
      var i, row :| 0 <= i < |results| && row in results[i] && b == CacheBet(row, Methods[i]);
      assert Qualifies(category, row);
    }
  }

  /** A startup list: the newest 15 bets of the category across the eight
      tables. */
  function Seeded(tables: seq<seq<Row>>, category: Category): (r: seq<Bet>)
    requires |tables| == |Methods|
    ensures |r| <= Take && Descending(r, BetTime)
    ensures forall b <- r :: b.payout.Some?
    ensures category == Whale ==> forall b <- r :: IsWhale(b.payout)
    ensures category == Lucky ==> forall b <- r :: IsLucky(b.payout, b.multiplier)
  {
    SeededQualify(tables, category);
    NewestBy(Combined(Queries(tables, category)), BetTime, Take)
  }

  /** One startup list, built by the handler's loops. */
  method SeedList(tables: seq<seq<Row>>, category: Category) returns (r: seq<Bet>)
    requires |tables| == |Methods|
    ensures r == Seeded(tables, category)
  {
    r := MapAndSortResults(Queries(tables, category));
  }

  /** No bot stake from the duels or battles table reaches a startup list. */
  lemma NoBotSeeds(tables: seq<seq<Row>>, category: Category)
    requires |tables| == |Methods|
    ensures forall i, row :: 0 <= i < |Methods| && HasBots(Methods[i]) && row in Queries(tables, category)[i] ==> !row.bot
  {
    var results := Queries(tables, category);
    forall i, row: Row | 0 <= i < |Methods| && HasBots(Methods[i]) && row in results[i] ensures !row.bot {
      assert results[i] == FindMany(tables[i], Methods[i], row => Qualifies(category, row));
    }
  }
}
