/** The duel lifecycle engine: the in-memory registry of active games, the
    completed-game history, the two guard lists, and the handlers and timer
    callbacks that move a game from `created` through `countdown`, `pending`
    and `rolling` to `completed`.

    Timers are explicit: a handler or callback returns the `Step` it schedules
    (which callback, after how many milliseconds, on which captured game), and
    the caller runs that callback as the next transition. Balances live in a
    ledger map standing for the user rows the handlers decrement. */
module DuelsController {
  import opened Common
  import opened DuelsUtils

  const HistoryCap := 25
  const CountdownDelay := 4000
  const RollDelay := 1000
  const RetryDelay := 15000
  const RevealDelayPerBet := 5000
  const RollModulus := 10000

  /** The callback a transition leaves scheduled, with the game object it
      captured. */
  datatype Step =
    | Idle
    | ValidateAfter(delay: nat, game: Game)
    | RollAfter(delay: nat, game: Game)
    | CompleteAfter(delay: nat, game: Game)

  /** What the external fairness source answers: the head block id becomes the
      public seed and the head block number the block reference. */
  datatype Reveal = Reveal(headBlockId: string, headBlockNum: int)

  /** The first 32 bits of the SHA-256 digest of
      `${gameId}-${seedServer}-${seedPublic}-${index}`, read as an unsigned
      integer. The hash itself is not modelled. */
  type Digest = (string, Option<string>, Option<string>, nat) -> nat

  /** What `duelsGetData` hands to a subscriber. */
  datatype DuelsData = DuelsData(games: seq<Game>, history: seq<Game>)

  /** No game holds more bets than slots, and every bet stakes the game amount. */
  predicate WellFormed(game: Game)
  {
    && |game.bets| <= game.playerCount
    && forall b <- game.bets :: b.amount == game.amount
  }

  /** The states in which a game sits in the active list. */
  predicate Active(state: State)
  {
    state == Created || state == Countdown || state == Pending || state == Rolling
  }

  /** The games a user counts as having open: every active game whose first bet
      is theirs, whatever its state. */
  function OpenGamesOf(games: seq<Game>, userId: string): (r: seq<Game>)
    ensures |r| <= |games|
    ensures forall g :: g in r <==> g in games && |g.bets| > 0 && g.bets[0].userId == userId
  {
    if |games| == 0 then []
    else
      var rest := OpenGamesOf(games[1..], userId);
      assert forall g :: g in games <==> g == games[0] || g in games[1..];
      if |games[0].bets| > 0 && games[0].bets[0].userId == userId then [games[0]] + rest else rest
  }

  /** The open games count every game of the user exactly as often as the
      active list holds it, and no other game. */
  lemma {:induction false} OpenGamesCount(games: seq<Game>, userId: string)
    ensures forall g :: multiset(OpenGamesOf(games, userId))[g] == (if |g.bets| > 0 && g.bets[0].userId == userId then multiset(games)[g] else 0)
  {
    if |games| > 0 {
      OpenGamesCount(games[1..], userId);
      assert games == [games[0]] + games[1..];
      assert multiset(games) == multiset{games[0]} + multiset(games[1..]);
    }
  }

  /** The game a successful create registers: state `created`, the floored
      amount and player count, and one human bet by the creator. */
  function NewGame(gameId: string, betId: string, user: Profile, amount: int, playerCount: int, fair: Fair): (r: Game)
    ensures r.state == Created && r.amount == amount && r.playerCount == playerCount && r.winner.None?
    ensures |r.bets| == 1 && r.bets[0].userId == user.id && r.bets[0].amount == amount && !r.bets[0].bot
    ensures r.bets[0].payout.None? && r.bets[0].roll.None?
  {
    Game(gameId, amount, playerCount, fair, Created, [Bet(betId, user.id, amount, false, None, None, Some(user))], None)
  }

  /** `n` bot bets for `amount`; the store names the k-th new row `ids(k)`. */
  function BotBets(amount: int, n: nat, ids: nat -> string): (r: seq<Bet>)
    ensures |r| == n
    ensures forall b <- r :: b.bot && b.amount == amount && b.userId == "" && b.user.None? && b.payout.None?
  {
    seq(n, k requires 0 <= k < n => Bet(ids(k), "", amount, true, None, None, None))
  }

  /** The game after call-bots filled every open slot. */
  function Filled(game: Game, ids: nat -> string): (r: Game)
    requires |game.bets| <= game.playerCount
    ensures |r.bets| == game.playerCount
    ensures r.bets[..|game.bets|] == game.bets
    ensures forall b <- r.bets[|game.bets|..] :: b.bot && b.amount == game.amount
    ensures r.(bets := game.bets) == game
  {
    var r := game.(bets := game.bets + BotBets(game.amount, game.playerCount - |game.bets|, ids));
    assert r.bets[..|game.bets|] == game.bets;
    assert r.bets[|game.bets|..] == BotBets(game.amount, game.playerCount - |game.bets|, ids);
    r
  }

  /** `duelsGames[duelsGetGameIndex(duelsGames, game.id)] = game`; when the id is
      absent the source writes array property "-1", which leaves the list alone. */
  function WriteBack(games: seq<Game>, game: Game): (r: seq<Game>)
    ensures |r| == |games|
    ensures forall h <- r :: h in games || h == game
    ensures (exists h <- games :: h.id == game.id) ==> game in r
    ensures GetGameIndex(games, game.id) >= 0 ==> r[GetGameIndex(games, game.id)] == game
    ensures forall i :: 0 <= i < |games| && i != GetGameIndex(games, game.id) ==> r[i] == games[i]
    ensures GetGameIndex(games, game.id) < 0 ==> r == games
  {
    var k := GetGameIndex(games, game.id);
    if k >= 0 then
      assert games[k := game][k] == game;
      games[k := game]
    else games
  }

  /** The winner's payout, `Math.floor(amount * playerCount * 0.95)`, read in
      exact arithmetic: the largest integer not above 95% of the pot. */
  function Payout(amount: int, playerCount: int): (r: int)
    ensures r * 100 <= amount * playerCount * 95 < r * 100 + 100
    ensures 0 <= amount * playerCount ==> 0 <= r <= amount * playerCount
  {
    (amount * playerCount * 95) / 100
  }

  /** `bet.roll || 0`. */
  function RollOf(bet: Bet): int
  {
    if bet.roll.Some? then bet.roll.value else 0
  }

  function RollFor(game: Game, digest: Digest, index: nat): (r: int)
    ensures 0 <= r < RollModulus
  {
    digest(game.id, game.fair.seedServer, game.fair.seedPublic, index) % RollModulus
  }

  /** Every bet of the game with its roll assigned, in join order. */
  function Rolled(game: Game, digest: Digest): (r: seq<Bet>)
    ensures |r| == |game.bets|
    ensures forall i :: 0 <= i < |r| ==> r[i] == game.bets[i].(roll := Some(RollFor(game, digest, i)))
    ensures forall b <- r :: b.roll.Some? && 0 <= b.roll.value < RollModulus
  {
    seq(|game.bets|, i requires 0 <= i < |game.bets| => game.bets[i].(roll := Some(RollFor(game, digest, i))))
  }

  /** The bet the source's `reduce` picks: it keeps the running winner only
      when that winner's roll is strictly greater, so the winner has a maximal
      roll and a tie goes to the LATER bet. */
  function WinnerOf(bets: seq<Bet>): (w: nat)
    requires |bets| > 0
    ensures w < |bets|
    ensures forall j :: 0 <= j < w ==> RollOf(bets[j]) <= RollOf(bets[w])
    ensures forall j :: w < j < |bets| ==> RollOf(bets[j]) < RollOf(bets[w])
    decreases |bets|
  {
    if |bets| == 1 then 0
    else
      var front := bets[..|bets| - 1];
      var w := WinnerOf(front);
      assert front[w] == bets[w];
      if RollOf(bets[w]) > RollOf(bets[|bets| - 1]) then w else |bets| - 1
  }

  /** The bets after the winner's payout is set; every other bet is untouched. */
  function Settled(bets: seq<Bet>, w: nat, payout: int): (r: seq<Bet>)
    requires w < |bets|
    ensures |r| == |bets|
    ensures r[w] == bets[w].(payout := Some(payout))
    ensures forall i :: 0 <= i < |r| && i != w ==> r[i] == bets[i]
  {
    bets[w := bets[w].(payout := Some(payout))]
  }

  /** The game after the roll callback: rolls assigned, the winner's payout
      set, the winner attached and the state `rolling`. */
  function RolledGame(game: Game, digest: Digest): (r: Game)
    requires |game.bets| > 0
    ensures r.state == Rolling && |r.bets| == |game.bets|
    ensures r.winner.Some? && r.winner.value.payout == Some(Payout(game.amount, game.playerCount))
    ensures forall i :: 0 <= i < |r.bets| ==> r.bets[i].amount == game.bets[i].amount
    ensures forall i :: 0 <= i < |r.bets| ==> r.bets[i].roll == Rolled(game, digest)[i].roll
    ensures r.winner == Some(r.bets[WinnerOf(Rolled(game, digest))])
    ensures r.(bets := game.bets, state := game.state, winner := game.winner) == game
  {
    var rolled := Rolled(game, digest);
    var w := WinnerOf(rolled);
    var settled := Settled(rolled, w, Payout(game.amount, game.playerCount));
    game.(bets := settled, state := Rolling, winner := Some(settled[w]))
  }

  /** Rolling keeps a game well formed: no bet is added and every stake
      stays the game amount. */
  lemma RolledWellFormed(game: Game, digest: Digest)
    requires WellFormed(game) && |game.bets| > 0
    ensures WellFormed(RolledGame(game, digest))
  {
    var r := RolledGame(game, digest);
    forall b <- r.bets ensures b.amount == r.amount {
      var j :| 0 <= j < |r.bets| && r.bets[j] == b;
      assert game.bets[j] in game.bets;
    }
  }

  /** The sum of the settled payouts of a list of bets. */
  function PaidOut(bets: seq<Bet>): int
  {
    if |bets| == 0 then 0
    else PaidOut(bets[..|bets| - 1]) + (if bets[|bets| - 1].payout.Some? then bets[|bets| - 1].payout.value else 0)
  }

  /** Settling bets of which none was paid pays out exactly the winner's
      payout in total. */
  lemma {:induction false} SettledPaysOnlyWinner(bets: seq<Bet>, w: nat, payout: int)
    requires w < |bets|
    requires forall b <- bets :: b.payout.None?
    ensures PaidOut(Settled(bets, w, payout)) == payout
    decreases |bets|
  {
    var r := Settled(bets, w, payout);
    var n := |bets| - 1;
    if w == n {
      NothingPaid(bets[..n]);
      assert r[..n] == bets[..n];
    } else {
      SettledPaysOnlyWinner(bets[..n], w, payout);
      assert r[..n] == Settled(bets[..n], w, payout);
    }
  }

  lemma {:induction false} NothingPaid(bets: seq<Bet>)
    requires forall b <- bets :: b.payout.None?
    ensures PaidOut(bets) == 0
    decreases |bets|
  {
    if |bets| > 0 {
      NothingPaid(bets[..|bets| - 1]);
    }
  }

  /** A game whose bets are all unpaid pays exactly one bet at the roll, the
      one with the maximal roll, for `floor(amount * playerCount * 95 / 100)`. */
  lemma RollPaysExactlyOne(game: Game, digest: Digest)
    requires |game.bets| > 0
    requires forall b <- game.bets :: b.payout.None?
    ensures PaidOut(RolledGame(game, digest).bets) == Payout(game.amount, game.playerCount)
    ensures forall i :: 0 <= i < |game.bets| ==>
      (RolledGame(game, digest).bets[i].payout.Some? <==> i == WinnerOf(Rolled(game, digest)))
  {
    var rolled := Rolled(game, digest);
    var w := WinnerOf(rolled);
    assert forall b <- rolled :: b.payout.None? by {
      forall b <- rolled ensures b.payout.None? {
        var i :| 0 <= i < |rolled| && rolled[i] == b;
        assert game.bets[i] in game.bets;
      }
    }
    SettledPaysOnlyWinner(rolled, w, Payout(game.amount, game.playerCount));
    forall i | 0 <= i < |game.bets| ensures RolledGame(game, digest).bets[i].payout.Some? <==> i == w {
      assert game.bets[i] in game.bets;
    }
  }

  /** `history.unshift(game)` followed by one `pop` when it grew past 25. */
  function PushHistory(history: seq<Game>, game: Game): (r: seq<Game>)
    ensures |r| > 0 && r[0] == game
    ensures |history| < HistoryCap ==> r == [game] + history
    ensures |history| >= HistoryCap ==> |r| == |history| && r[1..] == history[..|history| - 1]
    ensures |history| <= HistoryCap ==> |r| <= HistoryCap
  {
    var h := [game] + history;
    if |h| > HistoryCap then h[..|h| - 1] else h
  }

  /** The games the startup query reloads: states created, pending and
      rolling, in store order. */
  function Uncompleted(stored: seq<Game>): (r: seq<Game>)
    ensures forall g <- r :: g in stored && (g.state == Created || g.state == Pending || g.state == Rolling)
    ensures forall g <- stored :: (g.state == Created || g.state == Pending || g.state == Rolling) ==> g in r
  {
    if |stored| == 0 then []
    else
      var rest := Uncompleted(stored[1..]);
      assert forall g :: g in stored <==> g == stored[0] || g in stored[1..];
      var g := stored[0];
      if g.state == Created || g.state == Pending || g.state == Rolling then [g] + rest else rest
  }

  /** The reloaded games that startup registers again: those not yet full. */
  function Reregistered(loaded: seq<Game>): seq<Game>
  {
    if |loaded| == 0 then []
    else
      var last := loaded[|loaded| - 1];
      var rest := Reregistered(loaded[..|loaded| - 1]);
      if last.playerCount != |last.bets| then rest + [last] else rest
  }

  /** The ids of the reloaded games that startup cancels: those already full. */
  function Orphaned(loaded: seq<Game>): seq<string>
  {
    if |loaded| == 0 then []
    else
      var last := loaded[|loaded| - 1];
      var rest := Orphaned(loaded[..|loaded| - 1]);
      if last.playerCount == |last.bets| then rest + [last.id] else rest
  }

  /** Startup splits the reloaded games in two: every game not yet full is
      registered, every full one is canceled, and nothing else is in either. */
  lemma {:induction false} ReloadPartition(loaded: seq<Game>)
    ensures |Orphaned(loaded)| + |Reregistered(loaded)| == |loaded|
    ensures forall g <- Reregistered(loaded) :: g in loaded && g.playerCount != |g.bets|
    ensures forall g <- loaded :: g.playerCount != |g.bets| ==> g in Reregistered(loaded)
    ensures forall g <- loaded :: g.playerCount == |g.bets| ==> g.id in Orphaned(loaded)
  {
    if |loaded| > 0 {
      var init := loaded[..|loaded| - 1];
      ReloadPartition(init);
      assert forall g :: g in loaded <==> g == loaded[|loaded| - 1] || g in init;
    }
  }

  /** The completed stored games, in store order. */
  function CompletedOf(stored: seq<Game>): (r: seq<Game>)
    ensures forall g <- r :: g in stored && g.state == Completed
    ensures forall g <- stored :: g.state == Completed ==> g in r
    ensures |stored| > 0 && stored[|stored| - 1].state == Completed ==> |r| > 0 && r[|r| - 1] == stored[|stored| - 1]
  {
    if |stored| == 0 then []
    else
      var init, last := stored[..|stored| - 1], stored[|stored| - 1];
      var rest := CompletedOf(init);
      assert forall g :: g in stored <==> g == last || g in init;
      if last.state == Completed then rest + [last] else rest
  }

  /** Store order is kept: the completed games of a prefix of the store are
      a prefix of the completed games of the whole store. */
  lemma {:induction false} CompletedKeepsOrder(stored: seq<Game>, k: nat)
    requires k <= |stored|
    ensures CompletedOf(stored[..k]) <= CompletedOf(stored)
    decreases |stored|
  {
    if k < |stored| {
      var init := stored[..|stored| - 1];
      assert stored[..k] == init[..k];
      CompletedKeepsOrder(init, k);
    } else {
      assert stored[..k] == stored;
    }
  }

  /** The startup history: the newest 25 completed games, newest first, taking
      the store's order as creation order. */
  function NewestCompleted(stored: seq<Game>): (r: seq<Game>)
    ensures |r| == Min(|CompletedOf(stored)|, HistoryCap)
    ensures forall i :: 0 <= i < |r| ==>
      r[i] == CompletedOf(stored)[|CompletedOf(stored)| - 1 - i] && r[i].state == Completed
  {
    var c := CompletedOf(stored);
    var n := Min(|c|, HistoryCap);
    seq(n, i requires 0 <= i < n => c[|c| - 1 - i])
  }

  /** The history starts with the last completed game of the store. */
  lemma {:induction false} NewestIsLastCompleted(stored: seq<Game>, k: nat)
    requires k < |stored| && stored[k].state == Completed
    requires forall j :: k < j < |stored| ==> stored[j].state != Completed
    ensures |NewestCompleted(stored)| > 0 && NewestCompleted(stored)[0] == stored[k]
    decreases |stored|
  {
    if k < |stored| - 1 {
      var init := stored[..|stored| - 1];
      assert CompletedOf(stored) == CompletedOf(init);
      NewestIsLastCompleted(init, k);
    }
  }

  /** Every game startup registers comes from the store and is in an active
      state, so the registry stays well formed when the stored games are. */
  lemma ReloadedValid(games: seq<Game>, stored: seq<Game>)
    requires forall g <- games :: WellFormed(g) && Active(g.state)
    requires forall g <- stored :: WellFormed(g)
    ensures forall g <- games + Reregistered(Uncompleted(stored)) :: WellFormed(g) && Active(g.state)
  {
    var added := Reregistered(Uncompleted(stored));
    ReloadPartition(Uncompleted(stored));
    forall g <- games + added ensures WellFormed(g) && Active(g.state) {
      if g !in games {
        assert g in added;
      }
    }
  }

  /** The join checks in the order the handler runs them: authentication, the
      id, the game (available, not already joined by this user), then the
      user's balance against the game amount. */
  function JoinCheck(user: Option<Profile>, gameId: string, games: seq<Game>, blockGame: seq<string>,
                     blockJoin: seq<string>, balances: map<string, int>): (r: Outcome<DuelError>)
    requires user.Some? ==> user.value.id in balances
    ensures r.Pass? <==>
      && user.Some? && gameId != ""
      && var k := GetGameIndex(games, gameId);
      && 0 <= k
      && games[k].state == Created && gameId !in blockGame
      && games[k].playerCount > |games[k].bets| + Count(blockJoin, gameId)
      && (forall b <- games[k].bets :: b.userId != user.value.id)
      && games[k].amount <= balances[user.value.id]
    ensures user.None? ==> r == Fail(NotAuthenticated)
    ensures user.Some? && gameId == "" ==> r == Fail(InvalidGameId)
    ensures user.Some? && gameId != "" && Lookup(games, gameId).None? ==> r == Fail(GameNotAvailable)
  {
    if user.None? then Fail(NotAuthenticated)
    else if gameId == "" then Fail(InvalidGameId)
    else
      var game := Lookup(games, gameId);
      var check := CheckJoinGame(user.value.id, game, blockGame, blockJoin);
      if check.Fail? then check else CheckJoinUser(balances[user.value.id], game.value)
  }

  /** The game after a join: the joiner's bet appended for the game amount,
      and the countdown begun when that filled the last slot. */
  function Joined(game: Game, betId: string, user: Profile): (r: Game)
    ensures r.bets == game.bets + [Bet(betId, user.id, game.amount, false, None, None, Some(user))]
    ensures game.state == Created && |r.bets| >= game.playerCount ==> r.state == Countdown
    ensures |r.bets| < game.playerCount ==> r.state == game.state
    ensures game.state != Created ==> r.state == game.state
    ensures r.(state := game.state, bets := game.bets) == game
  {
    var added := game.(bets := game.bets + [Bet(betId, user.id, game.amount, false, None, None, Some(user))]);
    if added.playerCount <= |added.bets| && added.state == Created then added.(state := Countdown) else added
  }

  lemma WriteBackAt(games: seq<Game>, k: int, game: Game)
    requires 0 <= k < |games| && k == GetGameIndex(games, game.id)
    ensures GetGameIndex(games[k := game], game.id) == k
    ensures WriteBack(games[k := game], game) == games[k := game]
  {
    var after := games[k := game];
    assert after[k].id == game.id;
    assert forall i :: 0 <= i < k ==> after[i] == games[i];
  }

  class Registry {
    /** The active games (`duelsGames`). */
    var games: seq<Game>
    /** Completed games, most recent first (`duelsHistory`). */
    var history: seq<Game>
    /** Ids held by a call-bots or cancel in progress (`duelsBlockGame`). */
    var blockGame: seq<string>
    /** One entry per join in progress (`duelsBlockJoin`). */
    var blockJoin: seq<string>
    /** User balances as the handlers' increments and decrements leave them. */
    var balances: map<string, int>

    ghost predicate Valid()
      reads this
    {
      && (forall g <- games :: WellFormed(g) && Active(g.state))
      && |history| <= HistoryCap
    }

    constructor(balances: map<string, int>)
      ensures Valid()
      ensures games == [] && history == [] && blockGame == [] && blockJoin == []
      ensures this.balances == balances
    {
      games, history, blockGame, blockJoin := [], [], [], [];
      this.balances := balances;
    }

    /** The snapshot sent to subscribers: every active game sanitised, the
        history as stored. */
    function GetData(): (r: DuelsData)
      reads this
      ensures r.history == history
      ensures r.games == SanitizeGames(games)
      ensures |r.games| == |games|
      ensures forall i :: 0 <= i < |games| && games[i].state != Completed ==>
        r.games[i].fair.seedServer.None? && r.games[i].fair.seedPublic.None? && r.games[i].fair.hash == games[i].fair.hash
    {
      DuelsData(SanitizeGames(games), history)
    }

    /** Create: validate, debit the creator by the floored amount and append the
        new game. No guard list is involved, so nothing stops one user from
        racing two creates. */
    method Create(user: Option<Profile>, data: CreateData, minAmount: real, maxAmount: real,
                  fair: Fair, gameId: string, betId: string) returns (r: Outcome<DuelError>)
      requires Valid()
      requires user.Some? ==> user.value.id in balances
      modifies this
      ensures Valid()
      ensures r.Pass? <==>
        && user.Some?
        && CheckCreateData(Some(data), minAmount, maxAmount).Pass?
        && CheckCreateUser(data.amount.v, old(balances)[user.value.id], OpenGamesOf(old(games), user.value.id)).Pass?
      ensures r.Pass? ==>
        var amount := Floor(data.amount.v);
        && games == old(games) + [NewGame(gameId, betId, user.value, amount, Floor(data.playerCount.v), fair)]
        && balances == old(balances)[user.value.id := old(balances)[user.value.id] - amount]
      ensures r.Fail? ==> games == old(games) && balances == old(balances)
      ensures user.None? ==> r == Fail(NotAuthenticated)
      ensures history == old(history) && blockGame == old(blockGame) && blockJoin == old(blockJoin)
    {
      if user.None? {
        return Fail(NotAuthenticated);
      }
      var u := user.value;
      var check := CheckCreateData(Some(data), minAmount, maxAmount);
      if check.Fail? {
        return check;
      }
      var userGames := OpenGamesOf(games, u.id);
      check := CheckCreateUser(data.amount.v, balances[u.id], userGames);
      if check.Fail? {
        return check;
      }
      Open(u, Floor(data.amount.v), Floor(data.playerCount.v), gameId, betId, fair);
      r := Pass;
    }

    /** The state change of a create that passed its checks: debit the
        creator and append the new game. */
    method Open(u: Profile, amount: int, playerCount: int, gameId: string, betId: string, fair: Fair)
      requires Valid() && u.id in balances && 1 <= playerCount
      modifies this
      ensures Valid()
      ensures games == old(games) + [NewGame(gameId, betId, u, amount, playerCount, fair)]
      ensures balances == old(balances)[u.id := old(balances)[u.id] - amount]
      ensures history == old(history) && blockGame == old(blockGame) && blockJoin == old(blockJoin)
    {
      var game := NewGame(gameId, betId, u, amount, playerCount, fair);
      assert forall g <- games + [game] :: g in games || g == game;
      balances := balances[u.id := balances[u.id] - amount];
      games := games + [game];
    }

    /** Countdown: mark the game `countdown`, write it back, schedule validate
        after 4 seconds. */
    method StartCountdown(game: Game) returns (next: Game, step: Step)
      requires Valid() && WellFormed(game)
      modifies this
      ensures Valid()
      ensures next == game.(state := Countdown)
      ensures step == ValidateAfter(CountdownDelay, next)
      ensures games == WriteBack(old(games), next)
      ensures history == old(history) && blockGame == old(blockGame) && blockJoin == old(blockJoin)
      ensures balances == old(balances)
    {
      next := game.(state := Countdown);
      games := WriteBack(games, next);
      step := ValidateAfter(CountdownDelay, next);
    }

    /** Call-bots: the creator fills every open slot with bot bets at once; the
        game is then full and its countdown starts. The id is pushed on the
        game guard only after the checks pass, and released on every path. */
    method CallBots(user: Option<Profile>, gameId: string, ids: nat -> string) returns (r: Outcome<DuelError>, step: Step)
      requires Valid()
      modifies this
      ensures Valid()
      ensures r.Pass? <==>
        && user.Some? && gameId != ""
        && CheckBotGame(user.value.id, Lookup(old(games), gameId), old(blockGame), old(blockJoin)).Pass?
      ensures r.Pass? ==>
        var k := GetGameIndex(old(games), gameId);
        && 0 <= k
        && var full := Filled(old(games)[k], ids).(state := Countdown);
        && games == old(games)[k := full]
        && step == ValidateAfter(CountdownDelay, full)
        && blockGame == old(blockGame)
      ensures r.Fail? ==> games == old(games) && step == Idle && blockGame == Release(old(blockGame), gameId)
      ensures history == old(history) && blockJoin == old(blockJoin) && balances == old(balances)
    {
      step := Idle;
      var k := GetGameIndex(games, gameId);
      if user.None? {
        r := Fail(NotAuthenticated);
      } else if gameId == "" {
        r := Fail(InvalidGameId);
      } else {
        r := CheckBotGame(user.value.id, Lookup(games, gameId), blockGame, blockJoin);
      }
      if r.Pass? {
        blockGame := blockGame + [gameId];
        step := FillWithBots(k, ids);
        AcquireRelease(old(blockGame), gameId);
      }
      blockGame := Release(blockGame, gameId);
    }

    /** The effect of a call-bots that passed its checks: the game at `k` is
        filled with bots, written back, and its countdown starts. */
    method FillWithBots(k: int, ids: nat -> string) returns (step: Step)
      requires Valid()
      requires 0 <= k < |games| && k == GetGameIndex(games, games[k].id) && games[k].state == Created
      modifies this
      ensures Valid()
      ensures var full := Filled(old(games)[k], ids).(state := Countdown);
        && games == old(games)[k := full]
        && step == ValidateAfter(CountdownDelay, full)
      ensures history == old(history) && blockGame == old(blockGame) && blockJoin == old(blockJoin)
      ensures balances == old(balances)
    {
      step := WriteUpdated(k, Filled(games[k], ids));
    }

    /** `duelsGames[gameIndex] = updatedGame`, then the countdown when the
        updated game is full and still `created`. */
    method WriteUpdated(k: int, updated: Game) returns (step: Step)
      requires Valid()
      requires 0 <= k < |games| && k == GetGameIndex(games, updated.id)
      requires WellFormed(updated) && Active(updated.state)
      modifies this
      ensures Valid()
      ensures var full := updated.playerCount <= |updated.bets| && updated.state == Created;
        && games == old(games)[k := if full then updated.(state := Countdown) else updated]
        && step == (if full then ValidateAfter(CountdownDelay, updated.(state := Countdown)) else Idle)
      ensures history == old(history) && blockGame == old(blockGame) && blockJoin == old(blockJoin)
      ensures balances == old(balances)
    {
      WriteBackAt(games, k, updated);
      WriteBackAt(games, k, updated.(state := Countdown));
      games := games[k := updated];
      if updated.playerCount <= |updated.bets| && updated.state == Created {
        var next;
        next, step := StartCountdown(updated);
      } else {
        step := Idle;
      }
    }

    /** Join: one human bet by the joiner for the game amount, the joiner
        debited by that amount; the countdown starts once the game is full. The
        join guard holds one entry per join in flight. */
    method Join(user: Option<Profile>, gameId: string, betId: string) returns (r: Outcome<DuelError>, step: Step)
      requires Valid()
      requires user.Some? ==> user.value.id in balances
      modifies this
      ensures Valid()
      ensures r == JoinCheck(user, gameId, old(games), old(blockGame), old(blockJoin), old(balances))
      ensures r.Pass? ==>
        var k := GetGameIndex(old(games), gameId);
        && 0 <= k
        && var joined := Joined(old(games)[k], betId, user.value);
        && balances == old(balances)[user.value.id := old(balances)[user.value.id] - joined.amount]
        && games == old(games)[k := joined]
        && step == (if joined.state == Countdown then ValidateAfter(CountdownDelay, joined) else Idle)
        && blockJoin == Release(old(blockJoin) + [gameId], gameId)
        && multiset(blockJoin) == multiset(old(blockJoin))
      ensures r.Fail? ==> games == old(games) && balances == old(balances) && step == Idle
      ensures r.Fail? ==>
        blockJoin == if Lookup(old(games), gameId).Some? then Release(old(blockJoin), gameId) else old(blockJoin)
      ensures history == old(history) && blockGame == old(blockGame)
    {
      step := Idle;
      var k := GetGameIndex(games, gameId);
      var game := Lookup(games, gameId);
      r := JoinCheck(user, gameId, games, blockGame, blockJoin, balances);
      if r.Fail? {
        if game.Some? {
          blockJoin := Release(blockJoin, gameId);
        }
        return;
      }
      var held := blockJoin + [gameId];
      ReleaseHeld(held, gameId);
      assert multiset(held) == multiset(blockJoin) + multiset{gameId};
      blockJoin := held;
      step := Enter(k, betId, user.value);
      blockJoin := Release(held, gameId);
    }

    /** The effects of a join that passed its checks: the debit, the bet
        written into the game at `k`, and the countdown when it is now full. */
    method Enter(k: int, betId: string, user: Profile) returns (step: Step)
      requires Valid()
      requires 0 <= k < |games| && k == GetGameIndex(games, games[k].id)
      requires games[k].state == Created && |games[k].bets| < games[k].playerCount
      requires user.id in balances
      modifies this
      ensures Valid()
      ensures var joined := Joined(old(games)[k], betId, user);
        && games == old(games)[k := joined]
        && balances == old(balances)[user.id := old(balances)[user.id] - joined.amount]
        && step == (if joined.state == Countdown then ValidateAfter(CountdownDelay, joined) else Idle)
      ensures history == old(history) && blockGame == old(blockGame) && blockJoin == old(blockJoin)
    {
      var g := games[k];
      var joined := Joined(g, betId, user);
      var updated := joined.(state := g.state);
      assert WellFormed(updated);
      balances := balances[user.id := balances[user.id] - g.amount];
      step := WriteUpdated(k, updated);
    }

    /** Cancel: after the creator-only checks it takes the game guard and
        releases it again. The game is neither canceled nor refunded. */
    method Cancel(user: Option<Profile>, gameId: string) returns (r: Outcome<DuelError>)
      requires Valid()
      modifies this
      ensures Valid()
      ensures r.Pass? <==>
        && user.Some? && gameId != ""
        && CheckCancelGame(user.value.id, Lookup(old(games), gameId), old(blockGame), old(blockJoin)).Pass?
      ensures r.Pass? ==> blockGame == old(blockGame)
      ensures r.Fail? ==> blockGame == Release(old(blockGame), gameId)
      ensures games == old(games) && balances == old(balances)
      ensures history == old(history) && blockJoin == old(blockJoin)
    {
      if user.None? {
        r := Fail(NotAuthenticated);
      } else if gameId == "" {
        r := Fail(InvalidGameId);
      } else {
        r := CheckCancelGame(user.value.id, Lookup(games, gameId), blockGame, blockJoin);
      }
      ghost var held := blockGame;
      if r.Pass? {
        blockGame := blockGame + [gameId];
        AcquireRelease(held, gameId);
      }
      blockGame := Release(blockGame, gameId);
    }

    /** Validate: mark the game `pending` and ask the fairness source. An answer
        stores the public seed and block reference and schedules the roll after
        one second; no answer leaves the game pending and retries after 15. */
    method Validate(game: Game, answer: Option<Reveal>) returns (next: Game, step: Step)
      requires Valid() && WellFormed(game)
      modifies this
      ensures Valid()
      ensures answer.None? ==> next == game.(state := Pending) && step == ValidateAfter(RetryDelay, next)
      ensures answer.Some? ==>
        && next == game.(state := Pending,
                         fair := game.fair.(seedPublic := Some(answer.value.headBlockId),
                                            blockId := Some(answer.value.headBlockNum)))
        && step == RollAfter(RollDelay, next)
      ensures games == WriteBack(old(games), next)
      ensures history == old(history) && blockGame == old(blockGame) && blockJoin == old(blockJoin)
      ensures balances == old(balances)
    {
      next := game.(state := Pending);
      var k := GetGameIndex(games, next.id);
      games := WriteBack(games, next);
      if answer.None? {
        step := ValidateAfter(RetryDelay, next);
        return;
      }
      next := next.(fair := next.fair.(seedPublic := Some(answer.value.headBlockId),
                                        blockId := Some(answer.value.headBlockNum)));
      if k >= 0 {
        WriteBackAt(old(games), k, next);
        games := games[k := next];
      }
      step := RollAfter(RollDelay, next);
    }

    /** Roll: assign every bet its roll in join order, pick the winner with the
        source's reduce, set its payout, attach it and mark the game `rolling`;
        completion follows after five seconds per bet. On a game without bets
        the reduce throws and nothing further happens. */
    method Roll(game: Game, digest: Digest) returns (next: Game, step: Step)
      requires Valid() && WellFormed(game)
      modifies this
      ensures Valid()
      ensures |game.bets| == 0 ==> next == game && step == Idle && games == old(games)
      ensures |game.bets| > 0 ==>
        && next == RolledGame(game, digest)
        && step == CompleteAfter(|game.bets| * RevealDelayPerBet, next)
        && games == WriteBack(old(games), next)
      ensures history == old(history) && blockGame == old(blockGame) && blockJoin == old(blockJoin)
      ensures balances == old(balances)
    {
      var bets := RollBets(game, digest);
      if |bets| == 0 {
        next, step := game, Idle;
        return;
      }
      var w := WinnerOf(bets);
      bets := Settled(bets, w, Payout(game.amount, game.playerCount));
      next := game.(bets := bets, state := Rolling, winner := Some(bets[w]));
      RolledWellFormed(game, digest);
      games := WriteBack(games, next);
      step := CompleteAfter(|game.bets| * RevealDelayPerBet, next);
    }

    /** The roll loop: each bet in turn gets the roll its index hashes to. */
    method RollBets(game: Game, digest: Digest) returns (bets: seq<Bet>)
      ensures bets == Rolled(game, digest)
    {
      bets := game.bets;
      var i := 0;
      while i < |bets|
        invariant 0 <= i <= |bets| == |game.bets|
        invariant forall j :: 0 <= j < i ==> bets[j] == game.bets[j].(roll := Some(RollFor(game, digest, j)))
        invariant forall j :: i <= j < |bets| ==> bets[j] == game.bets[j]
      {
        bets := bets[i := bets[i].(roll := Some(RollFor(game, digest, i)))];
        i := i + 1;
      }
    }

    /** Complete: mark the game `completed`, put its sanitised snapshot at the
        front of the history (at most 25 kept) and splice the game out of the
        active list. The splice uses the looked-up index as is: were the game
        absent, -1 would remove the LAST active game. No balance is credited. */
    method Complete(game: Game) returns (next: Game)
      requires Valid()
      modifies this
      ensures Valid()
      ensures next == game.(state := Completed)
      ensures history == PushHistory(old(history), SanitizeGame(next))
      ensures games == SpliceOne(old(games), GetGameIndex(old(games), game.id))
      ensures blockGame == old(blockGame) && blockJoin == old(blockJoin) && balances == old(balances)
    {
      next := game.(state := Completed);
      games := SpliceOne(games, GetGameIndex(games, game.id));
      history := PushHistory(history, SanitizeGame(next));
    }

    /** Startup: reload the stored games in states created, pending and
        rolling; cancel (in the store only) each one that is already full and
        register the others; replace the history with the newest 25 completed
        games. No timer is re-armed, and `countdown` games are not reloaded. */
    method Init(stored: seq<Game>) returns (canceled: seq<string>)
      requires Valid()
      modifies this
      ensures games == old(games) + Reregistered(Uncompleted(stored))
      ensures canceled == Orphaned(Uncompleted(stored))
      ensures history == NewestCompleted(stored)
      ensures (forall g <- stored :: WellFormed(g)) ==> Valid()
      ensures blockGame == old(blockGame) && blockJoin == old(blockJoin) && balances == old(balances)
    {
      var loaded := Uncompleted(stored);
      var registered := games;
      canceled := [];
      var i := 0;
      while i < |loaded|
        invariant 0 <= i <= |loaded|
        invariant registered == old(games) + Reregistered(loaded[..i])
        invariant canceled == Orphaned(loaded[..i])
      {
        var g := loaded[i];
        ghost var prefix := loaded[..i + 1];
        assert prefix[..i] == loaded[..i] && prefix[i] == g;
        if g.playerCount == |g.bets| {
          canceled := canceled + [g.id];
        } else {
          registered := registered + [g];
        }
        i := i + 1;
      }
      assert loaded[..|loaded|] == loaded;
      games := registered;
      history := NewestCompleted(stored);
      if forall g <- stored :: WellFormed(g) {
        ReloadedValid(old(games), stored);
      }
    }
  }
}
