/** The pure half of the duel engine: the game and bet records, the throwing
    checks that guard every player action, the lookup of a game by id, and the
    sanitiser that hides the server seed and private user fields before a game
    is published. */
module DuelsUtils {
  import opened Common

  datatype State = Created | Countdown | Pending | Rolling | Completed | Canceled

  /** Commit-reveal data: `hash` is published at creation, `seedServer` is the
      secret behind it, `seedPublic` and `blockId` come from the external
      fairness source at the validate step. */
  datatype Fair = Fair(
    hash: string,
    seedServer: Option<string>,
    seedPublic: Option<string>,
    blockId: Option<int>)

  /** A stake in a game. Bots have `userId == ""` and no user row. */
  datatype Bet = Bet(
    id: string,
    userId: string,
    amount: int,
    bot: bool,
    roll: Option<int>,
    payout: Option<int>,
    user: Option<Profile>)

  datatype Game = Game(
    id: string,
    amount: int,
    playerCount: int,
    fair: Fair,
    state: State,
    bets: seq<Bet>,
    winner: Option<Bet>)

  /** The payload of a create request. */
  datatype CreateData = CreateData(amount: Num, playerCount: Num)

  datatype DuelError =
    | NotAuthenticated
    | InvalidGameId
    | InvalidInput
    | BelowMinAmount
    | AboveMaxAmount
    | InsufficientBalance
    | TooManyOpenGames
    | GameNotAvailable
    | NoCreatorBet          // `bets[0].userId` read on a game without bets
    | BotsNotAllowed
    | CancelNotAllowed
    | AlreadyJoined

  /** Most games one user may have open before creating another. */
  const MaxOpenGames := 6

  /** `!data.gameId`: the id must be a non-empty string. The same check guards
      get-game, call-bots, join and cancel. */
  function CheckGameId(gameId: string): (r: Outcome<DuelError>)
    ensures r.Pass? <==> gameId != ""
    ensures r.Fail? ==> r.error == InvalidGameId
  {
    if gameId == "" then Fail(InvalidGameId) else Pass
  }

  /** Validation of a create request, before anything is changed. The stake
      bounds are `minAmount * 1000` and `maxAmount * 1000`. */
  function CheckCreateData(data: Option<CreateData>, minAmount: real, maxAmount: real): (r: Outcome<DuelError>)
    ensures r.Pass? <==>
      && data.Some? && data.value.amount.Finite? && data.value.playerCount.Finite?
      && 0.0 < data.value.amount.v
      && 1.0 < data.value.playerCount.v <= 10.0
      && minAmount * 1000.0 <= data.value.amount.v <= maxAmount * 1000.0
    ensures (|| data.None? || data.value.amount.NaN? || data.value.playerCount.NaN?
             || data.value.amount.v <= 0.0 || data.value.playerCount.v <= 1.0
             || data.value.playerCount.v > 10.0) ==> r == Fail(InvalidInput)
    ensures r == Fail(BelowMinAmount) <==>
      && data.Some? && data.value.amount.Finite? && data.value.playerCount.Finite?
      && 0.0 < data.value.amount.v && 1.0 < data.value.playerCount.v <= 10.0
      && data.value.amount.v < minAmount * 1000.0
    ensures r == Fail(AboveMaxAmount) <==>
      && data.Some? && data.value.amount.Finite? && data.value.playerCount.Finite?
      && 0.0 < data.value.amount.v && 1.0 < data.value.playerCount.v <= 10.0
      && minAmount * 1000.0 <= data.value.amount.v && data.value.amount.v > maxAmount * 1000.0
  {
    if || data.None? || data.value.amount.NaN? || data.value.amount.v <= 0.0
       || data.value.playerCount.NaN? || data.value.playerCount.v <= 1.0
       || data.value.playerCount.v > 10.0
    then Fail(InvalidInput)
    else if data.value.amount.v < minAmount * 1000.0 then Fail(BelowMinAmount)
    else if data.value.amount.v > maxAmount * 1000.0 then Fail(AboveMaxAmount)
    else Pass
  }

  /** Validation of the creating user: enough balance for the raw (unfloored)
      amount, and fewer than six open games. */
  function CheckCreateUser(amount: real, balance: int, userGames: seq<Game>): (r: Outcome<DuelError>)
    ensures r.Pass? <==> amount <= balance as real && |userGames| < MaxOpenGames
    ensures (balance as real) < amount ==> r == Fail(InsufficientBalance)
    ensures amount <= balance as real && |userGames| >= MaxOpenGames ==> r == Fail(TooManyOpenGames)
  {
    if (balance as real) < amount then Fail(InsufficientBalance)
    else if |userGames| >= MaxOpenGames then Fail(TooManyOpenGames)
    else Pass
  }

  /** The first position of the game with this id, or -1 (`findIndex`). */
  function GetGameIndex(games: seq<Game>, gameId: string): (r: int)
    ensures -1 <= r < |games|
    ensures r == -1 <==> forall g <- games :: g.id != gameId
    ensures 0 <= r ==> games[r].id == gameId && forall j :: 0 <= j < r ==> games[j].id != gameId
  {
    if |games| == 0 then -1
    else if games[0].id == gameId then 0
    else
      var k := GetGameIndex(games[1..], gameId);
      if k == -1 then -1 else k + 1
  }

  /** `duelsGames[duelsGetGameIndex(duelsGames, id)]`: undefined when absent. */
  function Lookup(games: seq<Game>, gameId: string): (r: Option<Game>)
    ensures r.Some? <==> exists g <- games :: g.id == gameId
    ensures r.Some? ==> r.value.id == gameId && r.value in games
  {
    var k := GetGameIndex(games, gameId);
    if k == -1 then None else Some(games[k])
  }

  /** A game may take bots, a join or a cancel only while it exists, is still
      `created`, is not held by a bot or cancel call, and has more slots than
      its bets plus the joins currently in flight for it. */
  predicate Available(game: Option<Game>, blockGame: seq<string>, blockJoin: seq<string>)
  {
    && game.Some?
    && game.value.state == Created
    && game.value.id !in blockGame
    && game.value.playerCount > |game.value.bets| + Count(blockJoin, game.value.id)
  }

  /** The creator-only checks of call-bots and cancel; they differ only in the
      message of the ownership error. */
  function CheckOwnerGame(userId: string, game: Option<Game>, blockGame: seq<string>,
                          blockJoin: seq<string>, denied: DuelError): (r: Outcome<DuelError>)
    ensures r.Pass? <==>
      Available(game, blockGame, blockJoin) && |game.value.bets| > 0 && game.value.bets[0].userId == userId
    ensures !Available(game, blockGame, blockJoin) ==> r == Fail(GameNotAvailable)
    ensures (Available(game, blockGame, blockJoin) && |game.value.bets| > 0
             && game.value.bets[0].userId != userId) ==> r == Fail(denied)
  {
    if !Available(game, blockGame, blockJoin) then Fail(GameNotAvailable)
    else if |game.value.bets| == 0 then Fail(NoCreatorBet)
    else if userId != game.value.bets[0].userId then Fail(denied)
    else Pass
  }

  function CheckBotGame(userId: string, game: Option<Game>, blockGame: seq<string>, blockJoin: seq<string>): (r: Outcome<DuelError>)
    ensures r.Pass? ==> game.Some? && game.value.state == Created && game.value.id !in blockGame
    ensures r.Pass? ==> |game.value.bets| + Count(blockJoin, game.value.id) < game.value.playerCount
    ensures r.Pass? <==> Available(game, blockGame, blockJoin) && |game.value.bets| > 0 && game.value.bets[0].userId == userId
  {
    CheckOwnerGame(userId, game, blockGame, blockJoin, BotsNotAllowed)
  }

  function CheckCancelGame(userId: string, game: Option<Game>, blockGame: seq<string>, blockJoin: seq<string>): (r: Outcome<DuelError>)
    ensures r.Pass? ==> game.Some? && game.value.state == Created && game.value.id !in blockGame
    ensures r.Pass? <==> Available(game, blockGame, blockJoin) && |game.value.bets| > 0 && game.value.bets[0].userId == userId
  {
    CheckOwnerGame(userId, game, blockGame, blockJoin, CancelNotAllowed)
  }

  /** Join is refused on an unavailable game and to a user who already holds a
      bet in it. */
  function CheckJoinGame(userId: string, game: Option<Game>, blockGame: seq<string>, blockJoin: seq<string>): (r: Outcome<DuelError>)
    ensures r.Pass? <==>
      Available(game, blockGame, blockJoin) && forall b <- game.value.bets :: b.userId != userId
    ensures (Available(game, blockGame, blockJoin) && exists b <- game.value.bets :: b.userId == userId)
      ==> r == Fail(AlreadyJoined)
  {
    if !Available(game, blockGame, blockJoin) then Fail(GameNotAvailable)
    else if exists b <- game.value.bets :: b.userId == userId then Fail(AlreadyJoined)
    else Pass
  }

  function CheckJoinUser(balance: int, game: Game): (r: Outcome<DuelError>)
    ensures r.Pass? <==> game.amount <= balance
    ensures r.Fail? ==> r.error == InsufficientBalance
  {
    if balance < game.amount then Fail(InsufficientBalance) else Pass
  }

  /** The public projection of a user row: the five display fields, without
      the private ones. */
  function PublicUser(user: Option<Profile>): (r: Option<Profile>)
    ensures r.Some? <==> user.Some?
    ensures r.Some? ==> r.value.balance.None? && r.value.(balance := user.value.balance) == user.value
  {
    match user
    case None => None
    case Some(u) => Some(Profile(u.id, u.username, u.avatar, u.rank, u.anonymous, None))
  }

  function SanitizeBet(bet: Bet): (r: Bet)
    ensures r.(user := bet.user) == bet
    ensures r.user == PublicUser(bet.user)
  {
    bet.(user := PublicUser(bet.user))
  }

  /** The snapshot published for a game: before completion only the seed hash
      of the fairness data is shown; every bet's user is cut down to its public
      fields; bet order and every other field are kept. */
  function SanitizeGame(game: Game): (r: Game)
    ensures r.id == game.id && r.amount == game.amount && r.playerCount == game.playerCount
    ensures r.state == game.state && r.winner == game.winner
    ensures game.state != Completed ==> r.fair == Fair(game.fair.hash, None, None, None)
    ensures game.state == Completed ==> r.fair == game.fair
    ensures |r.bets| == |game.bets|
    ensures forall i :: 0 <= i < |r.bets| ==>
      r.bets[i].(user := game.bets[i].user) == game.bets[i] && r.bets[i].user == PublicUser(game.bets[i].user)
  {
    var fair := if game.state != Completed then Fair(game.fair.hash, None, None, None) else game.fair;
    game.(fair := fair, bets := seq(|game.bets|, i requires 0 <= i < |game.bets| => SanitizeBet(game.bets[i])))
  }

  function SanitizeGames(games: seq<Game>): (r: seq<Game>)
    ensures |r| == |games|
    ensures forall i :: 0 <= i < |r| ==> r[i] == SanitizeGame(games[i])
  {
    seq(|games|, i requires 0 <= i < |games| => SanitizeGame(games[i]))
  }

  /** Sanitising a published snapshot again changes nothing. */
  lemma SanitizeIdempotent(game: Game)
    ensures SanitizeGame(SanitizeGame(game)) == SanitizeGame(game)
  {
    var s := SanitizeGame(game);
    var t := SanitizeGame(s);
    assert |t.bets| == |s.bets|;
    forall i | 0 <= i < |s.bets| ensures t.bets[i] == s.bets[i] {
    }
  }
}
