# CasinoCoaster backend core, modelled in Dafny

This project models four parts of the CasinoCoaster casino backend.

- **Duel engine** (`DuelsUtils`, `DuelsController`). A registry holds the active duel games, the completed-game history (at most 25) and two guard lists.
  - Handlers: create, call-bots, join and cancel.
  - Timer callbacks move a full game from `countdown` through `pending` and `rolling` to `completed`.
  - Startup reloads the unfinished games.
- **Recent-bets caches** (`BetsUtils`, `BetsController`). Three newest-first lists of at most 15 bets: every bet, whale bets and lucky bets.
  - They are seeded at startup from eight game tables and extended by every published bet.
  - A user's own list is merged from the same tables.
- **Vault** (`VaultChecks`, `VaultController`). Deposit, withdraw and lock on a user's wallet balance, vault amount and lock expiry, each behind throwing checks.
- **Wagering leaderboards** (`LeaderboardGeneral`, `LeaderboardAdmin`).
  - At most one board runs at a time.
  - On completion, the prize slots are paid by points rank and the oldest waiting board is promoted.
  - Administrators list, create and stop boards.

`Common` holds the JavaScript primitives the handlers rely on: `Math.floor`, `indexOf`, `splice(i, 1)` (a start of -1 removes the last element) and `filter(...).length`. `Ordering` holds the stable newest-first sort and the take.

The model follows the code as written, including these behaviours:

- **Duel roll:** a tie in the roll goes to the later bet.
- **Duel cancel:** cancel only takes and releases the game guard.
- **Duel completion:** completion credits nobody.
- **Duel startup:** startup re-arms no timer and does not reload `countdown` games.
- **Guard release after a failed check:** it removes the last entry of a guard list, which belongs to another operation.
- **Bets data request:** it sends nothing when there is no user.
- **Vault lock:** a vault whose expiry equals now is still locked.
- **Admin stop:** stopping a started board clears the pending completion timer, whichever board that timer belongs to.

Timers are explicit. A duel handler or callback returns the `Step` it schedules: the callback, its delay, and the game object it captured. The leaderboard store keeps the pending completion as a `timer` field.

## Model

| member | source | states |
|---|---|---|
| Common.SpliceOne | backend/duels/duels.controller.ts:327-328 | `splice(start, 1)`: an index inside the list removes exactly that element; -1 removes the last one; a start past the end removes nothing; never adds an element |
| Common.ReleaseHeld | backend/duels/duels.controller.ts:219 | releasing an id that is held removes exactly one occurrence of it and shortens the guard list by one |
| Common.ReleaseNotHeldDropsLast | backend/duels/duels.controller.ts:168 | releasing an id that was never pushed removes the last entry of a non-empty guard list, which is a different id |
| Common.AcquireRelease | backend/duels/duels.controller.ts:142-165 | pushing an absent id and releasing it again restores the guard list exactly |
| Common.Count | backend/duels/duels.utils.ts:45 | the in-flight join count for an id is the number of its occurrences in the join guard |
| Ordering.InsertBy | bets.controller.ts:51 | inserting into a descending list keeps it descending and adds exactly that one element |
| Ordering.SortBy | bets.controller.ts:167 | the comparator sort yields a list descending by key that is a permutation of its input |
| Ordering.InsertAheadOfTies | bets.controller.ts:51 | inserting puts the new element ahead of the elements it ties with and keeps their order |
| Ordering.SortStable | bets.controller.ts:51 | the sort is stable: the elements sharing a key appear in the same order as in the input |
| Ordering.SortedMembers | bets.controller.ts:167 | sorting neither adds nor drops an element |
| Ordering.NewestBy | bets.controller.ts:51 | sort then `slice(0, n)` gives `min(len, n)` elements, descending, all from the input |
| Ordering.NewestFrom | bets.controller.ts:51 | the take holds no element more often than the input does, and when the input has at most n elements it is a permutation of the input |
| Ordering.TakeDominates | bets.controller.ts:51 | when n elements of the input are at least as new as t, so is every element the take keeps |
| Ordering.NewestKept | bets.controller.ts:51 | an element left out by the take is no newer than any element kept |
| DuelsUtils.CheckGameId | backend/duels/duels.utils.ts:38-41 | passes exactly when the game id is a non-empty string; otherwise the invalid-id error |
| DuelsUtils.CheckCreateData | backend/duels/duels.utils.ts:17-27 | passes exactly on a present request with finite amount > 0, player count in (1, 10] and amount within `[min*1000, max*1000]`; missing/NaN/out-of-range input is `InvalidInput`; below-minimum is reported iff the input is otherwise valid and under the minimum; above-maximum iff it is otherwise valid, not below the minimum and over the maximum |
| DuelsUtils.CheckCreateUser | backend/duels/duels.utils.ts:29-36 | passes iff the raw amount is covered by the balance and the user has fewer than 6 open games; the balance error takes precedence |
| DuelsUtils.GetGameIndex | backend/duels/duels.utils.ts:95-97 | the first index whose id matches, or -1 exactly when no game has that id |
| DuelsUtils.Lookup | backend/duels/duels.controller.ts:179-180 | finds a game iff one with that id is active, and then returns that game |
| DuelsUtils.CheckOwnerGame | backend/duels/duels.utils.ts:44-51 | passes iff the game is available (exists, `created`, not game-guarded, more slots than bets plus in-flight joins) and its bet 0 is the caller's; an unavailable game gives the availability error first |
| DuelsUtils.CheckBotGame | backend/duels/duels.utils.ts:44-51 | a passing call-bots check implies a `created`, unguarded game with a free slot owned by the caller |
| DuelsUtils.CheckCancelGame | backend/duels/duels.utils.ts:80-87 | a passing cancel check implies a `created`, unguarded game owned by the caller, and conversely |
| DuelsUtils.CheckJoinGame | backend/duels/duels.utils.ts:59-66 | passes iff the game is available and the user holds no bet in it; an available game the user already joined gives the already-joined error |
| DuelsUtils.CheckJoinUser | backend/duels/duels.utils.ts:68-72 | passes iff the balance covers the game amount |
| DuelsUtils.PublicUser | backend/duels/duels.utils.ts:108-114 | a present user keeps its five display fields and loses the private ones; an absent user stays absent |
| DuelsUtils.SanitizeBet | backend/duels/duels.utils.ts:104-116 | a bet differs from its sanitised form only in its user, which is cut down to the public fields |
| DuelsUtils.SanitizeGame | backend/duels/duels.utils.ts:99-118 | before completion only the seed hash of the fairness data is shown; after completion it is kept whole; bets keep their order and fields except the user; every other field is kept |
| DuelsUtils.SanitizeGames | backend/duels/duels.utils.ts:120-122 | preserves length and order, sanitising each game |
| DuelsUtils.SanitizeIdempotent | backend/duels/duels.utils.ts:99-118 | sanitising a published snapshot again changes nothing |
| DuelsController.OpenGamesOf | backend/duels/duels.controller.ts:84 | the games counted against the open-game limit are exactly the active games whose bet 0 is the user's, in any state |
| DuelsController.OpenGamesCount | backend/duels/duels.controller.ts:84 | the open games hold each game of the user as often as the active list does, and no other game |
| DuelsController.NewGame | backend/duels/duels.controller.ts:92-109 | the created game is `created` with the floored amount and player count, no winner, and one unpaid, unrolled, non-bot bet by the creator for that amount |
| DuelsController.BotBets | backend/duels/duels.controller.ts:147-154 | creates exactly n bets, each a bot bet for the game amount with no user |
| DuelsController.Filled | backend/duels/duels.controller.ts:144-157 | the existing bets stay in front and `playerCount - bets.length` bot bets for the game amount follow, so the game is full; nothing else changes |
| DuelsController.WriteBack | backend/duels/duels.controller.ts:259-260 | when the game's id is found at index k, exactly position k is replaced by the game and every other entry stays; when it is not found the list is unchanged |
| DuelsController.Payout | backend/duels/duels.controller.ts:300 | the payout is the largest integer not above 95% of amount × player count, and lies between 0 and the pot |
| DuelsController.RollFor | backend/duels/duels.controller.ts:294-295 | every roll lies in [0, 10000) |
| DuelsController.Rolled | backend/duels/duels.controller.ts:293-297 | every bet, in join order, gets the roll its index hashes to, and nothing else about it changes |
| DuelsController.WinnerOf | backend/duels/duels.controller.ts:299 | the reduce picks a bet with a maximal roll: no earlier bet rolled higher and every later bet rolled strictly lower, so a tie goes to the later bet |
| DuelsController.Settled | backend/duels/duels.controller.ts:300-304 | only the winner's payout is set; every other bet is untouched |
| DuelsController.RolledGame | backend/duels/duels.controller.ts:290-305 | after the roll the game is `rolling`; bet i carries the roll its index hashes to; the winner is the bet the reduce picks, paid the 95% payout; every field other than bets, state and winner is unchanged |
| DuelsController.RolledWellFormed | backend/duels/duels.controller.ts:293-304 | rolling adds no bet and keeps every stake equal to the game amount |
| DuelsController.SettledPaysOnlyWinner | backend/duels/duels.controller.ts:299-300 | settling unpaid bets pays out exactly the winner's payout in total |
| DuelsController.NothingPaid | backend/duels/duels.controller.ts:293-297 | bets none of which is paid pay out nothing |
| DuelsController.RollPaysExactlyOne | backend/duels/duels.controller.ts:293-304 | when no bet was paid before, rolling pays exactly one bet, the winner, and the total paid is the 95% payout |
| DuelsController.PushHistory | backend/duels/duels.controller.ts:324-325 | the completed game goes in front; below 25 nothing is dropped; at 25 the oldest is dropped; a history of at most 25 stays at most 25 |
| DuelsController.Uncompleted | backend/duels/duels.controller.ts:341-344 | startup reloads exactly the stored games in `created`, `pending` or `rolling` |
| DuelsController.ReloadPartition | backend/duels/duels.controller.ts:355-365 | every reloaded game is either registered (not full) or canceled (full), never both; the counts add up |
| DuelsController.CompletedOf | backend/duels/duels.controller.ts:345-347 | exactly the completed stored games are taken for the history, and a completed last stored game comes last |
| DuelsController.CompletedKeepsOrder | backend/duels/duels.controller.ts:345-347 | the completed games of a prefix of the store are a prefix of the completed games, so store order is kept |
| DuelsController.NewestIsLastCompleted | backend/duels/duels.controller.ts:345-353 | the startup history begins with the last completed game in store order |
| DuelsController.NewestCompleted | backend/duels/duels.controller.ts:345-353 | the startup history is the newest 25 completed games, newest first |
| DuelsController.ReloadedValid | backend/duels/duels.controller.ts:355-365 | every game startup registers is well formed and active when the stored ones are well formed |
| DuelsController.JoinCheck | backend/duels/duels.controller.ts:174-183 | a join passes iff the user is authenticated, the id is non-empty, the game is available, the user has not joined it, and their balance covers the amount; the first failing check names the error |
| DuelsController.Joined | backend/duels/duels.controller.ts:197-217 | one bet by the joiner for the game amount is appended; the countdown begins exactly when that fills a `created` game; nothing else changes |
| DuelsController.WriteBackAt | backend/duels/duels.controller.ts:280-281 | writing a game back a second time at the index found before leaves the list as the first write did |
| DuelsController.Registry.GetData | backend/duels/duels.controller.ts:49-51 | subscribers see exactly the sanitised active games, each with its secret seeds hidden until completion, and the history as stored |
| DuelsController.Registry.Create | backend/duels/duels.controller.ts:77-128 | succeeds iff the user is authenticated and both checks pass; then exactly one new game is appended and the creator is debited the floored amount; on failure nothing changes; no guard list is touched |
| DuelsController.Registry.Open | backend/duels/duels.controller.ts:92-121 | a create that passed its checks debits the creator by the floored amount and appends the new game; the history and guard lists are untouched and the registry stays valid |
| DuelsController.Registry.StartCountdown | backend/duels/duels.controller.ts:255-265 | the game becomes `countdown`, is written back, and validate is scheduled after 4000 ms |
| DuelsController.Registry.WriteUpdated | backend/duels/duels.controller.ts:160-163 | the updated game is stored at its index; a full `created` game goes through the countdown and schedules validate, any other schedules nothing; nothing else changes |
| DuelsController.Registry.CallBots | backend/duels/duels.controller.ts:130-170 | succeeds iff authenticated, the id is valid and the owner check passes; then the game is filled with bots, becomes `countdown` and validate is scheduled; the game guard ends as it was on success and loses one entry (the id or the last) on failure |
| DuelsController.Registry.FillWithBots | backend/duels/duels.controller.ts:144-163 | the game at the index becomes full with bot bets and starts its countdown; nothing else changes |
| DuelsController.Registry.Join | backend/duels/duels.controller.ts:172-229 | the outcome is the join check; on success one bet is added, the joiner is debited the game amount, the countdown starts iff the game is now full, and the join guard ends with the same contents; on failure nothing changes except that a found game's id is released from the join guard |
| DuelsController.Registry.Enter | backend/duels/duels.controller.ts:185-217 | the debit, the appended bet and the countdown of a passed join |
| DuelsController.Registry.Cancel | backend/duels/duels.controller.ts:231-253 | succeeds iff the user is authenticated, the game id is non-empty and the cancel check passes; the games and balances are never changed; the guard ends as it was on success and loses one entry on failure |
| DuelsController.Registry.Validate | backend/duels/duels.controller.ts:267-288 | the game becomes `pending`; an answer stores the public seed and block number and schedules the roll after 1000 ms; no answer schedules a retry after 15000 ms |
| DuelsController.Registry.Roll | backend/duels/duels.controller.ts:290-316 | with bets, the game becomes the rolled game, is written back, and completion is scheduled after 5000 ms per bet; without bets nothing happens |
| DuelsController.Registry.RollBets | backend/duels/duels.controller.ts:293-297 | the roll loop assigns every bet the roll of its index |
| DuelsController.Registry.Complete | backend/duels/duels.controller.ts:318-336 | the game becomes `completed`, its sanitised snapshot is pushed on the capped history, and the looked-up index is spliced out of the active list; no balance changes |
| DuelsController.Registry.Init | backend/duels/duels.controller.ts:338-370 | the reloaded games that are not full are appended, the full ones are returned as canceled, and the history becomes the newest 25 completed games; when every stored game is well formed, the registry stays valid |
| BetsUtils.FormatUser | bets.utils.ts:10-33 | no user gives none; an anonymous user is shown as "Anonymous" with no avatar and rank "user"; anyone else keeps their display fields; id and the anonymous flag always carry over |
| BetsUtils.AnonymousIndistinguishable | bets.utils.ts:16-24 | two anonymous users with the same id are shown identically |
| BetsUtils.PrivateFieldsHidden | bets.utils.ts:26-32 | the projection does not depend on private fields such as the balance |
| BetsController.FindMany | bets.controller.ts:142 | a table query returns at most 15 rows meeting its condition, newest first, and no bot row from a table with bots |
| BetsController.FindManyNewest | bets.controller.ts:30-37 | a query returns `min(matching, 15)` of the matching rows, no row more often than it matches, all of them when at most 15 match, and any matching row it leaves out is no newer than every row returned |
| BetsController.Filter | bets.controller.ts:137-140 | keeps exactly the rows meeting the condition (and the human ones on the duels and battles tables) |
| BetsController.CacheBet | bets.controller.ts:159-164 | an object-valued blackjack stake becomes its main bet, any other stake is kept; the user is projected and the table tagged |
| BetsController.Tagged | bets.controller.ts:158-165 | each row of one table becomes its cached bet, in order |
| BetsController.CombinedFrom | bets.controller.ts:156-166 | every combined bet is the cached form of a row of the table it is tagged with |
| BetsController.Queries | bets.controller.ts:135-145 | one query per table, in table order, each the category condition plus `bot = false` where needed |
| BetsController.MapAndSortResults | bets.controller.ts:153-168 | the loops build the combined list in table order; the result is its newest 15, descending, all from the combined list |
| BetsController.UserBet | bets.controller.ts:41-48 | a user's bet is the cached bet, except that on blackjack a plain stake reads as undefined and a missing stake makes the fetch fail |
| BetsController.UserBets | bets.controller.ts:41-48 | one bet per row in order, or a failure iff some row fails |
| BetsController.MergeHolds | bets.controller.ts:40-49 | a spread of mapped results that succeeds holds every part, each element as often as the part does |
| BetsController.MergeFrom | bets.controller.ts:40-49 | every element of a successful spread comes from one of the parts |
| BetsController.MergeFails | bets.controller.ts:40-49 | the spread fails exactly when one part's mapping fails |
| BetsController.AllUserBets | bets.controller.ts:40-49 | every merged bet is the bet of a row of some table's result, converted for that table |
| BetsController.AllUserBetsHold | bets.controller.ts:40-49 | a successful merge holds the bets of each table's result, each as often as that result yields it |
| BetsController.AllUserBetsComplete | bets.controller.ts:40-49 | every row of every result yields a bet, and that bet is in the merged list |
| BetsController.MergeLength | bets.controller.ts:40-49 | a successful spread is as long as its parts together |
| BetsController.CappedSum | bets.controller.ts:30-51 | capping each table at 15 rows and then the merged list at 15 keeps as many as capping the total at 15 |
| BetsController.AllUserBetsFail | bets.controller.ts:40-49 | the merge fails exactly when some blackjack result holds a row without a stake |
| BetsController.FetchUserBets | bets.controller.ts:19-52 | fails exactly when a blackjack row the user's query returns has no stake; otherwise `min(merged, 15)` bets, newest first, each the bet of a settled row of that user in one of the eight tables |
| BetsController.OwnBetsCount | bets.controller.ts:19-51 | a user's list holds 15 bets, or every settled row of the user the table queries can see when there are fewer |
| BetsController.OwnProvenance | bets.controller.ts:30-48 | every merged bet of a user's queries is the bet of a settled row of that user |
| BetsController.OwnBetsNewest | bets.controller.ts:19-51 | a settled row of the user that its table query can see either has its bet in the list or is no newer than every bet the list holds |
| BetsController.MergedKeepsNewest | bets.controller.ts:40-51 | one table's part of the above: a row its query could return either yields a bet the final take keeps or is no newer than every kept bet |
| BetsController.PushRecent | bets.controller.ts:84-87 | the bet goes in front; a list already at 15 drops its oldest; a list of at most 15 stays at most 15 |
| BetsController.ReplayKeepsNewest | bets.controller.ts:81-87 | publishing bets one by one leaves the 15 most recent in front, newest first, followed by what the list held before while room remains |
| BetsController.BetCaches.PublishNewBet | bets.controller.ts:81-111 | the bet enters `all`; it enters `whale` iff its payout is at least 100000 and `lucky` iff its payout is at least 1000 and its multiplier at least 5; lists whose condition fails are untouched; every list stays within 15 and meets its entry condition |
| BetsController.Seeded | bets.controller.ts:116-178 | a startup list holds at most 15 settled bets, newest first, each meeting its category's condition |
| BetsController.SeedList | bets.controller.ts:153-168 | the seeding loops of one category yield exactly that category's startup list |
| BetsController.BetCaches.InitBets | bets.controller.ts:116-178 | each list becomes its category's startup list across the eight tables, and the lists meet their entry conditions |
| BetsController.BetCaches.Payload | bets.controller.ts:59-75 | nothing is sent without a user; with a user, data is sent exactly when their own list can be built, and it holds the three cached lists and that list |
| BetsController.SeededQualify | bets.controller.ts:147-151 | every bet seeded at startup is settled and meets its category's condition, the same one a published bet must meet |
| BetsController.NoBotSeeds | bets.controller.ts:138-140 | no bot stake from the duels or battles table reaches a startup list |
| VaultChecks.CheckPositiveField | backend/utils/general/vault.ts:3-9 | passes iff the request exists and its field is a number whose floor is positive; a missing request gives the generic error |
| VaultChecks.CheckDepositData | backend/utils/general/vault.ts:3-9 | passes iff the amount is a number of at least 1, otherwise the invalid-deposit error |
| VaultChecks.CheckDepositUser | backend/utils/general/vault.ts:11-17 | passes iff the balance covers the floored amount and the vault is unlocked; the balance error takes precedence |
| VaultChecks.CheckWithdrawData | backend/utils/general/vault.ts:19-25 | passes iff the amount is a number of at least 1, otherwise the invalid-withdraw error |
| VaultChecks.CheckWithdrawUser | backend/utils/general/vault.ts:27-33 | passes iff the vault covers the floored amount and is unlocked; the vault error takes precedence |
| VaultChecks.CheckLockData | backend/utils/general/vault.ts:35-41 | passes iff the time is a number of at least 1 |
| VaultChecks.CheckLockUser | backend/utils/general/vault.ts:43-47 | passes iff the vault is not locked, an expiry equal to now counting as locked |
| VaultChecks.LockHolds | backend/utils/general/vault.ts:14-44 | after a lock, deposit, withdraw and a new lock are refused up to and including the expiry, and none of them is refused for the lock afterwards |
| VaultChecks.DepositWithdrawRoundTrip | backend/controllers/general/vault/index.ts:40-94 | a deposit into an unlocked vault can be withdrawn at once, restoring wallet and vault exactly |
| VaultController.VaultAccount.Deposit | backend/controllers/general/vault/index.ts:31-66 | succeeds iff both checks pass; then the wallet drops and the vault rises by the floored amount; on failure nothing moves; wallet plus vault is conserved; the expiry is untouched; a current, non-negative wallet stays non-negative |
| VaultController.VaultAccount.Withdraw | backend/controllers/general/vault/index.ts:68-103 | the mirror of deposit; a current, non-negative vault stays non-negative |
| VaultController.VaultAccount.Lock | backend/controllers/general/vault/index.ts:105-136 | succeeds iff both checks pass; then the expiry is now plus the floored time, later than now; wallet and vault never change |
| LeaderboardGeneral.FindById | backend/controllers/general/leaderboard/index.ts:92 | finds the board with the id, or -1 exactly when there is none |
| LeaderboardGeneral.FirstRunning | backend/controllers/general/leaderboard/index.ts:176 | finds a running board, or -1 exactly when none runs |
| LeaderboardGeneral.OldestCreated | backend/controllers/general/leaderboard/index.ts:93 | finds a waiting board no newer than any other waiting board, or -1 exactly when none waits |
| LeaderboardGeneral.Top | backend/controllers/general/leaderboard/index.ts:26 | the ranking query's `take` keeps the first `min(len, n)` ranked users, in order |
| LeaderboardGeneral.PairWinners | backend/controllers/general/leaderboard/index.ts:44-48 | slot i shows its prize with the i-th ranked user and their points, or 0 points and no user past the end of the ranking |
| LeaderboardGeneral.Reset | backend/controllers/general/leaderboard/index.ts:161 | every user's points become 0 and no user is added or dropped |
| LeaderboardGeneral.Credit | backend/controllers/general/leaderboard/index.ts:119-129 | crediting payments changes no set of users |
| LeaderboardGeneral.SettledSlots | backend/controllers/general/leaderboard/index.ts:109-143 | completion records one winner per slot, in order, with its prize: the ranked user and their points where the ranking reaches, 0 points and no user after it |
| LeaderboardGeneral.Settled | backend/controllers/general/leaderboard/index.ts:109-143 | one winner per slot with the slot's prize, naming a user exactly for the slots the ranking reaches |
| LeaderboardGeneral.Payments | backend/controllers/general/leaderboard/index.ts:118-138 | one payment per slot the ranking reaches, in order: the i-th ranked user is paid slot i's prize |
| LeaderboardGeneral.CreditAdds | backend/controllers/general/leaderboard/index.ts:119-129 | applying the payments raises each balance by exactly what was paid to that user, and no other balance moves |
| LeaderboardGeneral.PaidExactlyPrize | backend/controllers/general/leaderboard/index.ts:110-141 | with distinct ranked users, a user ranked within the slots is paid exactly their slot's prize, and anyone else nothing |
| LeaderboardGeneral.CompletionPays | backend/controllers/general/leaderboard/index.ts:96-143 | with the top 10 of a points ranking, each of them with a slot gains exactly that slot's prize, and every other balance is unchanged |
| LeaderboardGeneral.PaidToPrefix | backend/controllers/general/leaderboard/index.ts:109-143 | the first k payments pay a user their slot's prize if that slot is among them, and nothing otherwise |
| LeaderboardGeneral.SettleSlots | backend/controllers/general/leaderboard/index.ts:106-143 | the loop yields one winner per slot and one payment of the slot's prize to the ranked user per slot the ranking reaches |
| LeaderboardGeneral.CompleteKeeps | backend/controllers/general/leaderboard/index.ts:147-150 | completing the running board keeps ids distinct and leaves no board running |
| LeaderboardGeneral.CompleteThenPromote | backend/controllers/general/leaderboard/index.ts:146-162 | completing the running board and promoting a waiting one leaves exactly one board running, with distinct ids |
| LeaderboardGeneral.RestateKeepsIds | backend/controllers/general/leaderboard/index.ts:157-160 | changing one board's state keeps ids distinct |
| LeaderboardGeneral.Store.constructor | backend/controllers/general/leaderboard/index.ts:10-11 | a store starts with no payments and no pending timer |
| LeaderboardGeneral.Store.GetData | backend/controllers/general/leaderboard/index.ts:13-56 | nothing exactly when no board runs; otherwise the first running board with its slots paired to the top 50 of the ranking, and slot i shows a user exactly when the ranking has an i-th user within those 50 |
| LeaderboardGeneral.Store.Start | backend/controllers/general/leaderboard/index.ts:58-70 | arms the completion timer for the board with its time left; nothing else changes |
| LeaderboardGeneral.Store.Promote | backend/controllers/general/leaderboard/index.ts:154-166 | the board runs, every user's points are reset, and its timer is armed |
| LeaderboardGeneral.Store.Complete | backend/controllers/general/leaderboard/index.ts:83-170 | clears the timer; an unknown board changes nothing else; otherwise its winners are settled, every ranked winner is paid and recorded, it becomes `completed`, and the oldest waiting board is promoted with points reset; when the completed board was running, as it is for every timer and startup call, at most one board runs afterwards |
| LeaderboardGeneral.Store.Expire | backend/controllers/general/leaderboard/index.ts:189-191 | a running board whose time is up goes through the whole completion (payments to the top 10, `completed`, promotion of the oldest waiting board with its timer) and the store stays valid |
| LeaderboardGeneral.Store.Record | backend/controllers/general/leaderboard/index.ts:106-152 | the board gets its winners and `completed`; every ranked winner's balance rises by the prize and one payment is recorded for each |
| LeaderboardGeneral.Store.Init | backend/controllers/general/leaderboard/index.ts:172-209 | a running board with time left gets its timer and nothing else changes; one without goes through the whole completion; with none running the oldest waiting board is promoted, points reset and its timer armed with its time left, balances and payments untouched; with neither nothing changes at all |
| LeaderboardAdmin.Contains | backend/controllers/admin/leaderboard/index.ts:35 | the search occurs somewhere in the board type |
| LeaderboardAdmin.Matching | backend/controllers/admin/leaderboard/index.ts:34-38 | keeps exactly the boards whose type contains the search |
| LeaderboardAdmin.Page | backend/controllers/admin/leaderboard/index.ts:40-41 | a page is exactly the listing's slice of up to 12 boards from the offset, empty past the end |
| LeaderboardAdmin.ListBoards | backend/controllers/admin/leaderboard/index.ts:18-50 | a page below 1 is refused; otherwise the count is the number of matching boards and the page is the 12 matching boards from offset `(page-1)*12` of the newest-first listing, descending, all matching |
| LeaderboardAdmin.PagesTile | backend/controllers/admin/leaderboard/index.ts:30 | consecutive pages are adjacent slices of the listing, so paging neither skips nor repeats a board |
| LeaderboardAdmin.CreateBoard | backend/controllers/admin/leaderboard/index.ts:52-99 | the new board runs iff no board was running, and only then are points reset and its timer armed; it has one slot per prize in order and the floored duration; it is appended; at most one board runs |
| LeaderboardAdmin.StopBoard | backend/controllers/admin/leaderboard/index.ts:101-142 | an unknown id changes nothing; a waiting board is deleted; any other becomes `canceled` and the pending timer is cleared; afterwards no board with that id is other than canceled; points and balances never change |
| LeaderboardAdmin.StopAt | backend/controllers/admin/leaderboard/index.ts:120-133 | the delete-or-cancel choice for the board found |
| LeaderboardAdmin.DeleteBoard | backend/controllers/admin/leaderboard/index.ts:121-123 | removes only that board; its id is gone; the store stays valid |
| LeaderboardAdmin.CancelBoard | backend/controllers/admin/leaderboard/index.ts:124-133 | the board becomes `canceled` and the timer is cleared; the store stays valid |
| LeaderboardAdmin.RemoveKeeps | backend/controllers/admin/leaderboard/index.ts:121-123 | deleting a board that is not running keeps ids distinct, runs no new board, keeps the timer's board, and leaves the deleted id absent |
| LeaderboardAdmin.CancelKeeps | backend/controllers/admin/leaderboard/index.ts:129-132 | canceling a board keeps ids distinct and at most one running, and leaves no board with that id other than canceled |

## Left out

- SHA-256 and randomness: the roll hash is the `Digest` parameter, and the server seed, hash and all generated ids are inputs. `duelsGenerateGameFairData` is not part of this model.
- External fairness fetch: its answer is an `Option<Reveal>` parameter of validate. No answer stands for a thrown fetch.
- `setTimeout` and async interleaving: each delayed callback is an explicit step the caller runs next. Concurrent handlers are not executed; racing joins appear only as entries in the join guard.
- Call-bots racing a join: call-bots sizes its bot insert from the cached game (backend/duels/duels.controller.ts:145), while a join that already passed the availability check can still insert its bet. The game then holds more bets than `playerCount`, which breaks the `|bets| <= playerCount` part of `Registry.Valid`. The model runs handlers one at a time, so this outcome is not represented.
- `DuelsController.Payout`: models `Math.floor(amount * playerCount * 0.95)` in exact arithmetic, assuming double rounding agrees with it.
- Database effects: Prisma reads and writes become fields of the registry, the caches, the vault row and the leaderboard store. A failing query is not modelled.
  - Call-bots and join re-read the game after their inserts. The model writes the filled or joined game directly, with the new bets appended in insert order.
  - Startup's history query orders by `createdAt`; the model takes the stored order as creation order.
  - `findFirst` without an order is taken as the first board in store order.
- Socket I/O: `publish`, `ctx.send`, callbacks and user-update emits are not modelled, and neither are the anti-spam release, the routers, or the schema and type files.
- JavaScript number coercion: a request number is `NaN` or a finite real. `Infinity` and string-to-number coercion are not modelled; in the source an infinite duel amount passes the `isNaN` check and is refused as above the maximum, and an infinite vault amount passes the data check and fails the balance check.
- `process.env` and min/max formatting: the duel stake bounds are parameters, and the price-formatting regex only builds a message.
- `duelsGetGameDataSocket`: the single-game fetch is not modelled; only its id check (`CheckGameId`) is.
- `DuelsUtils.CheckGameId`: the request is a present string id. A missing request object or a non-string id is not represented; in the source a missing request makes the call-bots catch throw again on `data.gameId` (backend/duels/duels.controller.ts:166-168), leaving the guard as it was.
- Stats counter: the `stats.bet` increment of create and join is not modelled; only the balance debit is.
- `DuelsController.Registry.Join` and `Create`: the balance checks read a ledger map rather than the possibly stale user object attached to the socket.
- `DuelsController.Registry.Init`: the history is the newest completed games in store order, not re-sanitised, exactly as the store returns them.
- Startup cancellation: full reloaded games are returned as canceled ids. The refund the source leaves as a comment is not modelled, because the source does not perform it.
- Duel completion: the credit logic the source elides is not modelled, so completion credits nobody.
- Vault fields: the checks read `user.vault.amount` and `user.vault.expireAt`, while the updates write `vaultAmount` and `vaultExpireAt`. The model keeps one field each.
- `VaultController.VaultAccount.Deposit` and `Withdraw`: the checks read the fetched row while the update applies to the stored row. Non-negativity is stated only when the two agree.
- Leaderboard time left: `generalGetLeaderboardTimeLeft` is not part of this model; the time left is the `TimeLeft` parameter.
- Leaderboard ranking: the users ordered by points are a parameter. Completion and the store's handlers require that they are ordered by points with distinct ids, as the ordered user query returns them; the `take` of 50 or 10 is modelled by `Top`. The ranking's points are not linked to the store's `points` field: a handler may be given a ranking whose points differ from the map, for instance just after a reset. `generalUserGetFormated` is not part of this model; a ranked user is shown as its id and points.
- `BetsController.OwnBetsNewest`: speaks only of rows the table query can see, so a bot row on the duels or battles table is not covered.
- `BetsController.AllUserBets` and `FindMany`: the merge's failure condition and multiplicities, and the query's exact length and newest-kept property, are stated by the lemmas `AllUserBetsFail`, `AllUserBetsHold` and `FindManyNewest` beside the functions rather than on them, to keep each proof small.
- Admin validators: `adminCheckGetLeaderboardListData`, `adminCheckSendLeaderboardCreateData`, `adminCheckSendLeaderboardStopData` and `adminCheckSendLeaderboardStopLeaderboard` are not part of this model. Stop is modelled on every found board. For an unknown id the visible handler returns without a reply (backend/controllers/admin/leaderboard/index.ts:116-118) unless the unseen stop validator throws first; the model answers `Err(NotFound)` for that case and changes nothing.
- `LeaderboardAdmin.Contains`: compares exactly, whereas the store query is case-insensitive, because Unicode case folding is not modelled.
- Listing projection: the list query's field projection is not modelled; whole boards are returned.
- Prize objects: a create request's prizes are given as the `amount` of each prize object.
- Rain, rakeback and the slots mascot proxy are outside the modelled core.
