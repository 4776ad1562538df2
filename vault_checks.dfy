/** The throwing checks of the vault handlers: the request data, then the
    user's balance, vault holding and lock. Time is a millisecond timestamp
    passed in as `now`. */
module VaultChecks {
  import opened Common

  datatype VaultError =
    | SomethingWrong          // no request data at all
    | InvalidDepositAmount
    | InsufficientBalance
    | DepositLocked
    | InvalidWithdrawAmount
    | InsufficientVault
    | WithdrawLocked
    | InvalidLockTime
    | AlreadyLocked

  /** The vault fields of a user row as the handler sees them: the wallet
      balance, the amount in the vault, and the lock expiry (0 for a vault
      never locked, which reads as the epoch). */
  datatype VaultUser = VaultUser(balance: int, vaultAmount: int, vaultExpireAt: int)

  /** A vault is locked while its expiry is not in the past: an expiry equal
      to `now` still locks it. */
  predicate Locked(user: VaultUser, now: int)
  {
    user.vaultExpireAt >= now
  }

  /** The shared shape of the three data checks: the request must exist, and
      its field must be a number whose floor is positive. */
  function CheckPositiveField(data: Option<Num>, invalid: VaultError): (r: Outcome<VaultError>)
    ensures r.Pass? <==> data.Some? && data.value.Finite? && Floor(data.value.v) > 0
    ensures data.None? ==> r == Fail(SomethingWrong)
    ensures data.Some? && r.Fail? ==> r == Fail(invalid)
  {
    if data.None? then Fail(SomethingWrong)
    else if data.value.NaN? || Floor(data.value.v) <= 0 then Fail(invalid)
    else Pass
  }

  /** `data` is the request's `amount` field, None when the request itself
      is missing. */
  function CheckDepositData(data: Option<Num>): (r: Outcome<VaultError>)
    ensures r.Pass? <==> data.Some? && data.value.Finite? && data.value.v >= 1.0
    ensures data.Some? && r.Fail? ==> r == Fail(InvalidDepositAmount)
  {
    CheckPositiveField(data, InvalidDepositAmount)
  }

  /** Enough wallet balance for the floored amount, checked first; then an
      unlocked vault. */
  function CheckDepositUser(amount: int, user: VaultUser, now: int): (r: Outcome<VaultError>)
    ensures r.Pass? <==> amount <= user.balance && !Locked(user, now)
    ensures user.balance < amount ==> r == Fail(InsufficientBalance)
    ensures amount <= user.balance && Locked(user, now) ==> r == Fail(DepositLocked)
  {
    if user.balance < amount then Fail(InsufficientBalance)
    else if Locked(user, now) then Fail(DepositLocked)
    else Pass
  }

  function CheckWithdrawData(data: Option<Num>): (r: Outcome<VaultError>)
    ensures r.Pass? <==> data.Some? && data.value.Finite? && data.value.v >= 1.0
    ensures data.Some? && r.Fail? ==> r == Fail(InvalidWithdrawAmount)
  {
    CheckPositiveField(data, InvalidWithdrawAmount)
  }

  /** Enough in the vault for the floored amount, checked first; then an
      unlocked vault. */
  function CheckWithdrawUser(amount: int, user: VaultUser, now: int): (r: Outcome<VaultError>)
    ensures r.Pass? <==> amount <= user.vaultAmount && !Locked(user, now)
    ensures user.vaultAmount < amount ==> r == Fail(InsufficientVault)
    ensures amount <= user.vaultAmount && Locked(user, now) ==> r == Fail(WithdrawLocked)
  {
    if user.vaultAmount < amount then Fail(InsufficientVault)
    else if Locked(user, now) then Fail(WithdrawLocked)
    else Pass
  }

  /** `data` is the request's `time` field. */
  function CheckLockData(data: Option<Num>): (r: Outcome<VaultError>)
    ensures r.Pass? <==> data.Some? && data.value.Finite? && data.value.v >= 1.0
    ensures data.Some? && r.Fail? ==> r == Fail(InvalidLockTime)
  {
    CheckPositiveField(data, InvalidLockTime)
  }

  function CheckLockUser(user: VaultUser, now: int): (r: Outcome<VaultError>)
    ensures r.Pass? <==> !Locked(user, now)
    ensures r.Fail? ==> r.error == AlreadyLocked
  {
    if Locked(user, now) then Fail(AlreadyLocked) else Pass
  }

  /** A lock that passed its checks refuses every deposit, withdraw and new
      lock until its expiry has passed, and from then on none of the three is
      refused for being locked. */
  lemma {:induction false} LockHolds(user: VaultUser, now: int, time: Num, later: int, amount: int)
    requires CheckLockData(Some(time)).Pass?
    ensures var locked := user.(vaultExpireAt := now + Floor(time.v));
      && (later <= now + Floor(time.v) <==> CheckLockUser(locked, later).Fail?)
      && (later <= now + Floor(time.v) ==> CheckDepositUser(amount, locked, later).Fail?)
      && (later <= now + Floor(time.v) ==> CheckWithdrawUser(amount, locked, later).Fail?)
      && (later > now + Floor(time.v) ==> CheckDepositUser(amount, locked, later) != Fail(DepositLocked))
      && (later > now + Floor(time.v) ==> CheckWithdrawUser(amount, locked, later) != Fail(WithdrawLocked))
  {
    var locked := user.(vaultExpireAt := now + Floor(time.v));
    assert Locked(locked, later) <==> later <= now + Floor(time.v);
  }

  /** Money deposited into an unlocked vault can be withdrawn again at once,
      and doing so restores the wallet and the vault exactly. */
  lemma DepositWithdrawRoundTrip(user: VaultUser, amount: int, now: int)
    requires CheckDepositUser(amount, user, now).Pass? && user.vaultAmount >= 0
    ensures var after := user.(balance := user.balance - amount, vaultAmount := user.vaultAmount + amount);
      && CheckWithdrawUser(amount, after, now).Pass?
      && after.(balance := after.balance + amount, vaultAmount := after.vaultAmount - amount) == user
  {
  }
}
