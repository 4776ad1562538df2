/** The vault handlers: move a floored amount between a user's wallet balance
    and vault, or lock the vault for a floored number of milliseconds. Each
    handler runs its data check and its user check, then makes one update;
    a failed check makes none. */
module VaultController {
  import opened Common
  import opened VaultChecks

  /** The user row the handlers update. */
  class VaultAccount {
    var balance: int
    var vaultAmount: int
    var vaultExpireAt: int

    constructor(balance: int, vaultAmount: int, vaultExpireAt: int)
      ensures this.balance == balance && this.vaultAmount == vaultAmount && this.vaultExpireAt == vaultExpireAt
    {
      this.balance, this.vaultAmount, this.vaultExpireAt := balance, vaultAmount, vaultExpireAt;
    }

    /** The row as the handler sees it when its request arrives. */
    function Current(): (u: VaultUser)
      reads this
      ensures u.balance == balance && u.vaultAmount == vaultAmount && u.vaultExpireAt == vaultExpireAt
    {
      VaultUser(balance, vaultAmount, vaultExpireAt)
    }

    /** Deposit: the checks read `user`, the row as fetched for this request;
        the update applies to the row itself. Wallet plus vault is conserved,
        and when the fetched row is current a non-negative wallet stays
        non-negative. */
    method Deposit(user: VaultUser, amount: Option<Num>, now: int) returns (r: Outcome<VaultError>)
      modifies this
      ensures r.Pass? <==>
        CheckDepositData(amount).Pass? && CheckDepositUser(Floor(amount.value.v), user, now).Pass?
      ensures r.Pass? ==>
        && balance == old(balance) - Floor(amount.value.v)
        && vaultAmount == old(vaultAmount) + Floor(amount.value.v)
      ensures r.Fail? ==> balance == old(balance) && vaultAmount == old(vaultAmount)
      ensures balance + vaultAmount == old(balance) + old(vaultAmount)
      ensures vaultExpireAt == old(vaultExpireAt)
      ensures user == old(Current()) && old(balance) >= 0 ==> balance >= 0
    {
      r := CheckDepositData(amount);
      if r.Fail? {
        return;
      }
      var value := Floor(amount.value.v);
      r := CheckDepositUser(value, user, now);
      if r.Fail? {
        return;
      }
      balance := balance - value;
      vaultAmount := vaultAmount + value;
    }

    /** Withdraw: the mirror of deposit; when the fetched row is current a
        non-negative vault stays non-negative. */
    method Withdraw(user: VaultUser, amount: Option<Num>, now: int) returns (r: Outcome<VaultError>)
      modifies this
      ensures r.Pass? <==>
        CheckWithdrawData(amount).Pass? && CheckWithdrawUser(Floor(amount.value.v), user, now).Pass?
      ensures r.Pass? ==>
        && balance == old(balance) + Floor(amount.value.v)
        && vaultAmount == old(vaultAmount) - Floor(amount.value.v)
      ensures r.Fail? ==> balance == old(balance) && vaultAmount == old(vaultAmount)
      ensures balance + vaultAmount == old(balance) + old(vaultAmount)
      ensures vaultExpireAt == old(vaultExpireAt)
      ensures user == old(Current()) && old(vaultAmount) >= 0 ==> vaultAmount >= 0
    {
      r := CheckWithdrawData(amount);
      if r.Fail? {
        return;
      }
      var value := Floor(amount.value.v);
      r := CheckWithdrawUser(value, user, now);
      if r.Fail? {
        return;
      }
      balance := balance + value;
      vaultAmount := vaultAmount - value;
    }

    /** Lock: the expiry becomes `now` plus the floored time; the wallet and
        the vault are untouched. */
    method Lock(user: VaultUser, time: Option<Num>, now: int) returns (r: Outcome<VaultError>)
      modifies this
      ensures r.Pass? <==> CheckLockData(time).Pass? && CheckLockUser(user, now).Pass?
      ensures r.Pass? ==> vaultExpireAt == now + Floor(time.value.v) && vaultExpireAt > now
      ensures r.Fail? ==> vaultExpireAt == old(vaultExpireAt)
      ensures balance == old(balance) && vaultAmount == old(vaultAmount)
    {
      r := CheckLockData(time);
      if r.Fail? {
        return;
      }
      r := CheckLockUser(user, now);
      if r.Fail? {
        return;
      }
      vaultExpireAt := now + Floor(time.value.v);
    }
  }
}
