/**
 * The account aggregate, internal/entities/accounts.go: an owner, a name, a
 * default flag and a cached integer balance in minor units that postings
 * move up and down.
 */
module Accounts {
  import opened Wrappers
  import opened Uuids
  import opened Times
  import opened Money
  import opened Errors
  import opened Transactions

  datatype AccountRec = AccountRec(
    id: Uuid, userId: Uuid, name: string, balance: int, isDefault: bool,
    createdAt: Time, updatedAt: Time)

  /** The balance after posting a transaction of this type and amount (`int64` arithmetic). */
  function Applied(balance: int, trnType: TrnType, amount: int): (r: int)
    ensures InInt64(balance) ==> r == Wrap64(balance + Effect(trnType, amount))
  {
    if trnType == Deposit then Wrap64(balance + amount)
    else if trnType == Withdrawal then Wrap64(balance - amount)
    else balance
  }

  /** The balance after taking a posting of this type and amount back. */
  function Reverted(balance: int, trnType: TrnType, amount: int): (r: int)
    ensures InInt64(balance) ==> r == Wrap64(balance - Effect(trnType, amount))
  {
    if trnType == Deposit then Wrap64(balance - amount)
    else if trnType == Withdrawal then Wrap64(balance + amount)
    else balance
  }

  /** Two postings in a row add their effects, wrapping once. */
  lemma ApplyTwice(balance: int, t1: TrnType, a1: int, t2: TrnType, a2: int)
    requires InInt64(balance)
    ensures Applied(Applied(balance, t1, a1), t2, a2) == Wrap64(balance + (Effect(t1, a1) + Effect(t2, a2)))
  {
    var e1, e2 := Effect(t1, a1), Effect(t2, a2);
    var x := Applied(balance, t1, a1);
    assert x == Wrap64(balance + e1);
    WrapAdd(balance + e1, e2);
    assert balance + e1 + e2 == balance + (e1 + e2);
  }

  /** A revert followed by a posting moves the balance by the difference of their effects. */
  lemma RevertThenApply(balance: int, t1: TrnType, a1: int, t2: TrnType, a2: int)
    requires InInt64(balance)
    ensures Applied(Reverted(balance, t1, a1), t2, a2) == Wrap64(balance + (Effect(t2, a2) - Effect(t1, a1)))
  {
    var e1, e2 := Effect(t1, a1), Effect(t2, a2);
    var x := Reverted(balance, t1, a1);
    assert x == Wrap64(balance - e1);
    WrapAdd(balance - e1, e2);
    assert balance - e1 + e2 == balance + (e2 - e1);
  }

  /** A posting followed by a revert moves the balance by the difference of their effects. */
  lemma ApplyThenRevert(balance: int, t1: TrnType, a1: int, t2: TrnType, a2: int)
    requires InInt64(balance)
    ensures Reverted(Applied(balance, t1, a1), t2, a2) == Wrap64(balance + (Effect(t1, a1) - Effect(t2, a2)))
  {
    var e1, e2 := Effect(t1, a1), Effect(t2, a2);
    var x := Applied(balance, t1, a1);
    assert x == Wrap64(balance + e1);
    WrapAdd(balance + e1, -e2);
    assert balance + e1 + -e2 == balance + (e1 - e2);
  }

  /** Reverting undoes applying, and applying undoes reverting. */
  lemma RevertInvertsApply(balance: int, trnType: TrnType, amount: int)
    requires InInt64(balance)
    ensures Reverted(Applied(balance, trnType, amount), trnType, amount) == balance
    ensures Applied(Reverted(balance, trnType, amount), trnType, amount) == balance
  {
    ApplyThenRevert(balance, trnType, amount, trnType, amount);
    RevertThenApply(balance, trnType, amount, trnType, amount);
  }

  /** Postings commute: the balance does not depend on the order they are applied or reverted in. */
  lemma PostingsCommute(balance: int, t1: TrnType, a1: int, t2: TrnType, a2: int)
    requires InInt64(balance)
    ensures Applied(Applied(balance, t1, a1), t2, a2) == Applied(Applied(balance, t2, a2), t1, a1)
    ensures Applied(Reverted(balance, t1, a1), t2, a2) == Reverted(Applied(balance, t2, a2), t1, a1)
  {
    ApplyTwice(balance, t1, a1, t2, a2);
    ApplyTwice(balance, t2, a2, t1, a1);
    RevertThenApply(balance, t1, a1, t2, a2);
    ApplyThenRevert(balance, t2, a2, t1, a1);
  }

  class Account {
    var id: Uuid
    var userId: Uuid
    var name: string
    var balance: int
    var isDefault: bool
    var createdAt: Time
    var updatedAt: Time

    function Rec(): AccountRec
      reads this
    {
      AccountRec(id, userId, name, balance, isDefault, createdAt, updatedAt)
    }

    /** An object holding the given state, as a repository read builds one. */
    constructor FromRec(r: AccountRec)
      ensures Rec() == r
    {
      id, userId, name, balance, isDefault := r.id, r.userId, r.name, r.balance, r.isDefault;
      createdAt, updatedAt := r.createdAt, r.updatedAt;
    }

    /**
     * `NewAccount`: refuses a Nil owner; otherwise an empty, non-default
     * account with the fresh id `id`, created and updated at `now`.
     */
    static method NewAccount(userId: Uuid, name: string, id: Uuid, now: Time) returns (r: Result<Account>)
      ensures userId == Nil <==> r.Err?
      ensures r.Err? ==> r.error == Plain("invalid user id")
      ensures r.Ok? ==> fresh(r.value) && r.value.Rec() == AccountRec(id, userId, name, 0, false, now, now)
    {
      if userId == Nil {
        return Err(Plain("invalid user id"));
      }
      var a := new Account.FromRec(AccountRec(id, userId, name, 0, false, now, now));
      return Ok(a);
    }

    /** `SetAmountMajor`: a negative amount is refused; the currency only picks the scale. */
    method SetAmountMajor(major: real, currency: Currency) returns (err: Option<Error>)
      modifies this
      ensures major < 0.0 <==> err.Some?
      ensures err.Some? ==> err.value == Plain("amount must be > 0") && Rec() == old(Rec())
      ensures err.None? ==> Rec() == old(Rec()).(balance := MinorFromMajor(major, Scale(currency)))
    {
      if major < 0.0 {
        return Some(Plain("amount must be > 0"));
      }
      balance := MinorFromMajor(major, Scale(currency));
      return None;
    }

    /** `SetAmountMinor`: a negative amount is refused, anything else becomes the balance. */
    method SetAmountMinor(minor: int, currency: Currency) returns (err: Option<Error>)
      modifies this
      ensures minor < 0 <==> err.Some?
      ensures err.Some? ==> err.value == Plain("amount must be > 0") && Rec() == old(Rec())
      ensures err.None? ==> Rec() == old(Rec()).(balance := minor)
    {
      if minor < 0 {
        return Some(Plain("amount must be > 0"));
      }
      balance := minor;
      return None;
    }

    /** `UpdateDefault`: only the flag and the update time change. */
    method UpdateDefault(isDefault: bool, now: Time)
      modifies this
      ensures Rec() == old(Rec()).(isDefault := isDefault, updatedAt := now)
    {
      this.isDefault := isDefault;
      updatedAt := now;
    }

    /** `UpdateName`: only the name and the update time change. */
    method UpdateName(name: string, now: Time)
      modifies this
      ensures Rec() == old(Rec()).(name := name, updatedAt := now)
    {
      this.name := name;
      updatedAt := now;
    }

    /**
     * `ApplyTransaction`: nil changes nothing; otherwise the posting's effect
     * is added to the balance and the update time is `now`. Never fails.
     */
    method ApplyTransaction(t: Transaction?, now: Time) returns (err: Option<Error>)
      modifies this
      ensures err.None?
      ensures t == null ==> Rec() == old(Rec())
      ensures t != null ==> Rec() == old(Rec()).(balance := Applied(old(balance), t.trnType, t.amount), updatedAt := now)
    {
      if t == null {
        return None;
      }
      if t.trnType == Deposit {
        balance := Wrap64(balance + t.amount);
      } else if t.trnType == Withdrawal {
        balance := Wrap64(balance - t.amount);
      }
      updatedAt := now;
      return None;
    }

    /**
     * `RevertTransaction`: nil changes nothing; otherwise the posting's effect
     * is taken off the balance and the update time is `now`. Never fails.
     */
    method RevertTransaction(t: Transaction?, now: Time) returns (err: Option<Error>)
      modifies this
      ensures err.None?
      ensures t == null ==> Rec() == old(Rec())
      ensures t != null ==> Rec() == old(Rec()).(balance := Reverted(old(balance), t.trnType, t.amount), updatedAt := now)
    {
      if t == null {
        return None;
      }
      if t.trnType == Deposit {
        balance := Wrap64(balance - t.amount);
      } else if t.trnType == Withdrawal {
        balance := Wrap64(balance + t.amount);
      }
      updatedAt := now;
      return None;
    }
  }
}
