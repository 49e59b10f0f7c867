/**
 * The transaction aggregate, internal/entities/transactions.go: a posting
 * against one account whose setters validate before they write.
 */
module Transactions {
  import opened Wrappers
  import opened Uuids
  import opened Times
  import opened Money
  import opened Errors
  import opened Categories

  type TrnType = string

  const Deposit: TrnType := "deposit"
  const Withdrawal: TrnType := "withdrawal"
  const Transfer: TrnType := "transfer"
  const Adjustment: TrnType := "adjustment"

  type TrnStatus = string

  const New: TrnStatus := "new"
  const Pending: TrnStatus := "pending"
  const Completed: TrnStatus := "success"
  const Rejected: TrnStatus := "rejected"

  /** The value of every field of a transaction. */
  datatype TxRec = TxRec(
    id: Uuid, userId: Uuid, accountId: Uuid,
    category: Option<Category>, subcategory: Option<Subcategory>,
    trnType: TrnType, status: TrnStatus,
    amount: int, currencyCode: Currency,
    originalAmount: int, originalCurrencyCode: Currency, fxRate: real,
    rowText: string, performedAt: Time, rejectedAt: Time, createdAt: Time)

  /**
   * The signed change a posting of this type and amount makes to its
   * account's balance: deposits add, withdrawals subtract, the other types
   * leave the balance alone.
   */
  function Effect(trnType: TrnType, amount: int): (r: int)
    ensures trnType == Deposit ==> r == amount
    ensures trnType == Withdrawal ==> r == -amount
    ensures trnType != Deposit && trnType != Withdrawal ==> r == 0
  {
    if trnType == Deposit then amount else if trnType == Withdrawal then -amount else 0
  }

  function TxEffect(t: TxRec): int {
    Effect(t.trnType, t.amount)
  }

  /** The state `NewTransaction` builds: status new, no amount, no links. */
  function Created(id: Uuid, userId: Uuid, accountId: Uuid, trnType: TrnType, rowText: string, now: Time): TxRec {
    TxRec(id, userId, accountId, None, None, trnType, New, 0, NULL, 0, NULL, 0.0, rowText, ZeroTime, ZeroTime, now)
  }

  /** An outcome of a setter: the state afterwards and the error it returned. */
  datatype Step = Step(rec: TxRec, err: Option<Error>)

  /** `Categorise`: replaces only what is given; never fails. */
  function Categorised(t: TxRec, category: Option<Category>, subcategory: Option<Subcategory>): TxRec {
    t.(category := if category.Some? then category else t.category,
       subcategory := if subcategory.Some? then subcategory else t.subcategory)
  }

  /** `SetAmountMajor`: a negative amount, then an empty currency, are refused. */
  function AmountMajorSet(t: TxRec, major: real, currency: Currency): Step {
    if major < 0.0 then Step(t, Some(Plain("amount must be > 0")))
    else if currency == "" then Step(t, Some(Plain("currency code must not be empty")))
    else Step(t.(amount := MinorFromMajor(major, Scale(currency)), currencyCode := currency), None)
  }

  /** `SetOriginalAmountMajor`: as `SetAmountMajor`, for the original amount. */
  function OriginalMajorSet(t: TxRec, major: real, currency: Currency): Step {
    if major < 0.0 then Step(t, Some(Plain("amount must be > 0")))
    else if currency == "" then Step(t, Some(Plain("original currency code must not be empty")))
    else Step(t.(originalAmount := MinorFromMajor(major, Scale(currency)), originalCurrencyCode := currency), None)
  }

  /** `SetFxRate`: only a positive rate is stored. */
  function FxRateSet(t: TxRec, rate: real): Step {
    if rate <= 0.0 then Step(t, Some(Plain("fx rate must be > 0"))) else Step(t.(fxRate := rate), None)
  }

  /**
   * Each setter either refuses, returning its error and changing nothing,
   * or stores exactly its own fields: the amount in the currency's minor
   * units with the currency, or the positive rate.
   */
  lemma SettersRefuseCleanly(t: TxRec, major: real, currency: Currency, rate: real)
    ensures var s := AmountMajorSet(t, major, currency);
            && (s.err.None? <==> major >= 0.0 && currency != "")
            && (s.err.Some? ==> s.rec == t)
            && (s.err.None? ==> s.rec == t.(amount := MinorFromMajor(major, Scale(currency)), currencyCode := currency))
    ensures var s := OriginalMajorSet(t, major, currency);
            && (s.err.None? <==> major >= 0.0 && currency != "")
            && (s.err.Some? ==> s.rec == t)
            && (s.err.None? ==> s.rec == t.(originalAmount := MinorFromMajor(major, Scale(currency)),
                                            originalCurrencyCode := currency))
    ensures var s := FxRateSet(t, rate);
            && (s.err.None? <==> rate > 0.0)
            && (s.err.Some? ==> s.rec == t)
            && (s.err.None? ==> s.rec == t.(fxRate := rate))
  {
  }

  /** `Performed`: completed at the given time. */
  function PerformedAt(t: TxRec, at: Time): TxRec {
    t.(status := Completed, performedAt := at)
  }

  /**
   * `Update`: type and text first, then the category, the amount, the
   * original amount with its rate (or their clearing), and the performed time.
   * The first refused value stops it, keeping what was written before.
   */
  function Updated(t: TxRec, category: Option<Category>, subcategory: Option<Subcategory>,
                   trnType: TrnType, amount: real, currency: Currency,
                   originalAmount: Option<real>, originalCurrency: Option<string>, fxRate: Option<real>,
                   rowText: string, performedAt: Option<Time>, now: Time): Step
  {
    var t1 := Categorised(t.(trnType := trnType, rowText := rowText), category, subcategory);
    var s2 := AmountMajorSet(t1, amount, currency);
    if s2.err.Some? then s2
    else
      var s3 := OriginalSet(s2.rec, originalAmount, originalCurrency, fxRate);
      if s3.err.Some? then s3 else Step(PerformedOrNow(s3.rec, performedAt, now), None)
  }

  /**
   * The original-amount part of `Update`: set it, and the rate when one is
   * given, if both amount and currency are given; clear all three otherwise.
   */
  function OriginalSet(t: TxRec, originalAmount: Option<real>, originalCurrency: Option<string>,
                       fxRate: Option<real>): Step
  {
    if originalAmount.Some? && originalCurrency.Some? then
      var s := OriginalMajorSet(t, originalAmount.value, originalCurrency.value);
      if s.err.None? && fxRate.Some? then FxRateSet(s.rec, fxRate.value) else s
    else Step(t.(originalAmount := 0, originalCurrencyCode := NULL, fxRate := 0.0), None)
  }

  /** The performed-time part of `Update`: the given time, else keep a set one, else `now`. */
  function PerformedOrNow(t: TxRec, performedAt: Option<Time>, now: Time): TxRec {
    if performedAt.Some? then PerformedAt(t, performedAt.value)
    else if t.performedAt.IsZero() then PerformedAt(t, now)
    else t
  }

  /** The amount check shared by `SetAmountMajor` and `Update`. */
  predicate AmountAccepted(major: real, currency: Currency) {
    major >= 0.0 && currency != ""
  }

  /** Whether `Update` accepts its arguments. */
  predicate UpdateAccepted(amount: real, currency: Currency, originalAmount: Option<real>,
                           originalCurrency: Option<string>, fxRate: Option<real>)
  {
    AmountAccepted(amount, currency)
    && (originalAmount.Some? && originalCurrency.Some? ==>
          AmountAccepted(originalAmount.value, originalCurrency.value)
          && (fxRate.Some? ==> fxRate.value > 0.0))
  }

  /**
   * `Update` fails exactly on a negative or currency-less amount, a negative
   * or currency-less original amount, or a non-positive rate given with one;
   * even then it has already written the type, the text and the category.
   * It never touches the ids, the creation time or the rejection time.
   */
  lemma UpdateOutcome(t: TxRec, category: Option<Category>, subcategory: Option<Subcategory>,
                      trnType: TrnType, amount: real, currency: Currency,
                      originalAmount: Option<real>, originalCurrency: Option<string>, fxRate: Option<real>,
                      rowText: string, performedAt: Option<Time>, now: Time)
    ensures var s := Updated(t, category, subcategory, trnType, amount, currency,
                             originalAmount, originalCurrency, fxRate, rowText, performedAt, now);
            && (s.err.None? <==> UpdateAccepted(amount, currency, originalAmount, originalCurrency, fxRate))
            && s.rec.trnType == trnType && s.rec.rowText == rowText
            && s.rec.category == (if category.Some? then category else t.category)
            && s.rec.subcategory == (if subcategory.Some? then subcategory else t.subcategory)
            && s.rec.id == t.id && s.rec.userId == t.userId && s.rec.accountId == t.accountId
            && s.rec.createdAt == t.createdAt && s.rec.rejectedAt == t.rejectedAt
  {
    var t1 := Categorised(t.(trnType := trnType, rowText := rowText), category, subcategory);
    var s2 := AmountMajorSet(t1, amount, currency);
    AmountKeeps(t1, amount, currency);
    if s2.err.None? {
      var s3 := OriginalSet(s2.rec, originalAmount, originalCurrency, fxRate);
      OriginalKeeps(s2.rec, originalAmount, originalCurrency, fxRate);
      if s3.err.None? {
        PerformedKeeps(s3.rec, performedAt, now);
      }
    }
  }

  /** `r` has the ids, times, type, text and links of `t`. */
  ghost predicate Kept(t: TxRec, r: TxRec) {
    r.id == t.id && r.userId == t.userId && r.accountId == t.accountId
    && r.createdAt == t.createdAt && r.rejectedAt == t.rejectedAt
    && r.trnType == t.trnType && r.rowText == t.rowText
    && r.category == t.category && r.subcategory == t.subcategory
  }

  /** `SetAmountMajor` fails exactly on a refused amount and touches only the amount and currency. */
  lemma AmountKeeps(t: TxRec, major: real, currency: Currency)
    ensures AmountMajorSet(t, major, currency).err.None? <==> AmountAccepted(major, currency)
    ensures Kept(t, AmountMajorSet(t, major, currency).rec)
  {
  }

  /** The original-amount step fails exactly on a refused original amount or rate, and touches nothing else. */
  lemma OriginalKeeps(t: TxRec, originalAmount: Option<real>, originalCurrency: Option<string>, fxRate: Option<real>)
    ensures OriginalSet(t, originalAmount, originalCurrency, fxRate).err.None? <==>
              (originalAmount.Some? && originalCurrency.Some? ==>
                 AmountAccepted(originalAmount.value, originalCurrency.value) && (fxRate.Some? ==> fxRate.value > 0.0))
    ensures Kept(t, OriginalSet(t, originalAmount, originalCurrency, fxRate).rec)
  {
  }

  /** The performed-time step touches only the status and the performed time. */
  lemma PerformedKeeps(t: TxRec, performedAt: Option<Time>, now: Time)
    ensures Kept(t, PerformedOrNow(t, performedAt, now))
  {
  }

  /**
   * A successful `Update` stores the new amount in the given currency, keeps
   * or clears the original amount as given, keeps the old rate when none is
   * given, and marks the transaction completed; the performed time is the
   * given one, else the old one, else `now`.
   */
  lemma UpdateSuccess(t: TxRec, category: Option<Category>, subcategory: Option<Subcategory>,
                      trnType: TrnType, amount: real, currency: Currency,
                      originalAmount: Option<real>, originalCurrency: Option<string>, fxRate: Option<real>,
                      rowText: string, performedAt: Option<Time>, now: Time)
    requires UpdateAccepted(amount, currency, originalAmount, originalCurrency, fxRate)
    ensures var s := Updated(t, category, subcategory, trnType, amount, currency,
                             originalAmount, originalCurrency, fxRate, rowText, performedAt, now);
            && s.rec.amount == MinorFromMajor(amount, Scale(currency)) && s.rec.currencyCode == currency
            && TxEffect(s.rec) == Effect(trnType, MinorFromMajor(amount, Scale(currency)))
            && (originalAmount.Some? && originalCurrency.Some? ==>
                  s.rec.originalAmount == MinorFromMajor(originalAmount.value, Scale(originalCurrency.value))
                  && s.rec.originalCurrencyCode == originalCurrency.value
                  && s.rec.fxRate == (if fxRate.Some? then fxRate.value else t.fxRate))
            && (originalAmount.None? || originalCurrency.None? ==>
                  s.rec.originalAmount == 0 && s.rec.originalCurrencyCode == NULL && s.rec.fxRate == 0.0)
            && (performedAt.Some? ==> s.rec.status == Completed && s.rec.performedAt == performedAt.value)
            && (performedAt.None? && t.performedAt.IsZero() ==> s.rec.status == Completed && s.rec.performedAt == now)
            && (performedAt.None? && !t.performedAt.IsZero() ==> s.rec.status == t.status && s.rec.performedAt == t.performedAt)
  {
  }

  /** A transaction object: the fields `Transaction` holds and updates in place. */
  class Transaction {
    var id: Uuid
    var userId: Uuid
    var accountId: Uuid
    var category: Option<Category>
    var subcategory: Option<Subcategory>
    var trnType: TrnType
    var status: TrnStatus
    var amount: int
    var currencyCode: Currency
    var originalAmount: int
    var originalCurrencyCode: Currency
    var fxRate: real
    var rowText: string
    var performedAt: Time
    var rejectedAt: Time
    var createdAt: Time

    function Rec(): TxRec
      reads this
    {
      TxRec(id, userId, accountId, category, subcategory, trnType, status, amount, currencyCode,
            originalAmount, originalCurrencyCode, fxRate, rowText, performedAt, rejectedAt, createdAt)
    }

    /** An object holding the given state, as a repository read builds one. */
    constructor FromRec(r: TxRec)
      ensures Rec() == r
    {
      id, userId, accountId := r.id, r.userId, r.accountId;
      category, subcategory := r.category, r.subcategory;
      trnType, status := r.trnType, r.status;
      amount, currencyCode := r.amount, r.currencyCode;
      originalAmount, originalCurrencyCode, fxRate := r.originalAmount, r.originalCurrencyCode, r.fxRate;
      rowText := r.rowText;
      performedAt, rejectedAt, createdAt := r.performedAt, r.rejectedAt, r.createdAt;
    }

    /**
     * `NewTransaction`: a Nil user id is refused first, then a Nil account id;
     * `id` is the fresh random id and `now` the clock.
     */
    static method NewTransaction(userId: Uuid, accountId: Uuid, trnType: TrnType, rowText: string,
                                 id: Uuid, now: Time) returns (r: Result<Transaction>)
      ensures userId == Nil ==> r == Err(Plain("invalid user id"))
      ensures userId != Nil && accountId == Nil ==> r == Err(Plain("invalid account id"))
      ensures r.Ok? <==> userId != Nil && accountId != Nil
      ensures r.Ok? ==> fresh(r.value) && r.value.Rec() == Created(id, userId, accountId, trnType, rowText, now)
    {
      if userId == Nil {
        return Err(Plain("invalid user id"));
      }
      if accountId == Nil {
        return Err(Plain("invalid account id"));
      }
      var t := new Transaction.FromRec(Created(id, userId, accountId, trnType, rowText, now));
      return Ok(t);
    }

    method Categorise(category: Option<Category>, subcategory: Option<Subcategory>) returns (err: Option<Error>)
      modifies this
      ensures err.None?
      ensures Rec() == Categorised(old(Rec()), category, subcategory)
    {
      if category.Some? {
        this.category := category;
      }
      if subcategory.Some? {
        this.subcategory := subcategory;
      }
      return None;
    }

    method SetAmountMajor(major: real, currency: Currency) returns (err: Option<Error>)
      modifies this
      ensures Step(Rec(), err) == AmountMajorSet(old(Rec()), major, currency)
    {
      if major < 0.0 {
        return Some(Plain("amount must be > 0"));
      }
      if currency == "" {
        return Some(Plain("currency code must not be empty"));
      }
      amount := MinorFromMajor(major, Scale(currency));
      currencyCode := currency;
      return None;
    }

    /** `SetAmountMinor`: a negative amount, then an empty currency, are refused. */
    method SetAmountMinor(minor: int, currency: Currency) returns (err: Option<Error>)
      modifies this
      ensures minor < 0 ==> err == Some(Plain("amount must be > 0"))
      ensures minor >= 0 && currency == "" ==> err == Some(Plain("currency code must not be empty"))
      ensures err.Some? ==> Rec() == old(Rec())
      ensures err.None? <==> minor >= 0 && currency != ""
      ensures err.None? ==> Rec() == old(Rec()).(amount := minor, currencyCode := currency)
    {
      if minor < 0 {
        return Some(Plain("amount must be > 0"));
      }
      if currency == "" {
        return Some(Plain("currency code must not be empty"));
      }
      amount := minor;
      currencyCode := currency;
      return None;
    }

    method SetOriginalAmountMajor(major: real, currency: Currency) returns (err: Option<Error>)
      modifies this
      ensures Step(Rec(), err) == OriginalMajorSet(old(Rec()), major, currency)
    {
      if major < 0.0 {
        return Some(Plain("amount must be > 0"));
      }
      if currency == "" {
        return Some(Plain("original currency code must not be empty"));
      }
      originalAmount := MinorFromMajor(major, Scale(currency));
      originalCurrencyCode := currency;
      return None;
    }

    /** `SetOriginalAmountMinor`: as `SetAmountMinor`, for the original amount. */
    method SetOriginalAmountMinor(minor: int, currency: Currency) returns (err: Option<Error>)
      modifies this
      ensures minor < 0 ==> err == Some(Plain("amount must be > 0"))
      ensures minor >= 0 && currency == "" ==> err == Some(Plain("original currency code must not be empty"))
      ensures err.Some? ==> Rec() == old(Rec())
      ensures err.None? <==> minor >= 0 && currency != ""
      ensures err.None? ==> Rec() == old(Rec()).(originalAmount := minor, originalCurrencyCode := currency)
    {
      if minor < 0 {
        return Some(Plain("amount must be > 0"));
      }
      if currency == "" {
        return Some(Plain("original currency code must not be empty"));
      }
      originalAmount := minor;
      originalCurrencyCode := currency;
      return None;
    }

    method SetFxRate(rate: real) returns (err: Option<Error>)
      modifies this
      ensures Step(Rec(), err) == FxRateSet(old(Rec()), rate)
    {
      if rate <= 0.0 {
        return Some(Plain("fx rate must be > 0"));
      }
      fxRate := rate;
      return None;
    }

    method Performed(at: Time)
      modifies this
      ensures Rec() == PerformedAt(old(Rec()), at)
    {
      status := Completed;
      performedAt := at;
    }

    /** `Update`, step by step through the setters; `now` is the clock. */
    method Update(category: Option<Category>, subcategory: Option<Subcategory>,
                  trnType: TrnType, amount: real, currency: Currency,
                  originalAmount: Option<real>, originalCurrency: Option<string>, fxRate: Option<real>,
                  rowText: string, performedAt: Option<Time>, now: Time) returns (err: Option<Error>)
      modifies this
      ensures Step(Rec(), err) == Updated(old(Rec()), category, subcategory, trnType, amount, currency,
                                          originalAmount, originalCurrency, fxRate, rowText, performedAt, now)
    {
      err := UpdateHead(category, subcategory, trnType, amount, currency, rowText);
      if err.Some? {
        return;
      }
      err := UpdateOriginal(originalAmount, originalCurrency, fxRate);
      if err.Some? {
        return;
      }
      UpdatePerformed(performedAt, now);
      return None;
    }

    /** The first steps of `Update`: type and text, the category, then the amount. */
    method UpdateHead(category: Option<Category>, subcategory: Option<Subcategory>, trnType: TrnType,
                      amount: real, currency: Currency, rowText: string) returns (err: Option<Error>)
      modifies this
      ensures Step(Rec(), err) == AmountMajorSet(Categorised(old(Rec()).(trnType := trnType, rowText := rowText),
                                                             category, subcategory), amount, currency)
    {
      this.trnType := trnType;
      this.rowText := rowText;
      err := Categorise(category, subcategory);
      err := SetAmountMajor(amount, currency);
    }

    /** Lines 203-220 of `Update`: the original amount, its currency and the rate. */
    method UpdateOriginal(originalAmount: Option<real>, originalCurrency: Option<string>, fxRate: Option<real>)
      returns (err: Option<Error>)
      modifies this
      ensures Step(Rec(), err) == OriginalSet(old(Rec()), originalAmount, originalCurrency, fxRate)
    {
      if originalAmount.Some? && originalCurrency.Some? {
        err := SetOriginalAmountMajor(originalAmount.value, originalCurrency.value);
        if err.Some? {
          return;
        }
        if fxRate.Some? {
          err := SetFxRate(fxRate.value);
        }
      } else {
        this.originalAmount := 0;
        this.originalCurrencyCode := NULL;
        this.fxRate := 0.0;
        err := None;
      }
    }

    /** Lines 222-226 of `Update`: the performed time. */
    method UpdatePerformed(performedAt: Option<Time>, now: Time)
      modifies this
      ensures Rec() == PerformedOrNow(old(Rec()), performedAt, now)
    {
      if performedAt.Some? {
        Performed(performedAt.value);
      } else if this.performedAt.IsZero() {
        Performed(now);
      }
    }
  }
}
