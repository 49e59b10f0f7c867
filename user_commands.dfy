/**
 * The user commands of internal/usecase/users/command: sign in from
 * Telegram (find the user by Telegram id, or register one), and patch the
 * language and currency.
 *
 * `id` is the id `uuid.New` draws for a new user and `now` the clock.
 */
module UserCommands {
  import opened Wrappers
  import opened Uuids
  import opened Times
  import opened Money
  import opened Errors
  import opened PgErrors
  import opened Users
  import opened Store

  datatype AuthTelegramCommand = AuthTelegramCommand(telegramUserId: int, firstName: string, lastName: string,
                                                     username: string)

  datatype UpdateCommand = UpdateCommand(userId: UuidText, languageCode: Option<string>, currencyCode: Option<string>)

  /** Some user has this Telegram id. */
  ghost predicate HasTelegramUser(users: map<Uuid, UserRec>, tg: int) {
    exists k :: k in users && users[k].tgUserId == tg
  }

  /**
   * The lookup by Telegram id ends in "not found": no user has the id, or
   * the driver failed with an error that `errors.Is` takes for `ErrNotFound`.
   */
  ghost predicate LookupMisses(users: map<Uuid, UserRec>, tg: int, fault: Option<Error>) {
    if fault.Some? then GoIs(RepoError(fault.value, UsersModel), NotFound(""))
    else !HasTelegramUser(users, tg)
  }

  /** The user `AuthTelegram` registers: `NewUser`'s record, no language, currency or time zone yet. */
  function Registered(cmd: AuthTelegramCommand, id: Uuid, now: Time): (u: UserRec)
    ensures u.id == id && u.tgUserId == cmd.telegramUserId
    ensures u.firstName == cmd.firstName && u.lastName == cmd.lastName && u.username == cmd.username
    ensures u.languageCode == "" && u.currencyCode == NULL && u.timezone == ""
  {
    UserRec(id, cmd.telegramUserId, cmd.firstName, cmd.lastName, cmd.username, "", NULL, "", now, now)
  }

  /**
   * `AuthTelegram`: an existing user is returned as stored and nothing is
   * written; a lookup error other than not-found is returned; otherwise a
   * new user is built and saved.
   */
  method AuthTelegram(s: Store, cmd: AuthTelegramCommand, id: Uuid, now: Time, f: Faults) returns (r: Result<User>)
    requires Keyed(s.State())
    modifies s
    ensures s.scope == old(s.scope) && Keyed(s.State())
    ensures r.Err? ==> s.State() == old(s.State())
    ensures f.findUser.Some? && !LookupMisses(old(s.users), cmd.telegramUserId, f.findUser) ==>
              r == Err(RepoError(f.findUser.value, UsersModel))
    ensures f.findUser.None? && HasTelegramUser(old(s.users), cmd.telegramUserId) ==>
              r.Ok? && r.value.Rec() in old(s.users).Values && r.value.tgUserId == cmd.telegramUserId
              && s.State() == old(s.State())
    ensures LookupMisses(old(s.users), cmd.telegramUserId, f.findUser) ==>
              && (cmd.telegramUserId == 0 ==> r == Err(Plain("invalid telegram user id")))
              && (cmd.telegramUserId != 0 && f.saveUser.Some? ==> r == Err(RepoError(f.saveUser.value, UsersModel)))
              && (cmd.telegramUserId != 0 && f.saveUser.None? ==>
                    r.Ok? && r.value.Rec() == Registered(cmd, id, now)
                    && s.State() == old(s.State()).(users := old(s.users)[id := UpsertUser(old(s.users), Registered(cmd, id, now))]))
  {
    var found := s.FindUserByTg(cmd.telegramUserId, f.findUser);
    if found.Err? && !GoIs(found.error, NotFound("")) {
      return found;
    }
    if found.Ok? {
      return found;
    }
    var created := User.NewUser(cmd.telegramUserId, cmd.firstName, cmd.lastName, cmd.username, id, now);
    if created.Err? {
      return created;
    }
    var err := s.SaveUser(created.value, f.saveUser);
    if err.Some? {
      return Err(err.value);
    }
    return created;
  }

  /**
   * Find-or-create is idempotent: once `AuthTelegram` has registered a
   * Telegram id that no user had, the registered row is the only one with
   * that id, so the next sign-in finds exactly it.
   */
  lemma SecondAuthFindsFirst(users: map<Uuid, UserRec>, u: UserRec)
    requires !HasTelegramUser(users, u.tgUserId)
    ensures var after := users[u.id := UpsertUser(users, u)];
            && HasTelegramUser(after, u.tgUserId)
            && forall v :: v in after.Values && v.tgUserId == u.tgUserId ==> v == UpsertUser(users, u)
  {
    var after := users[u.id := UpsertUser(users, u)];
    assert after[u.id].tgUserId == u.tgUserId;
    forall v | v in after.Values && v.tgUserId == u.tgUserId
      ensures v == UpsertUser(users, u)
    {
      var k :| k in after && after[k] == v;
    }
  }

  /** `Update`'s patch: only the given codes change, and the time only when one is given. */
  function Patched(u: UserRec, languageCode: Option<string>, currencyCode: Option<string>, now: Time): (r: UserRec)
    ensures r.id == u.id && r.tgUserId == u.tgUserId && r.firstName == u.firstName && r.lastName == u.lastName
    ensures r.username == u.username && r.timezone == u.timezone && r.createdAt == u.createdAt
    ensures r.languageCode == (if languageCode.Some? then languageCode.value else u.languageCode)
    ensures r.currencyCode == (if currencyCode.Some? then currencyCode.value else u.currencyCode)
    ensures r.updatedAt == (if languageCode.Some? || currencyCode.Some? then now else u.updatedAt)
  {
    var u1 := if languageCode.Some? then u.(languageCode := languageCode.value, updatedAt := now) else u;
    if currencyCode.Some? then u1.(currencyCode := currencyCode.value, updatedAt := now) else u1
  }

  /** `Update`: the user is saved even when the command changes nothing. */
  method Update(s: Store, cmd: UpdateCommand, now: Time, f: Faults) returns (r: Result<User>)
    requires Keyed(s.State())
    modifies s
    ensures s.scope == old(s.scope) && Keyed(s.State())
    ensures !cmd.userId.Canonical? ==> r == Err(Validation("user_id", "invalud uuid type"))
    ensures r.Ok? <==> cmd.userId.Canonical? && f.findUser.None? && cmd.userId.id in old(s.users) && f.saveUser.None?
    ensures r.Err? ==> s.State() == old(s.State())
    ensures r.Ok? ==>
              var u := Patched(old(s.users)[cmd.userId.id], cmd.languageCode, cmd.currencyCode, now);
              && r.value.Rec() == u
              && s.State() == old(s.State()).(users := old(s.users)[cmd.userId.id := UpsertUser(old(s.users), u)])
  {
    if !cmd.userId.Canonical? {
      return Err(Validation("user_id", "invalud uuid type"));
    }
    var found := s.FindUser(cmd.userId.id, f.findUser);
    if found.Err? {
      return found;
    }
    var user := found.value;
    if cmd.languageCode.Some? {
      user.UpdateLanguageCode(cmd.languageCode.value, now);
    }
    if cmd.currencyCode.Some? {
      user.UpdateCurrencyCode(cmd.currencyCode.value, now);
    }
    var err := s.SaveUser(user, f.saveUser);
    if err.Some? {
      return Err(err.value);
    }
    return found;
  }
}
