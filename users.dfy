/** The user entity, internal/entities/users.go, keyed by a Telegram user id. */
module Users {
  import opened Uuids
  import opened Times
  import opened Money
  import opened Errors
  import Categories

  datatype UserRec = UserRec(
    id: Uuid, tgUserId: int, firstName: string, lastName: string, username: string,
    languageCode: Categories.Language, currencyCode: Currency, timezone: string,
    createdAt: Time, updatedAt: Time)

  class User {
    var id: Uuid
    var tgUserId: int
    var firstName: string
    var lastName: string
    var username: string
    var languageCode: Categories.Language
    var currencyCode: Currency
    var timezone: string
    var createdAt: Time
    var updatedAt: Time

    function Rec(): UserRec
      reads this
    {
      UserRec(id, tgUserId, firstName, lastName, username, languageCode, currencyCode, timezone, createdAt, updatedAt)
    }

    /** An object holding the given state, as a repository read builds one. */
    constructor FromRec(r: UserRec)
      ensures Rec() == r
    {
      id, tgUserId, firstName, lastName, username := r.id, r.tgUserId, r.firstName, r.lastName, r.username;
      languageCode, currencyCode, timezone := r.languageCode, r.currencyCode, r.timezone;
      createdAt, updatedAt := r.createdAt, r.updatedAt;
    }

    /**
     * `NewUser`: refuses Telegram id 0; otherwise the names as given, no
     * language, currency or time zone yet, created and updated at `now`.
     */
    static method NewUser(tgUserId: int, firstName: string, lastName: string, username: string,
                          id: Uuid, now: Time) returns (r: Result<User>)
      ensures tgUserId == 0 <==> r.Err?
      ensures r.Err? ==> r.error == Plain("invalid telegram user id")
      ensures r.Ok? ==> fresh(r.value)
                        && r.value.Rec() == UserRec(id, tgUserId, firstName, lastName, username, "", NULL, "", now, now)
    {
      if tgUserId == 0 {
        return Err(Plain("invalid telegram user id"));
      }
      var u := new User.FromRec(UserRec(id, tgUserId, firstName, lastName, username, "", NULL, "", now, now));
      return Ok(u);
    }

    method UpdateLanguageCode(code: Categories.Language, now: Time)
      modifies this
      ensures Rec() == old(Rec()).(languageCode := code, updatedAt := now)
    {
      languageCode := code;
      updatedAt := now;
    }

    method UpdateCurrencyCode(code: Currency, now: Time)
      modifies this
      ensures Rec() == old(Rec()).(currencyCode := code, updatedAt := now)
    {
      currencyCode := code;
      updatedAt := now;
    }

    method UpdateTimezone(timezone: string, now: Time)
      modifies this
      ensures Rec() == old(Rec()).(timezone := timezone, updatedAt := now)
    {
      this.timezone := timezone;
      updatedAt := now;
    }
  }
}
