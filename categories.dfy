/**
 * Categories and subcategories of transactions, internal/entities/categories.go
 * and internal/entities/subcategories.go.
 */
module Categories {
  import opened Uuids
  import opened Times
  import opened Errors

  type Language = string

  const RU: Language := "ru"
  /** Used by `GetName` but not declared beside `RU` in shared.go; their values are assumed. */
  const EN: Language := "en"
  const UZ: Language := "uz"

  /**
   * A category as the code that builds one sees it: the entity declares id,
   * slug, position and name, while the dictionary fills the owner, the three
   * localised names, the emoji and the timestamps.
   */
  datatype Category = Category(
    id: int, slug: string, userId: Uuid, position: int, name: string,
    nameEN: string, nameRU: string, nameUZ: string, emoji: string,
    createdAt: Time, updatedAt: Time)

  datatype Subcategory = Subcategory(
    id: int, categoryId: int, userId: Uuid, position: int,
    nameEN: string, nameRU: string, nameUZ: string, emoji: string,
    createdAt: Time, updatedAt: Time)

  /**
   * `NewUserSubcategory`: the category id, the owner and the name are
   * checked in that order; a valid one carries the name in all three
   * languages and has no id yet.
   */
  function NewUserSubcategory(categoryId: int, userId: Uuid, name: string, emoji: string): (r: Result<Subcategory>)
    ensures categoryId == 0 ==> r == Err(Plain("invalid category id"))
    ensures categoryId != 0 && userId == Nil ==> r == Err(Plain("invalid user id"))
    ensures categoryId != 0 && userId != Nil && name == "" ==> r == Err(Plain("invalid name"))
    ensures r.Ok? <==> categoryId != 0 && userId != Nil && name != ""
    ensures r.Ok? ==> r.value.id == 0 && r.value.categoryId == categoryId && r.value.userId == userId
                      && r.value.nameEN == name && r.value.nameRU == name && r.value.nameUZ == name
                      && r.value.emoji == emoji
  {
    if categoryId == 0 then Err(Plain("invalid category id"))
    else if userId == Nil then Err(Plain("invalid user id"))
    else if name == "" then Err(Plain("invalid name"))
    else Ok(Subcategory(0, categoryId, userId, 0, name, name, name, emoji, ZeroTime, ZeroTime))
  }

  /** `GetName`: the name in the given language, English for any other. */
  function GetName(s: Subcategory, lang: Language): (r: string)
    ensures lang == RU ==> r == s.nameRU
    ensures lang == UZ ==> r == s.nameUZ
    ensures lang != RU && lang != UZ ==> r == s.nameEN
  {
    if lang == EN then s.nameEN
    else if lang == RU then s.nameRU
    else if lang == UZ then s.nameUZ
    else s.nameEN
  }

  /** A subcategory a user creates answers with its one name in every language. */
  lemma NewSubcategoryNameInEveryLanguage(categoryId: int, userId: Uuid, name: string, emoji: string, lang: Language)
    requires NewUserSubcategory(categoryId, userId, name, emoji).Ok?
    ensures GetName(NewUserSubcategory(categoryId, userId, name, emoji).value, lang) == name
  {
  }
}
