/**
 * Identifiers. A UUID is abstract: only its identity and the distinguished
 * `Nil` value matter to the ledger. Its textual form is abstract too: a text
 * is either the canonical rendering of some UUID or a malformed string.
 */
module Uuids {
  import opened Wrappers

  datatype Uuid = Nil | Id(n: nat)

  /**
   * A UUID as a string: what `uuid.UUID.String()` writes (lower-case, hyphenated),
   * or anything else.
   */
  datatype UuidText = Canonical(id: Uuid) | Malformed(raw: string)

  /** `u.String()`. */
  function ToText(u: Uuid): UuidText {
    Canonical(u)
  }

  /**
   * `uuid.Parse` on the texts `String()` writes: it gives back the id written.
   * Every other text is `Malformed` here and fails.
   */
  function Parse(t: UuidText): (r: Option<Uuid>)
    ensures r.Some? <==> t.Canonical?
    ensures forall u :: t == ToText(u) ==> r == Some(u)
  {
    match t
    case Canonical(u) => Some(u)
    case Malformed(_) => None
  }

  /** `id, _ := uuid.Parse(s)`: the parse error is dropped and the zero value (Nil) remains. */
  function ParseOrNil(t: UuidText): (r: Uuid)
    ensures t.Malformed? ==> r == Nil
    ensures t.Canonical? ==> r == t.id
  {
    Parse(t).GetOr(Nil)
  }
}
