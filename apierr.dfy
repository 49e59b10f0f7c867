/**
 * The API error mapping of internal/delivery/api/apierr: a registry of
 * (matcher, builder) pairs searched first match first, the default table
 * `NewRegistry` fills it with, and `Handle`, which turns an error and a list
 * of options into the HTTP status and JSON body of the response.
 */
module ApiErr {
  import opened Wrappers
  import opened Errors

  const CodeInternalError := "INTERNAL_ERROR"
  const CodeForbidden := "FORBIDDEN"
  const CodeNotFound := "NOT_FOUND"
  const CodeConflict := "CONFLICT"
  const CodeNoChanges := "NO_CHANGES"
  const CodeValidationError := "VALIDATION_ERROR"
  const CodeInvalidToken := "INVALID_TOKEN"
  const CodeExternalService := "EXTERNAL_SERVICE_ERROR"

  /** A value stored under a details key (Go's `any`). */
  datatype Value = Text(text: string) | Opaque(id: int)

  /** The `Details` of a mapping or response: absent, a `map[string]any`, or any other value. */
  datatype Details = Absent | Fields(entries: map<string, Value>) | Other(value: Value)

  datatype Mapping = Mapping(httpStatus: int, code: string, message: string, details: Details)

  /** The zero `Mapping{}` that `FindMapping` returns with `false`. */
  const NoMapping := Mapping(0, "", "", Absent)

  /** A registered pair: the matcher and the builder it guards. */
  datatype RegItem = RegItem(matches: Error -> bool, builder: Error -> Mapping)

  datatype Response = Response(code: string, message: string, details: Details)

  /** The options `Handle` applies to the response and the status, in order. */
  datatype Opt =
    | WithMessage(msg: string)
    | WithCode(code: string)
    | WithDetail(key: string, value: Value)
    | WithDetails(details: Details)
    | WithStatus(status: int)

  /** The mapping of the first item whose matcher accepts `err`, if any. */
  function FirstMatch(items: seq<RegItem>, err: Error): (r: Option<Mapping>)
  {
    if items == [] then None
    else if items[0].matches(err) then Some(items[0].builder(err))
    else FirstMatch(items[1..], err)
  }

  /**
   * The first match is found iff some matcher accepts the error, and then
   * it is the builder's result for the earliest accepting item.
   */
  lemma {:induction false} FirstMatchIsEarliest(items: seq<RegItem>, err: Error)
    ensures FirstMatch(items, err).Some? <==> exists i :: 0 <= i < |items| && items[i].matches(err)
    ensures forall i :: 0 <= i < |items| && items[i].matches(err) && (forall j :: 0 <= j < i ==> !items[j].matches(err))
                        ==> FirstMatch(items, err) == Some(items[i].builder(err))
  {
    if items != [] && !items[0].matches(err) {
      FirstMatchIsEarliest(items[1..], err);
      assert forall i :: 1 <= i < |items| ==> items[1..][i - 1] == items[i];
      if exists i :: 0 <= i < |items| && items[i].matches(err) {
        var i :| 0 <= i < |items| && items[i].matches(err);
        assert items[1..][i - 1].matches(err);
      }
    }
  }

  /** Appending an item never changes the answer for an error an earlier item accepts. */
  lemma {:induction false} AppendNeverShadows(items: seq<RegItem>, item: RegItem, err: Error)
    ensures FirstMatch(items, err).Some? ==> FirstMatch(items + [item], err) == FirstMatch(items, err)
    ensures FirstMatch(items, err).None? ==>
              FirstMatch(items + [item], err) == (if item.matches(err) then Some(item.builder(err)) else None)
  {
    if items != [] {
      assert (items + [item])[1..] == items[1..] + [item];
      AppendNeverShadows(items[1..], item, err);
    }
  }

  /** The error at the end of the `%w` chain. */
  function Leaf(e: Error): (r: Error)
    ensures !r.Wrapped?
  {
    if e.Wrapped? then Leaf(e.inner) else e
  }

  /** For a target that is not itself wrapped, `errors.Is` answers at the end of the chain. */
  lemma {:induction false} GoIsAtLeaf(err: Error, target: Error)
    requires !target.Wrapped?
    ensures GoIs(err, target) <==> (Comparable(target) && Leaf(err) == target) || IsMethod(Leaf(err), target)
  {
    if err.Wrapped? {
      GoIsAtLeaf(err.inner, target);
    }
  }

  /** The builder of the `ErrHttp` row: a `*ErrHttp` keeps its own status, any other form is an internal error. */
  function HttpMapping(err: Error): Mapping {
    if err.Ref? && err.target.Http? then
      Mapping(err.target.statusCode, CodeExternalService, err.target.message,
              Fields(map["body" := Text(err.target.body)]))
    else Mapping(500, CodeInternalError, "", Absent)
  }

  /** The builder shared by the expired-token and wrong-algorithm rows. */
  function TokenMapping(err: Error): Mapping {
    Mapping(401, CodeInvalidToken, "token expired", Fields(map["error" := Text(Message(err))]))
  }

  /** The zero values of the struct targets the default rows compare against. */
  const NotFoundTarget := NotFound("")
  const ConflictTarget := Conflict("")
  const NoChangesTarget := NoChanges("")
  const InvalidTokenTarget := InvalidToken(Plain(""))
  const ValidationTarget := Validation("", "")
  const HttpTarget := Http(0, "", "", 0, "", "")

  /** The error value row `j` of `NewRegistry`'s table compares against with `errors.Is`. */
  function Target(j: nat): Error
    requires j < 9
  {
    [NotFoundTarget, ConflictTarget, NoChangesTarget, ExpiredToken, WrongAlgo, InvalidTokenTarget,
     ValidationTarget, PermissionDenied, HttpTarget][j]
  }

  /** The builder of row `j` of `NewRegistry`'s table. */
  function Builder(j: nat): Error -> Mapping
    requires j < 9
  {
    if j == 0 then e => Mapping(404, CodeNotFound, "", Absent)
    else if j == 1 then e => Mapping(409, CodeConflict, "", Absent)
    else if j == 2 then e => Mapping(400, CodeNoChanges, "", Absent)
    else if j == 3 || j == 4 then TokenMapping
    else if j == 5 then e => Mapping(401, CodeInvalidToken, "", Absent)
    else if j == 6 then e => Mapping(400, CodeValidationError, "", Absent)
    else if j == 7 then e => Mapping(403, CodeForbidden, "", Absent)
    else HttpMapping
  }

  /** The rows `NewRegistry` registers, in order: row `j` matches what `errors.Is` relates to `Target(j)`. */
  function DefaultTable(): (t: seq<RegItem>)
    ensures |t| == 9
  {
    seq(9, j requires 0 <= j < 9 => RegItem(e => GoIs(e, Target(j)), Builder(j)))
  }

  /**
   * The default table by the type of the error at the end of its chain: one
   * row per `inerr` type and auth sentinel, independent of the table's order.
   */
  function ByKind(err: Error): Option<Mapping> {
    var leaf := Leaf(err);
    match KindOf(leaf)
    case KNotFound => Some(Mapping(404, CodeNotFound, "", Absent))
    case KConflict => Some(Mapping(409, CodeConflict, "", Absent))
    case KNoChanges => Some(Mapping(400, CodeNoChanges, "", Absent))
    case KInvalidToken => Some(Mapping(401, CodeInvalidToken, "", Absent))
    case KValidation => Some(Mapping(400, CodeValidationError, "", Absent))
    case KHttp => Some(HttpMapping(err))
    case KOther =>
      if leaf == ExpiredToken || leaf == WrongAlgo then Some(TokenMapping(err))
      else if leaf == PermissionDenied then Some(Mapping(403, CodeForbidden, "", Absent))
      else None
  }

  /** The position of the default row an error at the end of a chain belongs to, or 9 for none. */
  function RowOf(leaf: Error): (j: nat)
    ensures j <= 9
  {
    match KindOf(leaf)
    case KNotFound => 0
    case KConflict => 1
    case KNoChanges => 2
    case KInvalidToken => 5
    case KValidation => 6
    case KHttp => 8
    case KOther =>
      if leaf == ExpiredToken then 3 else if leaf == WrongAlgo then 4
      else if leaf == PermissionDenied then 7 else 9
  }

  /** Row `j` of the default table accepts exactly the errors that belong to it. */
  lemma RowMatches(err: Error, j: nat)
    requires j < 9
    ensures DefaultTable()[j].matches(err) <==> RowOf(Leaf(err)) == j
  {
    assert DefaultTable()[j].matches(err) == GoIs(err, Target(j));
    GoIsAtLeaf(err, Target(j));
  }

  /** The rows of the default table answer to disjoint kinds of error, so their order does not matter. */
  lemma DefaultTableByKind(err: Error)
    ensures FirstMatch(DefaultTable(), err) == ByKind(err)
  {
    var t := DefaultTable();
    var i := RowOf(Leaf(err));
    forall j | 0 <= j < 9
      ensures t[j].matches(err) <==> i == j
    {
      RowMatches(err, j);
    }
    FirstMatchIsEarliest(t, err);
    if i < 9 {
      assert t[i].matches(err);
      BuilderAgrees(err);
      assert t[i].builder == Builder(i);
    }
  }

  /** The builder of the row an error belongs to builds what `ByKind` gives for it. */
  lemma BuilderAgrees(err: Error)
    requires RowOf(Leaf(err)) < 9
    ensures ByKind(err) == Some(Builder(RowOf(Leaf(err)))(err))
  {
  }

  /** An `ErrHttp` wrapped with `%w` is no longer a `*ErrHttp`, so it maps to an internal error. */
  lemma WrappedHttpIsInternal(prefix: string, status: int, message: string, body: string)
    ensures FirstMatch(DefaultTable(), Wrapped(prefix, NewErrHttp(status, "", "", message, body)))
            == Some(Mapping(500, CodeInternalError, "", Absent))
    ensures FirstMatch(DefaultTable(), NewErrHttp(status, "", "", message, body))
            == Some(Mapping(status, CodeExternalService, message, Fields(map["body" := Text(body)])))
  {
    DefaultTableByKind(Wrapped(prefix, NewErrHttp(status, "", "", message, body)));
    DefaultTableByKind(NewErrHttp(status, "", "", message, body));
  }

  class Registry {
    var maps: seq<RegItem>

    /** `NewRegistry`: the default table, registered row by row. */
    constructor ()
      ensures maps == DefaultTable()
    {
      maps := [];
      new;
      var t := DefaultTable();
      RegisterMatch(t[0].matches, t[0].builder);
      RegisterMatch(t[1].matches, t[1].builder);
      RegisterMatch(t[2].matches, t[2].builder);
      RegisterMatch(t[3].matches, t[3].builder);
      RegisterMatch(t[4].matches, t[4].builder);
      RegisterMatch(t[5].matches, t[5].builder);
      RegisterMatch(t[6].matches, t[6].builder);
      RegisterMatch(t[7].matches, t[7].builder);
      RegisterMatch(t[8].matches, t[8].builder);
      assert maps == [t[0], t[1], t[2], t[3], t[4], t[5], t[6], t[7], t[8]];
    }

    /** `RegisterMatch`: the pair goes to the end of the table. */
    method RegisterMatch(matches: Error -> bool, builder: Error -> Mapping)
      modifies this
      ensures maps == old(maps) + [RegItem(matches, builder)]
    {
      maps := maps + [RegItem(matches, builder)];
    }

    /** `FindMapping`: the builder's result for the first matcher that accepts `err`, or the zero mapping and false. */
    method FindMapping(err: Error) returns (m: Mapping, ok: bool)
      ensures ok <==> exists i :: 0 <= i < |maps| && maps[i].matches(err)
      ensures ok ==> Some(m) == FirstMatch(maps, err)
      ensures !ok ==> m == NoMapping && FirstMatch(maps, err).None?
    {
      var items := maps;
      var i := 0;
      while i < |items|
        invariant 0 <= i <= |items|
        invariant forall j :: 0 <= j < i ==> !items[j].matches(err)
      {
        if items[i].matches(err) {
          FirstMatchIsEarliest(items, err);
          return items[i].builder(err), true;
        }
        i := i + 1;
      }
      FirstMatchIsEarliest(items, err);
      return NoMapping, false;
    }
  }

  /** The response before any option: the defaults, or the matched mapping's status, code and message. */
  function Base(found: Option<Mapping>, err: Option<Error>): (r: (int, Response))
    ensures r.1.details == Absent
    ensures found.None? ==> r == (500, Response(CodeInternalError, "Something went wrong!", Absent))
    ensures found.Some? && err.Some? ==>
              r.0 == found.value.httpStatus && r.1.code == found.value.code
              && r.1.message == (if found.value.message == "" then Message(err.value) else found.value.message)
  {
    if found.Some? && err.Some? then
      var m := found.value;
      (m.httpStatus, Response(m.code, if m.message == "" then Message(err.value) else m.message, Absent))
    else (500, Response(CodeInternalError, "Something went wrong!", Absent))
  }

  /** One option applied to the response and the status. */
  function Apply(o: Opt, status: int, resp: Response): (r: (int, Response))
    ensures o.WithDetail? && resp.details.Fields? ==>
              r.1.details == Fields(resp.details.entries[o.key := o.value])
    ensures o.WithDetail? && !resp.details.Fields? ==> r.1.details == Fields(map[o.key := o.value])
    ensures !o.WithStatus? ==> r.0 == status
    ensures !o.WithMessage? ==> r.1.message == resp.message
    ensures !o.WithCode? ==> r.1.code == resp.code
    ensures !o.WithDetail? && !o.WithDetails? ==> r.1.details == resp.details
  {
    match o
    case WithMessage(msg) => (status, resp.(message := msg))
    case WithCode(code) => (status, resp.(code := code))
    case WithDetail(key, value) =>
      var m := if resp.details.Fields? then resp.details.entries else map[];
      (status, resp.(details := Fields(m[key := value])))
    case WithDetails(d) => (status, resp.(details := d))
    case WithStatus(s) => (s, resp)
  }

  /** The options applied in order. */
  function ApplyAll(opts: seq<Opt>, status: int, resp: Response): (int, Response)
    decreases |opts|
  {
    if opts == [] then (status, resp)
    else
      var prev := ApplyAll(opts[..|opts| - 1], status, resp);
      Apply(opts[|opts| - 1], prev.0, prev.1)
  }

  /** The last `WithStatus` among the options, or `status` when there is none. */
  function LastStatus(opts: seq<Opt>, status: int): int
    decreases |opts|
  {
    if opts == [] then status
    else if opts[|opts| - 1].WithStatus? then opts[|opts| - 1].status
    else LastStatus(opts[..|opts| - 1], status)
  }

  /** The last `WithMessage` among the options, or `msg` when there is none. */
  function LastMessage(opts: seq<Opt>, msg: string): string
    decreases |opts|
  {
    if opts == [] then msg
    else if opts[|opts| - 1].WithMessage? then opts[|opts| - 1].msg
    else LastMessage(opts[..|opts| - 1], msg)
  }

  /** The last `WithCode` among the options, or `code` when there is none. */
  function LastCode(opts: seq<Opt>, code: string): string
    decreases |opts|
  {
    if opts == [] then code
    else if opts[|opts| - 1].WithCode? then opts[|opts| - 1].code
    else LastCode(opts[..|opts| - 1], code)
  }

  /** For the status, the message and the code, the last option that sets the field wins. */
  lemma {:induction false} LastOptionWins(opts: seq<Opt>, status: int, resp: Response)
    ensures var r := ApplyAll(opts, status, resp);
            r.0 == LastStatus(opts, status) && r.1.message == LastMessage(opts, resp.message)
            && r.1.code == LastCode(opts, resp.code)
    decreases |opts|
  {
    if opts != [] {
      LastOptionWins(opts[..|opts| - 1], status, resp);
    }
  }

  /** What `Handle` sends for `err` with `opts`, given the registry's table. */
  function Handled(maps: seq<RegItem>, err: Option<Error>, opts: seq<Opt>): (int, Response) {
    var found := if err.Some? then FirstMatch(maps, err.value) else None;
    var b := Base(found, err);
    ApplyAll(opts, b.0, b.1)
  }

  /**
   * `Handle`, without the gin context: the status and body it aborts with.
   * The registry is `DefaultRegistry` in the program.
   */
  method Handle(reg: Registry, err: Option<Error>, opts: seq<Opt>) returns (status: int, resp: Response)
    ensures (status, resp) == Handled(reg.maps, err, opts)
  {
    status := 500;
    resp := Response(CodeInternalError, "Something went wrong!", Absent);
    if err.Some? {
      var m, ok := reg.FindMapping(err.value);
      if ok {
        status := m.httpStatus;
        if m.message == "" {
          m := m.(message := Message(err.value));
        }
        resp := Response(m.code, m.message, Absent);
      }
    }
    var i := 0;
    while i < |opts|
      invariant 0 <= i <= |opts|
      invariant (status, resp) == ApplyAll(opts[..i], Base(if err.Some? then FirstMatch(reg.maps, err.value) else None, err).0,
                                           Base(if err.Some? then FirstMatch(reg.maps, err.value) else None, err).1)
    {
      match opts[i] {
        case WithMessage(msg) => resp := resp.(message := msg);
        case WithCode(code) => resp := resp.(code := code);
        case WithDetail(key, value) =>
          var d := if resp.details.Fields? then resp.details.entries else map[];
          resp := resp.(details := Fields(d[key := value]));
        case WithDetails(d) => resp := resp.(details := d);
        case WithStatus(s) => status := s;
      }
      assert opts[..i + 1][..i] == opts[..i];
      i := i + 1;
    }
    assert opts[..i] == opts;
  }

  /** With no error, or one no row accepts, and no options, the response is the generic internal error. */
  lemma UnmatchedIsInternal(maps: seq<RegItem>, err: Option<Error>)
    requires err.None? || FirstMatch(maps, err.value).None?
    ensures Handled(maps, err, []) == (500, Response(CodeInternalError, "Something went wrong!", Absent))
  {
  }

  /**
   * With the default table, an `ErrNotFound` anywhere down the chain answers
   * 404 with its own text, and the mapping's details are never sent.
   */
  lemma NotFoundResponse(err: Error)
    requires KindOf(Leaf(err)) == KNotFound
    ensures Handled(DefaultTable(), Some(err), []) == (404, Response(CodeNotFound, Message(err), Absent))
  {
    DefaultTableByKind(err);
  }

  /** An expired token answers 401 with the fixed message, and the details the row builds are dropped. */
  lemma ExpiredTokenResponse(prefix: string)
    ensures Handled(DefaultTable(), Some(Wrapped(prefix, ExpiredToken)), [])
            == (401, Response(CodeInvalidToken, "token expired", Absent))
  {
    var err := Wrapped(prefix, ExpiredToken);
    assert Leaf(err) == ExpiredToken;
    DefaultTableByKind(err);
    assert FirstMatch(DefaultTable(), err) == Some(TokenMapping(err));
  }
}
