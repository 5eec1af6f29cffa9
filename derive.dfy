/**
 * What the `EndpointGetOne` / `EndpointGetAll` derive macros generate.
 *
 * Each derive reads `path` and `args` from the type's `#[getone(...)]` or
 * `#[getall(...)]` attribute and, depending on `args` (0, 1, anything
 * else), emits one of three bodies. Each body is a single `match` on the
 * caller's `EndpointGetArgs`: the expected shape formats the path and asks
 * the client's `get_data` for it; every other shape is refused with a
 * fixed `UnknownError` message and no request.
 *
 * `Bind` is that decision (which path is requested, or which error is
 * returned). `GetOne` and `GetAll` add the request itself: `get_data` and
 * the JSON decoding are parameters, since neither is part of this code.
 */
module Derive {
  import opened Wrappers
  import opened Errors
  import opened Template

  type u32 = x: int | 0 <= x < 0x1_0000_0000

  /** The argument shapes a caller can pass to `get_one` / `get_all`. */
  datatype EndpointGetArgs = NoArgs | OneInt(arg1: u32) | TwoInt(arg1: u32, arg2: u32)

  /** `EndpointGetOneAttrs` and `EndpointGetAllAttrs`: both are `{ path, args }`. */
  datatype Attrs = Attrs(path: string, args: u32)

  /** The integers a shape carries, in order. */
  function Ints(a: EndpointGetArgs): seq<nat> {
    match a
    case NoArgs => []
    case OneInt(x) => [x]
    case TwoInt(x, y) => [x, y]
  }

  /** How many integers the generated body takes: 0, 1, or 2 for every other `args`. */
  function Arity(args: u32): (n: nat)
    ensures n <= 2
  {
    if args == 0 then 0 else if args == 1 then 1 else 2
  }

  /** The message of the refusal emitted for each `args` value. */
  function Rejection(args: u32): string {
    if args == 0 then "No args Allowed"
    else if args == 1 then "Only one arg Allowed"
    else "Only two args Allowed"
  }

  /**
   * The generated code compiles: `format!` accepts the template as plain
   * `{}` placeholders and their number equals the arguments it is given.
   */
  predicate Compiles(attrs: Attrs) {
    Plain(attrs.path) && Holes(attrs.path) == Arity(attrs.args)
  }

  /**
   * The generated `match args`: the path handed to `get_data`, or the
   * refusal. Accepted exactly when the shape carries as many integers as
   * the body expects.
   */
  function Bind(attrs: Attrs, a: EndpointGetArgs): (r: Result<string, NaApiError>)
    requires Compiles(attrs)
    ensures r.Ok? <==> |Ints(a)| == Arity(attrs.args)
    ensures r.Err? ==> r.error == UnknownError(Rejection(attrs.args))
  {
    if attrs.args == 0 then
      match a
      case NoArgs => Ok(Format(attrs.path, []))
      case _ => Err(UnknownError("No args Allowed"))
    else if attrs.args == 1 then
      match a
      case OneInt(arg1) => Ok(Format(attrs.path, [arg1]))
      case _ => Err(UnknownError("Only one arg Allowed"))
    else
      match a
      case TwoInt(arg1, arg2) => Ok(Format(attrs.path, [arg1, arg2]))
      case _ => Err(UnknownError("Only two args Allowed"))
  }

  /** The generated `get_one`: one decoded value, or the first error met. */
  function GetOne<V, T>(getData: string -> Result<V, NaApiError>, decode: V -> T,
                        attrs: Attrs, a: EndpointGetArgs): (r: Result<T, NaApiError>)
    requires Compiles(attrs)
    ensures r.Ok? <==> |Ints(a)| == Arity(attrs.args) && getData(Format(attrs.path, Ints(a))).Ok?
  {
    match Bind(attrs, a)
    case Err(e) => Err(e)
    case Ok(path) =>
      match getData(path)
      case Err(e) => Err(e)
      case Ok(data) => Ok(decode(data))
  }

  /** The generated `get_all`: the decoded list, or the first error met. */
  function GetAll<V, T>(getData: string -> Result<V, NaApiError>, decode: V -> seq<T>,
                        attrs: Attrs, a: EndpointGetArgs): (r: Result<seq<T>, NaApiError>)
    requires Compiles(attrs)
    ensures r.Ok? <==> |Ints(a)| == Arity(attrs.args) && getData(Format(attrs.path, Ints(a))).Ok?
  {
    match Bind(attrs, a)
    case Err(e) => Err(e)
    case Ok(path) =>
      match getData(path)
      case Err(e) => Err(e)
      case Ok(data) => Ok(decode(data))
  }

  // ---------------------------------------------------------------------
  // Properties of the binding
  // ---------------------------------------------------------------------

  /**
   * An accepted shape requests the template with its integers filled in,
   * left to right: reading the path back against the template gives the
   * caller's integers in the caller's order.
   */
  lemma BindFillsTemplate(attrs: Attrs, a: EndpointGetArgs)
    requires Compiles(attrs) && Separated(attrs.path)
    requires |Ints(a)| == Arity(attrs.args)
    ensures Bind(attrs, a) == Ok(Format(attrs.path, Ints(a)))
    ensures Match(attrs.path, Bind(attrs, a).value) == Some(Ints(a))
  {
    MatchFormat(attrs.path, Ints(a));
  }

  /** With `args = 0`, `NoArgs` requests the template verbatim. */
  lemma BindVerbatim(attrs: Attrs)
    requires Compiles(attrs) && attrs.args == 0
    ensures Bind(attrs, NoArgs) == Ok(attrs.path)
  {
    FormatNoHoles(attrs.path);
  }

  /** Distinct accepted shapes request distinct paths. */
  lemma BindInjective(attrs: Attrs, a: EndpointGetArgs, b: EndpointGetArgs)
    requires Compiles(attrs) && Separated(attrs.path)
    requires Bind(attrs, a).Ok? && Bind(attrs, a) == Bind(attrs, b)
    ensures a == b
  {
    FormatInjective(attrs.path, Ints(a), Ints(b));
    match a
    case NoArgs =>
    case OneInt(_) => assert Ints(a)[0] == Ints(b)[0];
    case TwoInt(_, _) => assert Ints(a)[0] == Ints(b)[0] && Ints(a)[1] == Ints(b)[1];
  }

  /**
   * A refused shape never reaches `get_data`: whatever `get_data` would
   * answer, both operations return the refusal.
   */
  lemma RefusalMakesNoRequest<V, T>(g1: string -> Result<V, NaApiError>, g2: string -> Result<V, NaApiError>,
                                    one: V -> T, all: V -> seq<T>, attrs: Attrs, a: EndpointGetArgs)
    requires Compiles(attrs) && |Ints(a)| != Arity(attrs.args)
    ensures GetOne(g1, one, attrs, a) == GetOne(g2, one, attrs, a) == Err(UnknownError(Rejection(attrs.args)))
    ensures GetAll(g1, all, attrs, a) == GetAll(g2, all, attrs, a) == Err(UnknownError(Rejection(attrs.args)))
  {
  }

  /**
   * An accepted shape asks `get_data` for the bound path; its error comes
   * back unchanged (`?`), its data comes back decoded.
   */
  lemma AcceptedShapeRequests<V, T>(g: string -> Result<V, NaApiError>, one: V -> T, all: V -> seq<T>,
                                    attrs: Attrs, a: EndpointGetArgs)
    requires Compiles(attrs) && |Ints(a)| == Arity(attrs.args)
    ensures var p := Format(attrs.path, Ints(a));
      && (g(p).Err? ==> GetOne(g, one, attrs, a) == Err(g(p).error) && GetAll(g, all, attrs, a) == Err(g(p).error))
      && (g(p).Ok? ==> GetOne(g, one, attrs, a) == Ok(one(g(p).value)) && GetAll(g, all, attrs, a) == Ok(all(g(p).value)))
  {
    match a
    case NoArgs =>
    case OneInt(x) => assert Ints(a) == [x];
    case TwoInt(x, y) => assert Ints(a) == [x, y];
  }

  /** `get_one` and `get_all` make the same decision and differ only in what they decode. */
  lemma OneAndAllAgree<V, T>(g: string -> Result<V, NaApiError>, one: V -> T, all: V -> seq<T>,
                             attrs: Attrs, a: EndpointGetArgs)
    requires Compiles(attrs)
    ensures GetOne(g, one, attrs, a).Err? <==> GetAll(g, all, attrs, a).Err?
    ensures GetOne(g, one, attrs, a).Err? ==> GetOne(g, one, attrs, a).error == GetAll(g, all, attrs, a).error
  {
  }

  // ---------------------------------------------------------------------
  // Descriptors of the three template shapes used by the endpoints
  // ---------------------------------------------------------------------

  /** A descriptor `{ path: a, args: 0 }` with brace-free `a`. */
  lemma NoHoleBinding(attrs: Attrs, x: u32, y: u32)
    requires attrs.args == 0 && Literal(attrs.path)
    ensures Compiles(attrs) && Separated(attrs.path)
    ensures Bind(attrs, NoArgs) == Ok(attrs.path)
    ensures Bind(attrs, OneInt(x)) == Bind(attrs, TwoInt(x, y)) == Err(UnknownError("No args Allowed"))
  {
    Shape0(attrs.path);
  }

  /** A descriptor `{ path: a{}b, args: 1 }` with brace-free `a` and `b`, `b` non-empty and not starting with a digit. */
  lemma InnerHoleBinding(attrs: Attrs, a: string, b: string, x: u32, y: u32)
    requires attrs.args == 1 && attrs.path == a + ("{}" + b)
    requires Literal(a) && Literal(b) && b != [] && !IsDigit(b[0])
    ensures Compiles(attrs) && Separated(attrs.path)
    ensures Bind(attrs, OneInt(x)) == Ok(a + (Decimal(x) + b))
    ensures Bind(attrs, NoArgs) == Bind(attrs, TwoInt(x, y)) == Err(UnknownError("Only one arg Allowed"))
  {
    Shape1(a, b, x);
  }

  /** A descriptor `{ path: a{}, args: 1 }` with brace-free `a`. */
  lemma TrailingHoleBinding(attrs: Attrs, a: string, x: u32, y: u32)
    requires attrs.args == 1 && attrs.path == a + "{}"
    requires Literal(a)
    ensures Compiles(attrs) && Separated(attrs.path)
    ensures Bind(attrs, OneInt(x)) == Ok(a + Decimal(x))
    ensures Bind(attrs, NoArgs) == Bind(attrs, TwoInt(x, y)) == Err(UnknownError("Only one arg Allowed"))
  {
    assert "{}" + "" == "{}";
    Shape1(a, "", x);
    var d := Decimal(x);
    assert d + "" == d;
  }

  /** A descriptor `{ path: a{}b{}, args: 2 }` with brace-free `a`, `b`, and `b` non-empty and not starting with a digit. */
  lemma TwoHoleBinding(attrs: Attrs, a: string, b: string, x: u32, y: u32)
    requires attrs.args == 2 && attrs.path == a + ("{}" + (b + "{}"))
    requires Literal(a) && Literal(b) && b != [] && !IsDigit(b[0])
    ensures Compiles(attrs) && Separated(attrs.path)
    ensures Bind(attrs, TwoInt(x, y)) == Ok(a + (Decimal(x) + (b + Decimal(y))))
    ensures Bind(attrs, NoArgs) == Bind(attrs, OneInt(x)) == Err(UnknownError("Only two args Allowed"))
  {
    assert "{}" + "" == "{}";
    Shape2(a, b, "", x, y);
    var d := Decimal(y);
    assert d + "" == d;
  }
}
