/**
 * The resource types of `rnaapi_lib/src/endpoints` and the descriptors
 * their derives carry. A type has a get-one descriptor, a get-all
 * descriptor, both, or (for none of these types) neither; an absent one
 * means no binding is generated for that operation.
 */
module Endpoints {
  import opened Wrappers
  import opened Template
  import opened Derive
  import CloudServers
  import AccountSsh
  import AccountInvoices
  import CloudPackages
  import CloudLocations
  import CloudSizes

  datatype Resource = Server | SrvJob | SrvStatus | IPv4 | IPv6 | SSHKeys | Invoices | Package | Location | Image

  /** The `#[getone(...)]` descriptor of a type that derives `EndpointGetOne`; every lookup takes at least one id. */
  function GetOneAttrs(r: Resource): (d: Option<Attrs>)
    ensures d.Some? ==> d.value.args >= 1
  {
    match r
    case Server => Some(CloudServers.ServerGetOne)
    case SrvJob => Some(CloudServers.SrvJobGetOne)
    case SrvStatus => Some(CloudServers.SrvStatusGetOne)
    case SSHKeys => Some(AccountSsh.SSHKeysGetOne)
    case _ => None
  }

  /** The `#[getall(...)]` descriptor of a type that derives `EndpointGetAll`; no listing takes more than one integer. */
  function GetAllAttrs(r: Resource): (d: Option<Attrs>)
    ensures d.Some? ==> d.value.args <= 1
  {
    match r
    case Server => Some(CloudServers.ServerGetAll)
    case SrvJob => Some(CloudServers.SrvJobGetAll)
    case SrvStatus => None
    case IPv4 => Some(CloudServers.IPv4GetAll)
    case IPv6 => Some(CloudServers.IPv6GetAll)
    case SSHKeys => Some(AccountSsh.SSHKeysGetAll)
    case Invoices => Some(AccountInvoices.InvoicesGetAll)
    case Package => Some(CloudPackages.PackageGetAll)
    case Location => Some(CloudLocations.LocationGetAll)
    case Image => Some(CloudSizes.ImageGetAll)
  }

  /**
   * A descriptor whose generated code compiles, whose `{}` count is its
   * `args` value exactly, and whose filled-in paths can be read back.
   */
  predicate Exact(attrs: Attrs) {
    Compiles(attrs) && Separated(attrs.path) && Holes(attrs.path) == attrs.args
  }

  lemma ExactFrom(attrs: Attrs)
    requires Compiles(attrs) && Separated(attrs.path) && attrs.args <= 2
    ensures Exact(attrs)
  {
  }

  /** Every get-one descriptor has as many placeholders as its `args`. */
  lemma GetOneExact(r: Resource)
    ensures GetOneAttrs(r).Some? ==> Exact(GetOneAttrs(r).value)
  {
    match r
    case Server =>
      CloudServers.ServerGetOneBinding(0, 0);
      ExactFrom(CloudServers.ServerGetOne);
    case SrvJob =>
      CloudServers.SrvJobGetOneBinding(0, 0);
      ExactFrom(CloudServers.SrvJobGetOne);
    case SrvStatus =>
      CloudServers.SrvStatusGetOneBinding(0, 0);
      ExactFrom(CloudServers.SrvStatusGetOne);
    case SSHKeys =>
      AccountSsh.SSHKeysGetOneBinding(0, 0);
      ExactFrom(AccountSsh.SSHKeysGetOne);
    case _ =>
  }

  /** Every get-all descriptor has as many placeholders as its `args`. */
  lemma GetAllExact(r: Resource)
    ensures GetAllAttrs(r).Some? ==> Exact(GetAllAttrs(r).value)
  {
    match r
    case Server =>
      CloudServers.ServerGetAllBinding(0, 0);
      ExactFrom(CloudServers.ServerGetAll);
    case SrvJob =>
      CloudServers.SrvJobGetAllBinding(0, 0);
      ExactFrom(CloudServers.SrvJobGetAll);
    case SrvStatus =>
    case IPv4 =>
      CloudServers.IPv4GetAllBinding(0, 0);
      ExactFrom(CloudServers.IPv4GetAll);
    case IPv6 =>
      CloudServers.IPv6GetAllBinding(0, 0);
      ExactFrom(CloudServers.IPv6GetAll);
    case SSHKeys =>
      AccountSsh.SSHKeysGetAllBinding(0, 0);
      ExactFrom(AccountSsh.SSHKeysGetAll);
    case Invoices =>
      AccountInvoices.InvoicesGetAllBinding(0, 0);
      ExactFrom(AccountInvoices.InvoicesGetAll);
    case Package =>
      CloudPackages.PackageGetAllBinding(0, 0);
      ExactFrom(CloudPackages.PackageGetAll);
    case Location =>
      CloudLocations.LocationGetAllBinding(0, 0);
      ExactFrom(CloudLocations.LocationGetAll);
    case Image =>
      CloudSizes.ImageGetAllBinding(0, 0);
      ExactFrom(CloudSizes.ImageGetAll);
  }

  /** Which types have which operation. */
  lemma Capabilities(r: Resource)
    ensures GetOneAttrs(r).Some? <==> r in {Server, SrvJob, SrvStatus, SSHKeys}
    ensures GetAllAttrs(r).Some? <==> r != SrvStatus
  {
  }

  /**
   * For every type and operation, a call whose shape does not match the
   * descriptor is refused, and a call whose shape matches requests a path
   * from which the caller's integers read back in order.
   */
  lemma EveryBindingRoundTrips(r: Resource, one: bool, a: EndpointGetArgs)
    requires (if one then GetOneAttrs(r) else GetAllAttrs(r)).Some?
    ensures var attrs := (if one then GetOneAttrs(r) else GetAllAttrs(r)).value;
      && Compiles(attrs)
      && (Bind(attrs, a).Ok? <==> |Ints(a)| == attrs.args)
      && (Bind(attrs, a).Ok? ==> Match(attrs.path, Bind(attrs, a).value) == Some(Ints(a)))
  {
    var attrs := (if one then GetOneAttrs(r) else GetAllAttrs(r)).value;
    GetOneExact(r);
    GetAllExact(r);
    if |Ints(a)| == Arity(attrs.args) {
      BindFillsTemplate(attrs, a);
    }
  }
}
