/**
 * The hand-written `EndpointGet for Invoices` in
 * `src/endpoints/account/invoices.rs`: the older form of the rule the
 * derive now generates, with a fixed path and its own refusal message.
 */
module LegacyInvoices {
  import opened Wrappers
  import opened Errors
  import Derive
  import AccountInvoices

  const InvoicesPath := "account/invoices"

  /** `Invoices::get_all`: only `NoArgs` is accepted. */
  function GetAll<V, T>(getData: string -> Result<V, NaApiError>, decode: V -> seq<T>,
                        a: Derive.EndpointGetArgs): (r: Result<seq<T>, NaApiError>)
    ensures r.Ok? <==> a.NoArgs? && getData(InvoicesPath).Ok?
  {
    match a
    case NoArgs =>
      (match getData(InvoicesPath)
       case Err(e) => Err(e)
       case Ok(data) => Ok(decode(data)))
    case _ => Err(UnknownError("No arguments allowed"))
  }

  /** Only `account/invoices` is ever requested: callers that agree on it get the same answer. */
  lemma RequestsOnlyInvoicesPath<V, T>(g1: string -> Result<V, NaApiError>, g2: string -> Result<V, NaApiError>,
                                       decode: V -> seq<T>, a: Derive.EndpointGetArgs)
    requires g1(InvoicesPath) == g2(InvoicesPath)
    ensures GetAll(g1, decode, a) == GetAll(g2, decode, a)
    ensures !a.NoArgs? ==> GetAll(g1, decode, a) == Err(UnknownError("No arguments allowed"))
  {
  }

  /**
   * The hand-written operation and the derived `Invoices::get_all` accept
   * the same shape and request the same path; they differ only in the
   * refusal message ("No arguments allowed" against "No args Allowed").
   */
  lemma AgreesWithDerived<V, T>(g: string -> Result<V, NaApiError>, decode: V -> seq<T>, a: Derive.EndpointGetArgs)
    ensures Derive.Compiles(AccountInvoices.InvoicesGetAll)
    ensures a.NoArgs? ==> GetAll(g, decode, a) == Derive.GetAll(g, decode, AccountInvoices.InvoicesGetAll, a)
    ensures !a.NoArgs? ==> && GetAll(g, decode, a) == Err(UnknownError("No arguments allowed"))
                           && Derive.GetAll(g, decode, AccountInvoices.InvoicesGetAll, a) == Err(UnknownError("No args Allowed"))
  {
    AccountInvoices.InvoicesGetAllBinding(0, 0);
  }
}
