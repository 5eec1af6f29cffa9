/** The descriptor in `rnaapi_lib/src/endpoints/account/invoices.rs`: `Invoices` derives only `EndpointGetAll`. */
module AccountInvoices {
  import opened Wrappers
  import opened Errors
  import opened Template
  import opened Derive

  const InvoicesGetAll := Attrs("account/invoices", 0)

  /** `Invoices::get_all`: `NoArgs` requests `account/invoices`; any other shape is refused. */
  lemma InvoicesGetAllBinding(x: u32, y: u32)
    ensures Compiles(InvoicesGetAll) && Separated(InvoicesGetAll.path)
    ensures Bind(InvoicesGetAll, NoArgs) == Ok("account/invoices")
    ensures Bind(InvoicesGetAll, OneInt(x)) == Bind(InvoicesGetAll, TwoInt(x, y)) == Err(UnknownError("No args Allowed"))
  {
    NoHoleBinding(InvoicesGetAll, x, y);
  }
}
