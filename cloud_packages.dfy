/** The descriptor in `rnaapi_lib/src/endpoints/cloud/packages.rs`: `Package` derives only `EndpointGetAll`. */
module CloudPackages {
  import opened Wrappers
  import opened Errors
  import opened Template
  import opened Derive

  const PackageGetAll := Attrs("cloud/packages", 0)

  /** `Package::get_all`: `NoArgs` requests `cloud/packages`; any other shape is refused. */
  lemma PackageGetAllBinding(x: u32, y: u32)
    ensures Compiles(PackageGetAll) && Separated(PackageGetAll.path)
    ensures Bind(PackageGetAll, NoArgs) == Ok("cloud/packages")
    ensures Bind(PackageGetAll, OneInt(x)) == Bind(PackageGetAll, TwoInt(x, y)) == Err(UnknownError("No args Allowed"))
  {
    NoHoleBinding(PackageGetAll, x, y);
  }
}
