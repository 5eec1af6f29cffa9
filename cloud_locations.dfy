/** The descriptor in `rnaapi_lib/src/endpoints/cloud/locations.rs`: `Location` derives only `EndpointGetAll`. */
module CloudLocations {
  import opened Wrappers
  import opened Errors
  import opened Template
  import opened Derive

  const LocationGetAll := Attrs("cloud/locations", 0)

  /** `Location::get_all`: `NoArgs` requests `cloud/locations`; any other shape is refused. */
  lemma LocationGetAllBinding(x: u32, y: u32)
    ensures Compiles(LocationGetAll) && Separated(LocationGetAll.path)
    ensures Bind(LocationGetAll, NoArgs) == Ok("cloud/locations")
    ensures Bind(LocationGetAll, OneInt(x)) == Bind(LocationGetAll, TwoInt(x, y)) == Err(UnknownError("No args Allowed"))
  {
    NoHoleBinding(LocationGetAll, x, y);
  }
}
