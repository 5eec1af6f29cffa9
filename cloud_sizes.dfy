/**
 * The descriptor in `rnaapi_lib/src/endpoints/cloud/sizes.rs`. The struct
 * there is named `Image` and derives only `EndpointGetAll`.
 */
module CloudSizes {
  import opened Wrappers
  import opened Errors
  import opened Template
  import opened Derive

  const ImageGetAll := Attrs("cloud/sizes/{}", 1)

  /** `Image::get_all`: `OneInt(n)` requests `cloud/sizes/<n>`; any other shape is refused. */
  lemma ImageGetAllBinding(n: u32, y: u32)
    ensures Compiles(ImageGetAll) && Separated(ImageGetAll.path)
    ensures Bind(ImageGetAll, OneInt(n)) == Ok("cloud/sizes/" + Decimal(n))
    ensures Bind(ImageGetAll, NoArgs) == Bind(ImageGetAll, TwoInt(n, y)) == Err(UnknownError("Only one arg Allowed"))
  {
    TrailingHoleBinding(ImageGetAll, "cloud/sizes/", n, y);
  }
}
