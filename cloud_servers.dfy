/**
 * The descriptors in `rnaapi_lib/src/endpoints/cloud/servers.rs`.
 * `SrvStatus` derives only `EndpointGetOne`; `IPv4` and `IPv6` derive
 * only `EndpointGetAll`.
 */
module CloudServers {
  import opened Wrappers
  import opened Errors
  import opened Template
  import opened Derive

  const ServerGetAll := Attrs("cloud/servers", 0)
  const ServerGetOne := Attrs("cloud/server?mbpkgid={}", 1)
  const SrvJobGetAll := Attrs("cloud/server/{}/jobs", 1)
  const SrvJobGetOne := Attrs("cloud/server/{}/jobs/{}", 2)
  const SrvStatusGetOne := Attrs("cloud/status/{}", 1)
  const IPv4GetAll := Attrs("cloud/ipv4?mbpkgid={}", 1)
  const IPv6GetAll := Attrs("cloud/ipv6?mbpkgid={}", 1)

  /** `Server::get_all`: `NoArgs` requests `cloud/servers`; any other shape is refused. */
  lemma ServerGetAllBinding(x: u32, y: u32)
    ensures Compiles(ServerGetAll) && Separated(ServerGetAll.path)
    ensures Bind(ServerGetAll, NoArgs) == Ok("cloud/servers")
    ensures Bind(ServerGetAll, OneInt(x)) == Bind(ServerGetAll, TwoInt(x, y)) == Err(UnknownError("No args Allowed"))
  {
    NoHoleBinding(ServerGetAll, x, y);
  }

  /** `Server::get_one`: `OneInt(id)` requests `cloud/server?mbpkgid=<id>`; any other shape is refused. */
  lemma ServerGetOneBinding(id: u32, y: u32)
    ensures Compiles(ServerGetOne) && Separated(ServerGetOne.path)
    ensures Bind(ServerGetOne, OneInt(id)) == Ok("cloud/server?mbpkgid=" + Decimal(id))
    ensures Bind(ServerGetOne, NoArgs) == Bind(ServerGetOne, TwoInt(id, y)) == Err(UnknownError("Only one arg Allowed"))
  {
    TrailingHoleBinding(ServerGetOne, "cloud/server?mbpkgid=", id, y);
  }

  lemma DecimalFortyTwo()
    ensures Decimal(42) == "42"
  {
    assert Decimal(4) == [DigitChar(4)];
    assert DigitChar(4) == '4';
    assert DigitChar(2) == '2';
  }

  /**
   * Looking up server 42 requests `cloud/server?mbpkgid=42`. The id is a
   * parameter fixed by the precondition, because a literal argument makes
   * the verifier unfold the template character by character.
   */
  lemma ServerGetOneExample(id: u32)
    requires id == 42
    ensures Compiles(ServerGetOne)
    ensures Bind(ServerGetOne, OneInt(id)).Ok?
    ensures Bind(ServerGetOne, OneInt(id)).value == "cloud/server?mbpkgid=42"
  {
    ServerGetOneBinding(id, 0);
    DecimalFortyTwo();
    var d := Decimal(id);
    assert "cloud/server?mbpkgid=" + d == "cloud/server?mbpkgid=42";
  }

  /** `SrvJob::get_all`: `OneInt(m)` requests the jobs of server `m`. */
  lemma SrvJobGetAllBinding(m: u32, y: u32)
    ensures Compiles(SrvJobGetAll) && Separated(SrvJobGetAll.path)
    ensures Bind(SrvJobGetAll, OneInt(m)) == Ok("cloud/server/" + (Decimal(m) + "/jobs"))
    ensures Bind(SrvJobGetAll, NoArgs) == Bind(SrvJobGetAll, TwoInt(m, y)) == Err(UnknownError("Only one arg Allowed"))
  {
    InnerHoleBinding(SrvJobGetAll, "cloud/server/", "/jobs", m, y);
  }

  /** `SrvJob::get_one`: `TwoInt(m, j)` requests job `j` of server `m`, server id first. */
  lemma SrvJobGetOneBinding(m: u32, j: u32)
    ensures Compiles(SrvJobGetOne) && Separated(SrvJobGetOne.path)
    ensures Bind(SrvJobGetOne, TwoInt(m, j)) == Ok("cloud/server/" + (Decimal(m) + ("/jobs/" + Decimal(j))))
    ensures Bind(SrvJobGetOne, NoArgs) == Bind(SrvJobGetOne, OneInt(m)) == Err(UnknownError("Only two args Allowed"))
  {
    TwoHoleBinding(SrvJobGetOne, "cloud/server/", "/jobs/", m, j);
  }

  /** `SrvStatus::get_one`: `OneInt(m)` requests `cloud/status/<m>`. */
  lemma SrvStatusGetOneBinding(m: u32, y: u32)
    ensures Compiles(SrvStatusGetOne) && Separated(SrvStatusGetOne.path)
    ensures Bind(SrvStatusGetOne, OneInt(m)) == Ok("cloud/status/" + Decimal(m))
    ensures Bind(SrvStatusGetOne, NoArgs) == Bind(SrvStatusGetOne, TwoInt(m, y)) == Err(UnknownError("Only one arg Allowed"))
  {
    TrailingHoleBinding(SrvStatusGetOne, "cloud/status/", m, y);
  }

  /** `IPv4::get_all`: `OneInt(m)` requests `cloud/ipv4?mbpkgid=<m>`. */
  lemma IPv4GetAllBinding(m: u32, y: u32)
    ensures Compiles(IPv4GetAll) && Separated(IPv4GetAll.path)
    ensures Bind(IPv4GetAll, OneInt(m)) == Ok("cloud/ipv4?mbpkgid=" + Decimal(m))
    ensures Bind(IPv4GetAll, NoArgs) == Bind(IPv4GetAll, TwoInt(m, y)) == Err(UnknownError("Only one arg Allowed"))
  {
    TrailingHoleBinding(IPv4GetAll, "cloud/ipv4?mbpkgid=", m, y);
  }

  /** `IPv6::get_all`: `OneInt(m)` requests `cloud/ipv6?mbpkgid=<m>`. */
  lemma IPv6GetAllBinding(m: u32, y: u32)
    ensures Compiles(IPv6GetAll) && Separated(IPv6GetAll.path)
    ensures Bind(IPv6GetAll, OneInt(m)) == Ok("cloud/ipv6?mbpkgid=" + Decimal(m))
    ensures Bind(IPv6GetAll, NoArgs) == Bind(IPv6GetAll, TwoInt(m, y)) == Err(UnknownError("Only one arg Allowed"))
  {
    TrailingHoleBinding(IPv6GetAll, "cloud/ipv6?mbpkgid=", m, y);
  }
}
