/** The descriptors in `rnaapi_lib/src/endpoints/account/ssh.rs`: `SSHKeys` derives both operations. */
module AccountSsh {
  import opened Wrappers
  import opened Errors
  import opened Template
  import opened Derive

  const SSHKeysGetOne := Attrs("account/ssh_key/{}", 1)
  const SSHKeysGetAll := Attrs("account/ssh_keys", 0)

  /** `SSHKeys::get_one`: `OneInt(k)` requests `account/ssh_key/<k>`; any other shape is refused. */
  lemma SSHKeysGetOneBinding(k: u32, y: u32)
    ensures Compiles(SSHKeysGetOne) && Separated(SSHKeysGetOne.path)
    ensures Bind(SSHKeysGetOne, OneInt(k)) == Ok("account/ssh_key/" + Decimal(k))
    ensures Bind(SSHKeysGetOne, NoArgs) == Bind(SSHKeysGetOne, TwoInt(k, y)) == Err(UnknownError("Only one arg Allowed"))
  {
    TrailingHoleBinding(SSHKeysGetOne, "account/ssh_key/", k, y);
  }

  /** `SSHKeys::get_all`: `NoArgs` requests `account/ssh_keys`; any other shape is refused. */
  lemma SSHKeysGetAllBinding(x: u32, y: u32)
    ensures Compiles(SSHKeysGetAll) && Separated(SSHKeysGetAll.path)
    ensures Bind(SSHKeysGetAll, NoArgs) == Ok("account/ssh_keys")
    ensures Bind(SSHKeysGetAll, OneInt(x)) == Bind(SSHKeysGetAll, TwoInt(x, y)) == Err(UnknownError("No args Allowed"))
  {
    NoHoleBinding(SSHKeysGetAll, x, y);
  }
}
