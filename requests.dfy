/**
 * Bound paths with the key attached: what a server lookup and the server
 * listing ask for once `apiKeyPath` has added the key.
 */
module Requests {
  import opened Wrappers
  import opened Template
  import opened Derive
  import opened Client
  import CloudServers

  /** The server listing has no query of its own: the key starts one. */
  lemma ServerListingKeyed(key: string)
    ensures ApiKeyPath(CloudServers.ServerGetAll.path, key) == "cloud/servers" + ("?key=" + key)
  {
    var p := "cloud/servers";
    assert forall i :: 0 <= i < |p| ==> p[i] != '?';
  }

  /**
   * A server lookup (`Server::get_one` binds `cloud/server?mbpkgid=<id>`)
   * already opens a query with `mbpkgid`: the key is joined with `&`
   * after the id.
   */
  lemma ServerLookupKeyed(id: u32, key: string)
    ensures ApiKeyPath("cloud/server?mbpkgid=" + Decimal(id), key)
         == "cloud/server?mbpkgid=" + (Decimal(id) + ("&key=" + key))
  {
    var a := "cloud/server?mbpkgid=";
    assert a[12] == '?';
    assert forall k :: 0 <= k < 12 ==> a[k] != '?';
  }
}
