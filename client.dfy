/**
 * The request/response rules of the Go client kept as a reference in
 * `src/client.rs`: how the API key is attached to a path, and how a reply
 * is classified as success or failure. The HTTP exchange itself is an
 * input (`Reply`), already decoded from JSON or marked as undecodable.
 */
module Client {
  import opened Wrappers

  // ---------------------------------------------------------------------
  // Attaching the key
  // ---------------------------------------------------------------------

  /** `apiKeyPath`: `key=<apiKey>` is appended as a new query parameter. */
  function ApiKeyPath(path: string, apiKey: string): (r: string)
    ensures |r| == |path| + 5 + |apiKey|
    ensures r[..|path|] == path && r[|path| + 1..] == "key=" + apiKey
    ensures r[|path|] == (if '?' in path then '&' else '?')
  {
    if '?' in path then path + "&key=" + apiKey else path + "?key=" + apiKey
  }

  /** The position of the first `c` in `s`. */
  function FirstIndex(s: string, c: char): (i: nat)
    requires c in s
    ensures i < |s| && s[i] == c && c !in s[..i]
    decreases |s|
  {
    if s[0] == c then 0
    else
      var j := FirstIndex(s[1..], c);
      assert s[..j + 1] == [s[0]] + s[1..][..j];
      1 + j
  }

  lemma FirstIndexUnique(s: string, c: char, i: nat)
    requires i < |s| && s[i] == c && c !in s[..i]
    ensures FirstIndex(s, c) == i
  {
    var j := FirstIndex(s, c);
    assert forall k :: 0 <= k < i ==> s[..i][k] == s[k];
    assert forall k :: 0 <= k < j ==> s[..j][k] == s[k];
  }

  /** The reference without its fragment: everything before the first `#`, which `url.Parse` splits off first. */
  function WithoutFragment(u: string): (v: string)
    ensures '#' !in v
    ensures |v| <= |u| && v == u[..|v|]
    ensures '#' !in u ==> v == u
    ensures '#' in u ==> |v| < |u| && u[|v|] == '#'
  {
    if '#' in u then u[..FirstIndex(u, '#')] else u
  }

  /** The path component (section 3.3 of RFC 3986): what precedes the query and the fragment. */
  function PathPart(u: string): (p: string)
    ensures '?' !in p && '#' !in p
  {
    var v := WithoutFragment(u);
    if '?' in v then v[..FirstIndex(v, '?')] else v
  }

  /**
   * The query component (section 3.4 of RFC 3986): what lies between the
   * first `?` and the fragment. Path, `?` and query make up the reference
   * up to its fragment again.
   */
  function Query(u: string): (q: Option<string>)
    ensures q.Some? ==> '#' !in q.value && PathPart(u) + "?" + q.value == WithoutFragment(u)
    ensures q.None? ==> PathPart(u) == WithoutFragment(u)
  {
    var v := WithoutFragment(u);
    if '?' in v then
      var i := FirstIndex(v, '?');
      assert v[..i] + "?" + v[i + 1..] == v;
      Some(v[i + 1..])
    else None
  }

  /** A `#` in the first part decides the fragment; what follows it is never seen. */
  lemma WithoutFragmentAfterHash(a: string, b: string)
    requires '#' in a
    ensures WithoutFragment(a + b) == WithoutFragment(a)
  {
    var i := FirstIndex(a, '#');
    assert (a + b)[..i] == a[..i];
    FirstIndexUnique(a + b, '#', i);
  }

  /** Without a `#` in the first part, the fragment is cut inside the second. */
  lemma WithoutFragmentBeforeHash(a: string, b: string)
    requires '#' !in a
    ensures WithoutFragment(a + b) == a + WithoutFragment(b)
  {
    if '#' in b {
      var j := FirstIndex(b, '#');
      assert (a + b)[..|a| + j] == a + b[..j];
      FirstIndexUnique(a + b, '#', |a| + j);
      assert (a + b)[..|a| + j] == a + WithoutFragment(b);
    } else {
      assert '#' !in a + b;
    }
  }

  /**
   * Up to the fragment, a keyed path is the path keyed with the key up to
   * its first `#`; when the path itself holds a `#`, the key lies wholly
   * inside the fragment.
   */
  lemma KeyedWithoutFragment(path: string, apiKey: string)
    ensures WithoutFragment(ApiKeyPath(path, apiKey)) ==
      if '#' in path then WithoutFragment(path) else ApiKeyPath(path, WithoutFragment(apiKey))
  {
    var sep := if '?' in path then "&key=" else "?key=";
    assert ApiKeyPath(path, apiKey) == (path + sep) + apiKey;
    if '#' in path {
      WithoutFragmentAfterHash(path, sep + apiKey);
      assert ApiKeyPath(path, apiKey) == path + (sep + apiKey);
    } else {
      assert '#' !in path + sep;
      WithoutFragmentBeforeHash(path + sep, apiKey);
    }
  }

  /** Path and query of a keyed path that holds no `#` at all. */
  lemma KeyedSplit(path: string, apiKey: string)
    requires '#' !in path && '#' !in apiKey
    ensures PathPart(ApiKeyPath(path, apiKey)) == PathPart(path)
    ensures Query(ApiKeyPath(path, apiKey)) ==
      match Query(path)
      case None => Some("key=" + apiKey)
      case Some(q) => Some(q + "&key=" + apiKey)
  {
    var r := ApiKeyPath(path, apiKey);
    assert '#' !in r;
    if '?' in path {
      var i := FirstIndex(path, '?');
      assert r[..i] == path[..i];
      FirstIndexUnique(r, '?', i);
      assert r[i + 1..] == path[i + 1..] + "&key=" + apiKey;
    } else {
      assert r[..|path|] == path;
      FirstIndexUnique(r, '?', |path|);
    }
  }

  /**
   * The key never disturbs the path component. The query becomes the old
   * query, `&key=` and the key, or `key=` and the key when there was none;
   * the key is cut at its first `#`, and when the path already holds a
   * `#` the key ends up in the fragment and the query is unchanged.
   */
  lemma ApiKeyPathQuery(path: string, apiKey: string)
    ensures PathPart(ApiKeyPath(path, apiKey)) == PathPart(path)
    ensures '#' in path ==> Query(ApiKeyPath(path, apiKey)) == Query(path)
    ensures '#' !in path ==>
      Query(ApiKeyPath(path, apiKey)) ==
        match Query(path)
        case None => Some("key=" + WithoutFragment(apiKey))
        case Some(q) => Some(q + "&key=" + WithoutFragment(apiKey))
  {
    var r := ApiKeyPath(path, apiKey);
    KeyedWithoutFragment(path, apiKey);
    if '#' in path {
      var v := WithoutFragment(path);
      assert WithoutFragment(r) == v;
      assert WithoutFragment(v) == v;
      assert PathPart(r) == PathPart(v) && Query(r) == Query(v);
      assert PathPart(path) == PathPart(v) && Query(path) == Query(v);
    } else {
      var k := WithoutFragment(apiKey);
      var r' := ApiKeyPath(path, k);
      KeyedSplit(path, k);
      assert '#' !in r';
      assert PathPart(r) == PathPart(r') && Query(r) == Query(r');
    }
  }

  // ---------------------------------------------------------------------
  // Classifying a reply
  // ---------------------------------------------------------------------

  /** A JSON value inside `fields`: `null` or anything else. */
  datatype Json = Null | NonNull(text: string)

  /** `apiResponse` after decoding; `fields` is `None` when absent or `null`. */
  datatype ApiResponse = ApiResponse(result: string, message: string, code: int,
                                     fields: Option<map<string, Json>>)

  /** What came back: the HTTP status and the decoded body, `None` when it did not decode. */
  datatype Reply = Reply(status: int, body: Option<ApiResponse>)

  datatype Verdict =
    | Accepted
    | RequestInvalid
    | TransportFailed(reason: string)
    | Undecodable
    | FieldsRejected
    | StatusRejected

  /** A code the client lets through: 200 or 422. */
  predicate Tolerated(code: int) {
    code == 200 || code == 422
  }

  /** `r.Fields["mbpkgid"] == nil`: the key is missing or holds `null`. */
  predicate MbpkgidNil(fields: map<string, Json>) {
    "mbpkgid" !in fields || fields["mbpkgid"] == Null
  }

  /** The two checks of `do`, in order, on a decoded reply. */
  function Classify(status: int, r: ApiResponse): (v: Verdict)
    ensures v == Accepted || v == FieldsRejected || v == StatusRejected
  {
    if (status == 422 || r.code == 422) && r.fields.Some? && MbpkgidNil(r.fields.value) then FieldsRejected
    else if !Tolerated(status) || !Tolerated(r.code) then StatusRejected
    else Accepted
  }

  /** `do`: a transport error, an undecodable body, or the two checks. */
  function Do(reply: Result<Reply, string>): (v: Verdict)
    ensures reply.Err? <==> v.TransportFailed?
    ensures v.Undecodable? <==> reply.Ok? && reply.value.body.None?
    ensures reply.Ok? && reply.value.body.Some? ==> v == Classify(reply.value.status, reply.value.body.value)
    ensures !v.RequestInvalid?
  {
    match reply
    case Err(e) => TransportFailed(e)
    case Ok(Reply(status, body)) =>
      match body
      case None => Undecodable
      case Some(r) => Classify(status, r)
  }

  /**
   * `get`: `newRequest` builds the request for the keyed path, and `do`
   * sends it and classifies the reply. `builds` says whether `newRequest`
   * succeeds on a keyed path (`url.Parse` rejects, for instance, a control
   * character or a bad `%` escape); a request it cannot build is never sent.
   */
  function Get(builds: string -> bool, send: string -> Result<Reply, string>,
               apiKey: string, path: string): (v: Verdict)
    ensures v.RequestInvalid? <==> !builds(ApiKeyPath(path, apiKey))
    ensures builds(ApiKeyPath(path, apiKey)) ==> (v.TransportFailed? <==> send(ApiKeyPath(path, apiKey)).Err?)
    ensures builds(ApiKeyPath(path, apiKey)) ==> v == Do(send(ApiKeyPath(path, apiKey)))
  {
    var keyed := ApiKeyPath(path, apiKey);
    if !builds(keyed) then RequestInvalid else Do(send(keyed))
  }

  /**
   * A reply is accepted exactly when status and code are both 200 or 422,
   * and a 422 among them comes with no `fields` or with a non-null
   * `mbpkgid` in them.
   */
  lemma AcceptedExactly(status: int, r: ApiResponse)
    ensures Classify(status, r) == Accepted <==>
      && Tolerated(status) && Tolerated(r.code)
      && ((status == 200 && r.code == 200) || r.fields.None? || !MbpkgidNil(r.fields.value))
  {
  }

  /** A 422 that names a non-null `mbpkgid` is let through. */
  lemma MbpkgidErrorIgnored(status: int, r: ApiResponse)
    requires Tolerated(status) && Tolerated(r.code) && (status == 422 || r.code == 422)
    requires r.fields.Some? && "mbpkgid" in r.fields.value && r.fields.value["mbpkgid"] != Null
    ensures Do(Ok(Reply(status, Some(r)))) == Accepted
  {
  }

  /** The field rule is checked first: it wins even when the other code is not tolerated. */
  lemma FieldRuleFirst(status: int, r: ApiResponse)
    requires status == 422 || r.code == 422
    ensures r.fields.Some? && MbpkgidNil(r.fields.value) <==> Classify(status, r) == FieldsRejected
  {
  }

  /** Any other status or code is refused, whatever the body says. */
  lemma UntoleratedRejected(status: int, r: ApiResponse)
    requires !Tolerated(status) || !Tolerated(r.code)
    ensures Classify(status, r) != Accepted
  {
  }

  /** A body that does not decode is reported as such, whatever the status. */
  lemma UndecodableSkipsChecks(s1: int, s2: int)
    ensures Do(Ok(Reply(s1, None))) == Do(Ok(Reply(s2, None))) == Undecodable
  {
  }

  /**
   * Only the keyed path is ever built and sent: two clients that agree on
   * it get the same verdict, and a request that cannot be built gives the
   * same verdict whatever the transport would have answered.
   */
  lemma GetSendsKeyedPath(builds: string -> bool, send1: string -> Result<Reply, string>,
                          send2: string -> Result<Reply, string>, apiKey: string, path: string)
    requires !builds(ApiKeyPath(path, apiKey)) || send1(ApiKeyPath(path, apiKey)) == send2(ApiKeyPath(path, apiKey))
    ensures Get(builds, send1, apiKey, path) == Get(builds, send2, apiKey, path)
  {
  }
}
