# rnaapi endpoint bindings, modelled in Dafny

This project models the part of the rnaapi client for the NetActuate API
that decides which request a call makes. It covers four pieces.

- The `EndpointGetOne` and `EndpointGetAll` derive macros. For a type whose
  `#[getone(path, args)]` or `#[getall(path, args)]` attribute gives a path
  template and an arity, the derive generates a `get_one` or `get_all`. That
  function fills the template with the caller's integers and asks the
  client's `get_data` for the path. A call with the wrong argument shape
  gets a fixed `UnknownError` and makes no request.
- The descriptors declared by the library's endpoint types: servers, server
  jobs, server status, IPv4 and IPv6, SSH keys, invoices, packages,
  locations and sizes. It also covers the older hand-written
  `Invoices::get_all`.
- The Go client that `src/client.rs` keeps as a reference. This is how the
  API key is attached to a path (`apiKeyPath`) and how a reply is classified
  as success or failure (`do`).
- The configuration: `set_key` and `Settings::new`, which read the key from
  `API_KEY` and fix the API URL.

Modules:

- `Template` models `format!` on plain `{}` templates filled with the
  decimal form of `u32` values. Its `Match` is the inverse reading, used to
  state that the integers go into the placeholders in order.
- `Derive` holds the generated decision (`Bind`) and the generated
  operations (`GetOne`, `GetAll`). `get_data` and the JSON decoding are
  parameters of these operations.
- `CloudServers`, `AccountSsh`, `AccountInvoices`, `CloudPackages`,
  `CloudLocations` and `CloudSizes` hold one descriptor per attribute, with
  a lemma giving each binding's accepted path and its refusals.
- `Endpoints` is the registry of which type has which operation.
- `LegacyInvoices` is the hand-written invoices operation.
- `Client` and `Requests` model `apiKeyPath` and `do`.
- `Config` models `set_key` and `Settings::new`.
- `Errors` and `Wrappers` hold the error type and `Option`/`Result`.

## Model

| member | source | states |
|---|---|---|
| Template.Decimal | rnaapi_derive/src/lib.rs:60-61 | the `Display` form of an integer that fills a `{}`: non-empty, all digits, no leading zero |
| Template.ValueOfDecimal | rnaapi_derive/src/lib.rs:60-61 | the decimal form of `n` reads back as `n` |
| Template.DigitRunOf | rnaapi_derive/src/lib.rs:60-61 | a digit run followed by the end or a non-digit is read whole |
| Template.Format | rnaapi_derive/src/lib.rs:139-140 | `format!` on the template: a plain template leaves no brace in the output, and the output is no shorter than the template less one character per `{}` (each `{}` becomes at least one character) |
| Template.FormatNoHoles | rnaapi_derive/src/lib.rs:39-41 | `format!` of a template with no placeholder yields the template itself |
| Template.MatchFormat | rnaapi_derive/src/lib.rs:81-82 | round trip: reading a formatted path against its template gives back the integers, in placeholder order |
| Template.FormatInjective | rnaapi_derive/src/lib.rs:160-161 | distinct integer lists give distinct formatted paths |
| Template.LiteralPrefix | rnaapi_derive/src/lib.rs:60-61 | brace-free text in front of a template adds no placeholder and keeps it plain and separated |
| Template.LiteralPrefixFormat | rnaapi_derive/src/lib.rs:60-61 | brace-free text in front of a template is copied verbatim to the front of the output |
| Template.HolePrefix | rnaapi_derive/src/lib.rs:60-61 | a leading `{}` takes the first integer and passes the rest to the remainder of the template |
| Template.Shape0 | rnaapi_derive/src/lib.rs:39-41 | a brace-free template is plain, separated, has no placeholder and formats to itself |
| Template.Prepend | rnaapi_derive/src/lib.rs:60-61 | literal text and a `{}` in front of a well-formed template give a well-formed template whose output is the literal, the first integer, then the rest |
| Template.Shape1 | rnaapi_derive/src/lib.rs:60-61 | `a{}b` has one placeholder and formats to `a`, the integer, then `b` |
| Template.Shape2 | rnaapi_derive/src/lib.rs:160-161 | `a{}b{}c` has two placeholders and formats with the first integer before `b` and the second after it |
| Derive.Arity | rnaapi_derive/src/lib.rs:30-93 | the generator has only three bodies: `args` 0, 1, and every other value takes the two-integer body |
| Derive.Bind | rnaapi_derive/src/lib.rs:109-172 | the generated `match`: accepted exactly when the shape carries as many integers as the body expects; otherwise `UnknownError` with the message for that `args` |
| Derive.GetOne | rnaapi_derive/src/lib.rs:109-172 | the generated `get_one` succeeds exactly when the shape matches `args` and `get_data` answers the filled-in path |
| Derive.GetAll | rnaapi_derive/src/lib.rs:30-93 | the generated `get_all` succeeds exactly when the shape matches `args` and `get_data` answers the filled-in path |
| Derive.BindFillsTemplate | rnaapi_derive/src/lib.rs:139-140 | an accepted shape requests the template filled with its integers, and the integers read back from the path in the caller's order |
| Derive.BindVerbatim | rnaapi_derive/src/lib.rs:118-120 | with `args = 0`, `NoArgs` requests the template verbatim |
| Derive.BindInjective | rnaapi_derive/src/lib.rs:151-161 | two accepted shapes that request the same path are the same shape |
| Derive.RefusalMakesNoRequest | rnaapi_derive/src/lib.rs:44-46 | a refused shape returns its refusal from both `get_one` and `get_all`, whatever `get_data` would answer |
| Derive.AcceptedShapeRequests | rnaapi_derive/src/lib.rs:40-42 | an accepted shape asks `get_data` for the bound path; its error is returned unchanged and its data decoded (one value, or the list) |
| Derive.OneAndAllAgree | rnaapi_derive/src/lib.rs:19-173 | the `get_one` and `get_all` generators fail in the same cases with the same error |
| Derive.NoHoleBinding | rnaapi_derive/src/lib.rs:109-129 | a brace-free descriptor with `args = 0` compiles, requests its path verbatim on `NoArgs`, and refuses the other shapes with "No args Allowed" |
| Derive.InnerHoleBinding | rnaapi_derive/src/lib.rs:130-150 | a descriptor `a{}b` with `args = 1` requests `a`, the integer, then `b`, and refuses the other shapes with "Only one arg Allowed" |
| Derive.TrailingHoleBinding | rnaapi_derive/src/lib.rs:130-150 | a descriptor `a{}` with `args = 1` requests `a` then the integer, and refuses the other shapes with "Only one arg Allowed" |
| Derive.TwoHoleBinding | rnaapi_derive/src/lib.rs:151-172 | a descriptor `a{}b{}` with `args = 2` requests `a`, the first integer, `b`, then the second, and refuses the other shapes with "Only two args Allowed" |
| CloudServers.ServerGetAllBinding | rnaapi_lib/src/endpoints/cloud/servers.rs:24 | `Server::get_all` requests exactly `cloud/servers` on `NoArgs` and refuses the other shapes with "No args Allowed" |
| CloudServers.ServerGetOneBinding | rnaapi_lib/src/endpoints/cloud/servers.rs:25 | `Server::get_one` with `OneInt(id)` requests `cloud/server?mbpkgid=` followed by the decimal `id`; the other shapes get "Only one arg Allowed" |
| CloudServers.ServerGetOneExample | rnaapi_lib/src/endpoints/cloud/servers.rs:25 | `Server::get_one` with `OneInt(42)` requests exactly `cloud/server?mbpkgid=42` |
| CloudServers.SrvJobGetAllBinding | rnaapi_lib/src/endpoints/cloud/servers.rs:60 | `SrvJob::get_all` with `OneInt(m)` requests `cloud/server/<m>/jobs` |
| CloudServers.SrvJobGetOneBinding | rnaapi_lib/src/endpoints/cloud/servers.rs:61 | `SrvJob::get_one` with `TwoInt(m, j)` requests `cloud/server/<m>/jobs/<j>`, server id first; the other shapes get "Only two args Allowed" |
| CloudServers.SrvStatusGetOneBinding | rnaapi_lib/src/endpoints/cloud/servers.rs:75-77 | `SrvStatus::get_one` with `OneInt(m)` requests `cloud/status/<m>` |
| CloudServers.IPv4GetAllBinding | rnaapi_lib/src/endpoints/cloud/servers.rs:86-88 | `IPv4::get_all` with `OneInt(m)` requests `cloud/ipv4?mbpkgid=<m>` |
| CloudServers.IPv6GetAllBinding | rnaapi_lib/src/endpoints/cloud/servers.rs:103-105 | `IPv6::get_all` with `OneInt(m)` requests `cloud/ipv6?mbpkgid=<m>` |
| AccountSsh.SSHKeysGetOneBinding | rnaapi_lib/src/endpoints/account/ssh.rs:24 | `SSHKeys::get_one` with `OneInt(k)` requests `account/ssh_key/<k>`; the other shapes get "Only one arg Allowed" |
| AccountSsh.SSHKeysGetAllBinding | rnaapi_lib/src/endpoints/account/ssh.rs:25 | `SSHKeys::get_all` requests `account/ssh_keys` verbatim; the other shapes get "No args Allowed" |
| AccountInvoices.InvoicesGetAllBinding | rnaapi_lib/src/endpoints/account/invoices.rs:15-17 | `Invoices::get_all` requests `account/invoices` verbatim; the other shapes get "No args Allowed" |
| CloudPackages.PackageGetAllBinding | rnaapi_lib/src/endpoints/cloud/packages.rs:11-12 | `Package::get_all` requests `cloud/packages` verbatim; the other shapes get "No args Allowed" |
| CloudLocations.LocationGetAllBinding | rnaapi_lib/src/endpoints/cloud/locations.rs:11-13 | `Location::get_all` requests `cloud/locations` verbatim; the other shapes get "No args Allowed" |
| CloudSizes.ImageGetAllBinding | rnaapi_lib/src/endpoints/cloud/sizes.rs:10-13 | `Image::get_all` with `OneInt(n)` requests `cloud/sizes/<n>`; the other shapes get "Only one arg Allowed" |
| Endpoints.GetOneAttrs | rnaapi_lib/src/endpoints/cloud/servers.rs:14-77 | the get-one descriptors of `Server`, `SrvJob`, `SrvStatus` (here) and `SSHKeys` (account/ssh.rs:24): every lookup takes at least one integer |
| Endpoints.GetAllAttrs | rnaapi_lib/src/endpoints/cloud/servers.rs:24-105 | the get-all descriptors of `Server`, `SrvJob`, `IPv4`, `IPv6` (here), `SSHKeys` (account/ssh.rs:25), `Invoices` (account/invoices.rs:17), `Package` (cloud/packages.rs:12), `Location` (cloud/locations.rs:13) and `Image` (cloud/sizes.rs:12): no listing takes more than one integer |
| Endpoints.ExactFrom | rnaapi_derive/src/lib.rs:5-17 | a descriptor that compiles with `args` at most 2 has exactly `args` placeholders |
| Endpoints.GetOneExact | rnaapi_lib/src/endpoints/cloud/servers.rs:24-105 | every get-one descriptor, here and in account/ssh.rs, compiles, has exactly as many `{}` as its `args`, and is separated (each `{}` followed by the end or a non-digit), the condition under which `Endpoints.EveryBindingRoundTrips` reads its integers back |
| Endpoints.GetAllExact | rnaapi_lib/src/endpoints/cloud/servers.rs:24-105 | every get-all descriptor, here and in account/ssh.rs, account/invoices.rs, cloud/packages.rs, cloud/locations.rs and cloud/sizes.rs, compiles, has exactly as many `{}` as its `args`, and is separated (each `{}` followed by the end or a non-digit), the condition under which `Endpoints.EveryBindingRoundTrips` reads its integers back |
| Endpoints.Capabilities | rnaapi_lib/src/endpoints/cloud/servers.rs:75-105 | only `Server`, `SrvJob`, `SrvStatus` and `SSHKeys` have `get_one`; every type but `SrvStatus` has `get_all`, as the derive lists here and in account/ssh.rs, account/invoices.rs, cloud/packages.rs, cloud/locations.rs and cloud/sizes.rs declare |
| Endpoints.EveryBindingRoundTrips | rnaapi_derive/src/lib.rs:96-173 | for every declared binding, a call is accepted exactly when its shape has `args` integers, and then the integers read back from the requested path |
| LegacyInvoices.GetAll | src/endpoints/account/invoices.rs:43-58 | the hand-written `get_all` succeeds exactly on `NoArgs` when `get_data` answers `account/invoices` |
| LegacyInvoices.RequestsOnlyInvoicesPath | src/endpoints/account/invoices.rs:46-57 | only `account/invoices` is ever requested; every shape but `NoArgs` gets "No arguments allowed" |
| LegacyInvoices.AgreesWithDerived | src/endpoints/account/invoices.rs:46-57 | the hand-written and the derived `get_all` agree on `NoArgs`, and differ only in the refusal message on other shapes |
| Client.ApiKeyPath | src/client.rs:58-63 | the result is the unchanged path, then `&` when the path holds `?` and `?` otherwise, then `key=` and the key |
| Client.FirstIndex | src/client.rs:108 | the position of the first occurrence of a character |
| Client.FirstIndexUnique | src/client.rs:108 | any position holding the character with none before it is the first occurrence |
| Client.WithoutFragment | src/client.rs:108 | the reference up to its first `#`, as `url.Parse` splits the fragment off first: a prefix holding no `#`, followed in the reference by a `#` whenever the reference has one |
| Client.PathPart | src/client.rs:108 | the path component of a reference: no `?`, no `#` |
| Client.Query | src/client.rs:108 | the query component: between the first `?` and the fragment; path, `?` and query reassemble the reference up to its fragment |
| Client.WithoutFragmentAfterHash | src/client.rs:108 | text appended after a `#` never reaches the path or the query |
| Client.WithoutFragmentBeforeHash | src/client.rs:108 | text appended to a `#`-free prefix has its fragment cut inside it |
| Client.KeyedWithoutFragment | src/client.rs:58-63 | up to the fragment, a keyed path is the path keyed with the key up to its first `#`; a path holding `#` keeps the key in its fragment |
| Client.KeyedSplit | src/client.rs:58-63 | for a path and a key without `#`, the key leaves the path component alone and is appended to the query with `&`, or starts the query |
| Client.ApiKeyPathQuery | src/client.rs:58-63 | the key leaves the path component unchanged; the query becomes the old query, `&key=` and the key up to its first `#` (or `key=` and that key when there was no query); a path that already holds `#` keeps its query and the key lands in the fragment |
| Client.Classify | src/client.rs:162-174 | a decoded reply is always classified as accepted, a fields error or a status error |
| Client.Do | src/client.rs:141-175 | a transport error is reported as such, an undecodable body exactly when the reply did not decode, and a decoded reply gets the verdict of the two checks |
| Client.AcceptedExactly | src/client.rs:161-174 | a reply is accepted exactly when status and code are both 200 or 422, and any 422 comes with no `fields` or a non-null `mbpkgid` |
| Client.MbpkgidErrorIgnored | src/client.rs:161-174 | a 422 whose `fields` holds a non-null `mbpkgid` is accepted |
| Client.FieldRuleFirst | src/client.rs:162-168 | when status or code is 422, the fields error is reported exactly when `fields` is present with a nil `mbpkgid`, before any status check |
| Client.UntoleratedRejected | src/client.rs:170-172 | a status or code other than 200 and 422 is never accepted |
| Client.UndecodableSkipsChecks | src/client.rs:157-159 | a body that does not decode is an error whatever the status |
| Client.Get | src/client.rs:73-79 | `get` returns the request error exactly when `newRequest` cannot build the keyed path; otherwise it fails in transport exactly when sending the keyed path does, and its verdict is `do`'s classification of the reply to the keyed path |
| Client.GetSendsKeyedPath | src/client.rs:107-115 | only the keyed path is built and sent: the verdict depends on the transport only at that path, and not at all when the request cannot be built |
| Requests.ServerListingKeyed | src/client.rs:58-63 | the server listing `cloud/servers` is sent as `cloud/servers?key=<key>` |
| Requests.ServerLookupKeyed | src/client.rs:58-63 | a server lookup is sent as `cloud/server?mbpkgid=<id>&key=<key>` |
| Config.SetKey | src/config.rs:28-46 | unset gives "API_KEY not set in ENV", empty gives "API_KEY is set but empty!", and otherwise the value is the key, unchanged |
| Config.NewSettings | src/config.rs:20-25 | succeeds exactly when `set_key` does, with that key and the fixed URL; otherwise passes the key error on |
| Config.SetKeyErrorsDistinct | src/config.rs:31-43 | the unset and the empty cases give different errors |

## Left out

- The HTTP transport is left out. This covers `NaClient`, `reqwest`, the resolver, `client.Do` and reading the body. A transport failure is an input to `Client.Do`.
- Client.Get: whether `newRequest` can build the request (`url.Parse`, `ResolveReference`, `http.NewRequest`) is the parameter `builds`, not a model of Go's URL grammar; the error text it returns is not modelled.
- `get_data` is not part of this model, because its definition is not available. It is a function parameter of `Derive.GetOne`, `Derive.GetAll` and `LegacyInvoices.GetAll`.
- JSON decoding is a parameter. This covers `serde_json::from_value(...).unwrap()` and Go's `json.Unmarshal`. The panics on bad data are not modelled.
- Go's `json.Unmarshal` failure is an undecodable body (`Reply.body == None`). `r.Fields == nil` is `fields == None`.
- The `Data` field of `apiResponse` is not modelled, since it is not used by the decision.
- The error text of `do` is not modelled. It is built by iterating a Go map in unspecified order, so the model keeps only which kind of error results.
- `debugLog`, header setting and `ResolveReference` against the base endpoint URL are left out. `Client.PathPart` and `Client.Query` describe the relative reference before it is resolved; other parts of `url.Parse` (a scheme, an authority, percent-decoding) are not modelled.
- `dotenv()` and the real environment read are left out. The outcome of reading `API_KEY` is the input of `Config.SetKey`, and a value that is not Unicode counts as unset, as `std::env::var` reports both as an error.
- Rust `format!` escapes (`{{`, `}}`) and named or positional placeholders are left out. No template uses them, so templates are plain `{}` only.
- Derive.Bind: requires that the template's placeholder count matches the arity of the generated body. A descriptor that does not satisfy this is rejected by the Rust compiler at `format!`, so no such binding exists at run time.
- Default trait methods for operations a type does not derive are left out. They are not part of the modelled sources; `Endpoints.GetOneAttrs` and `Endpoints.GetAllAttrs` return `None` for those operations.
- The proc-macro plumbing (`syn`, `quote`, `deluxe`, attribute extraction) is left out. Only the generated behaviour is modelled.
- Hand-written wrappers with fixed paths, date handling, the CLI, printing, and the concurrent fan-out of the front ends are left out. They lie outside the modelled core.
- Client.ApiKeyPathQuery: states the query as a string. The key is not escaped, so a key holding `&` or `=` reads as several query parameters; splitting the query into parameters is not modelled.
