# OVH DNS-01 provider: a Dafny model

This project models the OVH backend of the lego ACME client (`providers/dns/ovh/ovh.go`).
The provider publishes the TXT record of a DNS-01 challenge through OVH's REST API, and
later removes it. It keeps a ledger, `recordIDs`, that maps each challenge's fully
qualified name (fqdn) to the record ID that OVH assigned. This lets `CleanUp` delete
exactly the record that `Present` created.

Files:

- `strings.dfy` (module `Strings`): Go's `strings.Index`, written as a recursive search
  over `seq<char>` and proved to return the first occurrence or -1.
- `acme.dfy` (module `Acme`): `acme.UnFqdn`, which drops one trailing dot. It also holds
  the record type of `acme.DNS01Record` and the `Collaborators` value. That value carries
  `acme.DNS01Record` and `acme.ToFqdn` as total functions, because their definitions are
  not part of this model.
- `wrappers.dfy` (module `Wrappers`): `Option`. It stands for Go's `error` result: `None` is
  `nil`.
- `ovh.dfy` (module `Ovh`):
  - `ExtractRecordName` and lemmas about it.
  - The three operations as pure step functions on the ledger: `CheckCredentials`,
    `PresentStep` and `CleanUpStep`. Each step returns the new ledger, the remote calls
    attempted in order, and the error.
  - Lemmas that relate several steps.
  - Class `DNSProvider`, with the `recordIDs` map field and a ghost trace `calls`. Its
    methods follow the source's straight-line code with early returns. Each is proved to
    take exactly the corresponding step.

Remote calls are not made. Each one is an input of type `Reply<T>`: either `Ok(value)` or
`Failed(cause)`. The remote calls are the zone lookup `acme.FindZoneByFqdn`, the two
`Post` calls and the `Delete` call. A reply is used only if the code reaches that call,
and every remote call that is reached is appended to the trace. This is how "a later step
is not attempted" is stated. Building the client with `ovh.NewClient` makes no request:
its outcome is also an input (`client: Reply<()>`), which is used but not traced.

About the record name: one might expect the zone to be removed as an exact suffix
(`"." + zone`). The code uses `strings.Index` instead, so it cuts at the FIRST
occurrence of `"." + zone`. The model follows the code. `ZoneInsideLongerLabel`,
`ZoneRepeatedInName` and `FirstLabelIsCut` show where the two readings differ.
`StripsUniqueSuffix` shows when they agree: when the zone suffix is the first match.

## Model

| member | source | states |
|---|---|---|
| `Strings.Index` | providers/dns/ovh/ovh.go:143 | The result is -1 exactly when the pattern does not occur. Otherwise the pattern occurs at the result and at no earlier index. |
| `Strings.IndexFrom` | providers/dns/ovh/ovh.go:143 | The same as `Index`, once every start before `k` is ruled out. When it is not -1, the result is at least `k`. |
| `Acme.UnFqdn` | providers/dns/ovh/ovh.go:142 | The result is a prefix of the name and at most one character shorter. It is shorter exactly when the name ends in `.`. |
| `Ovh.ExtractRecordName` | providers/dns/ovh/ovh.go:141-147 | The result is a prefix of the unqualified fqdn. If `"." + zone` occurs in that name, the result followed by `"." + zone` is also a prefix of it. No occurrence starts before the end of the result, and the result contains none. If the pattern does not occur, the result is the whole unqualified name. |
| `Ovh.FirstLabelIsCut` | providers/dns/ovh/ovh.go:143-144 | If the first label has no dot and `"." + zone` follows it, the result is that label, whatever comes after. |
| `Ovh.StripsUniqueSuffix` | providers/dns/ovh/ovh.go:143-146 | If the only match of `"." + zone` is the suffix, the result is the name minus that suffix. |
| `Ovh.ZoneInsideLongerLabel` | providers/dns/ovh/ovh.go:143-144 | `_acme-challenge.example.community.` in zone `example.com` gives `_acme-challenge`. |
| `Ovh.ZoneRepeatedInName` | providers/dns/ovh/ovh.go:143-144 | `_acme-challenge.example.community.example.com.` in zone `example.com` gives `_acme-challenge`, not the label before the suffix. |
| `Ovh.CheckCredentials` | providers/dns/ovh/ovh.go:48-62 | It reports "credentials missing" exactly when one of the four credentials is empty. It succeeds exactly when all four are non-empty and the client builds. Otherwise it returns the client's error. |
| `Ovh.PresentStep` | providers/dns/ovh/ovh.go:71-105 | It succeeds exactly when the zone lookup, the create and the refresh all succeed. On any failure the ledger is unchanged. On success, the challenge fqdn maps to the ID the create returned, and every other key keeps its value. A failed lookup makes only the lookup call. A failed create makes no refresh call. The create posts to the unqualified zone with the body `TXT`, `ExtractRecordName(fqdn, zone)`, the value and the TTL. The refresh targets the same zone. No delete call is made. |
| `Ovh.CleanUpStep` | providers/dns/ovh/ovh.go:108-139 | If the fqdn is absent, it returns "unknown record ID", makes no remote call and leaves the ledger unchanged. Otherwise it looks up the zone and then deletes the stored ID in the unqualified zone. It succeeds exactly when both calls succeed, and then removes exactly that key. On any failure the ledger is unchanged. |
| `Ovh.PresentThenCleanUp` | providers/dns/ovh/ovh.go:71-139 | A successful Present followed by a successful CleanUp deletes the ID the create returned. It leaves the ledger as before, minus that fqdn. If the fqdn was absent before, the original ledger is restored. |
| `Ovh.LastPresentWins` | providers/dns/ovh/ovh.go:100-102 | A second successful Present for the same fqdn overwrites the first ID, as if only the second had run. |
| `Ovh.PresentsCommute` | providers/dns/ovh/ovh.go:100-102 | Successful Presents for two different fqdns give the same ledger in either order. Each fqdn maps to its own create's ID. |
| `Ovh.RefreshFailureOrphansRecord` | providers/dns/ovh/ovh.go:88-117 | If the create succeeds and the refresh fails, Present fails after posting the record and leaves the fqdn absent. A later CleanUp then reports an unknown record and makes no remote call. |
| `Ovh.DNSProvider.constructor` | providers/dns/ovh/ovh.go:64-67 | A new provider keeps the given package helpers and has an empty ledger and no calls. |
| `Ovh.DNSProvider.NewDNSProviderCredentials` | providers/dns/ovh/ovh.go:48-68 | The error is `CheckCredentials`'s. A provider is returned exactly when there is no error, and it is fresh, holds the given package helpers and has an empty ledger. |
| `Ovh.DNSProvider.Present` | providers/dns/ovh/ovh.go:71-105 | The new ledger, the calls appended and the error are exactly those of `PresentStep` on the old ledger and the provider's own package helpers. |
| `Ovh.DNSProvider.CleanUp` | providers/dns/ovh/ovh.go:108-139 | The new ledger, the calls appended and the error are exactly those of `CleanUpStep` on the old ledger and the provider's own package helpers. |
| `Ovh.PresentThenCleanUpClient` | providers/dns/ovh/ovh.go:48-139 | For a fresh provider, one Present and one CleanUp that all succeed leave an empty ledger after five remote calls. |

## Left out

- `NewDNSProvider` (lines 32-44) reads credentials from environment variables. This is configuration I/O.
- The OVH HTTP client is not modelled. That covers its construction (lines 53-62), its request signing and its `Post`/`Delete` transport (lines 88, 95, 128). Each call is a success-or-failure input, and the trace records its zone, ID or body.
- `acme.DNS01Record` and `acme.ToFqdn` are not part of this model. They enter as arbitrary total functions, fixed per provider when it is built.
- `acme.FindZoneByFqdn` and `acme.RecursiveNameservers` are not part of this model. They do recursive DNS lookups; the lookup's reply is an input.
- The `sync.Mutex` (lines 23, 100-102, 112-114, 134-136) is not modelled. The model is sequential and treats each map access as atomic. `PresentsCommute` states the sequential form of the property that concurrent Presents for different fqdns both land.
- The JSON wire structs (lines 149-165) are reduced to `TxtRecordRequest` and the create reply's ID. The `fmt.Sprintf` error texts and URLs are reduced to the `Error` constructors and the `Call` targets.
- Go's `int` for record IDs and TTLs is modelled as an unbounded `int`. The provider only stores and forwards these values, so width does not matter.
- `Strings.Index` works on characters, whereas Go indexes bytes. The same index is used to search and to slice, so the result is the same for names that are valid UTF-8 (DNS names are ASCII).
