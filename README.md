# r53up, modelled in Dafny

r53up is a one-shot dynamic-DNS updater for a cloud instance. It reads the
instance's public IPv4 address from the instance metadata service, looks up
the Route 53 hosted zone for a DOMAIN argument, and upserts an A record
`HOST.DOMAIN` pointing at that address. Nearly all of it is I/O. This model
takes out the deterministic decisions that sit between the calls:

- `Names` (names.dfy): the zone lookup key, which is DOMAIN with a trailing
  dot added only when missing (the absolute-name convention of section 3.1
  of RFC 1034), and the record name `HOST.DOMAIN`, which uses the domain as
  given.
- `Zones` (zones.dfy): `get_zone_id`. It is a loop over the listed zones that
  returns the id of the first zone whose name equals the key exactly and
  whose config is present with `private_zone == Some(false)`, or `None`.
  It is modelled as the method `GetZoneId` with that loop. The method is
  proved against the recursive function `SelectZone`, whose first-match
  properties are proved as lemmas.
- `Changes` (changes.dfy): the request `update` submits. It holds one UPSERT
  of an A record (section 3.4.1 of RFC 1035) with TTL 60, one value and the
  comment `r53up change`, sent to the selected zone.
- `Updater` (updater.dfy): `main`'s dispatch. It submits the request when a
  zone was found. Otherwise it reports the domain argument as an unknown
  hosted zone, which still ends the run successfully.
- `Options` (options.dfy): Rust's `Option`.

The zone id is passed on verbatim (src/main.rs:82); no `/hostedzone/`
prefix is stripped.

## Model

| member | source | states |
|---|---|---|
| `Names.ZoneDomain` | src/main.rs:48-52 | the key always ends in `.`, starts with the domain and is at most one character longer; it equals the domain exactly when the domain already ends in `.` |
| `Names.ZoneDomainIdempotent` | src/main.rs:48-52 | normalising twice is normalising once |
| `Names.ZoneDomainShortest` | src/main.rs:48-52 | the key is the shortest dot-terminated string that starts with the domain, so no dot is added needlessly |
| `Names.DnsName` | src/main.rs:47 | the record name is the host, then one `.`, then the raw domain argument |
| `Names.HostOfDnsName` | src/main.rs:47 | splitting the record name at the known domain gives back the host |
| `Names.DnsNameHostOf` | src/main.rs:47 | every name split that way is the record name of the host it yields (inverse in the other direction) |
| `Names.DnsNameKeepsRawDomain` | src/main.rs:47-52 | the record name uses the un-normalised domain: for a non-empty domain it ends in `.` exactly when the domain does, and it differs from the name built from the lookup key when the domain is relative |
| `Zones.GetZoneId` | src/main.rs:76-88 | the loop returns the id, verbatim, of a listed zone that is eligible (exact name, config present, `private_zone == Some(false)`) with no eligible zone before it; it returns `None` exactly when no zone is eligible; it agrees with `SelectZone` |
| `Zones.SelectZoneNone` | src/main.rs:76-88 | the selection is `None` if and only if no listed zone is eligible, so zones with no config, no `private_zone` or `private_zone == true` never match |
| `Zones.SelectZoneFirst` | src/main.rs:76-82 | the selection is `Some(id)` if and only if `id` is the `id` field of the first eligible zone in listing order |
| `Zones.SelectZoneIsFirstEligibleId` | src/main.rs:76-88 | the selection equals the head of the list of all eligible ids, an independent reference definition |
| `Zones.EligibleIds` | src/main.rs:76-88 | the reference list holds an id exactly when some listed zone with that id is eligible (exact name, config present, `private_zone == Some(false)`) |
| `Zones.SelectZoneAppend` | src/main.rs:76-88 | on a listing split in two, an eligible zone in the front part wins and the back part is never looked at; otherwise the back part decides |
| `Changes.UpdateRequest` | src/main.rs:97-118 | the request has one change, action `UPSERT`, type `A`, TTL `Some(60)`, one resource record, no other record-set settings and comment `r53up change`; its zone id, record name and value are exactly the given zone, dnsname and ipv4 |
| `Changes.UpdateRequestOfTarget` | src/main.rs:97-118 | conversely, every request of that fixed shape is the one built from its own zone, record name and value |
| `Changes.UpdateRequestInjective` | src/main.rs:97-118 | requests built from different zone, name or address differ |
| `Updater.Run` | src/main.rs:45-61 | a request is submitted exactly when some listed zone is eligible for the normalised key; it is the request for the first such zone, with the record name built from the raw domain; otherwise the outcome is the unknown-hosted-zone report naming the raw domain |
| `Updater.SubmittedTargetsListedPublicZone` | src/main.rs:56-57 | a submitted request goes to a listed public zone named by the dot-terminated key; its record name splits back to the host, and its value is the address read |
| `Updater.ExampleRun` | src/main.rs:47-118 | for `example.com.` listed as private, public and without config, the public zone is chosen and `www`/`example.com`/`203.0.113.5` gives the record `www.example.com`, `A`, TTL 60, value `203.0.113.5`, action `UPSERT` |
| `Updater.ExampleNoMatch` | src/main.rs:76-88 | the key `sub.example.com.` does not select a zone named `example.com.`; the result is `None`, not an error |

## Left out

- The metadata fetches (src/main.rs:40-41, 64-67) are HTTP I/O. The public address is an input string `ipv4`. The instance id is only printed and is not modelled.
- The Route 53 client and its two calls (src/main.rs:54, 70-75, 119) are foreign calls. The listing is an input sequence of zones. The change request is an output value. The provider's response and change status are not modelled.
- The listing request passes the key as `dns_name`. The model takes whatever zones came back as given and does not model how the provider chooses them.
- Only one page of zones is examined, as in the source; no pagination, retries or timeouts exist to model.
- Every error that `?` propagates (credentials, HTTP, listing, change; src/errors.rs) comes from a foreign call. `Run` models only runs in which those calls succeed.
- Argument parsing with clap (src/main.rs:21-38, 45-46) is library plumbing. HOST and DOMAIN are input strings.
- The `println!` diagnostics (src/main.rs:42-43, 58, 81, 120) are console output. The unknown-hosted-zone report is the `UnknownHostedZone` outcome carrying the domain it names.
- Zones carry only `id`, `name` and `config`. The fields the selection never reads (caller reference, record-set count, linked service) are not modelled.
- The record set models the default-valued settings as six absent options. The structured `alias_target` and `geo_location` defaults are not modelled.
- Strings are sequences of characters. Rust's UTF-8 byte representation does not affect `ends_with(".")` or concatenation.
