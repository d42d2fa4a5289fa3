# Sunrise quota pipeline, modelled in Dafny

Sunrise is an OpenStack dashboard. This project models the part of it that
has real logic: the quota pipeline and the rules around it.

- **Catalog resolution.** `lib/keystone.ts` finds a service endpoint in the
  service catalog that came with the project-scoped token. It takes the first
  entry of the requested `type`, then the first endpoint in that entry with
  the requested `interface`. A multi-service variant filters and flattens the
  whole catalog. The volume service is looked up as `volumev3` first and as
  `volume` when that fails.
- **Session-side lookup.** `lib/session.ts` has a second lookup. It matches
  entries on `name` and turns every failure into `null` or `[]`.
- **Quota fetchers.** Three fetchers (compute, volume, network) pick the
  project, request its quota document and normalise each raw field with
  `parseInt(x) || default`. RAM is converted from MiB to GiB with
  `Math.round`.
- **Quotas route.** `app/api/quotas/route.ts` answers 401 without a project
  token. Otherwise it answers with the three fetchers' results, and a fetcher
  that fails contributes `null`.
- **Presentation.** `components/ProgressCard.jsx` decides between unlimited
  (−1), disabled (0) and bounded limits. `components/ProjectStats.tsx` turns
  the route's answer into groups of labelled cards and stores them in its
  component state.
- **Access gate.** `components/Auth/Provider.tsx` checks for a login and then
  for a "member" or "reader" role, ignoring case.

Modules follow the source files:

| module | file | source |
|---|---|---|
| `Wrappers` | `wrappers.dfy` | `Option`, `Result` and JavaScript truthiness of strings |
| `Catalog` | `catalog.dfy` | Catalog types and the searches both lookup variants share, parameterised by `MatchKey` (`ByType` / `ByName`) |
| `Session` | `session.dfy` | The session context and the `lib/session.ts` lookups |
| `Keystone` | `keystone.dfy` | `lib/keystone.ts` |
| `QuotasRoute` | `quotas_route.dfy` | `app/api/quotas/route.ts` |
| `ProgressCard` | `progress_card.dfy` | `components/ProgressCard.jsx` |
| `ProjectStats` | `project_stats.dfy` | `components/ProjectStats.tsx` (a class for the component state, and a method that builds the group list by appending) |
| `AuthProvider` | `auth_provider.dfy` | `components/Auth/Provider.tsx` |

All I/O becomes input:

- **Session store.** A `SessionState` value holds what the store holds. A
  `StoreRead` value says whether reading the store failed.
- **Quota requests.** The upstream services are a function
  `net: Request -> QuotaReply`. A `Request` is the URL plus the
  `X-Auth-Token` value. The reply is a rejected fetch, or a status plus an
  optional JSON body.
- **Catalog fetch and `/api/quotas` fetch.** Both are passed in as values:
  `CatalogReply` and `ApiReply`.
- **Raw quota documents.** A quota document is a map from resource to field
  to the integer `parseInt` reads. A field that is absent or reads as NaN has
  no entry.

## Behaviour worth knowing

- **Volume fallback.** The volume fetcher falls back from `volumev3` to
  `volume` on any failure of the first lookup, not only when the service is
  missing.
  That includes a missing catalog and a `volumev3` entry without a public
  endpoint (`Keystone.FallbackOnMissingInterface`).
- **Numeric defaults.** For non-RAM fields, `0 || -1` turns a raw limit of 0
  into −1 (unlimited). A non-RAM limit is therefore never 0. For RAM, the
  default is 0 before conversion, so a missing or −1 (unlimited) RAM limit
  becomes 0 and is shown as *disabled* (`Keystone.RamUsage`,
  `ProjectStats.OnlyRamCanShowDisabled`).
- **Percentage.** The value ProgressCard passes to the ring
  (components/ProgressCard.jsx:23) is `used / limit * 100`, unrounded. The
  ring rounds only the label it prints.
- **`getServiceEndpoints` in `lib/keystone.ts`.** It has no guard of its
  own. A missing project data or catalog makes it throw, and
  `Keystone.ResolveEndpoints` models that as an error.
- **Optional groups.** The compute and volume fetchers always emit their
  optional groups (key pairs, server groups, backups, …). They are never
  omitted.

## Model

| member | source | states |
|---|---|---|
| Catalog.FindEntry | lib/keystone.ts:301-303 | The index returned is the first entry whose type (or name) equals the service. There is no index exactly when no entry matches. |
| Catalog.FindEndpoint | lib/keystone.ts:309-311 | The index returned is the first endpoint with the interface. There is no index exactly when no endpoint has it. |
| Catalog.WithInterface | lib/keystone.ts:328 | An endpoint is in the result iff it is in the input with the interface. Each such endpoint occurs as often as in the input, and every other endpoint not at all. |
| Catalog.WithInterfaceAppend | lib/keystone.ts:328 | Filtering keeps input order: filtering `a + b` gives the filtered `a`, then the filtered `b`. |
| Catalog.Selected | lib/keystone.ts:325 | An entry is selected iff it is in the catalog and its key is one of the services. Each selected entry occurs as often as in the catalog, and every other entry not at all. |
| Catalog.SelectedAppend | lib/keystone.ts:325 | The entry filter keeps catalog order: selecting from `a + b` gives the selection from `a`, then from `b`. |
| Catalog.Flatten | lib/keystone.ts:326-327 | An endpoint is in the flattened list iff it is in one of the entries' endpoint lists. |
| Catalog.FlattenSingle | lib/keystone.ts:326-327 | Flattening one entry gives its endpoint list unchanged. |
| Catalog.FlattenAppend | lib/keystone.ts:326-327 | Flattening keeps entry order: flattening `a + b` gives the flattened `a`, then the flattened `b`. With `FlattenSingle` this fixes entry-then-endpoint order. |
| Catalog.MatchingEndpoints | lib/keystone.ts:324-328 | An endpoint is in the result iff it has the interface and lies in an entry whose key is one of the services. |
| Catalog.MatchingEndpointsIsPipeline | lib/keystone.ts:324-329 | The result is exactly the source pipeline: select the entries, flatten their endpoints in catalog order, keep those with the interface. Order and repetitions are those of the pipeline. |
| Catalog.MatchingEndpointsAppend | lib/keystone.ts:324-329 | Catalog order is kept: the result for `c1 + c2` is the result for `c1`, then the result for `c2`. |
| Catalog.MatchingEndpointsIgnoreServiceOrder | lib/keystone.ts:325 | Only which services are listed matters. Their order and repetitions do not. |
| Catalog.FirstMatchHeadsMatchingEndpoints | lib/keystone.ts:301-329 | When the first matching entry has the interface, the single-service multi lookup starts with the endpoint the first-match lookup returns. |
| Catalog.FirstInterfaceHeadsFilter | lib/keystone.ts:309-311 | The interface filter starts with the first endpoint that `find` stops at. |
| Catalog.NameAndTypeAgree | lib/session.ts:67-69 | On a catalog where every name equals its type, the name match and the type match pick the same entry. |
| Session.GetServiceEndpoint | lib/session.ts:48-82 | Returns null without a truthy project token or a usable catalog reply. Otherwise it returns the first endpoint with the interface in the first entry with that name, and null when either search finds nothing. |
| Session.GetServiceEndpoints | lib/session.ts:84-114 | Returns [] without a token or catalog. Otherwise the result is the name-matched pipeline `MatchingEndpoints(catalog, ByName, …)`, so catalog order and endpoint order are kept. An endpoint is in it iff it has the interface and lies in an entry whose name is listed. |
| Session.InterfaceDefaultsToPublic | lib/session.ts:50 | Leaving out the interface means "public", for both lookups. |
| Session.OnlyFirstNamedEntrySearched | lib/session.ts:67-77 | For any catalog `c + later` whose first entry with the name lies in `c` and lacks the interface, the answer is null. Later entries are never consulted. |
| Keystone.ResolveEndpoint | lib/keystone.ts:289-318 | A missing project data or catalog gives MissingCatalog. ServiceNotFound occurs iff no entry has the type. EndpointNotFound occurs iff the first such entry lacks the interface. Otherwise the result is the first endpoint with the interface in that entry. |
| Keystone.ResolveEndpoints | lib/keystone.ts:320-330 | Fails iff project data or catalog is missing. Otherwise the result is the type-matched pipeline `MatchingEndpoints(catalog, ByType, …)`, so catalog order and endpoint order are kept. An endpoint is in it iff it has the interface and lies in an entry whose type is listed. |
| Keystone.ResolveVolume | lib/keystone.ts:173-178 | The `volumev3` endpoint when that lookup succeeds. Otherwise, after any failure, the `volume` lookup's outcome. Always a public endpoint. |
| Keystone.OnlyFirstTypedEntrySearched | lib/keystone.ts:301-315 | For any catalog `c + later` whose first entry of the type lies in `c` and lacks the interface, the call fails with EndpointNotFound, whatever the later entries hold. |
| Keystone.LegacyVolumeFallback | lib/keystone.ts:173-178 | With only the legacy volume type registered, `volumev3` fails with ServiceNotFound and the legacy entry's public endpoint is used. |
| Keystone.FallbackOnMissingInterface | lib/keystone.ts:174-177 | A `volumev3` entry without a public endpoint also falls back to `volume`. |
| Keystone.NewerVolumeTypePreferred | lib/keystone.ts:175 | When `volumev3` resolves, its endpoint is used. |
| Keystone.SelectProject | lib/keystone.ts:116-119 | A non-empty explicit project id wins. Otherwise the selected project's non-empty id is used. The result is absent exactly when neither exists, and it is never "". |
| Keystone.FetchQuotaDoc | lib/keystone.ts:110-132 | An endpoint failure comes first, then NoProjectSelected. After that comes the request to endpoint URL + path + project, with the project token. A rejected fetch gives RequestFailed and a non-ok status gives BadStatus. An ok reply without a body or without the named document gives MalformedBody. Success means an ok reply whose body holds the named document, and the result is that document. |
| Keystone.OrDefault | lib/keystone.ts:140 | `parseInt(x)` with a fallback: the default exactly when the value is absent (NaN), 0, or the default itself. Otherwise the parsed value. A non-zero default never yields 0. |
| Keystone.MiBToGiB | lib/keystone.ts:149-151 | Rounds to the nearest GiB, halves up: `1024*g - 512 <= n < 1024*g + 512`. |
| Keystone.Usage | lib/keystone.ts:138-147 | `used` is the parsed value or 0. `limit` is the parsed value when non-zero, else −1, so it is never 0. It is −1 iff the raw limit is missing, 0 or −1. `reserved` (parsed or 0) is present iff requested. |
| Keystone.RamUsage | lib/keystone.ts:148-152 | Each of used, limit and reserved is the parsed MiB value (or 0) rounded to GiB. A missing or −1 limit gives 0. |
| Keystone.NormaliseCompute | lib/keystone.ts:137-168 | Each field is normalised from its own resource with `in_use` and reserved. RAM is converted. The three optional groups are always present. |
| Keystone.NormaliseVolume | lib/keystone.ts:202-228 | Each field is normalised from its own resource with `in_use` and reserved. Gigabytes are not converted. Backups and backup gigabytes are always present. |
| Keystone.NormaliseNetwork | lib/keystone.ts:257-286 | Exactly seven records, each read from `used`/`limit`, and none has `reserved`. |
| Keystone.GetComputeQuotas | lib/keystone.ts:108-169 | Endpoint errors propagate unchanged. A missing project gives NoProjectSelected. Otherwise it succeeds iff the request for `/os-quota-sets/<project>` does, and the result is the normalisation of that reply's `quota_set`; a failure carries the request's error (RequestFailed, BadStatus, MalformedBody). A success always has the three optional groups and a `reserved` value. |
| Keystone.GetVolumeQuotas | lib/keystone.ts:171-229 | Same as compute, resolved through the volume fallback: the normalisation of that reply's `quota_set`, or the request's error. A success always has backups and backup gigabytes. |
| Keystone.GetNetworkQuotas | lib/keystone.ts:231-287 | Same as compute, but for "network", path `/v2.0/quotas/` and the body's `quota`. A success has no `reserved`. |
| Keystone.ComputeFromReply | lib/keystone.ts:108-137 | With a public compute endpoint and a selected project: an ok reply at `<url>/os-quota-sets/<project>` gives the normalisation of its `quota_set`. A non-ok reply gives BadStatus with its status text, and a rejected fetch gives RequestFailed. |
| Keystone.VolumeFromReply | lib/keystone.ts:171-202 | The same for the volume endpoint the fallback picks. |
| Keystone.NetworkFromReply | lib/keystone.ts:231-257 | The same for the network endpoint, `<url>/v2.0/quotas/<project>` and the body's `quota`. |
| Keystone.RamConversionExamples | lib/keystone.ts:149-151 | 2048→2, 8192→8, 1536→2, −1→0, 511→0, 512→1. |
| Keystone.RamNormalisationExamples | lib/keystone.ts:148-152 | Raw RAM {in_use 2048, limit 8192} gives {2, 8, 0}. {in_use 1536, limit −1} gives {2, 0, 0}. |
| Keystone.ZeroLimitReadsAsUnlimited | lib/keystone.ts:140 | A raw limit of 0 gives −1, the same record as an absent limit. |
| QuotasRoute.Aggregate | app/api/quotas/route.ts:14-27 | Each entry is present iff its fetcher succeeds, and it is then that fetcher's value. |
| QuotasRoute.Get | app/api/quotas/route.ts:5-44 | 500 iff the session cannot be read. 401 iff the project token is falsy. Otherwise 200 with the aggregate. |
| QuotasRoute.GateIgnoresUpstream | app/api/quotas/route.ts:8-11 | Without a token the answer is 401, whatever the upstream services would return. |
| QuotasRoute.FetcherFailuresNeverFatal | app/api/quotas/route.ts:14-43 | With a project token the answer is always 200, whatever the fetchers do. With all three fetchers failing, it is 200 with three nulls. |
| QuotasRoute.EntriesAreIndependent | app/api/quotas/route.ts:14-39 | Each entry depends only on its own fetcher's outcome. |
| QuotasRoute.NetworkOutageIsPartial | app/api/quotas/route.ts:14-39 | A failing network fetcher blanks only the network entry. |
| QuotasRoute.SuccessfulFetchersAnswer | app/api/quotas/route.ts:14-39 | When all three fetchers succeed, the answer is 200 with their three values. |
| QuotasRoute.AllServicesAnswer | app/api/quotas/route.ts:5-39 | From the inputs: a catalog with the three endpoints, a selected project and ok replies carrying the three documents give 200 with the three normalised documents. |
| QuotasRoute.AggregateIsNormalised | app/api/quotas/route.ts:14-27 | Every entry present is the normalisation of some raw document. |
| ProgressCard.DisplayLimit | components/ProgressCard.jsx:22 | "∞" iff unlimited, "0" iff disabled, otherwise the limit itself. |
| ProgressCard.OverlayMatchesBadge | components/ProgressCard.jsx:22-48 | Where the card shows the big overlay, the badge shows the same symbol. A bounded card shows the limit as a number and no overlay. |
| ProgressCard.Percentage | components/ProgressCard.jsx:23 | 0 when unlimited or disabled. Otherwise `p * limit == used * 100`. |
| ProgressCard.Card | components/ProgressCard.jsx:20-48 | The value label shows iff the quota is bounded. The overlay shows exactly otherwise, "∞" iff unlimited and "0" iff disabled. The indicator is green iff unlimited, gray iff disabled, black iff bounded. |
| ProgressCard.SentinelValues | components/ProgressCard.jsx:20-23 | A limit of −1 shows the "∞" overlay and 0 %, a limit of 0 shows the "0" overlay and 0 %. Every other limit, negative ones included, is treated as bounded. |
| ProgressCard.SentinelsExclusive | components/ProgressCard.jsx:20-21 | Unlimited and disabled never hold together. |
| ProgressCard.BoundedPercentage | components/ProgressCard.jsx:23 | For a positive limit: used = limit gives 100, used = 0 gives 0, and 0 ≤ used ≤ limit keeps the percentage within [0, 100]. |
| AuthProvider.Lower | components/Auth/Provider.tsx:14 | Keeps the length and lowercases each character. |
| AuthProvider.LowerIdempotent | components/Auth/Provider.tsx:14 | Lowercasing twice equals lowercasing once. |
| AuthProvider.HasAllowedRole | components/Auth/Provider.tsx:13-15 | True iff some role's lowercased name is "member" or "reader". |
| AuthProvider.Provide | components/Auth/Provider.tsx:6-36 | Login iff there is no unscoped token. Access Denied iff logged in, roles are present and none is allowed. Children when the project data or its roles are absent. |
| AuthProvider.RoleCheckIgnoresCase | components/Auth/Provider.tsx:14 | Role lists that agree up to case get the same verdict. |
| AuthProvider.LowercasedRolesJudgedAlike | components/Auth/Provider.tsx:14 | Lowercasing every role name first does not change the verdict. |
| AuthProvider.RoleExamples | components/Auth/Provider.tsx:12-19 | A present but empty role list is denied. "Member" is admitted. |
| ProjectStats.ComputeItems | components/ProjectStats.tsx:46-60 | Three cards always, plus one per optional record present. Instances, VCPUs and RAM (GB) come first, copying their records. |
| ProjectStats.VolumeItems | components/ProjectStats.tsx:70-81 | Three cards always, plus one per optional record present. Volumes, Volume Snapshots and Volume Storage (GB) come first, copying their records. |
| ProjectStats.NetworkItems | components/ProjectStats.tsx:93-101 | Exactly seven cards, none with a unit. |
| ProjectStats.LimitSummary | components/ProjectStats.tsx:42-103 | One group per entry that is present. |
| ProjectStats.BuildComputeItems | components/ProjectStats.tsx:46-60 | Pushing the optional compute cards onto the three fixed ones gives exactly `ComputeItems`. |
| ProjectStats.BuildVolumeItems | components/ProjectStats.tsx:70-81 | Pushing the optional volume cards onto the three fixed ones gives exactly `VolumeItems`. |
| ProjectStats.BuildLimitSummary | components/ProjectStats.tsx:38-105 | Appending the groups and items gives exactly the summary list. The list is empty iff all three entries are null. |
| ProjectStats.GroupOrigin | components/ProjectStats.tsx:62-102 | Every group in the summary is named for a present entry and holds that entry's own item list: Compute with the compute cards, Volume with the volume cards, Network with the network cards. |
| ProjectStats.EntriesHaveTheirGroups | components/ProjectStats.tsx:45-103 | Every present entry has its group in the summary, under its own name and with its own item list. |
| ProjectStats.GroupsInOrder | components/ProjectStats.tsx:42-103 | Group names are Compute, Volume, Network, in that order, each present iff its entry is. The group count equals the number of entries present. |
| ProjectStats.ComputeItemsShape | components/ProjectStats.tsx:46-60 | Labels are Instances, VCPUs, RAM, then Key Pairs, Server Groups and Server Group Members, each only when present. Only RAM has a unit (GB). Every other card has none. |
| ProjectStats.VolumeItemsShape | components/ProjectStats.tsx:70-81 | Labels are Volumes, Volume Snapshots, Volume Storage, then Volume Backups and Backup Storage, each when present. Volume Storage and Backup Storage are in GB. The others have no unit. |
| ProjectStats.NetworkItemsShape | components/ProjectStats.tsx:90-102 | Exactly seven labels in the fixed order, from Floating IPs to Routers. |
| ProjectStats.ComputeItemsCopyTheirRecords | components/ProjectStats.tsx:46-60 | Every compute card shows `used` and `limit` of the record its label names, unchanged. |
| ProjectStats.VolumeItemsCopyTheirRecords | components/ProjectStats.tsx:70-81 | The same for volume cards. |
| ProjectStats.NetworkItemsCopyTheirRecords | components/ProjectStats.tsx:93-101 | The same for network cards. |
| ProjectStats.ProjectStats.constructor | components/ProjectStats.tsx:20-22 | The initial state: no groups, loading, no error. |
| ProjectStats.ProjectStats.FetchQuotas | components/ProjectStats.tsx:25-112 | Loading ends false either way. A good reply clears the error and stores the summary. A failed fetch, a non-ok status or a bad body sets the error message and keeps the previous groups. |
| ProjectStats.ProjectStats.View | components/ProjectStats.tsx:117-147 | Spinner iff loading. Once loaded, an error shows the error box with its message, ahead of any groups. "No quota information" iff loaded without error and with no groups. Otherwise the groups. |
| ProjectStats.ReplyOf | app/api/quotas/route.ts:10-43 | The route's answer as `fetch("/api/quotas")` sees it: ok, with a body, exactly for the 200 answer, and the body is the route's aggregate. |
| ProjectStats.FirstRender | components/ProjectStats.tsx:24-147 | After the one fetch, an ok reply with a quota object shows its groups, or "No quota information" when it has none. Anything else shows the error box "Failed to load quota information". |
| ProjectStats.AllAbsentIsNotAnError | components/ProjectStats.tsx:141-146 | Three null entries show "No quota information available". A 401 shows the error box. |
| ProjectStats.FullSummary | components/ProjectStats.tsx:45-103 | With everything present: Compute, Volume, Network, holding 6, 5 and 7 cards. |
| ProjectStats.FullDashboard | components/ProjectStats.tsx:38-105 | End to end from the inputs: a catalog with the three endpoints, a selected project and ok replies carrying the three documents make the dashboard show Compute, Volume and Network with 6, 5 and 7 cards drawn from those documents. |
| ProjectStats.ComputeLimitsNonZero | lib/keystone.ts:140-166 | Every non-RAM compute card of a normalised document has a non-zero limit. |
| ProjectStats.VolumeLimitsNonZero | lib/keystone.ts:205-226 | Every volume card of a normalised document has a non-zero limit. |
| ProjectStats.NetworkLimitsNonZero | lib/keystone.ts:260-284 | Every network card has a non-zero limit. |
| ProjectStats.NormalisedLimitsNonZero | lib/keystone.ts:137-286 | On normalised data, every card except RAM has a non-zero limit. |
| ProjectStats.OnlyRamCanShowDisabled | components/ProgressCard.jsx:21 | On the route's data, no card other than RAM is ever shown as disabled. |

## Left out

- `listUserProjects` and `fetchProjectScopedToken` (lib/keystone.ts:59-106): pure I/O against the identity service. The project sort uses locale-dependent `localeCompare`, which has no counterpart here.
- `getProjectToken` (lib/session.ts:42-46) and the `next-app-session` store: the session's contents are passed in as a `SessionState` value. One request reads one snapshot of the session, so concurrent session changes during a request are not modelled.
- `fetch`, headers, `response.json()`, `NextResponse` and `console.*`: replies are input values, and the quota services are a function from request to reply.
- The `if (!novaEndpoint)` / `!cinderEndpoint` / `!neutronEndpoint` guards (lib/keystone.ts:112, 180, 235): endpoint resolution either fails or yields an endpoint object, so these guards never fire and have no branch of their own.
- String-level `parseInt` behaviour (`"12abc"`, truncation of fractional numbers): each raw field is the integer `parseInt` yields, or absent for NaN.
- `Promise.all` concurrency: the three fetchers share no state, so they are evaluated one after another.
- A catalog entry without an `endpoints` array: every `CatalogEntry` here carries an endpoint list, so no such case is modelled. In the source, `getServiceEndpoint` throws only when such an entry is the first of its type (lib/keystone.ts:309). In `getServiceEndpoints`, `.flat()` keeps the `undefined` of a selected entry, and the `.filter` at lib/keystone.ts:328 throws on it. In lib/session.ts the same cases end in the `catch` and give null (line 73) or [] (lines 103-107).
- `getProjectToken()` is awaited outside the `try` of both session lookups (lib/session.ts:52, 88). A failing session store therefore makes them reject instead of returning null or []. The lookups here take the token as a value, so that rejection is not modelled.
- A role object without a `name` makes the Provider throw while rendering. Roles here always carry a name.
- AuthProvider.Lower: lowercases only the letters A to Z, not the full Unicode case mapping of `toLowerCase`.
- ProgressCard.Percentage: computed in exact `real` arithmetic, not IEEE floating point.
- components/ui/circular-progress.tsx: SVG geometry over floating-point `Math.PI`.
- The badge text `Used {used}{units} of {displayLimit}{units}`, all other markup and CSS, and React's `useState`/`useEffect` scheduling. `FetchQuotas` models one run of the effect. The transient `loading = true` state inside it is not observable in the model.
- The `getSession` wiring of components/Auth/Provider.tsx:2-5 and 11: only the decision over the unscoped token and the project data is modelled.
