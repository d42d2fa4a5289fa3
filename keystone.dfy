/** lib/keystone.ts: catalog resolution by service type, the volume-service
    fallback, project selection, and the three quota fetchers with their
    normalisation of the raw quota documents into `QuotaUsage` records. */
module Keystone {

  import opened Wrappers
  import opened Catalog
  import opened Session

  datatype QuotaUsage = QuotaUsage(used: int, limit: int, reserved: Option<int>)

  datatype ComputeQuotas = ComputeQuotas(
    instances: QuotaUsage,
    cores: QuotaUsage,
    ram: QuotaUsage,
    keyPairs: Option<QuotaUsage>,
    serverGroups: Option<QuotaUsage>,
    serverGroupMembers: Option<QuotaUsage>)

  datatype VolumeQuotas = VolumeQuotas(
    volumes: QuotaUsage,
    gigabytes: QuotaUsage,
    snapshots: QuotaUsage,
    backups: Option<QuotaUsage>,
    backupGigabytes: Option<QuotaUsage>)

  datatype NetworkQuotas = NetworkQuotas(
    networks: QuotaUsage,
    subnets: QuotaUsage,
    ports: QuotaUsage,
    routers: QuotaUsage,
    floatingips: QuotaUsage,
    securityGroups: QuotaUsage,
    securityGroupRules: QuotaUsage)

  /** Why an operation of lib/keystone.ts throws. */
  datatype Error =
    | MissingCatalog                            // no project data, or no catalog in it
    | ServiceNotFound(service: string)          // no catalog entry of that type
    | EndpointNotFound(service: string, iface: string)
    | NoProjectSelected
    | RequestFailed                              // the fetch promise rejects
    | BadStatus(statusText: string)              // `!response.ok`
    | MalformedBody                              // no JSON body, or no quota document in it

  /** A raw quota document: resource name to field name to the value
      `parseInt` makes of it. A field that is absent, or that `parseInt`
      turns into NaN, has no entry. */
  type RawDoc = map<string, map<string, int>>

  /** An HTTP request as the fetchers build it: URL and `X-Auth-Token`. */
  datatype Request = Request(url: string, authToken: Option<string>)

  /** What a quota fetch yields: a rejected promise, or a response whose
      JSON body maps top-level keys to quota documents (None: no JSON). */
  datatype QuotaReply =
    | NetworkError
    | Reply(ok: bool, statusText: string, body: Option<map<string, RawDoc>>)

  // ---------------------------------------------------------------------------
  // Catalog resolution

  /** `getServiceEndpoint(service, serviceInterface)`: the first endpoint with
      the interface, in the first entry of that type. */
  function ResolveEndpoint(data: Option<ProjectData>, service: string, iface: string): (r: Result<Endpoint, Error>)
    ensures data.None? || data.value.catalog.None? ==> r == Err(MissingCatalog)
    ensures data.Some? && data.value.catalog.Some? ==>
      var c := data.value.catalog.value;
      && ((forall i :: 0 <= i < |c| ==> c[i].serviceType != service) <==> r == Err(ServiceNotFound(service)))
      && (forall i :: IsFirstEntry(c, ByType, service, i) ==>
            && ((forall j :: 0 <= j < |c[i].endpoints| ==> c[i].endpoints[j].iface != iface)
                  <==> r == Err(EndpointNotFound(service, iface)))
            && (forall j :: IsFirstEndpoint(c[i].endpoints, iface, j) ==> r == Ok(c[i].endpoints[j])))
  {
    if data.None? || data.value.catalog.None? then Err(MissingCatalog)
    else
      var c := data.value.catalog.value;
      match FindEntry(c, ByType, service)
      case None => Err(ServiceNotFound(service))
      case Some(i) =>
        match FindEndpoint(c[i].endpoints, iface)
        case None => Err(EndpointNotFound(service, iface))
        case Some(j) => Ok(c[i].endpoints[j])
  }

  /** `getServiceEndpoints(services, serviceInterface)`. It has no guard of
      its own: a missing project data or catalog makes it throw a TypeError. */
  function ResolveEndpoints(data: Option<ProjectData>, services: seq<string>, iface: string): (r: Result<seq<Endpoint>, Error>)
    ensures r.Err? <==> data.None? || data.value.catalog.None?
    ensures r.Ok? ==> forall e :: e in r.value ==> e.iface == iface
    ensures r.Ok? ==>
      var c := data.value.catalog.value;
      forall e :: e in r.value <==>
        exists i :: 0 <= i < |c| && c[i].serviceType in services && e in c[i].endpoints && e.iface == iface
    ensures r.Ok? ==> r.value == MatchingEndpoints(data.value.catalog.value, ByType, services, iface)
  {
    if data.None? || data.value.catalog.None? then Err(MissingCatalog)
    else Ok(MatchingEndpoints(data.value.catalog.value, ByType, services, iface))
  }

  /** The endpoint `getVolumeQuotas` uses: "volumev3" first and, when that
      attempt throws for any reason, "volume". */
  function ResolveVolume(data: Option<ProjectData>): (r: Result<Endpoint, Error>)
    ensures ResolveEndpoint(data, "volumev3", "public").Ok? ==> r == ResolveEndpoint(data, "volumev3", "public")
    ensures ResolveEndpoint(data, "volumev3", "public").Err? ==> r == ResolveEndpoint(data, "volume", "public")
    ensures r.Ok? ==> r.value.iface == "public"
  {
    match ResolveEndpoint(data, "volumev3", "public")
    case Ok(e) => Ok(e)
    case Err(_) => ResolveEndpoint(data, "volume", "public")
  }

  /** Only the first entry of the requested type is searched: whatever
      entries follow, a first entry of that type without the interface makes
      the call fail with EndpointNotFound. */
  lemma {:induction false} OnlyFirstTypedEntrySearched(c: seq<CatalogEntry>, later: seq<CatalogEntry>, service: string, iface: string, i: nat, roles: Option<seq<Role>>)
    requires IsFirstEntry(c, ByType, service, i)
    requires forall j :: 0 <= j < |c[i].endpoints| ==> c[i].endpoints[j].iface != iface
    ensures ResolveEndpoint(Some(ProjectData(Some(c + later), roles)), service, iface) == Err(EndpointNotFound(service, iface))
  {
    assert IsFirstEntry(c + later, ByType, service, i) by {
      forall k | 0 <= k <= i ensures (c + later)[k] == c[k] { }
    }
  }

  /** A catalog that registers only the legacy volume type: "volumev3" fails
      with ServiceNotFound and the legacy entry's endpoint is used. */
  lemma LegacyVolumeFallback(c: seq<CatalogEntry>, roles: Option<seq<Role>>, i: nat, j: nat)
    requires forall k :: 0 <= k < |c| ==> c[k].serviceType != "volumev3"
    requires IsFirstEntry(c, ByType, "volume", i)
    requires IsFirstEndpoint(c[i].endpoints, "public", j)
    ensures ResolveEndpoint(Some(ProjectData(Some(c), roles)), "volumev3", "public") == Err(ServiceNotFound("volumev3"))
    ensures ResolveVolume(Some(ProjectData(Some(c), roles))) == Ok(c[i].endpoints[j])
  {
  }

  /** The fallback is taken on any failure, not only on a missing service:
      a "volumev3" entry without a public endpoint also falls back. */
  lemma FallbackOnMissingInterface(c: seq<CatalogEntry>, roles: Option<seq<Role>>, v3: nat, i: nat, j: nat)
    requires IsFirstEntry(c, ByType, "volumev3", v3)
    requires forall k :: 0 <= k < |c[v3].endpoints| ==> c[v3].endpoints[k].iface != "public"
    requires IsFirstEntry(c, ByType, "volume", i)
    requires IsFirstEndpoint(c[i].endpoints, "public", j)
    ensures ResolveVolume(Some(ProjectData(Some(c), roles))) == Ok(c[i].endpoints[j])
  {
  }

  /** With both volume types present and resolvable, "volumev3" wins. */
  lemma NewerVolumeTypePreferred(c: seq<CatalogEntry>, roles: Option<seq<Role>>, v3: nat, j: nat)
    requires IsFirstEntry(c, ByType, "volumev3", v3)
    requires IsFirstEndpoint(c[v3].endpoints, "public", j)
    ensures ResolveVolume(Some(ProjectData(Some(c), roles))) == Ok(c[v3].endpoints[j])
  {
  }

  // ---------------------------------------------------------------------------
  // Project selection and the quota request

  /** `projectId || selectedProject?.id`, absent when both are falsy. */
  function SelectProject(projectId: Option<string>, selected: Option<Project>): (r: Option<string>)
    ensures r.Some? ==> r.value != ""
    ensures Truthy(projectId) ==> r == projectId
    ensures !Truthy(projectId) && selected.Some? && selected.value.id != "" ==> r == Some(selected.value.id)
    ensures r.None? <==> !Truthy(projectId) && (selected.None? || selected.value.id == "")
  {
    if Truthy(projectId) then projectId
    else if selected.Some? && selected.value.id != "" then Some(selected.value.id)
    else None
  }

  /** The common part of the three fetchers once the endpoint is resolved:
      pick the project, send the request with the project token, reject a
      failed or non-ok response, and take the quota document named `docKey`
      out of the body. */
  function FetchQuotaDoc(endpoint: Result<Endpoint, Error>, s: SessionState, projectId: Option<string>,
                         path: string, docKey: string, net: Request -> QuotaReply): (r: Result<RawDoc, Error>)
    ensures endpoint.Err? ==> r == Err(endpoint.error)
    ensures endpoint.Ok? && SelectProject(projectId, s.selectedProject).None? ==> r == Err(NoProjectSelected)
    ensures endpoint.Ok? && SelectProject(projectId, s.selectedProject).Some? ==>
      var reply := net(Request(endpoint.value.url + path + SelectProject(projectId, s.selectedProject).value, s.projectToken));
      && (reply.NetworkError? ==> r == Err(RequestFailed))
      && (reply.Reply? && !reply.ok ==> r == Err(BadStatus(reply.statusText)))
      && (r.Ok? <==> reply.Reply? && reply.ok && reply.body.Some? && docKey in reply.body.value)
      && (reply.Reply? && reply.ok && !(reply.body.Some? && docKey in reply.body.value) ==> r == Err(MalformedBody))
      && (r.Ok? ==> r.value == reply.body.value[docKey])
  {
    match endpoint
    case Err(e) => Err(e)
    case Ok(ep) =>
      match SelectProject(projectId, s.selectedProject)
      case None => Err(NoProjectSelected)
      case Some(project) =>
        match net(Request(ep.url + path + project, s.projectToken))
        case NetworkError => Err(RequestFailed)
        case Reply(ok, statusText, body) =>
          if !ok then Err(BadStatus(statusText))
          else if body.None? || docKey !in body.value then Err(MalformedBody)
          else Ok(body.value[docKey])
  }

  // ---------------------------------------------------------------------------
  // Normalisation

  /** `parseInt(x) || d`: NaN (here: absent) and 0 are both falsy. */
  function OrDefault(raw: Option<int>, d: int): (v: int)
    ensures v == d <==> raw.None? || raw == Some(0) || raw == Some(d)
    ensures v != d ==> raw == Some(v)
    ensures d != 0 ==> v != 0
  {
    if raw.Some? && raw.value != 0 then raw.value else d
  }

  /** `raw[resource]?.[field]` after `parseInt`. */
  function Field(doc: RawDoc, resource: string, field: string): Option<int> {
    if resource in doc && field in doc[resource] then Some(doc[resource][field]) else None
  }

  /** `Math.round(n / 1024)`, which rounds halves up. */
  function MiBToGiB(n: int): (g: int)
    ensures 1024 * g - 512 <= n < 1024 * g + 512
  {
    (n + 512) / 1024
  }

  /** One non-RAM record. `usedKey` is "in_use" for compute and volume and
      "used" for network; only compute and volume records carry `reserved`. */
  function Usage(doc: RawDoc, resource: string, usedKey: string, withReserved: bool): (q: QuotaUsage)
    ensures q.used == Field(doc, resource, usedKey).GetOr(0)
    ensures q.limit != 0
    ensures forall n :: Field(doc, resource, "limit") == Some(n) && n != 0 ==> q.limit == n
    ensures q.limit == -1 <==> Field(doc, resource, "limit") in {None, Some(0), Some(-1)}
    ensures q.reserved.Some? <==> withReserved
    ensures withReserved ==> q.reserved == Some(Field(doc, resource, "reserved").GetOr(0))
  {
    QuotaUsage(
      OrDefault(Field(doc, resource, usedKey), 0),
      OrDefault(Field(doc, resource, "limit"), -1),
      if withReserved then Some(OrDefault(Field(doc, resource, "reserved"), 0)) else None)
  }

  /** The RAM record: each of the three values is `parsed MiB || 0`, rounded
      to GiB. */
  function RamUsage(doc: RawDoc): (q: QuotaUsage)
    ensures q.reserved.Some?
    ensures var u := Field(doc, "ram", "in_use").GetOr(0); 1024 * q.used - 512 <= u < 1024 * q.used + 512
    ensures var l := Field(doc, "ram", "limit").GetOr(0); 1024 * q.limit - 512 <= l < 1024 * q.limit + 512
    ensures var v := Field(doc, "ram", "reserved").GetOr(0);
            1024 * q.reserved.value - 512 <= v < 1024 * q.reserved.value + 512
    ensures Field(doc, "ram", "limit") in {None, Some(-1)} ==> q.limit == 0
  {
    QuotaUsage(
      MiBToGiB(OrDefault(Field(doc, "ram", "in_use"), 0)),
      MiBToGiB(OrDefault(Field(doc, "ram", "limit"), 0)),
      Some(MiBToGiB(OrDefault(Field(doc, "ram", "reserved"), 0))))
  }

  function NormaliseCompute(doc: RawDoc): (c: ComputeQuotas)
    ensures c.keyPairs.Some? && c.serverGroups.Some? && c.serverGroupMembers.Some?
    ensures c.instances == Usage(doc, "instances", "in_use", true)
    ensures c.cores == Usage(doc, "cores", "in_use", true)
    ensures c.ram == RamUsage(doc)
    ensures c.keyPairs.value == Usage(doc, "key_pairs", "in_use", true)
    ensures c.serverGroups.value == Usage(doc, "server_groups", "in_use", true)
    ensures c.serverGroupMembers.value == Usage(doc, "server_group_members", "in_use", true)
  {
    ComputeQuotas(
      Usage(doc, "instances", "in_use", true),
      Usage(doc, "cores", "in_use", true),
      RamUsage(doc),
      Some(Usage(doc, "key_pairs", "in_use", true)),
      Some(Usage(doc, "server_groups", "in_use", true)),
      Some(Usage(doc, "server_group_members", "in_use", true)))
  }

  function NormaliseVolume(doc: RawDoc): (v: VolumeQuotas)
    ensures v.backups.Some? && v.backupGigabytes.Some?
    ensures v.volumes == Usage(doc, "volumes", "in_use", true)
    ensures v.gigabytes == Usage(doc, "gigabytes", "in_use", true)
    ensures v.snapshots == Usage(doc, "snapshots", "in_use", true)
    ensures v.backups.value == Usage(doc, "backups", "in_use", true)
    ensures v.backupGigabytes.value == Usage(doc, "backup_gigabytes", "in_use", true)
  {
    VolumeQuotas(
      Usage(doc, "volumes", "in_use", true),
      Usage(doc, "gigabytes", "in_use", true),
      Usage(doc, "snapshots", "in_use", true),
      Some(Usage(doc, "backups", "in_use", true)),
      Some(Usage(doc, "backup_gigabytes", "in_use", true)))
  }

  function NormaliseNetwork(doc: RawDoc): (n: NetworkQuotas)
    ensures n.networks == Usage(doc, "networks", "used", false)
    ensures n.subnets == Usage(doc, "subnets", "used", false)
    ensures n.ports == Usage(doc, "ports", "used", false)
    ensures n.routers == Usage(doc, "routers", "used", false)
    ensures n.floatingips == Usage(doc, "floatingips", "used", false)
    ensures n.securityGroups == Usage(doc, "security_groups", "used", false)
    ensures n.securityGroupRules == Usage(doc, "security_group_rules", "used", false)
  {
    NetworkQuotas(
      Usage(doc, "networks", "used", false),
      Usage(doc, "subnets", "used", false),
      Usage(doc, "ports", "used", false),
      Usage(doc, "routers", "used", false),
      Usage(doc, "floatingips", "used", false),
      Usage(doc, "security_groups", "used", false),
      Usage(doc, "security_group_rules", "used", false))
  }

  // ---------------------------------------------------------------------------
  // The fetchers

  /** `getComputeQuotas(projectId?)`. */
  function GetComputeQuotas(s: SessionState, projectId: Option<string>, net: Request -> QuotaReply): (r: Result<ComputeQuotas, Error>)
    ensures ResolveEndpoint(s.projectData, "compute", "public").Err? ==>
              r == Err(ResolveEndpoint(s.projectData, "compute", "public").error)
    ensures ResolveEndpoint(s.projectData, "compute", "public").Ok? && SelectProject(projectId, s.selectedProject).None? ==>
              r == Err(NoProjectSelected)
    ensures r.Ok? ==> r.value.keyPairs.Some? && r.value.serverGroups.Some? && r.value.serverGroupMembers.Some?
    ensures r.Ok? ==> r.value.instances.reserved.Some? && r.value.ram.reserved.Some?
    ensures r.Ok? ==> exists doc :: r.value == NormaliseCompute(doc)
    ensures var d := FetchQuotaDoc(ResolveEndpoint(s.projectData, "compute", "public"), s, projectId, "/os-quota-sets/", "quota_set", net);
            && (r.Ok? <==> d.Ok?)
            && (r.Ok? ==> r.value == NormaliseCompute(d.value))
            && (r.Err? ==> r.error == d.error)
  {
    match FetchQuotaDoc(ResolveEndpoint(s.projectData, "compute", "public"), s, projectId, "/os-quota-sets/", "quota_set", net)
    case Err(e) => Err(e)
    case Ok(doc) => Ok(NormaliseCompute(doc))
  }

  /** `getVolumeQuotas(projectId?)`. */
  function GetVolumeQuotas(s: SessionState, projectId: Option<string>, net: Request -> QuotaReply): (r: Result<VolumeQuotas, Error>)
    ensures ResolveVolume(s.projectData).Err? ==> r == Err(ResolveVolume(s.projectData).error)
    ensures ResolveVolume(s.projectData).Ok? && SelectProject(projectId, s.selectedProject).None? ==>
              r == Err(NoProjectSelected)
    ensures r.Ok? ==> r.value.backups.Some? && r.value.backupGigabytes.Some?
    ensures r.Ok? ==> exists doc :: r.value == NormaliseVolume(doc)
    ensures var d := FetchQuotaDoc(ResolveVolume(s.projectData), s, projectId, "/os-quota-sets/", "quota_set", net);
            && (r.Ok? <==> d.Ok?)
            && (r.Ok? ==> r.value == NormaliseVolume(d.value))
            && (r.Err? ==> r.error == d.error)
  {
    match FetchQuotaDoc(ResolveVolume(s.projectData), s, projectId, "/os-quota-sets/", "quota_set", net)
    case Err(e) => Err(e)
    case Ok(doc) => Ok(NormaliseVolume(doc))
  }

  /** `getNetworkQuotas(projectId?)`. */
  function GetNetworkQuotas(s: SessionState, projectId: Option<string>, net: Request -> QuotaReply): (r: Result<NetworkQuotas, Error>)
    ensures ResolveEndpoint(s.projectData, "network", "public").Err? ==>
              r == Err(ResolveEndpoint(s.projectData, "network", "public").error)
    ensures ResolveEndpoint(s.projectData, "network", "public").Ok? && SelectProject(projectId, s.selectedProject).None? ==>
              r == Err(NoProjectSelected)
    ensures r.Ok? ==> r.value.networks.reserved.None? && r.value.routers.reserved.None?
    ensures r.Ok? ==> exists doc :: r.value == NormaliseNetwork(doc)
    ensures var d := FetchQuotaDoc(ResolveEndpoint(s.projectData, "network", "public"), s, projectId, "/v2.0/quotas/", "quota", net);
            && (r.Ok? <==> d.Ok?)
            && (r.Ok? ==> r.value == NormaliseNetwork(d.value))
            && (r.Err? ==> r.error == d.error)
  {
    match FetchQuotaDoc(ResolveEndpoint(s.projectData, "network", "public"), s, projectId, "/v2.0/quotas/", "quota", net)
    case Err(e) => Err(e)
    case Ok(doc) => Ok(NormaliseNetwork(doc))
  }

  /** The compute fetcher end to end: with a public compute endpoint in the
      catalog and a selected project, an ok reply from
      `<url>/os-quota-sets/<project>` gives the normalisation of its
      `quota_set`, and a non-ok reply fails with its status text. */
  lemma ComputeFromReply(s: SessionState, c: seq<CatalogEntry>, i: nat, j: nat, project: string, reply: QuotaReply, net: Request -> QuotaReply)
    requires s.projectData.Some? && s.projectData.value.catalog == Some(c)
    requires IsFirstEntry(c, ByType, "compute", i) && IsFirstEndpoint(c[i].endpoints, "public", j)
    requires SelectProject(None, s.selectedProject) == Some(project)
    requires net(Request(c[i].endpoints[j].url + "/os-quota-sets/" + project, s.projectToken)) == reply
    ensures reply.Reply? && reply.ok && reply.body.Some? && "quota_set" in reply.body.value ==>
              GetComputeQuotas(s, None, net) == Ok(NormaliseCompute(reply.body.value["quota_set"]))
    ensures reply.Reply? && !reply.ok ==> GetComputeQuotas(s, None, net) == Err(BadStatus(reply.statusText))
    ensures reply.NetworkError? ==> GetComputeQuotas(s, None, net) == Err(RequestFailed)
  {
    assert ResolveEndpoint(s.projectData, "compute", "public") == Ok(c[i].endpoints[j]);
  }

  /** The volume fetcher end to end, through the endpoint the fallback picks. */
  lemma VolumeFromReply(s: SessionState, endpoint: Endpoint, project: string, reply: QuotaReply, net: Request -> QuotaReply)
    requires ResolveVolume(s.projectData) == Ok(endpoint)
    requires SelectProject(None, s.selectedProject) == Some(project)
    requires net(Request(endpoint.url + "/os-quota-sets/" + project, s.projectToken)) == reply
    ensures reply.Reply? && reply.ok && reply.body.Some? && "quota_set" in reply.body.value ==>
              GetVolumeQuotas(s, None, net) == Ok(NormaliseVolume(reply.body.value["quota_set"]))
    ensures reply.Reply? && !reply.ok ==> GetVolumeQuotas(s, None, net) == Err(BadStatus(reply.statusText))
    ensures reply.NetworkError? ==> GetVolumeQuotas(s, None, net) == Err(RequestFailed)
  {
  }

  /** The network fetcher end to end: `<url>/v2.0/quotas/<project>` and the
      body's `quota` document. */
  lemma NetworkFromReply(s: SessionState, c: seq<CatalogEntry>, i: nat, j: nat, project: string, reply: QuotaReply, net: Request -> QuotaReply)
    requires s.projectData.Some? && s.projectData.value.catalog == Some(c)
    requires IsFirstEntry(c, ByType, "network", i) && IsFirstEndpoint(c[i].endpoints, "public", j)
    requires SelectProject(None, s.selectedProject) == Some(project)
    requires net(Request(c[i].endpoints[j].url + "/v2.0/quotas/" + project, s.projectToken)) == reply
    ensures reply.Reply? && reply.ok && reply.body.Some? && "quota" in reply.body.value ==>
              GetNetworkQuotas(s, None, net) == Ok(NormaliseNetwork(reply.body.value["quota"]))
    ensures reply.Reply? && !reply.ok ==> GetNetworkQuotas(s, None, net) == Err(BadStatus(reply.statusText))
    ensures reply.NetworkError? ==> GetNetworkQuotas(s, None, net) == Err(RequestFailed)
  {
    assert ResolveEndpoint(s.projectData, "network", "public") == Ok(c[i].endpoints[j]);
  }

  /** The unit conversion worked through on Nova's usual numbers. */
  lemma RamConversionExamples()
    ensures MiBToGiB(2048) == 2 && MiBToGiB(8192) == 8 && MiBToGiB(1536) == 2
    ensures MiBToGiB(-1) == 0 && MiBToGiB(0) == 0 && MiBToGiB(511) == 0 && MiBToGiB(512) == 1
  {
  }

  /** A compute document reporting RAM 2048 MiB in use of 8192 MiB yields RAM
      2 GiB of 8 GiB; an unlimited (-1) RAM limit comes out as 0. */
  lemma RamNormalisationExamples(rest: RawDoc)
    ensures RamUsage(rest["ram" := map["in_use" := 2048, "limit" := 8192]]) == QuotaUsage(2, 8, Some(0))
    ensures RamUsage(rest["ram" := map["in_use" := 1536, "limit" := -1]]) == QuotaUsage(2, 0, Some(0))
  {
    var d1 := rest["ram" := map["in_use" := 2048, "limit" := 8192]];
    assert Field(d1, "ram", "in_use") == Some(2048) && Field(d1, "ram", "limit") == Some(8192);
    assert Field(d1, "ram", "reserved") == None;
    var d2 := rest["ram" := map["in_use" := 1536, "limit" := -1]];
    assert Field(d2, "ram", "in_use") == Some(1536) && Field(d2, "ram", "limit") == Some(-1);
    assert Field(d2, "ram", "reserved") == None;
  }

  /** A raw limit of 0 (a disabled resource upstream) is read as unlimited,
      because `0 || -1` is -1; an absent document entry gives the same record. */
  lemma ZeroLimitReadsAsUnlimited(doc: RawDoc, resource: string, usedKey: string, withReserved: bool)
    requires Field(doc, resource, "limit") == Some(0)
    ensures Usage(doc, resource, usedKey, withReserved).limit == -1
    ensures Usage(doc, resource, usedKey, withReserved) == Usage(doc[resource := doc[resource] - {"limit"}], resource, usedKey, withReserved)
  {
    var d := doc[resource := doc[resource] - {"limit"}];
    assert Field(d, resource, "limit") == None;
    if usedKey != "limit" {
      assert Field(d, resource, usedKey) == Field(doc, resource, usedKey);
    }
    assert Field(d, resource, "reserved") == Field(doc, resource, "reserved");
  }
}
