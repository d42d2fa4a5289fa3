/** app/api/quotas/route.ts: the `GET` handler. It answers 401 without a
    project token; otherwise it runs the three fetchers, each of whose
    failures becomes `null`, and answers with the three entries. */
module QuotasRoute {

  import opened Wrappers
  import opened Catalog
  import opened Session
  import opened Keystone

  /** The response body's `{compute, volume, network}`; `None` is JSON null. */
  datatype AggregatedQuotas = AggregatedQuotas(
    compute: Option<ComputeQuotas>,
    volume: Option<VolumeQuotas>,
    network: Option<NetworkQuotas>)

  /** Reading the session store either throws or yields the session. */
  datatype StoreRead = StoreFailure | Loaded(session: SessionState)

  datatype RouteResponse =
    | NotAuthenticated               // 401 {error: "Not authenticated"}
    | Quotas(body: AggregatedQuotas) // 200
    | InternalError                  // 500 {error: "Failed to fetch quotas"}

  function Status(r: RouteResponse): int {
    match r
    case NotAuthenticated => 401
    case Quotas(_) => 200
    case InternalError => 500
  }

  /** The three fetchers, each caught into an absent value. The route calls
      them without a project id, so each falls back to the selected project. */
  function Aggregate(s: SessionState, net: Request -> QuotaReply): (a: AggregatedQuotas)
    ensures a.compute.Some? <==> GetComputeQuotas(s, None, net).Ok?
    ensures a.compute.Some? ==> a.compute.value == GetComputeQuotas(s, None, net).value
    ensures a.volume.Some? <==> GetVolumeQuotas(s, None, net).Ok?
    ensures a.volume.Some? ==> a.volume.value == GetVolumeQuotas(s, None, net).value
    ensures a.network.Some? <==> GetNetworkQuotas(s, None, net).Ok?
    ensures a.network.Some? ==> a.network.value == GetNetworkQuotas(s, None, net).value
  {
    AggregatedQuotas(
      GetComputeQuotas(s, None, net).ToOption(),
      GetVolumeQuotas(s, None, net).ToOption(),
      GetNetworkQuotas(s, None, net).ToOption())
  }

  /** `GET(request)`. */
  function Get(store: StoreRead, net: Request -> QuotaReply): (r: RouteResponse)
    ensures Status(r) == 500 <==> store.StoreFailure?
    ensures Status(r) == 401 <==> store.Loaded? && !Truthy(store.session.projectToken)
    ensures r.Quotas? <==> store.Loaded? && Truthy(store.session.projectToken)
    ensures r.Quotas? ==> r.body == Aggregate(store.session, net)
  {
    match store
    case StoreFailure => InternalError
    case Loaded(s) =>
      if !Truthy(s.projectToken) then NotAuthenticated
      else Quotas(Aggregate(s, net))
  }

  /** Without a project token the answer is 401 whatever the upstream
      services would have said: no fetcher's outcome is consulted. */
  lemma GateIgnoresUpstream(s: SessionState, net1: Request -> QuotaReply, net2: Request -> QuotaReply)
    requires !Truthy(s.projectToken)
    ensures Get(Loaded(s), net1) == Get(Loaded(s), net2) == NotAuthenticated
  {
  }

  /** Fetcher failures never reach the 500 answer: once authenticated, the
      route answers 200 even when all three fetchers fail. */
  lemma FetcherFailuresNeverFatal(s: SessionState, net: Request -> QuotaReply)
    requires Truthy(s.projectToken)
    ensures Get(Loaded(s), net).Quotas?
    ensures GetComputeQuotas(s, None, net).Err? && GetVolumeQuotas(s, None, net).Err? && GetNetworkQuotas(s, None, net).Err? ==>
              Get(Loaded(s), net) == Quotas(AggregatedQuotas(None, None, None))
  {
  }

  /** Failure isolation: whatever another fetcher's fate, an entry depends
      only on its own fetcher. Two upstreams that give the compute fetcher the
      same outcome produce the same compute entry, and likewise for the
      other two. */
  lemma EntriesAreIndependent(s: SessionState, net1: Request -> QuotaReply, net2: Request -> QuotaReply)
    ensures GetComputeQuotas(s, None, net1) == GetComputeQuotas(s, None, net2) ==>
              Aggregate(s, net1).compute == Aggregate(s, net2).compute
    ensures GetVolumeQuotas(s, None, net1) == GetVolumeQuotas(s, None, net2) ==>
              Aggregate(s, net1).volume == Aggregate(s, net2).volume
    ensures GetNetworkQuotas(s, None, net1) == GetNetworkQuotas(s, None, net2) ==>
              Aggregate(s, net1).network == Aggregate(s, net2).network
  {
  }

  /** A network service that cannot be reached leaves compute and volume as
      they are and blanks only the network entry. */
  lemma NetworkOutageIsPartial(s: SessionState, net: Request -> QuotaReply)
    requires Truthy(s.projectToken)
    ensures GetComputeQuotas(s, None, net).Ok? && GetVolumeQuotas(s, None, net).Ok? && GetNetworkQuotas(s, None, net).Err? ==>
            Get(Loaded(s), net) == Quotas(AggregatedQuotas(
              Some(GetComputeQuotas(s, None, net).value), Some(GetVolumeQuotas(s, None, net).value), None))
  {
  }

  /** The route with every upstream service answering: a catalog with public
      compute and network endpoints and a resolvable volume endpoint, a
      selected project, and ok replies carrying the three quota documents at
      the URLs the fetchers build. The answer is 200 with the three
      normalised documents. */
  lemma AllServicesAnswer(s: SessionState, c: seq<CatalogEntry>, ic: nat, jc: nat, volumeEndpoint: Endpoint, inet: nat, jnet: nat,
                          project: string, computeDoc: RawDoc, volumeDoc: RawDoc, networkDoc: RawDoc, net: Request -> QuotaReply)
    requires Truthy(s.projectToken)
    requires s.projectData.Some? && s.projectData.value.catalog == Some(c)
    requires IsFirstEntry(c, ByType, "compute", ic) && IsFirstEndpoint(c[ic].endpoints, "public", jc)
    requires ResolveVolume(s.projectData) == Ok(volumeEndpoint)
    requires IsFirstEntry(c, ByType, "network", inet) && IsFirstEndpoint(c[inet].endpoints, "public", jnet)
    requires SelectProject(None, s.selectedProject) == Some(project)
    requires var reply := net(Request(c[ic].endpoints[jc].url + "/os-quota-sets/" + project, s.projectToken));
             reply.Reply? && reply.ok && reply.body == Some(map["quota_set" := computeDoc])
    requires var reply := net(Request(volumeEndpoint.url + "/os-quota-sets/" + project, s.projectToken));
             reply.Reply? && reply.ok && reply.body == Some(map["quota_set" := volumeDoc])
    requires var reply := net(Request(c[inet].endpoints[jnet].url + "/v2.0/quotas/" + project, s.projectToken));
             reply.Reply? && reply.ok && reply.body == Some(map["quota" := networkDoc])
    ensures Get(Loaded(s), net)
         == Quotas(AggregatedQuotas(Some(NormaliseCompute(computeDoc)), Some(NormaliseVolume(volumeDoc)), Some(NormaliseNetwork(networkDoc))))
  {
    assert GetComputeQuotas(s, None, net) == Ok(NormaliseCompute(computeDoc)) by {
      var reply := net(Request(c[ic].endpoints[jc].url + "/os-quota-sets/" + project, s.projectToken));
      assert reply.body.value["quota_set"] == computeDoc;
      ComputeFromReply(s, c, ic, jc, project, reply, net);
    }
    assert GetVolumeQuotas(s, None, net) == Ok(NormaliseVolume(volumeDoc)) by {
      var reply := net(Request(volumeEndpoint.url + "/os-quota-sets/" + project, s.projectToken));
      assert reply.body.value["quota_set"] == volumeDoc;
      VolumeFromReply(s, volumeEndpoint, project, reply, net);
    }
    assert GetNetworkQuotas(s, None, net) == Ok(NormaliseNetwork(networkDoc)) by {
      var reply := net(Request(c[inet].endpoints[jnet].url + "/v2.0/quotas/" + project, s.projectToken));
      assert reply.body.value["quota"] == networkDoc;
      NetworkFromReply(s, c, inet, jnet, project, reply, net);
    }
    SuccessfulFetchersAnswer(s, net);
  }

  /** When all three fetchers succeed, the answer is 200 with their three
      values. */
  lemma SuccessfulFetchersAnswer(s: SessionState, net: Request -> QuotaReply)
    requires Truthy(s.projectToken)
    ensures GetComputeQuotas(s, None, net).Ok? && GetVolumeQuotas(s, None, net).Ok? && GetNetworkQuotas(s, None, net).Ok? ==>
            Get(Loaded(s), net) == Quotas(AggregatedQuotas(
              Some(GetComputeQuotas(s, None, net).value), Some(GetVolumeQuotas(s, None, net).value), Some(GetNetworkQuotas(s, None, net).value)))
  {
  }

  /** Every entry present in the aggregate is the normalisation of some raw
      quota document. */
  ghost predicate Normalised(a: AggregatedQuotas) {
    && (a.compute.Some? ==> exists doc :: a.compute.value == NormaliseCompute(doc))
    && (a.volume.Some? ==> exists doc :: a.volume.value == NormaliseVolume(doc))
    && (a.network.Some? ==> exists doc :: a.network.value == NormaliseNetwork(doc))
  }

  lemma AggregateIsNormalised(s: SessionState, net: Request -> QuotaReply)
    ensures Normalised(Aggregate(s, net))
  {
  }
}
