/** components/ProjectStats.tsx: the component that asks the quotas route
    for the three quota groups, turns them into labelled cards and keeps the
    outcome in its state (`limitSummaryData`, `loading`, `error`). */
module ProjectStats {

  import opened Wrappers
  import opened Catalog
  import opened Session
  import opened Keystone
  import opened QuotasRoute
  import ProgressCard

  /** One card: its label, the two numbers and the unit suffix. The label
      field is called `title` because `label` is a reserved word in Dafny. */
  datatype QuotaItem = QuotaItem(title: string, used: int, limit: int, units: string)

  datatype QuotaGroup = QuotaGroup(name: string, items: seq<QuotaItem>)

  /** What `fetch("/api/quotas")` yields: a rejected promise, or a response
      whose body is the route's quota object (None: not one). */
  datatype ApiReply =
    | ApiUnreachable
    | ApiReply(ok: bool, statusText: string, body: Option<AggregatedQuotas>)

  function Item(title: string, q: QuotaUsage, units: string): QuotaItem {
    QuotaItem(title, q.used, q.limit, units)
  }

  function OptionalItem(title: string, q: Option<QuotaUsage>, units: string): seq<QuotaItem> {
    if q.Some? then [Item(title, q.value, units)] else []
  }

  function ComputeItems(c: ComputeQuotas): (r: seq<QuotaItem>)
    ensures |r| == 3 + Count(c.keyPairs.Some?) + Count(c.serverGroups.Some?) + Count(c.serverGroupMembers.Some?)
    ensures r[0] == QuotaItem("Instances", c.instances.used, c.instances.limit, "")
    ensures r[1] == QuotaItem("VCPUs", c.cores.used, c.cores.limit, "")
    ensures r[2] == QuotaItem("RAM", c.ram.used, c.ram.limit, "GB")
  {
    [Item("Instances", c.instances, ""), Item("VCPUs", c.cores, ""), Item("RAM", c.ram, "GB")]
    + OptionalItem("Key Pairs", c.keyPairs, "")
    + OptionalItem("Server Groups", c.serverGroups, "")
    + OptionalItem("Server Group Members", c.serverGroupMembers, "")
  }

  function VolumeItems(v: VolumeQuotas): (r: seq<QuotaItem>)
    ensures |r| == 3 + Count(v.backups.Some?) + Count(v.backupGigabytes.Some?)
    ensures r[0] == QuotaItem("Volumes", v.volumes.used, v.volumes.limit, "")
    ensures r[1] == QuotaItem("Volume Snapshots", v.snapshots.used, v.snapshots.limit, "")
    ensures r[2] == QuotaItem("Volume Storage", v.gigabytes.used, v.gigabytes.limit, "GB")
  {
    [Item("Volumes", v.volumes, ""), Item("Volume Snapshots", v.snapshots, ""), Item("Volume Storage", v.gigabytes, "GB")]
    + OptionalItem("Volume Backups", v.backups, "")
    + OptionalItem("Backup Storage", v.backupGigabytes, "GB")
  }

  function NetworkItems(n: NetworkQuotas): (r: seq<QuotaItem>)
    ensures |r| == 7
    ensures forall item :: item in r ==> item.units == ""
  {
    [ Item("Floating IPs", n.floatingips, ""),
      Item("Security Groups", n.securityGroups, ""),
      Item("Security Group Rules", n.securityGroupRules, ""),
      Item("Networks", n.networks, ""),
      Item("Subnets", n.subnets, ""),
      Item("Ports", n.ports, ""),
      Item("Routers", n.routers, "") ]
  }

  /** The group list `fetchQuotas` stores, as a value. */
  function LimitSummary(q: AggregatedQuotas): (r: seq<QuotaGroup>)
    ensures |r| == Count(q.compute.Some?) + Count(q.volume.Some?) + Count(q.network.Some?)
  {
    (if q.compute.Some? then [QuotaGroup("Compute", ComputeItems(q.compute.value))] else [])
    + (if q.volume.Some? then [QuotaGroup("Volume", VolumeItems(q.volume.value))] else [])
    + (if q.network.Some? then [QuotaGroup("Network", NetworkItems(q.network.value))] else [])
  }

  /** Lines 46-60 of `fetchQuotas`: the three fixed compute cards, then a
      push for each optional record that is present. */
  method BuildComputeItems(computeQuotas: ComputeQuotas) returns (computeItems: seq<QuotaItem>)
    ensures computeItems == ComputeItems(computeQuotas)
  {
    computeItems := [
      Item("Instances", computeQuotas.instances, ""),
      Item("VCPUs", computeQuotas.cores, ""),
      Item("RAM", computeQuotas.ram, "GB")];
    if computeQuotas.keyPairs.Some? {
      computeItems := computeItems + [Item("Key Pairs", computeQuotas.keyPairs.value, "")];
    }
    ghost var withKeyPairs := computeItems;
    if computeQuotas.serverGroups.Some? {
      computeItems := computeItems + [Item("Server Groups", computeQuotas.serverGroups.value, "")];
    }
    assert computeItems == withKeyPairs + OptionalItem("Server Groups", computeQuotas.serverGroups, "");
    ghost var withServerGroups := computeItems;
    if computeQuotas.serverGroupMembers.Some? {
      computeItems := computeItems + [Item("Server Group Members", computeQuotas.serverGroupMembers.value, "")];
    }
    assert computeItems == withServerGroups + OptionalItem("Server Group Members", computeQuotas.serverGroupMembers, "");
  }

  /** Lines 70-81 of `fetchQuotas`: the three fixed volume cards, then a
      push for each optional record that is present. */
  method BuildVolumeItems(volumeQuotas: VolumeQuotas) returns (volumeItems: seq<QuotaItem>)
    ensures volumeItems == VolumeItems(volumeQuotas)
  {
    volumeItems := [
      Item("Volumes", volumeQuotas.volumes, ""),
      Item("Volume Snapshots", volumeQuotas.snapshots, ""),
      Item("Volume Storage", volumeQuotas.gigabytes, "GB")];
    if volumeQuotas.backups.Some? {
      volumeItems := volumeItems + [Item("Volume Backups", volumeQuotas.backups.value, "")];
    }
    ghost var withBackups := volumeItems;
    if volumeQuotas.backupGigabytes.Some? {
      volumeItems := volumeItems + [Item("Backup Storage", volumeQuotas.backupGigabytes.value, "GB")];
    }
    assert volumeItems == withBackups + OptionalItem("Backup Storage", volumeQuotas.backupGigabytes, "GB");
  }

  /** Lines 38-105 of `fetchQuotas`: start from an empty list and push a
      group for each entry that is present. */
  method BuildLimitSummary(quotaData: AggregatedQuotas) returns (data: seq<QuotaGroup>)
    ensures data == LimitSummary(quotaData)
    ensures data == [] <==> quotaData.compute.None? && quotaData.volume.None? && quotaData.network.None?
  {
    data := [];
    if quotaData.compute.Some? {
      var computeItems := BuildComputeItems(quotaData.compute.value);
      data := data + [QuotaGroup("Compute", computeItems)];
    }
    if quotaData.volume.Some? {
      var volumeItems := BuildVolumeItems(quotaData.volume.value);
      data := data + [QuotaGroup("Volume", volumeItems)];
    }
    if quotaData.network.Some? {
      data := data + [QuotaGroup("Network", NetworkItems(quotaData.network.value))];
    }
  }

  // ---------------------------------------------------------------------------
  // Properties of the group list

  function Names(groups: seq<QuotaGroup>): seq<string> {
    seq(|groups|, i requires 0 <= i < |groups| => groups[i].name)
  }

  function Labels(items: seq<QuotaItem>): seq<string> {
    seq(|items|, i requires 0 <= i < |items| => items[i].title)
  }

  function Units(items: seq<QuotaItem>): seq<string> {
    seq(|items|, i requires 0 <= i < |items| => items[i].units)
  }

  function Count(b: bool): nat { if b then 1 else 0 }

  /** Groups come in the order Compute, Volume, Network, each present exactly
      when its entry is. */
  lemma GroupsInOrder(q: AggregatedQuotas)
    ensures Names(LimitSummary(q))
         == (if q.compute.Some? then ["Compute"] else [])
          + (if q.volume.Some? then ["Volume"] else [])
          + (if q.network.Some? then ["Network"] else [])
    ensures |LimitSummary(q)| == Count(q.compute.Some?) + Count(q.volume.Some?) + Count(q.network.Some?)
  {
  }

  /** Compute cards: Instances, VCPUs and RAM (in GB) always, then Key Pairs,
      Server Groups and Server Group Members each when present. */
  lemma ComputeItemsShape(c: ComputeQuotas)
    ensures Labels(ComputeItems(c))
         == ["Instances", "VCPUs", "RAM"]
          + (if c.keyPairs.Some? then ["Key Pairs"] else [])
          + (if c.serverGroups.Some? then ["Server Groups"] else [])
          + (if c.serverGroupMembers.Some? then ["Server Group Members"] else [])
    ensures Units(ComputeItems(c))
         == ["", "", "GB"]
          + (if c.keyPairs.Some? then [""] else [])
          + (if c.serverGroups.Some? then [""] else [])
          + (if c.serverGroupMembers.Some? then [""] else [])
  {
  }

  /** Volume cards: Volumes, Volume Snapshots and Volume Storage (in GB)
      always, then Volume Backups and Backup Storage (in GB) when present. */
  lemma VolumeItemsShape(v: VolumeQuotas)
    ensures Labels(VolumeItems(v))
         == ["Volumes", "Volume Snapshots", "Volume Storage"]
          + (if v.backups.Some? then ["Volume Backups"] else [])
          + (if v.backupGigabytes.Some? then ["Backup Storage"] else [])
    ensures Units(VolumeItems(v))
         == ["", "", "GB"]
          + (if v.backups.Some? then [""] else [])
          + (if v.backupGigabytes.Some? then ["GB"] else [])
  {
  }

  /** The network group always has the same seven cards in the same order. */
  lemma NetworkItemsShape(n: NetworkQuotas)
    ensures Labels(NetworkItems(n))
         == ["Floating IPs", "Security Groups", "Security Group Rules", "Networks", "Subnets", "Ports", "Routers"]
  {
  }

  /** Which compute record a card of the Compute group is drawn from. */
  function ComputeRecord(c: ComputeQuotas, title: string): Option<QuotaUsage> {
    if title == "Instances" then Some(c.instances)
    else if title == "VCPUs" then Some(c.cores)
    else if title == "RAM" then Some(c.ram)
    else if title == "Key Pairs" then c.keyPairs
    else if title == "Server Groups" then c.serverGroups
    else if title == "Server Group Members" then c.serverGroupMembers
    else None
  }

  /** Which volume record a card of the Volume group is drawn from. */
  function VolumeRecord(v: VolumeQuotas, title: string): Option<QuotaUsage> {
    if title == "Volumes" then Some(v.volumes)
    else if title == "Volume Snapshots" then Some(v.snapshots)
    else if title == "Volume Storage" then Some(v.gigabytes)
    else if title == "Volume Backups" then v.backups
    else if title == "Backup Storage" then v.backupGigabytes
    else None
  }

  /** Which network record a card of the Network group is drawn from. */
  function NetworkRecord(n: NetworkQuotas, title: string): Option<QuotaUsage> {
    if title == "Floating IPs" then Some(n.floatingips)
    else if title == "Security Groups" then Some(n.securityGroups)
    else if title == "Security Group Rules" then Some(n.securityGroupRules)
    else if title == "Networks" then Some(n.networks)
    else if title == "Subnets" then Some(n.subnets)
    else if title == "Ports" then Some(n.ports)
    else if title == "Routers" then Some(n.routers)
    else None
  }

  /** A card shows the `used` and `limit` of record `r` unchanged. */
  predicate Shows(item: QuotaItem, r: Option<QuotaUsage>) {
    r.Some? && item.used == r.value.used && item.limit == r.value.limit
  }

  lemma ComputeItemsCopyTheirRecords(c: ComputeQuotas)
    ensures forall item :: item in ComputeItems(c) ==> Shows(item, ComputeRecord(c, item.title))
  {
    assert ComputeRecord(c, "VCPUs") == Some(c.cores);
    assert ComputeRecord(c, "RAM") == Some(c.ram);
    assert ComputeRecord(c, "Key Pairs") == c.keyPairs;
    assert ComputeRecord(c, "Server Groups") == c.serverGroups;
    assert ComputeRecord(c, "Server Group Members") == c.serverGroupMembers;
  }

  lemma VolumeItemsCopyTheirRecords(v: VolumeQuotas)
    ensures forall item :: item in VolumeItems(v) ==> Shows(item, VolumeRecord(v, item.title))
  {
    assert VolumeRecord(v, "Volume Snapshots") == Some(v.snapshots);
    assert VolumeRecord(v, "Volume Storage") == Some(v.gigabytes);
    assert VolumeRecord(v, "Volume Backups") == v.backups;
    assert VolumeRecord(v, "Backup Storage") == v.backupGigabytes;
  }

  lemma NetworkItemsCopyTheirRecords(n: NetworkQuotas)
    ensures forall item :: item in NetworkItems(n) ==> Shows(item, NetworkRecord(n, item.title))
  {
    assert NetworkRecord(n, "Security Groups") == Some(n.securityGroups);
    assert NetworkRecord(n, "Security Group Rules") == Some(n.securityGroupRules);
    assert NetworkRecord(n, "Networks") == Some(n.networks);
    assert NetworkRecord(n, "Subnets") == Some(n.subnets);
    assert NetworkRecord(n, "Ports") == Some(n.ports);
    assert NetworkRecord(n, "Routers") == Some(n.routers);
  }

  // ---------------------------------------------------------------------------
  // The component's state

  datatype StatsView =
    | Spinner                        // "Loading quota information..."
    | ErrorBox(message: string)      // "Error loading quotas"
    | NoQuotaInformation             // "No quota information available"
    | Summary(groups: seq<QuotaGroup>)

  class ProjectStats {
    var limitSummaryData: seq<QuotaGroup>
    var loading: bool
    var error: Option<string>

    /** The first render: `useState([])`, `useState(true)`, `useState(null)`. */
    constructor ()
      ensures limitSummaryData == [] && loading && error == None
    {
      limitSummaryData := [];
      loading := true;
      error := None;
    }

    /** `fetchQuotas`: a failed request, a non-ok response or an unreadable
        body sets the error message and keeps the previous group list; a good
        body replaces the group list. `loading` ends false either way. */
    method FetchQuotas(reply: ApiReply)
      modifies this
      ensures !loading
      ensures reply.ApiReply? && reply.ok && reply.body.Some? ==>
                error == None && limitSummaryData == LimitSummary(reply.body.value)
      ensures !(reply.ApiReply? && reply.ok && reply.body.Some?) ==>
                error == Some("Failed to load quota information") && limitSummaryData == old(limitSummaryData)
    {
      loading := true;
      error := None;
      if reply.ApiUnreachable? || !reply.ok || reply.body.None? {
        error := Some("Failed to load quota information");
      } else {
        var data := BuildLimitSummary(reply.body.value);
        limitSummaryData := data;
      }
      loading := false;
    }

    /** Which of the component's four renderings is shown. */
    function View(): (v: StatsView)
      reads this
      ensures v.Spinner? <==> loading
      ensures v == NoQuotaInformation <==> !loading && error.None? && limitSummaryData == []
      ensures v.Summary? ==> v.groups == limitSummaryData && limitSummaryData != []
      ensures !loading && error.Some? ==> v == ErrorBox(error.value)
      ensures !loading && error.None? && limitSummaryData != [] ==> v == Summary(limitSummaryData)
    {
      if loading then Spinner
      else if error.Some? then ErrorBox(error.value)
      else if limitSummaryData == [] then NoQuotaInformation
      else Summary(limitSummaryData)
    }
  }

  /** The quotas route's answer as the component receives it. */
  function ReplyOf(r: RouteResponse): (a: ApiReply)
    ensures a.ApiReply?
    ensures a.ok <==> r.Quotas?
    ensures a.body.Some? <==> r.Quotas?
    ensures r.Quotas? ==> a.body.value == r.body
  {
    match r
    case NotAuthenticated => ApiReply(false, "Unauthorized", None)
    case InternalError => ApiReply(false, "Internal Server Error", None)
    case Quotas(body) => ApiReply(true, "OK", Some(body))
  }

  /** The component's first render after its one fetch: an ok reply with a
      quota object shows its groups, or "no quota information" when there are
      none; anything else shows the error box. */
  method FirstRender(reply: ApiReply) returns (v: StatsView)
    ensures reply.ApiReply? && reply.ok && reply.body.Some? && LimitSummary(reply.body.value) != [] ==>
              v == Summary(LimitSummary(reply.body.value))
    ensures reply.ApiReply? && reply.ok && reply.body.Some? && LimitSummary(reply.body.value) == [] ==>
              v == NoQuotaInformation
    ensures !(reply.ApiReply? && reply.ok && reply.body.Some?) ==> v == ErrorBox("Failed to load quota information")
  {
    var panel := new ProjectStats();
    panel.FetchQuotas(reply);
    v := panel.View();
  }

  /** A route answer with all three entries null is shown as "no quota
      information", not as an error; a 401 is shown as the error box. */
  method AllAbsentIsNotAnError(s: SessionState, net: Request -> QuotaReply) returns (shown: StatsView, denied: StatsView)
    requires Truthy(s.projectToken)
    ensures GetComputeQuotas(s, None, net).Err? && GetVolumeQuotas(s, None, net).Err? && GetNetworkQuotas(s, None, net).Err? ==>
              shown == NoQuotaInformation
    ensures denied == ErrorBox("Failed to load quota information")
  {
    var panel := new ProjectStats();
    panel.FetchQuotas(ReplyOf(Get(Loaded(s), net)));
    shown := panel.View();
    var other := new ProjectStats();
    other.FetchQuotas(ReplyOf(Get(Loaded(s.(projectToken := None)), net)));
    denied := other.View();
  }

  /** With all three groups present and every optional record reported,
      the summary holds six Compute cards, five Volume cards and seven
      Network cards. */
  lemma FullSummary(q: AggregatedQuotas)
    requires q.compute.Some? && q.volume.Some? && q.network.Some?
    requires q.compute.value.keyPairs.Some? && q.compute.value.serverGroups.Some? && q.compute.value.serverGroupMembers.Some?
    requires q.volume.value.backups.Some? && q.volume.value.backupGigabytes.Some?
    ensures var groups := LimitSummary(q);
            && Names(groups) == ["Compute", "Volume", "Network"]
            && |groups[0].items| == 6 && |groups[1].items| == 5 && |groups[2].items| == 7
  {
    var c, v, n := q.compute.value, q.volume.value, q.network.value;
    assert |ComputeItems(c)| == 6 && |VolumeItems(v)| == 5 && |NetworkItems(n)| == 7;
    assert LimitSummary(q) == [QuotaGroup("Compute", ComputeItems(c)), QuotaGroup("Volume", VolumeItems(v)), QuotaGroup("Network", NetworkItems(n))];
  }

  /** End to end, from the inputs of `QuotasRoute.AllServicesAnswer`: the
      dashboard shows Compute, Volume and Network with six, five and seven
      cards drawn from the three documents. */
  lemma FullDashboard(s: SessionState, c: seq<CatalogEntry>, ic: nat, jc: nat, volumeEndpoint: Endpoint, inet: nat, jnet: nat,
                      project: string, computeDoc: RawDoc, volumeDoc: RawDoc, networkDoc: RawDoc, net: Request -> QuotaReply)
    requires Truthy(s.projectToken)
    requires s.projectData.Some? && s.projectData.value.catalog == Some(c)
    requires IsFirstEntry(c, ByType, "compute", ic) && IsFirstEndpoint(c[ic].endpoints, "public", jc)
    requires ResolveVolume(s.projectData) == Ok(volumeEndpoint)
    requires IsFirstEntry(c, ByType, "network", inet) && IsFirstEndpoint(c[inet].endpoints, "public", jnet)
    requires SelectProject(None, s.selectedProject) == Some(project)
    requires var reply := net(Request(c[ic].endpoints[jc].url + "/os-quota-sets/" + project, s.projectToken));
             reply.Reply? && reply.ok && reply.body == Some(map["quota_set" := computeDoc])
    requires var reply := net(Request(volumeEndpoint.url + "/os-quota-sets/" + project, s.projectToken));
             reply.Reply? && reply.ok && reply.body == Some(map["quota_set" := volumeDoc])
    requires var reply := net(Request(c[inet].endpoints[jnet].url + "/v2.0/quotas/" + project, s.projectToken));
             reply.Reply? && reply.ok && reply.body == Some(map["quota" := networkDoc])
    ensures var groups := LimitSummary(ReplyOf(Get(Loaded(s), net)).body.value);
            && groups == [QuotaGroup("Compute", ComputeItems(NormaliseCompute(computeDoc))),
                          QuotaGroup("Volume", VolumeItems(NormaliseVolume(volumeDoc))),
                          QuotaGroup("Network", NetworkItems(NormaliseNetwork(networkDoc)))]
            && |groups[0].items| == 6 && |groups[1].items| == 5 && |groups[2].items| == 7
  {
    AllServicesAnswer(s, c, ic, jc, volumeEndpoint, inet, jnet, project, computeDoc, volumeDoc, networkDoc, net);
    var q := AggregatedQuotas(Some(NormaliseCompute(computeDoc)), Some(NormaliseVolume(volumeDoc)), Some(NormaliseNetwork(networkDoc)));
    assert ReplyOf(Get(Loaded(s), net)).body.value == q;
    FullSummary(q);
  }

  /** Every non-RAM limit a fetcher produces is non-zero. */
  ghost predicate NonRamLimitsNonZero(q: AggregatedQuotas) {
    forall g, item :: g in LimitSummary(q) && item in g.items && item.title != "RAM" ==> item.limit != 0
  }

  lemma ComputeLimitsNonZero(doc: RawDoc)
    ensures forall item :: item in ComputeItems(NormaliseCompute(doc)) && item.title != "RAM" ==> item.limit != 0
  {
    var c := NormaliseCompute(doc);
    assert ComputeItems(c) == [Item("Instances", c.instances, ""), Item("VCPUs", c.cores, ""), Item("RAM", c.ram, "GB"),
      Item("Key Pairs", c.keyPairs.value, ""), Item("Server Groups", c.serverGroups.value, ""),
      Item("Server Group Members", c.serverGroupMembers.value, "")];
  }

  lemma VolumeLimitsNonZero(doc: RawDoc)
    ensures forall item :: item in VolumeItems(NormaliseVolume(doc)) ==> item.limit != 0
  {
    var v := NormaliseVolume(doc);
    assert VolumeItems(v) == [Item("Volumes", v.volumes, ""), Item("Volume Snapshots", v.snapshots, ""),
      Item("Volume Storage", v.gigabytes, "GB"), Item("Volume Backups", v.backups.value, ""),
      Item("Backup Storage", v.backupGigabytes.value, "GB")];
  }

  lemma NetworkLimitsNonZero(doc: RawDoc)
    ensures forall item :: item in NetworkItems(NormaliseNetwork(doc)) ==> item.limit != 0
  {
  }

  lemma NormalisedLimitsNonZero(q: AggregatedQuotas)
    requires Normalised(q)
    ensures NonRamLimitsNonZero(q)
  {
    if q.compute.Some? {
      var doc :| q.compute.value == NormaliseCompute(doc);
      ComputeLimitsNonZero(doc);
    }
    if q.volume.Some? {
      var doc :| q.volume.value == NormaliseVolume(doc);
      VolumeLimitsNonZero(doc);
    }
    if q.network.Some? {
      var doc :| q.network.value == NormaliseNetwork(doc);
      NetworkLimitsNonZero(doc);
    }
    forall g, item | g in LimitSummary(q) && item in g.items && item.title != "RAM"
      ensures item.limit != 0
    {
      GroupOrigin(q, g);
    }
  }

  /** Each entry that is present has its group, named for it and holding
      its own item list. */
  lemma EntriesHaveTheirGroups(q: AggregatedQuotas)
    ensures q.compute.Some? ==> QuotaGroup("Compute", ComputeItems(q.compute.value)) in LimitSummary(q)
    ensures q.volume.Some? ==> QuotaGroup("Volume", VolumeItems(q.volume.value)) in LimitSummary(q)
    ensures q.network.Some? ==> QuotaGroup("Network", NetworkItems(q.network.value)) in LimitSummary(q)
  {
  }

  /** Each group of the summary holds the item list of the entry it is
      named after. */
  lemma GroupOrigin(q: AggregatedQuotas, g: QuotaGroup)
    requires g in LimitSummary(q)
    ensures || (g.name == "Compute" && q.compute.Some? && g.items == ComputeItems(q.compute.value))
            || (g.name == "Volume" && q.volume.Some? && g.items == VolumeItems(q.volume.value))
            || (g.name == "Network" && q.network.Some? && g.items == NetworkItems(q.network.value))
  {
  }

  /** Since `parseInt(limit) || -1` is never 0, RAM is the only card the
      route's data can ever show as disabled. */
  lemma OnlyRamCanShowDisabled(s: SessionState, net: Request -> QuotaReply)
    ensures forall g, item :: g in LimitSummary(Aggregate(s, net)) && item in g.items && item.title != "RAM" ==>
              ProgressCard.Card(item.used, item.limit).overlay != Some("0")
  {
    AggregateIsNormalised(s, net);
    NormalisedLimitsNonZero(Aggregate(s, net));
  }
}
