/** The session context (what lib/session.ts keeps in its store) and the
    catalog lookups of lib/session.ts, which match entries by `name`, fetch
    the catalog themselves and turn every failure into `null` or `[]`. */
module Session {

  import opened Wrappers
  import opened Catalog

  datatype Project = Project(id: string, name: string, domainId: string, enabled: bool)

  datatype Role = Role(name: string)

  /** The token metadata kept under "projectData"; `catalog` and `roles`
      may be absent from it. */
  datatype ProjectData = ProjectData(catalog: Option<seq<CatalogEntry>>, roles: Option<seq<Role>>)

  /** The values the session store holds for one user. */
  datatype SessionState = SessionState(
    unscopedToken: Option<string>,
    projectToken: Option<string>,
    selectedProject: Option<Project>,
    projectData: Option<ProjectData>)

  /** Outcome of `fetch(KEYSTONE_API + "/v3/auth/catalog")`: the promise
      rejects, or a response arrives whose body either holds a `catalog`
      array or does not (unparsable JSON, or no such member). */
  datatype CatalogReply =
    | CatalogUnreachable
    | CatalogReply(ok: bool, catalog: Option<seq<CatalogEntry>>)

  /** The catalog the lookups can search, when the reply supplies one. */
  function ReplyCatalog(reply: CatalogReply): Option<seq<CatalogEntry>> {
    if reply.CatalogReply? && reply.ok then reply.catalog else None
  }

  /** `getServiceEndpoint(service, serviceInterface = "public")`. */
  function GetServiceEndpoint(projectToken: Option<string>, reply: CatalogReply, service: string, iface: string := "public"): (r: Option<Endpoint>)
    ensures !Truthy(projectToken) ==> r.None?
    ensures ReplyCatalog(reply).None? ==> r.None?
    ensures Truthy(projectToken) && ReplyCatalog(reply).Some? ==>
      var c := ReplyCatalog(reply).value;
      && ((forall i :: 0 <= i < |c| ==> c[i].name != service) ==> r.None?)
      && (forall i :: IsFirstEntry(c, ByName, service, i) ==>
            && ((forall j :: 0 <= j < |c[i].endpoints| ==> c[i].endpoints[j].iface != iface) ==> r.None?)
            && (forall j :: IsFirstEndpoint(c[i].endpoints, iface, j) ==> r == Some(c[i].endpoints[j])))
  {
    if !Truthy(projectToken) then None
    else
      match ReplyCatalog(reply)
      case None => None
      case Some(c) =>
        match FindEntry(c, ByName, service)
        case None => None
        case Some(i) =>
          match FindEndpoint(c[i].endpoints, iface)
          case None => None
          case Some(j) => Some(c[i].endpoints[j])
  }

  /** `getServiceEndpoints(services, serviceInterface = "public")`. */
  function GetServiceEndpoints(projectToken: Option<string>, reply: CatalogReply, services: seq<string>, iface: string := "public"): (r: seq<Endpoint>)
    ensures !Truthy(projectToken) || ReplyCatalog(reply).None? ==> r == []
    ensures forall e :: e in r ==> e.iface == iface
    ensures Truthy(projectToken) && ReplyCatalog(reply).Some? ==>
      var c := ReplyCatalog(reply).value;
      forall e :: e in r <==>
        exists i :: 0 <= i < |c| && c[i].name in services && e in c[i].endpoints && e.iface == iface
    ensures Truthy(projectToken) && ReplyCatalog(reply).Some? ==>
      r == MatchingEndpoints(ReplyCatalog(reply).value, ByName, services, iface)
  {
    if !Truthy(projectToken) then []
    else
      match ReplyCatalog(reply)
      case None => []
      case Some(c) => MatchingEndpoints(c, ByName, services, iface)
  }

  /** Leaving out the interface argument asks for the "public" interface. */
  lemma InterfaceDefaultsToPublic(projectToken: Option<string>, reply: CatalogReply, service: string, services: seq<string>)
    ensures GetServiceEndpoint(projectToken, reply, service) == GetServiceEndpoint(projectToken, reply, service, "public")
    ensures GetServiceEndpoints(projectToken, reply, services) == GetServiceEndpoints(projectToken, reply, services, "public")
  {
  }

  /** The name-based lookup only ever answers from the first entry with that
      name: entries after it, even ones with the same name that do have the
      interface, are never consulted. */
  lemma {:induction false} OnlyFirstNamedEntrySearched(projectToken: string, c: seq<CatalogEntry>, later: seq<CatalogEntry>, service: string, iface: string, i: nat)
    requires projectToken != ""
    requires IsFirstEntry(c, ByName, service, i)
    requires forall j :: 0 <= j < |c[i].endpoints| ==> c[i].endpoints[j].iface != iface
    ensures GetServiceEndpoint(Some(projectToken), CatalogReply(true, Some(c + later)), service, iface).None?
  {
    assert IsFirstEntry(c + later, ByName, service, i) by {
      forall k | 0 <= k <= i ensures (c + later)[k] == c[k] { }
    }
  }
}
