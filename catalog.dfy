/** The service catalog carried in the token metadata, and the two searches
    run over it: first entry / first endpoint (`find`) and the
    filter-map-flatten-filter of the multi-service lookup. Both lookup
    variants share these searches; they differ only in the entry field they
    match on (`type` in lib/keystone.ts, `name` in lib/session.ts). */
module Catalog {

  import opened Wrappers

  datatype Endpoint = Endpoint(id: string, iface: string, regionId: string, url: string, region: string)

  datatype CatalogEntry = CatalogEntry(serviceType: string, name: string, endpoints: seq<Endpoint>)

  /** Which field of an entry is compared with the requested service. */
  datatype MatchKey = ByType | ByName

  function KeyOf(e: CatalogEntry, key: MatchKey): string {
    match key
    case ByType => e.serviceType
    case ByName => e.name
  }

  /** `i` is the index `Array.prototype.find` stops at for this service. */
  predicate IsFirstEntry(catalog: seq<CatalogEntry>, key: MatchKey, service: string, i: int) {
    && 0 <= i < |catalog|
    && KeyOf(catalog[i], key) == service
    && forall k :: 0 <= k < i ==> KeyOf(catalog[k], key) != service
  }

  /** `j` is the index `find` stops at for this interface. */
  predicate IsFirstEndpoint(eps: seq<Endpoint>, iface: string, j: int) {
    && 0 <= j < |eps|
    && eps[j].iface == iface
    && forall k :: 0 <= k < j ==> eps[k].iface != iface
  }

  /** `catalog.find(item => key(item) == service)`, as an index. */
  function FindEntry(catalog: seq<CatalogEntry>, key: MatchKey, service: string): (r: Option<nat>)
    ensures r.Some? ==> IsFirstEntry(catalog, key, service, r.value)
    ensures r.None? <==> forall k :: 0 <= k < |catalog| ==> KeyOf(catalog[k], key) != service
    decreases |catalog|
  {
    if catalog == [] then None
    else if KeyOf(catalog[0], key) == service then Some(0)
    else
      match FindEntry(catalog[1..], key, service)
      case None => None
      case Some(i) => Some(i + 1)
  }

  /** `endpoints.find(e => e.interface == iface)`, as an index. */
  function FindEndpoint(eps: seq<Endpoint>, iface: string): (r: Option<nat>)
    ensures r.Some? ==> IsFirstEndpoint(eps, iface, r.value)
    ensures r.None? <==> forall k :: 0 <= k < |eps| ==> eps[k].iface != iface
    decreases |eps|
  {
    if eps == [] then None
    else if eps[0].iface == iface then Some(0)
    else
      match FindEndpoint(eps[1..], iface)
      case None => None
      case Some(j) => Some(j + 1)
  }

  /** `eps.filter(e => e.interface === iface)`. */
  function WithInterface(eps: seq<Endpoint>, iface: string): (r: seq<Endpoint>)
    ensures forall e :: e in r <==> e in eps && e.iface == iface
    ensures forall e :: multiset(r)[e] == if e.iface == iface then multiset(eps)[e] else 0
    ensures |r| <= |eps|
    decreases |eps|
  {
    if eps == [] then []
    else
      assert eps == [eps[0]] + eps[1..];
      (if eps[0].iface == iface then [eps[0]] else []) + WithInterface(eps[1..], iface)
  }

  /** `catalog.filter(item => services.includes(key(item))).map(item => item.endpoints)
      .flat().filter(e => e.interface === iface)`. */
  function MatchingEndpoints(catalog: seq<CatalogEntry>, key: MatchKey, services: seq<string>, iface: string): (r: seq<Endpoint>)
    ensures forall e :: e in r ==> e.iface == iface
    ensures forall e :: e in r <==>
      exists i :: 0 <= i < |catalog| && KeyOf(catalog[i], key) in services && e in catalog[i].endpoints && e.iface == iface
    decreases |catalog|
  {
    if catalog == [] then []
    else
      var head := if KeyOf(catalog[0], key) in services then WithInterface(catalog[0].endpoints, iface) else [];
      var rest := MatchingEndpoints(catalog[1..], key, services, iface);
      assert forall e :: e in rest <==>
        exists i :: 1 <= i < |catalog| && KeyOf(catalog[i], key) in services && e in catalog[i].endpoints && e.iface == iface
      by {
        forall e ensures e in rest <==>
          exists i :: 1 <= i < |catalog| && KeyOf(catalog[i], key) in services && e in catalog[i].endpoints && e.iface == iface
        {
          if e in rest {
            var i :| 0 <= i < |catalog[1..]| && KeyOf(catalog[1..][i], key) in services && e in catalog[1..][i].endpoints && e.iface == iface;
            assert catalog[1..][i] == catalog[i + 1];
          }
        }
      }
      head + rest
  }

  /** The filter keeps the order of its input: filtering a concatenation
      is concatenating the filtered parts. */
  lemma {:induction false} WithInterfaceAppend(a: seq<Endpoint>, b: seq<Endpoint>, iface: string)
    ensures WithInterface(a + b, iface) == WithInterface(a, iface) + WithInterface(b, iface)
    decreases |a|
  {
    if a == [] {
      assert a + b == b;
    } else {
      assert (a + b)[0] == a[0];
      assert (a + b)[1..] == a[1..] + b;
      WithInterfaceAppend(a[1..], b, iface);
    }
  }

  /** `catalog.filter(item => services.includes(key(item)))`. */
  function Selected(catalog: seq<CatalogEntry>, key: MatchKey, services: seq<string>): (r: seq<CatalogEntry>)
    ensures forall x :: x in r <==> x in catalog && KeyOf(x, key) in services
    ensures forall x :: multiset(r)[x] == if KeyOf(x, key) in services then multiset(catalog)[x] else 0
    decreases |catalog|
  {
    if catalog == [] then []
    else
      assert catalog == [catalog[0]] + catalog[1..];
      (if KeyOf(catalog[0], key) in services then [catalog[0]] else []) + Selected(catalog[1..], key, services)
  }

  /** The entry filter keeps catalog order. */
  lemma {:induction false} SelectedAppend(a: seq<CatalogEntry>, b: seq<CatalogEntry>, key: MatchKey, services: seq<string>)
    ensures Selected(a + b, key, services) == Selected(a, key, services) + Selected(b, key, services)
    decreases |a|
  {
    if a == [] {
      assert a + b == b;
    } else {
      assert (a + b)[0] == a[0];
      assert (a + b)[1..] == a[1..] + b;
      SelectedAppend(a[1..], b, key, services);
    }
  }

  /** `.map(item => item.endpoints).flat()`. */
  function Flatten(entries: seq<CatalogEntry>): (r: seq<Endpoint>)
    ensures forall e :: e in r <==> exists i :: 0 <= i < |entries| && e in entries[i].endpoints
    decreases |entries|
  {
    if entries == [] then []
    else
      var rest := Flatten(entries[1..]);
      assert forall e :: e in rest <==> exists i :: 1 <= i < |entries| && e in entries[i].endpoints by {
        forall e | e in rest ensures exists i :: 1 <= i < |entries| && e in entries[i].endpoints {
          var i :| 0 <= i < |entries[1..]| && e in entries[1..][i].endpoints;
          assert entries[1..][i] == entries[i + 1];
        }
      }
      entries[0].endpoints + rest
  }

  /** Flattening a single entry gives its endpoint list unchanged. */
  lemma FlattenSingle(e: CatalogEntry)
    ensures Flatten([e]) == e.endpoints
  {
    assert [e][1..] == [];
  }

  /** Flattening keeps entry order, then endpoint order within an entry. */
  lemma {:induction false} FlattenAppend(a: seq<CatalogEntry>, b: seq<CatalogEntry>)
    ensures Flatten(a + b) == Flatten(a) + Flatten(b)
    decreases |a|
  {
    if a == [] {
      assert a + b == b;
    } else {
      assert (a + b)[0] == a[0];
      assert (a + b)[1..] == a[1..] + b;
      FlattenAppend(a[1..], b);
    }
  }

  /** The multi-service lookup is exactly the source's pipeline: select the
      entries, flatten their endpoint lists in catalog order, then keep the
      endpoints with the interface. Each stage keeps the order of its input
      (`SelectedAppend`, `FlattenAppend`, `WithInterfaceAppend`) and the
      repetitions it is given (the multiset clauses of `Selected` and
      `WithInterface`). */
  lemma {:induction false} MatchingEndpointsIsPipeline(catalog: seq<CatalogEntry>, key: MatchKey, services: seq<string>, iface: string)
    ensures MatchingEndpoints(catalog, key, services, iface) == WithInterface(Flatten(Selected(catalog, key, services)), iface)
    decreases |catalog|
  {
    if catalog != [] {
      MatchingEndpointsIsPipeline(catalog[1..], key, services, iface);
      var rest := Selected(catalog[1..], key, services);
      if KeyOf(catalog[0], key) in services {
        assert Selected(catalog, key, services) == [catalog[0]] + rest;
        assert ([catalog[0]] + rest)[1..] == rest;
        assert Flatten([catalog[0]] + rest) == catalog[0].endpoints + Flatten(rest);
        WithInterfaceAppend(catalog[0].endpoints, Flatten(rest), iface);
      } else {
        assert Selected(catalog, key, services) == rest;
      }
    }
  }

  /** Catalog order is kept: the result over a concatenation is the
      concatenation of the results. */
  lemma {:induction false} MatchingEndpointsAppend(c1: seq<CatalogEntry>, c2: seq<CatalogEntry>, key: MatchKey, services: seq<string>, iface: string)
    ensures MatchingEndpoints(c1 + c2, key, services, iface)
         == MatchingEndpoints(c1, key, services, iface) + MatchingEndpoints(c2, key, services, iface)
    decreases |c1|
  {
    if c1 == [] {
      assert c1 + c2 == c2;
    } else {
      assert (c1 + c2)[0] == c1[0];
      assert (c1 + c2)[1..] == c1[1..] + c2;
      MatchingEndpointsAppend(c1[1..], c2, key, services, iface);
    }
  }

  /** Only the membership of `services` matters, never its order or repetitions. */
  lemma {:induction false} MatchingEndpointsIgnoreServiceOrder(catalog: seq<CatalogEntry>, key: MatchKey, s1: seq<string>, s2: seq<string>, iface: string)
    requires forall x :: x in s1 <==> x in s2
    ensures MatchingEndpoints(catalog, key, s1, iface) == MatchingEndpoints(catalog, key, s2, iface)
    decreases |catalog|
  {
    if catalog != [] {
      MatchingEndpointsIgnoreServiceOrder(catalog[1..], key, s1, s2, iface);
    }
  }

  /** When the first entry for `service` has an endpoint with the interface,
      the single-service multi lookup starts with exactly the endpoint that
      the first-match lookup returns. */
  lemma {:induction false} FirstMatchHeadsMatchingEndpoints(catalog: seq<CatalogEntry>, key: MatchKey, service: string, iface: string, i: nat, j: nat)
    requires IsFirstEntry(catalog, key, service, i)
    requires IsFirstEndpoint(catalog[i].endpoints, iface, j)
    ensures var r := MatchingEndpoints(catalog, key, [service], iface);
            r != [] && r[0] == catalog[i].endpoints[j]
    decreases |catalog|
  {
    if i == 0 {
      FirstInterfaceHeadsFilter(catalog[0].endpoints, iface, j);
    } else {
      assert KeyOf(catalog[0], key) != service;
      assert IsFirstEntry(catalog[1..], key, service, i - 1) by {
        forall k | 0 <= k < i - 1 ensures KeyOf(catalog[1..][k], key) != service {
          assert catalog[1..][k] == catalog[k + 1];
        }
      }
      FirstMatchHeadsMatchingEndpoints(catalog[1..], key, service, iface, i - 1, j);
    }
  }

  lemma {:induction false} FirstInterfaceHeadsFilter(eps: seq<Endpoint>, iface: string, j: nat)
    requires IsFirstEndpoint(eps, iface, j)
    ensures var r := WithInterface(eps, iface); r != [] && r[0] == eps[j]
    decreases |eps|
  {
    if j > 0 {
      assert IsFirstEndpoint(eps[1..], iface, j - 1) by {
        forall k | 0 <= k < j - 1 ensures eps[1..][k].iface != iface {
          assert eps[1..][k] == eps[k + 1];
        }
      }
      FirstInterfaceHeadsFilter(eps[1..], iface, j - 1);
    }
  }

  /** On a catalog whose entries carry their type as their name, matching by
      name and matching by type find the same entry. */
  lemma {:induction false} NameAndTypeAgree(catalog: seq<CatalogEntry>, service: string)
    requires forall k :: 0 <= k < |catalog| ==> catalog[k].name == catalog[k].serviceType
    ensures FindEntry(catalog, ByName, service) == FindEntry(catalog, ByType, service)
    decreases |catalog|
  {
    if catalog != [] {
      NameAndTypeAgree(catalog[1..], service);
    }
  }
}
