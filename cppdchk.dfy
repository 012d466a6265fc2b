/**
 * The DCHK class of the C++ interface (src/lib/CDchk.cpp): a CIrisLWZ
 * object with a cap on the domains bundled into one request. Each query
 * wrapper calls the C function on the object's handle and returns its
 * result; when that result is 0 the handle's error is copied into the
 * object.
 */
module CppDchk {
  import opened Wrappers
  import opened LibC
  import opened XmlTree
  import opened IrisTypes
  import opened NsParse
  import opened Dchk
  import opened CppList
  import opened CppIris
  import Resolver

  /** The cap a new object starts with. */
  const DefaultMaxDomains := 20

  /** CDchk: the inherited CIrisLWZ part and maxdomainsperquery (0: no cap). */
  class CDchk {
    const base: CIrisLwz
    var maxDomainsPerQuery: int

    /** The inherited part keeps its invariant. */
    ghost predicate Valid()
      reads this, base, base.handle
    {
      base.Valid()
    }

    /** At most 20 domains per request, requests sent uncompressed, compressed answers accepted. */
    constructor ()
      ensures Valid() && fresh(base) && fresh(base.err) && fresh(base.handle)
      ensures fresh(base.handle.request) && fresh(base.handle.response)
      ensures maxDomainsPerQuery == DefaultMaxDomains
      ensures base.handle.sendDeflated == 0 && base.handle.acceptDeflated == 1
      ensures base.err.code == 0 && base.err.errorText.None?
      ensures base.handle.error == 0 && base.handle.server.None? && base.handle.authority.None?
    {
      base := new CIrisLwz();
      maxDomainsPerQuery := DefaultMaxDomains;
      new;
      var sent := base.SendDeflated(0);
      var accepted := base.AcceptDeflated(1);
    }

    /** SetMaxDomainsPerQuery: the new cap, used by every later list query. */
    method SetMaxDomainsPerQuery(count: int)
      modifies this`maxDomainsPerQuery
      ensures maxDomainsPerQuery == count
    {
      maxDomainsPerQuery := count;
    }

    /**
     * SetHostByDNS: dchk_SetHostByDNS on the handle. The server DNS names
     * becomes the handle's server; on failure the handle's error reaches the
     * object.
     */
    method SetHostByDns(dns: Resolver.Dns, tld: Option<string>) returns (r: int)
      requires Valid() && NamesAgree(dns.names)
      requires tld.Some? ==> Resolver.DnsReadable(dns, tld.value)
      modifies base.handle`server, base.handle`port, base.handle`error, base.handle`errorText, base.err
      ensures Valid()
      ensures r == 0 || r == 1
      ensures tld.None? ==> r == 0 && base.err.code == 74021 && base.err.errorText.None?
      ensures tld.Some? ==>
        (r == 1 <==> Resolver.DnsServer(dns, tld.value).Some? && Resolver.DnsServer(dns, tld.value).value.host.Some?)
      ensures tld.Some? && r == 1 ==>
        base.handle.server == Resolver.DnsServer(dns, tld.value).value.host &&
        base.handle.port == (if Resolver.DnsServer(dns, tld.value).value.port != 0 then Resolver.DnsServer(dns, tld.value).value.port else DefaultPort)
      ensures r == 0 ==>
        base.handle.server == old(base.handle.server) && base.handle.port == old(base.handle.port) &&
        base.err.Mirrors(base.handle)
      ensures tld.Some? && r == 0 && old(base.handle.initialized) ==>
        match Resolver.NaptrName(dns, tld.value)
        case None => Resolver.NaptrFailure(base.handle, dns, tld.value)
        case Some(name) => Resolver.ServerFailure(base.handle, dns, name)
      ensures r == 1 ==> base.err.code == old(base.err.code) && base.err.errorText == old(base.err.errorText)
    {
      r := Resolver.SetHostByDns(base.handle, dns, tld);
      assert base.handle.authority == old(base.handle.authority) && base.handle.initialized == old(base.handle.initialized);
      if r == 0 {
        base.err.CopyError(base.handle);
      }
    }

    /**
     * QueryDomainList: dchk_QueryDomainList on the handle and the list's
     * records, bundling at most maxDomainsPerQuery domains per request. The
     * records keep their names and order, so the list's cursor stays valid.
     */
    method QueryDomainList(env: Env, list: CDomainList) returns (ok: bool, ghost dispatched: seq<Batch>, ghost docs: seq<Document>)
      requires Valid() && list.Valid() && EnvOk(env)
      modifies list.list, base.handle`error, base.handle`errorText, base.handle`draws
      modifies base.handle.request, base.handle.response, base.err
      ensures Valid() && list.Valid()
      ensures Names(list.list.records) == Names(old(list.list.records))
      ensures old(list.list.records) == [] ==> !ok && base.err.code == 74038 && base.err.errorText.None?
      ensures old(list.list.records) != [] && ok ==>
        var plan := Batches(ConfigOf(base.handle, env, maxDomainsPerQuery), Names(old(list.list.records)));
        plan.abort.None? && dispatched == plan.batches && |docs| == |dispatched| &&
        list.list.records == Applied(old(list.list.records), dispatched, docs)
      ensures old(list.list.records) != [] && !ok ==>
        var plan := Batches(ConfigOf(base.handle, env, maxDomainsPerQuery), Names(old(list.list.records)));
        Stopped(plan, old(list.list.records), list.list.records, dispatched, docs) && Aborted(plan, dispatched, docs) &&
        (|docs| == |dispatched| ==> base.err.code == plan.abort.value && base.err.errorText.None?)
      ensures !ok ==> base.err.Mirrors(base.handle)
      ensures ok ==> base.err.code == old(base.err.code) && base.err.errorText == old(base.err.errorText)
    {
      ok, dispatched, docs := Dchk.QueryDomainList(base.handle, env, list.list, maxDomainsPerQuery);
      if ok {
        AppliedKeepsNames(old(list.list.records), dispatched, docs);
      } else {
        base.err.CopyError(base.handle);
        if old(list.list.records) != [] {
          AppliedKeepsNames(old(list.list.records), dispatched[..|docs|], docs);
        }
      }
    }

    /**
     * QueryDomain: dchk_QueryDomain on the handle. On success the answer
     * for the domain goes to the outputs as dchk_QueryDomain writes them; on failure they are
     * unchanged and the handle's error reaches the object.
     */
    method QueryDomain(env: Env, domain: Option<string>, wantStatus: bool, wantUpdate: bool, before: Outputs)
      returns (ok: bool, out: Outputs, ghost dispatched: seq<Batch>, ghost docs: seq<Document>)
      requires Valid() && EnvOk(env)
      modifies base.handle`error, base.handle`errorText, base.handle`draws
      modifies base.handle.request, base.handle.response, base.err
      ensures Valid()
      ensures domain.None? ==> !ok && base.err.code == 74025 && base.err.errorText == Some("")
      ensures !ok ==> out == before && base.err.Mirrors(base.handle)
      ensures ok ==>
        domain.Some? && |dispatched| == |docs| &&
        var answered := Applied([Record(domain.value, None, None)], dispatched, docs);
        |answered| == 1 && answered[0].domain == domain.value &&
        out == DeliveredAsWritten(answered[0], wantStatus, wantUpdate, before)
      ensures ok ==> domain.Some? && dispatched == Batches(ConfigOf(base.handle, env, 0), [domain.value]).batches
      ensures domain.Some? && !ok ==>
        var plan := Batches(ConfigOf(base.handle, env, 0), [domain.value]);
        Aborted(plan, dispatched, docs) &&
        (|docs| == |dispatched| && old(base.handle.initialized) ==> base.err.code == plan.abort.value && base.err.errorText.None?)
      ensures ok ==> base.err.code == old(base.err.code) && base.err.errorText == old(base.err.errorText)
    {
      ok, out, dispatched, docs := Dchk.QueryDomain(base.handle, env, domain, wantStatus, wantUpdate, before);
      if !ok {
        base.err.CopyError(base.handle);
      }
    }
  }
}
