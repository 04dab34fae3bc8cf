/** The regency accessor: the regency listing of one province and the lookups over it. */
module Regencies {
  import opened Transport
  import opened BaseResource
  import Scan
  import Provinces

  /** The path of the regency listing of the province whose code is `provinceCode`. */
  function RegenciesPath(provinceCode: string): string {
    "/regencies/" + provinceCode + ".json"
  }

  /** Different province codes give different regency listing paths. */
  lemma RegenciesPathInjective(a: string, b: string)
    ensures RegenciesPath(a) == RegenciesPath(b) ==> a == b
  {
    FramedInjective("/regencies/", a, b, ".json");
  }

  /** What `findByName` yields for the province whose code is `provinceCode`, with the
      API answering as `api`: its request error, or `searchByName` over its regencies. */
  function Lookup(api: Responder, lower: Lowering, provinceCode: string, name: string): (r: Result<Option<Region>, Error>)
    ensures api(RegenciesPath(provinceCode)).Failure? ==> r == Failure(api(RegenciesPath(provinceCode)).error)
    ensures r == Success(None) <==>
      (api(RegenciesPath(provinceCode)).Success?
       && forall i | 0 <= i < |api(RegenciesPath(provinceCode)).value.data| ::
            !IsMatch(lower, api(RegenciesPath(provinceCode)).value.data[i], Needle(lower, name)))
    ensures r.Success? && r.value.Some? ==>
      (r.value.value in api(RegenciesPath(provinceCode)).value.data
       && IsMatch(lower, r.value.value, Needle(lower, name)))
  {
    match api(RegenciesPath(provinceCode))
    case Failure(e) => Failure(e)
    case Success(listing) => Success(FirstMatch(lower, listing.data, name))
  }

  /** The number of provinces whose regencies the global search passes over: the index
      of the first province whose lookup fails or finds a regency, or `|provinces|`. */
  function StopIndex(api: Responder, lower: Lowering, provinces: seq<Region>, name: string): (k: nat)
    ensures k <= |provinces|
    ensures forall j | 0 <= j < k :: Lookup(api, lower, provinces[j].code, name) == Success(None)
    ensures k < |provinces| ==> Lookup(api, lower, provinces[k].code, name) != Success(None)
  {
    Scan.FirstIndex(provinces, (p: Region) => Lookup(api, lower, p.code, name) != Success(None))
  }

  /** What `findByNameGlobal` returns once the province listing is in hand. */
  function GlobalLookup(api: Responder, lower: Lowering, provinces: seq<Region>, name: string): (r: Result<Option<Region>, Error>)
    ensures r == Success(None)
      <==> forall i | 0 <= i < |provinces| :: Lookup(api, lower, provinces[i].code, name) == Success(None)
    ensures r.Success? && r.value.Some? ==> exists i | 0 <= i < |provinces| ::
      (api(RegenciesPath(provinces[i].code)).Success?
       && FirstMatch(lower, api(RegenciesPath(provinces[i].code)).value.data, name) == r.value
       && forall j | 0 <= j < i :: Lookup(api, lower, provinces[j].code, name) == Success(None))
  {
    var k := StopIndex(api, lower, provinces, name);
    if k == |provinces| then Success(None) else Lookup(api, lower, provinces[k].code, name)
  }

  /** The regency listing paths of `provinces`, in order. */
  function RegencyRequests(provinces: seq<Region>): seq<string> {
    seq(|provinces|, i requires 0 <= i < |provinces| => RegenciesPath(provinces[i].code))
  }

  /** The regency requests the global search sends after the province listing: one per
      province it passes over, and one for the province it stops at, if any. */
  function GlobalRequests(api: Responder, lower: Lowering, provinces: seq<Region>, name: string): seq<string> {
    var k := StopIndex(api, lower, provinces, name);
    RegencyRequests(provinces[..if k < |provinces| then k + 1 else k])
  }

  /** One more province's regency request at the end of the log. */
  lemma RegencyRequestsExtend(provinces: seq<Region>, i: nat)
    requires i < |provinces|
    ensures RegencyRequests(provinces[..i + 1]) == RegencyRequests(provinces[..i]) + [RegenciesPath(provinces[i].code)]
  {
  }

  /** Where the global search stops: at the first province, in listing order, whose
      lookup is not empty (a regency found there, or the error fetching it), or past the
      last province. It returns that lookup, or null, having requested the regencies of
      every province up to the one it stopped at. */
  lemma GlobalLookupStopsAt(api: Responder, lower: Lowering, provinces: seq<Region>, name: string, i: nat)
    requires i <= |provinces|
    requires forall j | 0 <= j < i :: Lookup(api, lower, provinces[j].code, name) == Success(None)
    requires i < |provinces| ==> Lookup(api, lower, provinces[i].code, name) != Success(None)
    ensures StopIndex(api, lower, provinces, name) == i
    ensures GlobalLookup(api, lower, provinces, name)
      == if i < |provinces| then Lookup(api, lower, provinces[i].code, name) else Success(None)
    ensures GlobalRequests(api, lower, provinces, name)
      == RegencyRequests(provinces[..if i < |provinces| then i + 1 else i])
  {
  }

  class Regency {
    const client: Client

    constructor (client: Client)
      ensures this.client == client
    {
      this.client := client;
    }

    /** `byProvince`: one request for the listing at "/regencies/<provinceCode>.json"; a request
        error is passed up as it is. */
    method ByProvince(provinceCode: string) returns (r: Result<Envelope, Error>)
      modifies client
      ensures client.sent == old(client.sent) + ["/regencies/" + provinceCode + ".json"]
      ensures r == client.api("/regencies/" + provinceCode + ".json")
    {
      r := client.Request(RegenciesPath(provinceCode));
    }

    /** `find`: the first regency of the listing whose code is identical to `code`, or nothing. */
    method Find(provinceCode: string, code: string) returns (r: Result<Option<Region>, Error>)
      modifies client
      ensures client.sent == old(client.sent) + [RegenciesPath(provinceCode)]
      ensures client.api(RegenciesPath(provinceCode)).Failure? ==>
        r == Failure(client.api(RegenciesPath(provinceCode)).error)
      ensures client.api(RegenciesPath(provinceCode)).Success? ==>
        r == Success(WithCode(client.api(RegenciesPath(provinceCode)).value.data, code))
    {
      var listing := ByProvince(provinceCode);
      if listing.Failure? {
        return Failure(listing.error);
      }
      var found := FindByCode(listing.value.data, code);
      return Success(found);
    }

    /** `findByName`: `searchByName` over the listing. */
    method FindByName(provinceCode: string, name: string) returns (r: Result<Option<Region>, Error>)
      modifies client
      ensures client.sent == old(client.sent) + [RegenciesPath(provinceCode)]
      ensures client.api(RegenciesPath(provinceCode)).Failure? ==>
        r == Failure(client.api(RegenciesPath(provinceCode)).error)
      ensures client.api(RegenciesPath(provinceCode)).Success? ==>
        r == Success(FirstMatch(client.lower, client.api(RegenciesPath(provinceCode)).value.data, name))
      ensures r == Lookup(client.api, client.lower, provinceCode, name)
    {
      var listing := ByProvince(provinceCode);
      if listing.Failure? {
        return Failure(listing.error);
      }
      var found := SearchByName(client.lower, listing.value.data, name);
      return Success(found);
    }

    /** `findByNameGlobal`: fetches the province listing, then looks for the name in the
        regencies of each province in turn. A request error is passed up as it is. */
    method FindByNameGlobal(name: string) returns (r: Result<Option<Region>, Error>)
      modifies client
      ensures client.api(Provinces.ProvincesPath).Failure? ==>
        r == Failure(client.api(Provinces.ProvincesPath).error)
        && client.sent == old(client.sent) + [Provinces.ProvincesPath]
      ensures client.api(Provinces.ProvincesPath).Success? ==>
        var provinces := client.api(Provinces.ProvincesPath).value.data;
        r == GlobalLookup(client.api, client.lower, provinces, name)
        && client.sent == old(client.sent) + [Provinces.ProvincesPath]
          + GlobalRequests(client.api, client.lower, provinces, name)
    {
      var provinceResource := new Provinces.Province(client);
      var listing := provinceResource.All();
      if listing.Failure? {
        return Failure(listing.error);
      }
      r := SearchProvinces(listing.value.data, name);
    }

    /** The loop of `findByNameGlobal`: fetches the regencies of each province in order and
        stops at the first province whose regencies match, or whose request fails. */
    method SearchProvinces(provinces: seq<Region>, name: string) returns (r: Result<Option<Region>, Error>)
      modifies client
      ensures r == GlobalLookup(client.api, client.lower, provinces, name)
      ensures client.sent == old(client.sent) + GlobalRequests(client.api, client.lower, provinces, name)
    {
      ghost var api, lower := client.api, client.lower;
      var i := 0;
      r := Success(None);
      while i < |provinces|
        invariant 0 <= i <= |provinces|
        invariant forall j | 0 <= j < i :: Lookup(api, lower, provinces[j].code, name) == Success(None)
        invariant client.sent == old(client.sent) + RegencyRequests(provinces[..i])
        invariant r == Success(None)
      {
        // `byProvince` then `searchByName`: the body of `findByName`
        r := FindByName(provinces[i].code, name);
        RegencyRequestsExtend(provinces, i);
        if r != Success(None) {
          break;
        }
        i := i + 1;
      }
      GlobalLookupStopsAt(api, lower, provinces, name, i);
    }

    /** `search`: `searchAllByName` over the listing. */
    method Search(provinceCode: string, name: string) returns (r: Result<seq<Region>, Error>)
      modifies client
      ensures client.sent == old(client.sent) + [RegenciesPath(provinceCode)]
      ensures client.api(RegenciesPath(provinceCode)).Failure? ==>
        r == Failure(client.api(RegenciesPath(provinceCode)).error)
      ensures client.api(RegenciesPath(provinceCode)).Success? ==>
        r == Success(AllMatches(client.lower, client.api(RegenciesPath(provinceCode)).value.data, name))
    {
      var listing := ByProvince(provinceCode);
      if listing.Failure? {
        return Failure(listing.error);
      }
      var results := SearchAllByName(client.lower, listing.value.data, name);
      return Success(results);
    }
  }
}
