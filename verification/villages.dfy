/** The village accessor: the village listing of one district and the lookups over it. */
module Villages {
  import opened Transport
  import opened BaseResource

  /** The path of the village listing of the district whose code is `districtCode`. */
  function VillagesPath(districtCode: string): string {
    "/villages/" + districtCode + ".json"
  }

  /** Different parent codes give different listing paths. */
  lemma VillagesPathInjective(a: string, b: string)
    ensures VillagesPath(a) == VillagesPath(b) ==> a == b
  {
    FramedInjective("/villages/", a, b, ".json");
  }

  class Village {
    const client: Client

    constructor (client: Client)
      ensures this.client == client
    {
      this.client := client;
    }

    /** `byDistrict`: one request for the listing at "/villages/<districtCode>.json"; a request
        error is passed up as it is. */
    method ByDistrict(districtCode: string) returns (r: Result<Envelope, Error>)
      modifies client
      ensures client.sent == old(client.sent) + ["/villages/" + districtCode + ".json"]
      ensures r == client.api("/villages/" + districtCode + ".json")
    {
      r := client.Request(VillagesPath(districtCode));
    }

    /** `find`: the first village of the listing whose code is identical to `code`, or nothing. */
    method Find(districtCode: string, code: string) returns (r: Result<Option<Region>, Error>)
      modifies client
      ensures client.sent == old(client.sent) + [VillagesPath(districtCode)]
      ensures client.api(VillagesPath(districtCode)).Failure? ==>
        r == Failure(client.api(VillagesPath(districtCode)).error)
      ensures client.api(VillagesPath(districtCode)).Success? ==>
        r == Success(WithCode(client.api(VillagesPath(districtCode)).value.data, code))
    {
      var listing := ByDistrict(districtCode);
      if listing.Failure? {
        return Failure(listing.error);
      }
      var found := FindByCode(listing.value.data, code);
      return Success(found);
    }

    /** `findByName`: `searchByName` over the listing. */
    method FindByName(districtCode: string, name: string) returns (r: Result<Option<Region>, Error>)
      modifies client
      ensures client.sent == old(client.sent) + [VillagesPath(districtCode)]
      ensures client.api(VillagesPath(districtCode)).Failure? ==>
        r == Failure(client.api(VillagesPath(districtCode)).error)
      ensures client.api(VillagesPath(districtCode)).Success? ==>
        r == Success(FirstMatch(client.lower, client.api(VillagesPath(districtCode)).value.data, name))
    {
      var listing := ByDistrict(districtCode);
      if listing.Failure? {
        return Failure(listing.error);
      }
      var found := SearchByName(client.lower, listing.value.data, name);
      return Success(found);
    }

    /** `search`: `searchAllByName` over the listing. */
    method Search(districtCode: string, name: string) returns (r: Result<seq<Region>, Error>)
      modifies client
      ensures client.sent == old(client.sent) + [VillagesPath(districtCode)]
      ensures client.api(VillagesPath(districtCode)).Failure? ==>
        r == Failure(client.api(VillagesPath(districtCode)).error)
      ensures client.api(VillagesPath(districtCode)).Success? ==>
        r == Success(AllMatches(client.lower, client.api(VillagesPath(districtCode)).value.data, name))
    {
      var listing := ByDistrict(districtCode);
      if listing.Failure? {
        return Failure(listing.error);
      }
      var results := SearchAllByName(client.lower, listing.value.data, name);
      return Success(results);
    }
  }
}
