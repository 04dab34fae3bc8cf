/** The district accessor: the district listing of one regency and the lookups over it. */
module Districts {
  import opened Transport
  import opened BaseResource

  /** The path of the district listing of the regency whose code is `regencyCode`. */
  function DistrictsPath(regencyCode: string): string {
    "/districts/" + regencyCode + ".json"
  }

  /** Different parent codes give different listing paths. */
  lemma DistrictsPathInjective(a: string, b: string)
    ensures DistrictsPath(a) == DistrictsPath(b) ==> a == b
  {
    FramedInjective("/districts/", a, b, ".json");
  }

  class District {
    const client: Client

    constructor (client: Client)
      ensures this.client == client
    {
      this.client := client;
    }

    /** `byRegency`: one request for the listing at "/districts/<regencyCode>.json"; a request
        error is passed up as it is. */
    method ByRegency(regencyCode: string) returns (r: Result<Envelope, Error>)
      modifies client
      ensures client.sent == old(client.sent) + ["/districts/" + regencyCode + ".json"]
      ensures r == client.api("/districts/" + regencyCode + ".json")
    {
      r := client.Request(DistrictsPath(regencyCode));
    }

    /** `find`: the first district of the listing whose code is identical to `code`, or nothing. */
    method Find(regencyCode: string, code: string) returns (r: Result<Option<Region>, Error>)
      modifies client
      ensures client.sent == old(client.sent) + [DistrictsPath(regencyCode)]
      ensures client.api(DistrictsPath(regencyCode)).Failure? ==>
        r == Failure(client.api(DistrictsPath(regencyCode)).error)
      ensures client.api(DistrictsPath(regencyCode)).Success? ==>
        r == Success(WithCode(client.api(DistrictsPath(regencyCode)).value.data, code))
    {
      var listing := ByRegency(regencyCode);
      if listing.Failure? {
        return Failure(listing.error);
      }
      var found := FindByCode(listing.value.data, code);
      return Success(found);
    }

    /** `findByName`: `searchByName` over the listing. */
    method FindByName(regencyCode: string, name: string) returns (r: Result<Option<Region>, Error>)
      modifies client
      ensures client.sent == old(client.sent) + [DistrictsPath(regencyCode)]
      ensures client.api(DistrictsPath(regencyCode)).Failure? ==>
        r == Failure(client.api(DistrictsPath(regencyCode)).error)
      ensures client.api(DistrictsPath(regencyCode)).Success? ==>
        r == Success(FirstMatch(client.lower, client.api(DistrictsPath(regencyCode)).value.data, name))
    {
      var listing := ByRegency(regencyCode);
      if listing.Failure? {
        return Failure(listing.error);
      }
      var found := SearchByName(client.lower, listing.value.data, name);
      return Success(found);
    }

    /** `search`: `searchAllByName` over the listing. */
    method Search(regencyCode: string, name: string) returns (r: Result<seq<Region>, Error>)
      modifies client
      ensures client.sent == old(client.sent) + [DistrictsPath(regencyCode)]
      ensures client.api(DistrictsPath(regencyCode)).Failure? ==>
        r == Failure(client.api(DistrictsPath(regencyCode)).error)
      ensures client.api(DistrictsPath(regencyCode)).Success? ==>
        r == Success(AllMatches(client.lower, client.api(DistrictsPath(regencyCode)).value.data, name))
    {
      var listing := ByRegency(regencyCode);
      if listing.Failure? {
        return Failure(listing.error);
      }
      var results := SearchAllByName(client.lower, listing.value.data, name);
      return Success(results);
    }
  }
}
