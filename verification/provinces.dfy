/** The province accessor: the listing of all provinces and the lookups over it. */
module Provinces {
  import opened Transport
  import opened BaseResource

  /** The path of the province listing. */
  const ProvincesPath: string := "/provinces.json"

  class Province {
    const client: Client

    constructor (client: Client)
      ensures this.client == client
    {
      this.client := client;
    }

    /** `all`: one request for the province listing; a request error is passed up as it is. */
    method All() returns (r: Result<Envelope, Error>)
      modifies client
      ensures client.sent == old(client.sent) + ["/provinces.json"]
      ensures r == client.api("/provinces.json")
    {
      r := client.Request(ProvincesPath);
    }

    /** `find`: the first province whose code is identical to `code`, or nothing. */
    method Find(code: string) returns (r: Result<Option<Region>, Error>)
      modifies client
      ensures client.sent == old(client.sent) + [ProvincesPath]
      ensures client.api(ProvincesPath).Failure? ==> r == Failure(client.api(ProvincesPath).error)
      ensures client.api(ProvincesPath).Success? ==>
        r == Success(WithCode(client.api(ProvincesPath).value.data, code))
    {
      var provinces := All();
      if provinces.Failure? {
        return Failure(provinces.error);
      }
      var found := FindByCode(provinces.value.data, code);
      return Success(found);
    }

    /** `findByName`: `searchByName` over the province listing. */
    method FindByName(name: string) returns (r: Result<Option<Region>, Error>)
      modifies client
      ensures client.sent == old(client.sent) + [ProvincesPath]
      ensures client.api(ProvincesPath).Failure? ==> r == Failure(client.api(ProvincesPath).error)
      ensures client.api(ProvincesPath).Success? ==>
        r == Success(FirstMatch(client.lower, client.api(ProvincesPath).value.data, name))
    {
      var provinces := All();
      if provinces.Failure? {
        return Failure(provinces.error);
      }
      var found := SearchByName(client.lower, provinces.value.data, name);
      return Success(found);
    }

    /** `search`: `searchAllByName` over the province listing. */
    method Search(name: string) returns (r: Result<seq<Region>, Error>)
      modifies client
      ensures client.sent == old(client.sent) + [ProvincesPath]
      ensures client.api(ProvincesPath).Failure? ==> r == Failure(client.api(ProvincesPath).error)
      ensures client.api(ProvincesPath).Success? ==>
        r == Success(AllMatches(client.lower, client.api(ProvincesPath).value.data, name))
    {
      var provinces := All();
      if provinces.Failure? {
        return Failure(provinces.error);
      }
      var results := SearchAllByName(client.lower, provinces.value.data, name);
      return Success(results);
    }
  }
}
