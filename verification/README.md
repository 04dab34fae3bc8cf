# wilayah-php: region lookups, modelled in Dafny

wilayah-php is a client for the wilayah.id API of Indonesian administrative regions:
provinces, regencies (kabupaten/kota), districts (kecamatan) and villages (kelurahan/desa).
Each level has an accessor class with four operations:

- a listing, fetched from a path built from the parent's code;
- `find`, a scan for an exact code;
- `findByName`, the first record whose name matches a query;
- `search`, all the records whose names match a query.

`Regency::findByNameGlobal` also runs `findByName` over the regencies of every province, in
order, and stops at the first province with a match.

This model covers that lookup logic. It has these modules:

- `Scan` (`scan.dfy`) holds the two generic scans the lookups use. `FirstIndex` finds the first element that passes a test. `Filter` keeps every element that passes, in order.
- `Transport` (`transport.dfy`) holds the record, envelope and error types and the class `Client`. The remote API is a fixed function `api` from a request path to a listing or a `WilayahException`. The ghost field `sent` logs every path requested, in order, so that the contracts can say exactly which requests an operation makes.
- `BaseResource` (`base_resource.dfy`) models `searchByName` and `searchAllByName`. Both are loop methods proved against the specification functions `FirstMatch` and `AllMatches`. It also holds the code scan that every `find` runs (`FindByCode`, specified by `WithCode`). It defines PHP's `trim` exactly, and `strpos(...) !== false` as substring containment.
- `Provinces`, `Regencies`, `Districts`, `Villages` hold one class each, like the source classes. Each class keeps a reference to the client. Each method states the request it sends and its result, or the error it passes up.

The name test is the same as the source's: the lowercased name equals the lowercased, trimmed
query, or contains it. The lemma `MatchIsOccurrence` proves that the equality branch
never changes the outcome: the test holds exactly when the `strpos` test alone does. `mb_strtolower` stays abstract: it is the client's `lower` field, and no
result depends on what it does.

## Model

| member | source | states |
|---|---|---|
| `Scan.FirstIndex` | src/Resources/BaseResource.php:40-54 | the index of the first element that passes the test, with every earlier element failing it; `\|s\|` when none passes |
| `Scan.Filter` | src/Resources/BaseResource.php:67-77 | the kept elements all pass the test and are no more than the input |
| `Scan.FilterAppend` | src/Resources/BaseResource.php:69-75 | filtering keeps input order: the filter of `a + b` is the filter of `a` followed by the filter of `b` |
| `Scan.FilterCount` | src/Resources/BaseResource.php:69-75 | every passing element is kept as often as it occurs, and no failing element is kept |
| `Scan.FilterHeadIsFirst` | src/Resources/BaseResource.php:40-54 | the filter is empty iff no element passes; otherwise its head is the first passing element |
| `BaseResource.Trim` | src/Resources/BaseResource.php:38 | the trimmed query has no trim character at either end, and a query without surrounding trim characters is unchanged |
| `BaseResource.TrimLeftRemovesTrimChars` | src/Resources/BaseResource.php:38 | stripping the front removes a prefix made only of trim characters and keeps the rest unchanged |
| `BaseResource.TrimRightRemovesTrimChars` | src/Resources/BaseResource.php:38 | stripping the end removes a suffix made only of trim characters and keeps a prefix of the string |
| `BaseResource.TrimIgnoresPadding` | src/Resources/BaseResource.php:38 | trim characters added before and after a query do not change what it trims to |
| `BaseResource.ContainsIsOccurrence` | src/Resources/BaseResource.php:49 | `strpos(...) !== false` holds iff the needle occurs in the name at some offset: in both directions |
| `BaseResource.ScanFindsOccurrence` | src/Resources/BaseResource.php:49 | when the offset-by-offset scan succeeds, the needle occurs at some offset |
| `BaseResource.OccurrenceFoundByScan` | src/Resources/BaseResource.php:49 | the scan succeeds wherever the needle occurs |
| `BaseResource.Needle` | src/Resources/BaseResource.php:38 | the query compared against is the lowercased, trimmed query; a query with nothing to trim is only lowercased |
| `BaseResource.MatchIsOccurrence` | src/Resources/BaseResource.php:44-51 | the name test (exact match, or partial match) holds iff the `strpos` test alone holds, and iff the needle occurs in the lowercased name: the exact-match branch adds nothing |
| `BaseResource.FirstMatch` | src/Resources/BaseResource.php:36-55 | null iff no record matches; otherwise the earliest matching record, with no earlier one matching |
| `BaseResource.AllMatches` | src/Resources/BaseResource.php:64-78 | every returned record matches, and there are at most as many as in the listing |
| `BaseResource.WithCode` | src/Resources/Province.php:34-45 | null iff no record has the code; otherwise the earliest record with exactly that code |
| `BaseResource.SearchByName` | src/Resources/BaseResource.php:36-55 | the loop with early return yields `FirstMatch` of the listing and query |
| `BaseResource.SearchAllByName` | src/Resources/BaseResource.php:64-78 | the appending loop yields `AllMatches` of the listing and query |
| `BaseResource.FindByCode` | src/Resources/Province.php:38-44 | the code scan shared by the four `find` methods yields `WithCode` of the listing |
| `BaseResource.AllMatchesExact` | src/Resources/BaseResource.php:64-78 | `searchAllByName` holds exactly the matching records, each as many times as the listing holds it |
| `BaseResource.AllMatchesInOrder` | src/Resources/BaseResource.php:69-75 | the matches keep listing order (matches of `a + b` are those of `a` then those of `b`) |
| `BaseResource.HelpersAgree` | src/Resources/BaseResource.php:36-78 | `searchByName` is null iff `searchAllByName` is empty, and otherwise its first element |
| `BaseResource.SameNeedleSameResults` | src/Resources/BaseResource.php:38 | two queries with the same lowercased, trimmed form give the same result from both helpers (case-insensitivity) |
| `BaseResource.PaddingIgnored` | src/Resources/BaseResource.php:66 | surrounding whitespace in a query changes neither helper's result |
| `BaseResource.FirstRecordFindsItself` | src/Resources/Village.php:57-61 | looking up the first record by its own unpadded name returns that record |
| `BaseResource.SearchedRecordFoundByCode` | src/Resources/Province.php:34-45 | a record returned by `search` is found by `find` on its code, with that code; when the listing's codes are distinct, `find` returns that very record |
| `Transport.Client.constructor` | src/Client.php:36-39 | a new client has the given API and lowering and has sent nothing |
| `Transport.Client.Request` | src/Client.php:88-118 | exactly one request for the path is sent, and the API's answer or error is returned |
| `Provinces.Province.constructor` | src/Resources/BaseResource.php:24-27 | the accessor keeps the client it is given |
| `Provinces.Province.All` | src/Resources/Province.php:22-25 | one request, for exactly `/provinces.json`; its result or error is returned unchanged |
| `Provinces.Province.Find` | src/Resources/Province.php:34-45 | one listing request; the error passed up, or `WithCode` of the listing |
| `Provinces.Province.FindByName` | src/Resources/Province.php:54-58 | one listing request; the error passed up, or `FirstMatch` of the listing |
| `Provinces.Province.Search` | src/Resources/Province.php:67-71 | one listing request; the error passed up, or `AllMatches` of the listing |
| `Regencies.Regency.constructor` | src/Resources/BaseResource.php:24-27 | the accessor keeps the client it is given |
| `Regencies.Regency.ByProvince` | src/Resources/Regency.php:23-26 | one request, for exactly `/regencies/<code>.json`; its result or error is returned unchanged |
| `Regencies.Regency.Find` | src/Resources/Regency.php:36-47 | one listing request; the error passed up, or `WithCode` of the province's regencies |
| `Regencies.Regency.FindByName` | src/Resources/Regency.php:57-61 | one listing request; the error passed up, or `FirstMatch` of the province's regencies: that is, `Lookup` of the province |
| `Regencies.Regency.Search` | src/Resources/Regency.php:95-99 | one listing request; the error passed up, or `AllMatches` of the province's regencies |
| `Regencies.Regency.FindByNameGlobal` | src/Resources/Regency.php:70-85 | requests `/provinces.json` and passes its error up; otherwise returns `GlobalLookup` of the province listing, after sending exactly the regency requests `GlobalRequests` names |
| `Regencies.Regency.SearchProvinces` | src/Resources/Regency.php:75-84 | the province loop requests the regencies of provinces `0..k` only, where `k` is the first province whose lookup fails or matches, and returns that lookup, or null when there is no such province |
| `Regencies.RegenciesPathInjective` | src/Resources/Regency.php:25 | the regency listing path determines the province code: different codes are never sent to the same path |
| `Regencies.Lookup` | src/Resources/Regency.php:76-77 | `findByName` for one province: a request error is passed up; null iff the listing is fetched and no regency in it matches; a regency returned is in the listing and matches |
| `Regencies.StopIndex` | src/Resources/Regency.php:75-84 | the index of the first province whose regency lookup is not empty; every earlier one is fetched without error and has no match |
| `Regencies.GlobalLookup` | src/Resources/Regency.php:75-84 | null iff every province's lookup is null; a regency returned is the first match in some province's fetched listing, and every earlier province's lookup is null |
| `Regencies.GlobalLookupStopsAt` | src/Resources/Regency.php:75-84 | the global search stops at the first province whose lookup is not empty and returns that lookup, or null past the last province, having requested the regencies of exactly the provinces up to where it stopped |
| `Districts.District.constructor` | src/Resources/BaseResource.php:24-27 | the accessor keeps the client it is given |
| `Districts.DistrictsPathInjective` | src/Resources/District.php:25 | the district listing path determines the regency code |
| `Districts.District.ByRegency` | src/Resources/District.php:23-26 | one request, for exactly `/districts/<code>.json`; its result or error is returned unchanged |
| `Districts.District.Find` | src/Resources/District.php:36-47 | one listing request; the error passed up, or `WithCode` of the regency's districts |
| `Districts.District.FindByName` | src/Resources/District.php:57-61 | one listing request; the error passed up, or `FirstMatch` of the regency's districts |
| `Districts.District.Search` | src/Resources/District.php:71-75 | one listing request; the error passed up, or `AllMatches` of the regency's districts |
| `Villages.Village.constructor` | src/Resources/BaseResource.php:24-27 | the accessor keeps the client it is given |
| `Villages.VillagesPathInjective` | src/Resources/Village.php:25 | the village listing path determines the district code |
| `Villages.Village.ByDistrict` | src/Resources/Village.php:23-26 | one request, for exactly `/villages/<code>.json`; its result or error is returned unchanged |
| `Villages.Village.Find` | src/Resources/Village.php:36-47 | one listing request; the error passed up, or `WithCode` of the district's villages |
| `Villages.Village.FindByName` | src/Resources/Village.php:57-61 | one listing request; the error passed up, or `FirstMatch` of the district's villages |
| `Villages.Village.Search` | src/Resources/Village.php:71-75 | one listing request; the error passed up, or `AllMatches` of the district's villages |

## Left out

- `Client::request` (src/Client.php:88-118) is not modelled inside. The model leaves out the HTTP GET, its stream context and User-Agent header, `json_decode` and `error_get_last`. The remote API is the fixed function `Client.api`, so two requests for the same path get the same answer.
- Errors: `Client::request` throws `WilayahException` when the fetch fails or the body is not JSON. The model has that one error. It carries a message string, and the message text is not modelled.
- A body that is valid JSON but not an array or object (`"x"`, `42`, `null`) makes `Client::request` throw a `TypeError` at src/Client.php:117, because its declared return type is `array`. That error is not modelled: a response is either an envelope or a `WilayahException`.
- The client's timeout, `setTimeout` and `getTimeout` (src/Client.php:29-39, 126-140) matter only to the transport.
- The factory methods `provinces()`, `regencies()`, `districts()` and `villages()` (src/Client.php:46-79) each just construct an accessor. Callers construct the accessor classes directly.
- `mb_strtolower` is the abstract `Client.lower`. Its Unicode case mapping is not modelled, and no lemma depends on it.
- Strings are sequences of code points, while PHP's `trim` and `strpos` work on bytes. The trim characters are ASCII, and UTF-8 substrings line up with code-point substrings, so the two views agree.
- Only `code` and `name` of a record are modelled. The other fields and the envelope's `meta` are passed through untouched by the source.
- Responses without a `data` key are not modelled. `findByName` and `search` then pass null to the `array` parameter of `searchByName` or `searchAllByName` (src/Resources/BaseResource.php:36, 64) and throw a `TypeError`, and so does `findByNameGlobal` when a regency listing lacks `data` (src/Resources/Regency.php:77). `find` only warns in its `foreach` (src/Resources/Province.php:38 and the same line in the other accessors) and returns null. So does `findByNameGlobal` when the province listing lacks `data`: its `foreach` (src/Resources/Regency.php:75) warns, runs no iteration and returns null at line 84.
- Records without `name` or `code` produce PHP warnings rather than defined behaviour, except in `findByNameGlobal`. There, a province without `code` passes null to the `string` parameter of `byProvince` (src/Resources/Regency.php:76, 23) and throws a `TypeError`. None of this is modelled.
- Empty or whitespace-only queries: `Contains` follows PHP 8, where `strpos` finds an empty needle at offset 0. Before PHP 8, `strpos` returned false for an empty needle. No lemma states a result for such queries.
- The province listing path is the constant `Provinces.ProvincesPath` (src/Resources/Province.php:24). It has no contract of its own; `Provinces.Province.All` states the path it requests.
- Facts about the remote data, such as codes prefixed by their parent's code or non-empty listings, come from the API, not from this code.
