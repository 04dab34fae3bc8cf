/** The records the remote region API returns and the client that fetches them.
    The HTTP request itself and the JSON decoding are not modelled: the remote API
    is a fixed function from a request path to either an error or a listing. */
module Transport {

  datatype Option<+T> = None | Some(value: T)

  datatype Result<+R, +E> = Success(value: R) | Failure(error: E)

  /** One administrative region: its dot-delimited code ("31.74") and its name. */
  datatype Region = Region(code: string, name: string)

  /** A decoded response: the listing under the "data" key, in the order the API sent it. */
  datatype Envelope = Envelope(data: seq<Region>)

  /** What `Client::request` throws when the fetch fails or the body is not JSON. */
  datatype Error = WilayahException(message: string)

  /** The remote API: the response it gives to each request path. */
  type Responder = string -> Result<Envelope, Error>

  /** A lowercasing function on strings; the library uses `mb_strtolower`. */
  type Lowering = string -> string

  /** A path built as `prefix + code + suffix` determines the code. */
  lemma FramedInjective(prefix: string, a: string, b: string, suffix: string)
    ensures prefix + a + suffix == prefix + b + suffix ==> a == b
  {
    if prefix + a + suffix == prefix + b + suffix {
      assert a == (prefix + a + suffix)[|prefix|..|prefix| + |a|];
      assert b == (prefix + b + suffix)[|prefix|..|prefix| + |b|];
    }
  }

  class Client {
    /** What the remote API answers to each path. */
    const api: Responder
    /** The multibyte lowercasing the host supplies; nothing about it is assumed. */
    const lower: Lowering
    /** Every path requested so far, in request order. */
    ghost var sent: seq<string>

    constructor (api: Responder, lower: Lowering)
      ensures this.api == api && this.lower == lower && sent == []
    {
      this.api := api;
      this.lower := lower;
      sent := [];
    }

    /** Issues exactly one request for `path` and returns what the API answers to it. */
    method Request(path: string) returns (r: Result<Envelope, Error>)
      modifies this
      ensures sent == old(sent) + [path]
      ensures r == api(path)
    {
      sent := sent + [path];
      r := api(path);
    }
  }
}
