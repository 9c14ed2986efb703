/**
 * The parts of HTTP the upload step touches: header maps and their `Add`,
 * an outgoing request whose header map is changed in place, the decorating
 * transport that stamps configured headers on every request, and the
 * abstract outcome of a call (a transport error, or a status and a body).
 */
module Http {
  import opened Wrappers

  /** A header map: each key holds the list of its values, in order. */
  type Header = map<string, seq<string>>

  /** The values stored under `key`, empty when the key is absent. */
  function Values(h: Header, key: string): seq<string> {
    if key in h then h[key] else []
  }

  /** `Header.Add`: append `value` to the values of `key`. */
  function AddHeader(h: Header, key: string, value: string): (r: Header)
    ensures r.Keys == h.Keys + {key}
    ensures Values(r, key) == Values(h, key) + [value]
    ensures forall k :: k in h && k != key ==> r[k] == h[k]
  {
    h[key := Values(h, key) + [value]]
  }

  /** `h` after `Add(k, extra[k])` for every configured key `k`. */
  function WithHeaders(h: Header, extra: map<string, string>): Header {
    map k | k in h.Keys + extra.Keys :: Values(h, k) + (if k in extra then [extra[k]] else [])
  }

  /** The configured headers whose keys lie in `keys`. */
  function Restrict(extra: map<string, string>, keys: set<string>): (r: map<string, string>)
    ensures r.Keys == extra.Keys * keys
  {
    map k | k in extra && k in keys :: extra[k]
  }

  /**
   * Decorating a request never drops or rewrites what it already had: a
   * configured key gains exactly its configured value at the end of its
   * list, and every other key keeps its values.
   */
  lemma WithHeadersSpec(h: Header, extra: map<string, string>)
    ensures WithHeaders(h, extra).Keys == h.Keys + extra.Keys
    ensures forall k :: k in extra ==> WithHeaders(h, extra)[k] == Values(h, k) + [extra[k]]
    ensures forall k :: k in h && k !in extra ==> WithHeaders(h, extra)[k] == h[k]
  {
  }

  /** One more `Add` extends a decoration to one more configured key. */
  lemma {:induction false} WithHeadersStep(h: Header, extra: map<string, string>, done: set<string>, key: string)
    requires key in extra && key !in done
    ensures AddHeader(WithHeaders(h, Restrict(extra, done)), key, extra[key])
         == WithHeaders(h, Restrict(extra, done + {key}))
  {
    var before := WithHeaders(h, Restrict(extra, done));
    var lhs := AddHeader(before, key, extra[key]);
    var rhs := WithHeaders(h, Restrict(extra, done + {key}));
    assert lhs.Keys == rhs.Keys;
    forall k | k in lhs.Keys
      ensures lhs[k] == rhs[k]
    {
      if k == key {
        assert Values(before, key) == Values(h, key);
      }
    }
  }

  /**
   * The configured headers carry distinct keys, so the order in which they
   * are added (Go visits a map in no fixed order) does not change the result.
   */
  lemma {:induction false} WithHeadersOrderIrrelevant(h: Header, a: map<string, string>, b: map<string, string>)
    requires a.Keys !! b.Keys
    ensures WithHeaders(WithHeaders(h, a), b) == WithHeaders(WithHeaders(h, b), a)
  {
    var ha, hb := WithHeaders(h, a), WithHeaders(h, b);
    var ab, ba := WithHeaders(ha, b), WithHeaders(hb, a);
    forall k
      ensures (k in ab <==> k in ba) && Values(ab, k) == Values(ba, k)
    {
      ValuesWithHeaders(h, a, k);
      ValuesWithHeaders(h, b, k);
      ValuesWithHeaders(ha, b, k);
      ValuesWithHeaders(hb, a, k);
    }
    SameValuesSameHeader(ab, ba);
  }

  lemma ValuesWithHeaders(h: Header, extra: map<string, string>, k: string)
    ensures k in WithHeaders(h, extra) <==> k in h || k in extra
    ensures Values(WithHeaders(h, extra), k) == Values(h, k) + (if k in extra then [extra[k]] else [])
  {
  }

  lemma SameValuesSameHeader(g: Header, h: Header)
    requires g.Keys == h.Keys
    requires forall k :: Values(g, k) == Values(h, k)
    ensures g == h
  {
    forall k | k in g
      ensures g[k] == h[k]
    {
      assert Values(g, k) == g[k] && Values(h, k) == h[k];
    }
  }

  /** Decorating with no configured headers leaves a header map as it was. */
  lemma WithNoHeaders(h: Header)
    ensures WithHeaders(h, map[]) == h
  {
    assert forall k :: k in h ==> WithHeaders(h, map[])[k] == h[k];
  }

  /** What a request carries as its body. */
  datatype Payload =
    | Json(fields: map<string, string>)     // a JSON object of string fields
    | FileContent(path: string, contentLength: int)  // a local file, streamed, and its declared length

  /** An outgoing request (`*http.Request`); its header map is changed in place. */
  class Request {
    const verb: string
    const url: string
    const payload: Payload
    var header: Header

    constructor (verb: string, url: string, payload: Payload)
      ensures this.verb == verb && this.url == url && this.payload == payload
      ensures header == map[]
    {
      this.verb := verb;
      this.url := url;
      this.payload := payload;
      header := map[];
    }

    /** `req.Header.Add(key, value)`. */
    method Add(key: string, value: string)
      modifies this`header
      ensures header == AddHeader(old(header), key, value)
    {
      header := AddHeader(header, key, value);
    }
  }

  /** Where a decorated request is finally sent. */
  datatype RoundTripper = DefaultTransport | Custom(name: string)

  /** The decorating transport: fixed headers and an optional inner transport. */
  class Transport {
    const headers: map<string, string>
    const base: Option<RoundTripper>

    constructor (headers: map<string, string>, base: Option<RoundTripper>)
      ensures this.headers == headers && this.base == base
    {
      this.headers := headers;
      this.base := base;
    }

    /**
     * Adds every configured header to `req`, in whatever order the keys are
     * visited, and names the transport the request is handed to: the inner
     * one, or the default transport when there is none.
     */
    method RoundTrip(req: Request) returns (via: RoundTripper)
      modifies req`header
      ensures req.header == WithHeaders(old(req.header), headers)
      ensures via == (if base.Some? then base.value else DefaultTransport)
    {
      ghost var original := req.header;
      var pending := headers.Keys;
      assert Restrict(headers, headers.Keys - pending) == map[];
      WithNoHeaders(original);
      while pending != {}
        invariant pending <= headers.Keys
        invariant req.header == WithHeaders(original, Restrict(headers, headers.Keys - pending))
        decreases pending
      {
        var k :| k in pending;
        WithHeadersStep(original, headers, headers.Keys - pending, k);
        req.Add(k, headers[k]);
        assert (headers.Keys - pending) + {k} == headers.Keys - (pending - {k});
        pending := pending - {k};
      }
      assert Restrict(headers, headers.Keys) == headers;
      via := if base.Some? then base.value else DefaultTransport;
    }
  }

  /** A response body as the JSON decoder sees it. */
  datatype Body =
    | Decoded(fields: map<string, string>)  // a JSON object; only its string fields
    | Malformed                             // not decodable

  /** A struct field after decoding: its value, or "" when absent or undecodable. */
  function Field(body: Body, name: string): (v: string)
    ensures body.Malformed? ==> v == ""
    ensures body.Decoded? && name in body.fields ==> v == body.fields[name]
    ensures body.Decoded? && name !in body.fields ==> v == ""
  {
    if body.Decoded? && name in body.fields then body.fields[name] else ""
  }

  /** The outcome of one HTTP call. */
  datatype Outcome =
    | TransportFailure(err: string)         // no response: connection, scheme, ...
    | Received(status: int, body: Body)

  predicate IsOk(o: Outcome) {
    o.Received? && o.status == 200
  }
}
