/** The agent's client of the server's update endpoint: it fixes up the
    server address once, then POSTs one metric per call as JSON and turns
    transport failures and error statuses into errors. */
module UpdateFacade {
  import opened MetricTypes
  import opened Int64Arith
  import Validators

  const HttpScheme: string := "http://"
  const HttpsScheme: string := "https://"

  predicate HasPrefix(s: string, p: string)
  {
    |p| <= |s| && s[..|p|] == p
  }

  /** The address as the facade keeps it: unchanged when it already names the
      http or https scheme, otherwise with "http://" put in front. */
  function NormalizeAddress(addr: string): (r: string)
    ensures HasPrefix(r, HttpScheme) || HasPrefix(r, HttpsScheme)
    ensures HasPrefix(addr, HttpScheme) || HasPrefix(addr, HttpsScheme) ==> r == addr
    ensures !(HasPrefix(addr, HttpScheme) || HasPrefix(addr, HttpsScheme)) ==> r == HttpScheme + addr
  {
    if !HasPrefix(addr, HttpScheme) && !HasPrefix(addr, HttpsScheme) then HttpScheme + addr else addr
  }

  /** Normalising twice is normalising once. */
  lemma NormalizeIdempotent(addr: string)
    ensures NormalizeAddress(NormalizeAddress(addr)) == NormalizeAddress(addr)
  {
  }

  /** An address with no scheme gets http, e.g. "localhost:1234". */
  lemma NormalizeBareHost()
    ensures NormalizeAddress("localhost:1234") == "http://localhost:1234"
  {
    var host := "localhost:1234";
    assert host[..|HttpScheme|][0] == 'l' != HttpScheme[0];
    assert host[..|HttpsScheme|][0] == 'l' != HttpsScheme[0];
  }

  /** What the transport reports: a response (status and body text as
      resty's Response.String gives it), or a failure to get one. */
  datatype Transport = Responded(status: int, body: string) | RequestFailed(cause: Error)

  /** Whether a float64 bit pattern is NaN or an infinity: all exponent bits set. */
  predicate NonFinite(g: Gauge)
  {
    (g.bits >> 52) & 0x7ff == 0x7ff
  }

  /** How Go formats a non-finite float64 in json's unsupported-value error. */
  function NonFiniteText(g: Gauge): string
  {
    if g.bits & 0x000f_ffff_ffff_ffff != 0 then "NaN"
    else if g.bits >> 63 == 1 then "-Inf"
    else "+Inf"
  }

  /** json.Marshal of a metric: it fails only on a NaN or infinite gauge value. */
  function MarshalError(m: Metric): (r: Option<Error>)
    ensures r.None? <==> m.value.None? || !NonFinite(m.value.value)
  {
    if m.value.Some? && NonFinite(m.value.value) then
      Some(Other("json: unsupported value: " + NonFiniteText(m.value.value)))
    else None
  }

  class MetricUpdateFacade {
    const serverAddr: string
    const endpoint: string

    /** NewMetricUpdateFacade: keeps the normalised address and the endpoint. */
    constructor (serverAddr: string, endpoint: string)
      ensures this.serverAddr == NormalizeAddress(serverAddr)
      ensures this.endpoint == endpoint
    {
      if !HasPrefix(serverAddr, HttpScheme) && !HasPrefix(serverAddr, HttpsScheme) {
        this.serverAddr := HttpScheme + serverAddr;
      } else {
        this.serverAddr := serverAddr;
      }
      this.endpoint := endpoint;
    }

    /** The URL every update is POSTed to: address, one slash, endpoint.
        It names a scheme because the constructor normalised the address. */
    function URL(): (u: string)
      requires HasPrefix(serverAddr, HttpScheme) || HasPrefix(serverAddr, HttpsScheme)
      ensures u == serverAddr + "/" + endpoint
      ensures HasPrefix(u, HttpScheme) || HasPrefix(u, HttpsScheme)
    {
      serverAddr + "/" + endpoint
    }

    /** Update: marshals the metric (failing on a non-finite gauge), POSTs it
        to URL(), and answers no error exactly when the server responded with
        a status below 400. `post` stands for the HTTP client. */
    method Update(post: (string, Metric) -> Transport, m: Metric) returns (err: Option<Error>)
      requires HasPrefix(serverAddr, HttpScheme) || HasPrefix(serverAddr, HttpsScheme)
      ensures err.None? <==> MarshalError(m).None? && post(URL(), m).Responded? && post(URL(), m).status < Validators.StatusBadRequest
      ensures MarshalError(m).Some? ==> err == Some(Other("marshal metrics error: " + Message(MarshalError(m).value)))
      ensures MarshalError(m).None? && post(URL(), m).RequestFailed? ==>
        err == Some(Other("request error: " + Message(post(URL(), m).cause)))
      ensures MarshalError(m).None? && post(URL(), m).Responded? && post(URL(), m).status >= Validators.StatusBadRequest ==>
        err == Some(Other("server returned status " + FormatInt(post(URL(), m).status) + ": " + post(URL(), m).body))
    {
      var url := serverAddr + "/" + endpoint;
      var marshalErr := MarshalError(m);
      if marshalErr.Some? {
        return Some(Other("marshal metrics error: " + Message(marshalErr.value)));
      }
      var resp := post(url, m);
      if resp.RequestFailed? {
        return Some(Other("request error: " + Message(resp.cause)));
      }
      if resp.status >= Validators.StatusBadRequest {
        return Some(Other("server returned status " + FormatInt(resp.status) + ": " + resp.body));
      }
      return None;
    }
  }

  /** The URL for the "update/" endpoint: a bare host gets the http scheme,
      an address with a scheme is kept, and the path is "/update/". */
  lemma UpdateEndpointURL(f: MetricUpdateFacade, addr: string)
    requires f.serverAddr == NormalizeAddress(addr) && f.endpoint == "update/"
    ensures !HasPrefix(addr, HttpScheme) && !HasPrefix(addr, HttpsScheme) ==> f.URL() == HttpScheme + addr + "/update/"
    ensures HasPrefix(addr, HttpScheme) || HasPrefix(addr, HttpsScheme) ==> f.URL() == addr + "/update/"
  {
  }

  /** Slashes are not collapsed: an address ending in "/" gives "//". */
  lemma TrailingSlashKept(f: MetricUpdateFacade)
    requires HasPrefix(f.serverAddr, HttpScheme) || HasPrefix(f.serverAddr, HttpsScheme)
    requires f.serverAddr[|f.serverAddr| - 1] == '/'
    ensures f.URL()[|f.serverAddr| - 1..|f.serverAddr| + 1] == "//"
  {
  }

  /** The error for a 500 answer begins "server returned status 500", whatever the body. */
  lemma ServerErrorMessage(body: string)
    ensures HasPrefix("server returned status " + FormatInt(500) + ": " + body, "server returned status 500")
  {
    assert NatDigits(5) == ['5'];
    assert NatDigits(50) == ['5', '0'] by { assert NatDigits(50) == NatDigits(5) + [DigitChar(0)]; }
    assert NatDigits(500) == ['5', '0', '0'] by { assert NatDigits(500) == NatDigits(50) + [DigitChar(0)]; }
    var text := "server returned status " + FormatInt(500) + ": " + body;
    assert text[..|"server returned status 500"|] == "server returned status 500";
  }
}
