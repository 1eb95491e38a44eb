/**
 * The decision part of the server monitor. The socket connect and the
 * HTTP request themselves are an oracle: a `Network` value says what each
 * of them yields during one call into the engine.
 */
module Probe {
  import opened Wrappers
  import opened Config

  /**
   * `connect(ip, port)`: whether a TCP connect succeeds within the timeout.
   * `get(scheme, ip, port, path)`: the status code of the GET (redirects
   * followed), or None when the request raises.
   */
  datatype Network = Network(connect: (string, int) -> bool, get: (string, string, int, string) -> Option<int>)

  /** HTTPS exactly for port 443. */
  function Scheme(port: int): (s: string)
    ensures s == "https" || s == "http"
    ensures s == "https" <==> port == 443
  {
    if port == 443 then "https" else "http"
  }

  /** An HTTP probe succeeds when a response arrived with a status below 500. */
  predicate HttpOk(status: Option<int>) {
    status.Some? && status.value < 500
  }

  function LowerChar(c: char): char {
    if 'A' <= c <= 'Z' then (c as int + 32) as char else c
  }

  /** Letter-by-letter lower-casing of the ASCII capitals. */
  function Lower(s: string): (r: string)
    ensures |r| == |s|
    ensures forall i :: 0 <= i < |s| ==> r[i] == LowerChar(s[i])
  {
    if s == [] then [] else [LowerChar(s[0])] + Lower(s[1..])
  }

  /** The probe method selects HTTP when it reads "http" in any letter case. */
  predicate IsHttpMethod(probeMethod: string) {
    Lower(probeMethod) == "http"
  }

  /** One probe: an HTTP status check or a TCP connect, by probe method. */
  predicate CheckServer(net: Network, ip: string, port: int, probeMethod: string, path: string) {
    if IsHttpMethod(probeMethod) then HttpOk(net.get(Scheme(port), ip, port, path))
    else net.connect(ip, port)
  }

  /** The probe of one configured server, with the monitoring defaults applied. */
  predicate ServerUp(mon: Monitoring, net: Network, s: ServerSpec) {
    CheckServer(net, s.ip, s.port, mon.checkMethod.GetOr("tcp"), mon.httpPath.GetOr("/"))
  }

  /** The four-letter spellings of "http" in any mix of letter case. */
  predicate SpellsHttp(m: string) {
    |m| == 4 && m[0] in "hH" && m[1] in "tT" && m[2] in "tT" && m[3] in "pP"
  }

  /** Exactly the four-letter spellings of "http" in mixed case select HTTP. */
  lemma {:induction false} IsHttpMethodSpellings(probeMethod: string)
    ensures IsHttpMethod(probeMethod) <==> SpellsHttp(probeMethod)
  {
    var r := Lower(probeMethod);
    if IsHttpMethod(probeMethod) {
      assert |probeMethod| == 4;
      assert LowerChar(probeMethod[0]) == r[0] == 'h';
      assert LowerChar(probeMethod[1]) == r[1] == 't';
      assert LowerChar(probeMethod[2]) == r[2] == 't';
      assert LowerChar(probeMethod[3]) == r[3] == 'p';
    }
    if SpellsHttp(probeMethod) {
      assert r == "http";
    }
  }

  /**
   * The verdict of a server's probe: without a configured check method, or
   * with any method that is not a spelling of "http", a TCP connect; with a
   * spelling of "http", a GET that counts any response below 500 (redirects
   * and client errors included) and fails when no response arrives.
   */
  lemma ProbeVerdicts(mon: Monitoring, net: Network, s: ServerSpec)
    ensures mon.checkMethod.None? ==> (ServerUp(mon, net, s) <==> net.connect(s.ip, s.port))
    ensures mon.checkMethod.Some? && !SpellsHttp(mon.checkMethod.value) ==>
      (ServerUp(mon, net, s) <==> net.connect(s.ip, s.port))
    ensures mon.checkMethod.Some? && SpellsHttp(mon.checkMethod.value) ==>
      var status := net.get(Scheme(s.port), s.ip, s.port, mon.httpPath.GetOr("/"));
      && (status.None? ==> !ServerUp(mon, net, s))
      && (status.Some? ==> (ServerUp(mon, net, s) <==> status.value < 500))
  {
    IsHttpMethodSpellings(mon.checkMethod.GetOr("tcp"));
  }
}
