/**
 * The web client's URL builder (SafeZone-Web/src/utils/api.js): every request and socket of
 * the client goes to one fixed server address, over the secure scheme exactly when the page
 * itself was loaded over https.
 */
module Api {
  import opened Common

  /** The hard-coded server address. */
  const Base := "31.57.156.201:8000"

  /** The URL scheme: `ws`/`wss` for sockets, `http`/`https` for anything else. */
  function Scheme(protocol: string, secure: bool): (r: string)
    ensures StartsWith(r, "ws") <==> protocol == "ws"
    ensures StartsWith(r, "http") <==> protocol != "ws"
    ensures (r == "wss://" || r == "https://") <==> secure
    ensures r in {"ws://", "wss://", "http://", "https://"}
  {
    var r := if protocol == "ws" then (if secure then "wss://" else "ws://")
      else (if secure then "https://" else "http://");
    assert r[..2] == (if protocol == "ws" then "ws" else "ht");
    assert r[1] == (if protocol == "ws" then 's' else 't');
    assert protocol != "ws" ==> r[..4] == "http";
    r
  }

  /**
   * `getUrl(endpoint, protocol)` on a page whose `window.location.protocol` is `pageProtocol`:
   * an empty endpoint gives the empty string, a full `http...` address passes through, and any
   * other endpoint is joined to the scheme and the server address.
   */
  function GetUrl(endpoint: string, protocol: string, pageProtocol: string): (r: string)
    ensures r == "" <==> endpoint == ""
    ensures StartsWith(endpoint, "http") ==> r == endpoint
    ensures StartsWith(r, "http") || StartsWith(r, "ws") || r == ""
  {
    if endpoint == "" then ""
    else if StartsWith(endpoint, "http") then endpoint
    else Scheme(protocol, pageProtocol == "https:") + Base + endpoint
  }

  /** A built URL ends with the endpoint and, after its scheme, names the server address. */
  lemma GetUrlShape(endpoint: string, protocol: string, pageProtocol: string)
    requires endpoint != "" && !StartsWith(endpoint, "http")
    ensures var r := GetUrl(endpoint, protocol, pageProtocol);
      var scheme := Scheme(protocol, pageProtocol == "https:");
      && |r| == |scheme| + |Base| + |endpoint|
      && r[..|scheme|] == scheme
      && r[|scheme|..|scheme| + |Base|] == Base
      && r[|r| - |endpoint|..] == endpoint
      && (StartsWith(r, "ws") <==> protocol == "ws")
  {
    var scheme := Scheme(protocol, pageProtocol == "https:");
    var r := GetUrl(endpoint, protocol, pageProtocol);
    assert r == scheme + Base + endpoint;
    assert r[..|scheme|] == scheme;
    assert StartsWith(r, "ws") <==> StartsWith(scheme, "ws") by {
      assert |scheme| >= 2;
      assert r[..2] == scheme[..2];
    }
  }

  /** An http URL built by `getUrl` passes through `getUrl` unchanged. */
  lemma {:induction false} GetUrlIdempotent(endpoint: string, pageProtocol: string)
    ensures GetUrl(GetUrl(endpoint, "http", pageProtocol), "http", pageProtocol) == GetUrl(endpoint, "http", pageProtocol)
  {
    var r := GetUrl(endpoint, "http", pageProtocol);
    if endpoint != "" && !StartsWith(endpoint, "http") {
      var scheme := Scheme("http", pageProtocol == "https:");
      assert r == scheme + Base + endpoint;
      assert r[..4] == scheme[..4];
    }
  }
}
