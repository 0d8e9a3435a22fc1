/** The WebSocket handshake (CustomHandshakeInterceptor.java): the token
    cookie of the upgrade request is copied into the session's attributes,
    where the STOMP interceptor looks for it later. */
module Handshake {
  import opened Common

  /** The session attribute the token is stored under. */
  const TokenAttribute: string := "jwtToken"

  datatype RequestCookie = RequestCookie(name: string, value: string)

  /** The position of the first cookie named exactly "JWT", if any. */
  function FirstJwtCookie(cookies: seq<RequestCookie>): (r: Option<nat>)
    ensures r.Some? ==> r.value < |cookies| && cookies[r.value].name == "JWT"
    ensures r.Some? ==> forall j :: 0 <= j < r.value ==> cookies[j].name != "JWT"
    ensures r.None? <==> forall j :: 0 <= j < |cookies| ==> cookies[j].name != "JWT"
  {
    if cookies == [] then None
    else if cookies[0].name == "JWT" then Some(0)
    else
      var rest := FirstJwtCookie(cookies[1..]);
      if rest.Some? then Some(rest.value + 1) else None
  }

  /** The attributes of one WebSocket session. */
  class HandshakeSession {
    var attributes: map<string, string>

    constructor (attributes: map<string, string>)
      ensures this.attributes == attributes
    {
      this.attributes := attributes;
    }

    /** beforeHandshake: for a servlet request with cookies, the value of the
        first "JWT" cookie is stored under the token attribute and the scan
        stops; otherwise the attributes stay as they were. The handshake
        always goes ahead. */
    method BeforeHandshake(isServletRequest: bool, cookies: Option<seq<RequestCookie>>) returns (proceed: bool)
      modifies this`attributes
      ensures proceed
      ensures isServletRequest && cookies.Some? && FirstJwtCookie(cookies.value).Some? ==>
                attributes == old(attributes)[TokenAttribute := cookies.value[FirstJwtCookie(cookies.value).value].value]
      ensures !(isServletRequest && cookies.Some? && FirstJwtCookie(cookies.value).Some?) ==>
                attributes == old(attributes)
    {
      if isServletRequest && cookies.Some? {
        var all := cookies.value;
        var i := 0;
        while i < |all|
          invariant 0 <= i <= |all|
          invariant forall j :: 0 <= j < i ==> all[j].name != "JWT"
          invariant attributes == old(attributes)
        {
          if all[i].name == "JWT" {
            attributes := attributes[TokenAttribute := all[i].value];
            break;
          }
          i := i + 1;
        }
      }
      return true;
    }
  }
}
