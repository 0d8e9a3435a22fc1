/** Authentication of STOMP frames (WebSocketAuthInterceptor.java): the token
    is looked for in the Authorization header, then in a `token=` query,
    then in the session attributes the handshake filled; a frame without an
    authenticated user gets one when the token names a user. */
module TokenAuth {
  import opened Common

  const BearerPrefix: string := "Bearer "
  const QueryKey: string := "token="
  /** The session attribute read as the last resort. */
  const SessionTokenKey: string := "jwtToken"

  /** The headers of a frame that matter here: the Authorization values, the
      first `query` value, and the session attributes, each possibly absent. */
  datatype StompHeaders = StompHeaders(
    authorization: Option<seq<string>>, query: Option<string>, sessionAttributes: Option<map<string, string>>)

  /** Whether the first Authorization value carries a bearer token. */
  predicate HasBearer(h: StompHeaders)
  {
    h.authorization.Some? && |h.authorization.value| > 0 && StartsWith(h.authorization.value[0], BearerPrefix)
  }

  /** extractToken: the bearer token; else the text after the first
      `token=` of the query; else the session's token attribute (none when
      the session has no such attribute); else none. */
  function ExtractToken(h: StompHeaders): (r: Option<string>)
    ensures HasBearer(h) ==> r == Some(h.authorization.value[0][|BearerPrefix|..])
    ensures !HasBearer(h) && h.query.Some? && Contains(h.query.value, QueryKey) ==>
              exists i :: 0 <= i && i + |QueryKey| <= |h.query.value| &&
                OccursAt(h.query.value, QueryKey, i) &&
                (forall j :: 0 <= j < i ==> !OccursAt(h.query.value, QueryKey, j)) &&
                r == Some(h.query.value[i + |QueryKey|..])
    ensures !HasBearer(h) && !(h.query.Some? && Contains(h.query.value, QueryKey)) ==>
              r == (if h.sessionAttributes.Some? && SessionTokenKey in h.sessionAttributes.value
                    then Some(h.sessionAttributes.value[SessionTokenKey]) else None)
  {
    if HasBearer(h) then Some(h.authorization.value[0][7..])
    else if h.query.Some? && Contains(h.query.value, QueryKey) then
      var q := h.query.value;
      var i := IndexOf(q, QueryKey).value;
      Some(q[i + 6..])
    else if h.sessionAttributes.Some? then
      var attrs := h.sessionAttributes.value;
      if SessionTokenKey in attrs then Some(attrs[SessionTokenKey]) else None
    else None
  }

  /** A token sent as `Authorization: Bearer <t>` comes back as `t`. */
  lemma BearerRoundTrip(t: string, rest: seq<string>, query: Option<string>, attrs: Option<map<string, string>>)
    ensures ExtractToken(StompHeaders(Some([BearerPrefix + t] + rest), query, attrs)) == Some(t)
  {
    var h := StompHeaders(Some([BearerPrefix + t] + rest), query, attrs);
    assert h.authorization.value[0] == BearerPrefix + t;
    assert (BearerPrefix + t)[..|BearerPrefix|] == BearerPrefix;
    assert (BearerPrefix + t)[|BearerPrefix|..] == t;
  }

  /** Without a bearer header, a query `token=<t>` gives back `t`. */
  lemma QueryRoundTrip(auth: Option<seq<string>>, t: string, attrs: Option<map<string, string>>)
    requires !HasBearer(StompHeaders(auth, None, attrs))
    ensures ExtractToken(StompHeaders(auth, Some(QueryKey + t), attrs)) == Some(t)
  {
    var q := QueryKey + t;
    assert q[0..|QueryKey|] == QueryKey;
    assert OccursAt(q, QueryKey, 0);
    ContainsAt(q, QueryKey, 0);
    assert q[|QueryKey|..] == t;
  }

  /** The frame's authenticated user and the thread's security context. */
  class StompSession {
    var user: Option<string>
    var securityContext: Option<string>

    constructor ()
      ensures user.None? && securityContext.None?
    {
      user := None;
      securityContext := None;
    }

    /** preSend: with headers, a token and no user yet, the token's username
        (none when parsing fails or yields none) becomes the frame's user
        and the security context's principal. A user already set is never
        replaced. The frame itself always passes on unchanged. */
    method PreSend<M>(message: M, headers: Option<StompHeaders>, extractUsername: string -> Option<string>)
      returns (out: M)
      modifies this
      ensures out == message
      ensures old(user).Some? ==> user == old(user) && securityContext == old(securityContext)
      ensures headers.Some? && old(user).None? && ExtractToken(headers.value).Some? &&
              extractUsername(ExtractToken(headers.value).value).Some? ==>
                user == extractUsername(ExtractToken(headers.value).value) && securityContext == user
      ensures !(headers.Some? && old(user).None? && ExtractToken(headers.value).Some? &&
                extractUsername(ExtractToken(headers.value).value).Some?) ==>
                user == old(user) && securityContext == old(securityContext)
    {
      if headers.Some? {
        var token := ExtractToken(headers.value);
        if token.Some? && user.None? {
          var username := extractUsername(token.value);
          if username.Some? {
            securityContext := username;
            user := username;
          }
        }
      }
      return message;
    }
  }
}
