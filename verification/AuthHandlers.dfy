/**
 * The session cookies and the five route handlers that set them: the `/api/v1` proxy, login, logout,
 * refresh and change-password. Backend answers are inputs; tokens are opaque strings, and a missing
 * or empty token is "".
 */
module AuthHandlers {
  import opened Options

  const ACCESS: string := "access"
  const REFRESH: string := "refresh"
  const REFRESH_MAX_AGE_S: int := 60 * 60 * 24 * 14

  datatype SetCookie = SetCookie(value: string, maxAge: int)

  datatype Tokens = Tokens(access: string, refresh: string, expiresIn: Option<int>)

  /** A backend call throws, or answers with a status and perhaps a readable token body. */
  datatype Reply = Threw | Replied(status: int, body: Option<Tokens>)

  /** What a response does to the browser's cookies. */
  datatype Effect = Keep | Clear | SetPair(access: string, refresh: string, maxAge: int)

  predicate Ok(status: int) {
    200 <= status <= 299
  }

  /** The body holds both tokens. */
  predicate Complete(body: Option<Tokens>) {
    body.Some? && body.value.access != "" && body.value.refresh != ""
  }

  function Pair(t: Tokens): Effect {
    SetPair(t.access, t.refresh, if t.expiresIn.Some? then t.expiresIn.value else 900)
  }

  /** `refreshTokens`: nothing on a rejection, an unreachable backend or an unreadable body. */
  function RefreshTokens(reply: Reply): Option<Tokens> {
    match reply
    case Threw => None
    case Replied(status, body) => if Ok(status) then body else None
  }

  /** The cookies a response sets, by what they do. */
  function CookiesOf(e: Effect): map<string, SetCookie> {
    match e
    case Keep => map[]
    case Clear => map[ACCESS := SetCookie("", 0), REFRESH := SetCookie("", 0)]
    case SetPair(a, r, m) => map[ACCESS := SetCookie(a, m), REFRESH := SetCookie(r, REFRESH_MAX_AGE_S)]
  }

  /** No response sets one cookie without the other, and the effect can be read off the headers. */
  lemma EffectIsVisible(e: Effect, f: Effect)
    requires e.SetPair? ==> e.access != ""
    requires f.SetPair? ==> f.access != ""
    ensures ACCESS in CookiesOf(e) <==> REFRESH in CookiesOf(e)
    ensures CookiesOf(e) == CookiesOf(f) <==> e == f
  {
    var c, d := CookiesOf(e), CookiesOf(f);
    assert e.Keep? <==> ACCESS !in c;
    assert f.Keep? <==> ACCESS !in d;
    if ACCESS in c && c == d {
      assert c[ACCESS] == d[ACCESS] && c[REFRESH] == d[REFRESH];
    }
  }

  // ---------------------------------------------------------------- the response and its two writers

  class NextResponse {
    var status: int
    var cookies: map<string, SetCookie>

    constructor (status: int)
      ensures this.status == status && cookies == map[]
    {
      this.status := status;
      cookies := map[];
    }
  }

  method SetAuthCookies(res: NextResponse, access: string, refresh: string, accessMaxAge: int)
    modifies res`cookies
    ensures res.cookies == old(res.cookies) + CookiesOf(SetPair(access, refresh, accessMaxAge))
  {
    res.cookies := res.cookies[ACCESS := SetCookie(access, accessMaxAge)];
    res.cookies := res.cookies[REFRESH := SetCookie(refresh, REFRESH_MAX_AGE_S)];
  }

  method ClearAuthCookies(res: NextResponse)
    modifies res`cookies
    ensures res.cookies == old(res.cookies) + CookiesOf(Clear)
  {
    res.cookies := res.cookies[ACCESS := SetCookie("", 0)];
    res.cookies := res.cookies[REFRESH := SetCookie("", 0)];
  }

  // ---------------------------------------------------------------- the /api/v1 proxy

  datatype Outcome = Outcome(status: int, effect: Effect)

  /** One proxied request: `first` answers the call with the access cookie, `refreshed` the exchange of
      the refresh cookie, `retry` the second call. */
  function Proxied(refresh: string, first: Reply, refreshed: Reply, retry: Reply): Outcome {
    if first.Threw? then Outcome(502, Keep)
    else if first.status != 401 then Outcome(first.status, Keep)
    else if refresh == "" || !Complete(RefreshTokens(refreshed)) then Outcome(401, Clear)
    else if retry.Threw? then Outcome(502, Keep)
    else Outcome(retry.status, Pair(RefreshTokens(refreshed).value))
  }

  method Proxy(refresh: string, first: Reply, refreshed: Reply, retry: Reply) returns (out: NextResponse)
    ensures fresh(out)
    ensures var o := Proxied(refresh, first, refreshed, retry);
            out.status == o.status && out.cookies == CookiesOf(o.effect)
  {
    var backendRes := first;
    var rotated: Option<Tokens> := None;
    if backendRes.Threw? {
      out := new NextResponse(502);
      return;
    }
    if backendRes.status == 401 && refresh != "" {
      rotated := RefreshTokens(refreshed);
      if Complete(rotated) {
        backendRes := retry;
        if backendRes.Threw? {
          out := new NextResponse(502);
          return;
        }
      } else {
        rotated := None;
      }
    }
    out := new NextResponse(backendRes.status);
    if Complete(rotated) {
      var maxAge := if rotated.value.expiresIn.Some? then rotated.value.expiresIn.value else 900;
      SetAuthCookies(out, rotated.value.access, rotated.value.refresh, maxAge);
    } else if backendRes.status == 401 {
      ClearAuthCookies(out);
    }
  }

  /** The proxy was handed a new pair by the backend. */
  predicate Rotated(refresh: string, first: Reply, refreshed: Reply) {
    first.Replied? && first.status == 401 && refresh != "" && Complete(RefreshTokens(refreshed))
  }

  /** The proxy clears the session exactly when it answers 401 without having rotated; a 401 after a
      rotation keeps the new pair. */
  lemma ClearedExactly(refresh: string, first: Reply, refreshed: Reply, retry: Reply)
    ensures var o := Proxied(refresh, first, refreshed, retry);
            && (o.effect == Clear <==> o.status == 401 && !Rotated(refresh, first, refreshed))
            && (o.effect.SetPair? ==> Rotated(refresh, first, refreshed))
  {
  }

  /** A new pair reaches the browser exactly when the second call does not throw; if it throws, the
      pair is lost and the old cookies stay. */
  lemma RotationReachesBrowser(refresh: string, first: Reply, refreshed: Reply, retry: Reply)
    requires Rotated(refresh, first, refreshed)
    ensures Proxied(refresh, first, refreshed, retry).effect == Pair(RefreshTokens(refreshed).value) <==> !retry.Threw?
  {
  }

  /** Both happen: the second call throws and the new pair is lost, or it answers 401 and the pair is kept. */
  lemma RotatedPairLostOrKept()
    ensures var first, refreshed := Replied(401, None), Replied(200, Some(Tokens("a", "r", None)));
            && Rotated("old", first, refreshed)
            && Proxied("old", first, refreshed, Threw) == Outcome(502, Keep)
            && Proxied("old", first, refreshed, Replied(401, None)) == Outcome(401, SetPair("a", "r", 900))
  {
  }

  // ---------------------------------------------------------------- the /api/auth handlers

  /** Login, and change-password for a request that carries an access cookie. */
  function Issued(reply: Reply): Outcome {
    if reply.Threw? then Outcome(502, Keep)
    else if !Ok(reply.status) || !Complete(reply.body) then
      Outcome(if Ok(reply.status) then 502 else reply.status, Keep)
    else Outcome(200, Pair(reply.body.value))
  }

  method Login(reply: Reply) returns (out: NextResponse)
    ensures fresh(out)
    ensures out.status == Issued(reply).status && out.cookies == CookiesOf(Issued(reply).effect)
  {
    if reply.Threw? {
      out := new NextResponse(502);
      return;
    }
    if !Ok(reply.status) || !Complete(reply.body) {
      out := new NextResponse(if Ok(reply.status) then 502 else reply.status);
      return;
    }
    out := new NextResponse(200);
    var data := reply.body.value;
    SetAuthCookies(out, data.access, data.refresh, if data.expiresIn.Some? then data.expiresIn.value else 900);
  }

  function Changed(access: string, reply: Reply): Outcome {
    if access == "" then Outcome(401, Keep) else Issued(reply)
  }

  method ChangePassword(access: string, reply: Reply) returns (out: NextResponse)
    ensures fresh(out)
    ensures out.status == Changed(access, reply).status && out.cookies == CookiesOf(Changed(access, reply).effect)
  {
    if access == "" {
      out := new NextResponse(401);
      return;
    }
    if reply.Threw? {
      out := new NextResponse(502);
      return;
    }
    if !Ok(reply.status) || !Complete(reply.body) {
      out := new NextResponse(if Ok(reply.status) then 502 else reply.status);
      return;
    }
    out := new NextResponse(200);
    var data := reply.body.value;
    SetAuthCookies(out, data.access, data.refresh, if data.expiresIn.Some? then data.expiresIn.value else 900);
  }

  function Refreshed(refresh: string, reply: Reply): Outcome {
    if refresh != "" && Complete(RefreshTokens(reply)) then Outcome(200, Pair(RefreshTokens(reply).value))
    else Outcome(401, Clear)
  }

  method Refresh(refresh: string, reply: Reply) returns (out: NextResponse)
    ensures fresh(out)
    ensures out.status == Refreshed(refresh, reply).status && out.cookies == CookiesOf(Refreshed(refresh, reply).effect)
  {
    if refresh == "" {
      out := new NextResponse(401);
      ClearAuthCookies(out);
      return;
    }
    var tokens := RefreshTokens(reply);
    if !Complete(tokens) {
      out := new NextResponse(401);
      ClearAuthCookies(out);
      return;
    }
    out := new NextResponse(200);
    var data := tokens.value;
    SetAuthCookies(out, data.access, data.refresh, if data.expiresIn.Some? then data.expiresIn.value else 900);
  }

  method Logout() returns (out: NextResponse)
    ensures fresh(out) && out.status == 204 && out.cookies == CookiesOf(Clear)
  {
    out := new NextResponse(204);
    ClearAuthCookies(out);
  }
}
