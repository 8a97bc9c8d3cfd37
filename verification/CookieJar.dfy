/**
 * The browser's side of the session: a cookie jar as in section 5.3 of RFC 6265, any number of
 * requests in flight to the five handlers, and their responses arriving in any order while time
 * passes and cookies expire.
 */
module CookieJar {
  import opened Options
  import opened AuthHandlers

  datatype Cookie = Cookie(value: string, expires: int)

  datatype Jar = Jar(access: Option<Cookie>, refresh: Option<Cookie>)

  predicate Live(c: Option<Cookie>, now: int) {
    c.Some? && now < c.value.expires
  }

  /** The value a request carries, "" for none. */
  function Sent(c: Option<Cookie>, now: int): string {
    if Live(c, now) then c.value.value else ""
  }

  /** A Max-Age of zero or less removes the cookie. */
  function Stored(c: SetCookie, now: int): Option<Cookie> {
    if c.maxAge <= 0 then None else Some(Cookie(c.value, now + c.maxAge))
  }

  /** A response's cookies replace those of the same name. */
  function Receive(jar: Jar, now: int, cookies: map<string, SetCookie>): Jar {
    Jar(if ACCESS in cookies then Stored(cookies[ACCESS], now) else jar.access,
        if REFRESH in cookies then Stored(cookies[REFRESH], now) else jar.refresh)
  }

  // ---------------------------------------------------------------- the world

  /** `issues` are the pairs the backend has ever issued, `flight` the responses under way. */
  datatype World = World(now: int, jar: Jar, issues: set<(string, string)>, flight: seq<Effect>)

  datatype Call =
    | ApiCall(first: Reply, refreshed: Reply, retry: Reply)
    | LoginCall(reply: Reply)
    | ChangeCall(reply: Reply)
    | RefreshCall(reply: Reply)
    | LogoutCall

  /** `Handled`: a handler answers a request that was sent, maybe long ago, with some cookies. `Arrives`:
      the k-th response under way reaches the browser. `Evicts`: the browser drops expired cookies. */
  datatype Event =
    | Handled(call: Call, access: string, refresh: string)
    | Arrives(k: nat)
    | TimePasses(seconds: nat)
    | Evicts

  function EffectOf(c: Call, access: string, refresh: string): Effect {
    match c
    case ApiCall(first, refreshed, retry) => Proxied(refresh, first, refreshed, retry).effect
    case LoginCall(reply) => Issued(reply).effect
    case ChangeCall(reply) => Changed(access, reply).effect
    case RefreshCall(reply) => Refreshed(refresh, reply).effect
    case LogoutCall => Clear
  }

  /** The tokens the backend issues during a call: an exchange counts only if the handler asks for it. */
  function IssueOf(c: Call, access: string, refresh: string): Option<Tokens> {
    match c
    case ApiCall(first, refreshed, _) =>
      if first.Replied? && first.status == 401 && refresh != "" then RefreshTokens(refreshed) else None
    case LoginCall(reply) => RefreshTokens(reply)
    case ChangeCall(reply) => if access != "" then RefreshTokens(reply) else None
    case RefreshCall(reply) => if refresh != "" then RefreshTokens(reply) else None
    case LogoutCall => None
  }

  function NewIssues(c: Call, access: string, refresh: string): set<(string, string)> {
    match IssueOf(c, access, refresh) case None => {} case Some(t) => {(t.access, t.refresh)}
  }

  predicate Enabled(w: World, e: Event) {
    e.Arrives? ==> e.k < |w.flight|
  }

  function Next(w: World, e: Event): World
    requires Enabled(w, e)
  {
    match e
    case Handled(c, a, r) => w.(issues := w.issues + NewIssues(c, a, r), flight := w.flight + [EffectOf(c, a, r)])
    case Arrives(k) =>
      w.(jar := Receive(w.jar, w.now, CookiesOf(w.flight[k])), flight := w.flight[..k] + w.flight[k + 1..])
    case TimePasses(seconds) => w.(now := w.now + seconds)
    case Evicts =>
      w.(jar := Jar(if Live(w.jar.access, w.now) then w.jar.access else None,
                    if Live(w.jar.refresh, w.now) then w.jar.refresh else None))
  }

  /** Access tokens are issued for no longer than the refresh cookie lasts. */
  predicate ShortLived(e: Event) {
    e.Handled? ==> match IssueOf(e.call, e.access, e.refresh)
                   case None => true
                   case Some(t) => t.expiresIn.Some? ==> t.expiresIn.value <= REFRESH_MAX_AGE_S
  }

  ghost predicate CanHappen(w: World, events: seq<Event>)
    decreases |events|
  {
    events == [] || (Enabled(w, events[0]) && CanHappen(Next(w, events[0]), events[1..]))
  }

  ghost function After(w: World, events: seq<Event>): World
    requires CanHappen(w, events)
    decreases |events|
  {
    if events == [] then w else After(Next(w, events[0]), events[1..])
  }

  /** Whatever a handler answers, it sets both cookies, to tokens, or empties both, or touches neither. */
  lemma BothOrNeither(c: Call, access: string, refresh: string)
    ensures var answer := CookiesOf(EffectOf(c, access, refresh));
            && (ACCESS in answer <==> REFRESH in answer)
            && (ACCESS in answer ==> (answer[ACCESS].value == "" <==> answer[REFRESH].value == ""))
            && (EffectOf(c, access, refresh).SetPair? <==> ACCESS in answer && answer[ACCESS].value != "")
  {
  }

  // ---------------------------------------------------------------- what each call leaves in the jar

  /** The backend grants a session: an ok answer with both tokens. */
  predicate Grants(reply: Reply) {
    && reply.Replied? && 200 <= reply.status <= 299 && reply.body.Some?
    && reply.body.value.access != "" && reply.body.value.refresh != ""
  }

  /** How long an access token is kept: as long as it was issued for, or 15 minutes. */
  function Age(t: Tokens): int {
    if t.expiresIn.Some? then t.expiresIn.value else 900
  }

  /** A jar that holds exactly these tokens, received at this moment. */
  function Holding(t: Tokens, now: int): Jar {
    Jar(if Age(t) > 0 then Some(Cookie(t.access, now + Age(t))) else None, Some(Cookie(t.refresh, now + 1209600)))
  }

  /** Tokens just received are sent until they expire: access after its age, refresh after fourteen days. */
  lemma HeldTokensAreSent(t: Tokens, now: int, later: int)
    requires t.access != "" && t.refresh != "" && later >= now
    ensures Sent(Holding(t, now).access, later) == if later < now + Age(t) then t.access else ""
    ensures Sent(Holding(t, now).refresh, later) == if later < now + 14 * 24 * 60 * 60 then t.refresh else ""
  {
  }

  /** A call is handled, and its response arrives some time later. */
  function Answered(w: World, c: Call, access: string, refresh: string, delay: nat): World {
    Next(Next(Next(w, Handled(c, access, refresh)), TimePasses(delay)), Arrives(|w.flight|))
  }

  lemma AnsweredJar(w: World, c: Call, access: string, refresh: string, delay: nat)
    ensures var v := Answered(w, c, access, refresh, delay);
            && v.now == w.now + delay && v.flight == w.flight
            && v.jar == Receive(w.jar, v.now, CookiesOf(EffectOf(c, access, refresh)))
  {
    hide EffectOf, CookiesOf, Receive, NewIssues;
    var flight := w.flight + [EffectOf(c, access, refresh)];
    assert flight[..|w.flight|] + flight[|w.flight| + 1..] == w.flight;
  }

  lemma ReceivedByEffect(jar: Jar, now: int, e: Effect)
    ensures e == Keep ==> Receive(jar, now, CookiesOf(e)) == jar
    ensures e == Clear ==> Receive(jar, now, CookiesOf(e)) == Jar(None, None)
    ensures e.SetPair? ==>
              Receive(jar, now, CookiesOf(e)) == Holding(Tokens(e.access, e.refresh, Some(e.maxAge)), now)
  {
  }

  /** After a login the browser holds exactly the granted tokens; a login that is not granted, for whatever
      reason, changes nothing. */
  lemma LoginSignsIn(w: World, reply: Reply, access: string, refresh: string, delay: nat)
    ensures Answered(w, LoginCall(reply), access, refresh, delay).jar
         == if Grants(reply) then Holding(reply.body.value, w.now + delay) else w.jar
  {
    hide Receive, CookiesOf, Answered;
    AnsweredJar(w, LoginCall(reply), access, refresh, delay);
    ReceivedByEffect(w.jar, w.now + delay, EffectOf(LoginCall(reply), access, refresh));
  }

  /** A changed password replaces the tokens by those granted with it, for a request that is signed in. */
  lemma ChangeReissues(w: World, reply: Reply, access: string, refresh: string, delay: nat)
    ensures Answered(w, ChangeCall(reply), access, refresh, delay).jar
         == if access != "" && Grants(reply) then Holding(reply.body.value, w.now + delay) else w.jar
  {
    hide Receive, CookiesOf, Answered;
    AnsweredJar(w, ChangeCall(reply), access, refresh, delay);
    ReceivedByEffect(w.jar, w.now + delay, EffectOf(ChangeCall(reply), access, refresh));
  }

  /** A refresh leaves the granted tokens, or nothing at all. */
  lemma RefreshRotatesOrClears(w: World, reply: Reply, access: string, refresh: string, delay: nat)
    ensures Answered(w, RefreshCall(reply), access, refresh, delay).jar
         == if refresh != "" && Grants(reply) then Holding(reply.body.value, w.now + delay) else Jar(None, None)
  {
    hide Receive, CookiesOf, Answered;
    AnsweredJar(w, RefreshCall(reply), access, refresh, delay);
    ReceivedByEffect(w.jar, w.now + delay, EffectOf(RefreshCall(reply), access, refresh));
  }

  lemma LogoutClears(w: World, access: string, refresh: string, delay: nat)
    ensures Answered(w, LogoutCall, access, refresh, delay).jar == Jar(None, None)
  {
    hide Receive, CookiesOf, Answered;
    AnsweredJar(w, LogoutCall, access, refresh, delay);
    ReceivedByEffect(w.jar, w.now + delay, Clear);
  }

  /** The first call was refused, and so the refresh token is tried. */
  predicate Refused(first: Reply) {
    first.Replied? && first.status == 401
  }

  /** A proxied call changes the jar only when it is refused: a granted exchange leaves the new tokens, unless
      the second call throws; an exchange that is not granted, or not possible, clears the jar. */
  lemma ProxyRotatesOrClears(w: World, first: Reply, refreshed: Reply, retry: Reply,
                             access: string, refresh: string, delay: nat)
    ensures Answered(w, ApiCall(first, refreshed, retry), access, refresh, delay).jar
         == if !Refused(first) then w.jar
            else if refresh == "" || !Grants(refreshed) then Jar(None, None)
            else if retry.Threw? then w.jar
            else Holding(refreshed.body.value, w.now + delay)
  {
    hide Receive, CookiesOf, Answered;
    AnsweredJar(w, ApiCall(first, refreshed, retry), access, refresh, delay);
    ReceivedByEffect(w.jar, w.now + delay, EffectOf(ApiCall(first, refreshed, retry), access, refresh));
  }

  /** The status the browser sees. */
  function StatusOf(c: Call, access: string, refresh: string): int {
    match c
    case ApiCall(first, refreshed, retry) => Proxied(refresh, first, refreshed, retry).status
    case LoginCall(reply) => Issued(reply).status
    case ChangeCall(reply) => Changed(access, reply).status
    case RefreshCall(reply) => Refreshed(refresh, reply).status
    case LogoutCall => 204
  }

  /** The reply a proxied call is answered with: the second after a granted exchange, else the first. */
  function Answering(first: Reply, refreshed: Reply, retry: Reply, refresh: string): Reply {
    if Refused(first) && refresh != "" && Grants(refreshed) then retry else first
  }

  /** The proxy passes the status of the answering reply through, and says 502 if the backend was not
      reached. The others say 200 exactly when tokens were granted, and never an ok status otherwise. */
  lemma StatusIs(reply: Reply, first: Reply, refreshed: Reply, retry: Reply, access: string, refresh: string)
    ensures var answer := Answering(first, refreshed, retry, refresh);
            StatusOf(ApiCall(first, refreshed, retry), access, refresh) == if answer.Threw? then 502 else answer.status
    ensures StatusOf(LoginCall(reply), access, refresh)
         == if Grants(reply) then 200 else if reply.Threw? || 200 <= reply.status <= 299 then 502 else reply.status
    ensures StatusOf(ChangeCall(reply), access, refresh)
         == if access == "" then 401 else StatusOf(LoginCall(reply), access, refresh)
    ensures StatusOf(RefreshCall(reply), access, refresh) == if refresh != "" && Grants(reply) then 200 else 401
  {
  }

  /** Dropping expired cookies is never noticed: whatever is sent at this moment or later stays the same. */
  lemma EvictionIsUnnoticed(w: World, later: int)
    requires later >= w.now
    ensures Sent(Next(w, Evicts).jar.access, later) == Sent(w.jar.access, later)
    ensures Sent(Next(w, Evicts).jar.refresh, later) == Sent(w.jar.refresh, later)
  {
  }

  // ---------------------------------------------------------------- pairs stay together

  /** A response under way carries a pair from one issue, with an access age the refresh cookie covers. */
  ghost predicate Carried(e: Effect, issues: set<(string, string)>) {
    e.SetPair? ==> (e.access, e.refresh) in issues && e.maxAge <= REFRESH_MAX_AGE_S
  }

  /** While the access cookie lives, its own refresh cookie lives at least as long. */
  ghost predicate Paired(w: World) {
    Live(w.jar.access, w.now) ==>
      && w.jar.refresh.Some?
      && (w.jar.access.value.value, w.jar.refresh.value.value) in w.issues
      && w.jar.access.value.expires <= w.jar.refresh.value.expires
  }

  ghost predicate WorldInv(w: World) {
    Paired(w) && forall k :: 0 <= k < |w.flight| ==> Carried(w.flight[k], w.issues)
  }

  lemma CallCarries(c: Call, access: string, refresh: string, issues: set<(string, string)>)
    requires ShortLived(Handled(c, access, refresh))
    ensures Carried(EffectOf(c, access, refresh), issues + NewIssues(c, access, refresh))
  {
  }

  lemma ArrivalPairs(w: World, e: Effect)
    requires Paired(w) && Carried(e, w.issues)
    ensures Paired(w.(jar := Receive(w.jar, w.now, CookiesOf(e))))
  {
    EffectIsVisibleKeys(e);
  }

  lemma EffectIsVisibleKeys(e: Effect)
    ensures ACCESS in CookiesOf(e) <==> !e.Keep?
    ensures REFRESH in CookiesOf(e) <==> !e.Keep?
  {
  }

  lemma EventKeeps(w: World, e: Event)
    requires WorldInv(w) && Enabled(w, e) && ShortLived(e)
    ensures WorldInv(Next(w, e))
  {
    hide CookiesOf, Receive, EffectOf, NewIssues, IssueOf;
    match e
    case Handled(c, a, r) => CallCarries(c, a, r, w.issues);
    case Arrives(k) => ArrivalPairs(w, w.flight[k]);
    case TimePasses(_) =>
    case Evicts =>
  }

  lemma {:induction false} RunKeeps(w: World, events: seq<Event>)
    requires WorldInv(w) && CanHappen(w, events) && forall e :: e in events ==> ShortLived(e)
    ensures WorldInv(After(w, events))
    decreases |events|
  {
    hide WorldInv, Enabled, Next, ShortLived;
    if events != [] {
      assert events[0] in events;
      EventKeeps(w, events[0]);
      RunKeeps(Next(w, events[0]), events[1..]);
    }
  }

  /** From an empty jar, whatever is in flight and in whatever order it arrives: a live access cookie
      comes with a live refresh cookie, and the two were issued together. */
  lemma NeverMixed(now: int, events: seq<Event>)
    requires CanHappen(World(now, Jar(None, None), {}, []), events) && forall e :: e in events ==> ShortLived(e)
    ensures var w := After(World(now, Jar(None, None), {}, []), events);
            Live(w.jar.access, w.now) ==>
              Live(w.jar.refresh, w.now) && (Sent(w.jar.access, w.now), Sent(w.jar.refresh, w.now)) in w.issues
  {
    RunKeeps(World(now, Jar(None, None), {}, []), events);
  }

  /** The bound on the access token's life is needed: a pair just received keeps its promise over all
      later time exactly when the access token is issued for at most fourteen days. */
  lemma FourteenDays(jar: Jar, now: int, access: string, refresh: string, maxAge: int)
    ensures var got := Receive(jar, now, CookiesOf(SetPair(access, refresh, maxAge)));
            (forall t :: t >= now && Live(got.access, t) ==> Live(got.refresh, t)) <==> maxAge <= 14 * 24 * 60 * 60
  {
    var got := Receive(jar, now, CookiesOf(SetPair(access, refresh, maxAge)));
    EffectIsVisibleKeys(SetPair(access, refresh, maxAge));
    assert got.refresh == Some(Cookie(refresh, now + REFRESH_MAX_AGE_S));
    if maxAge > REFRESH_MAX_AGE_S {
      assert Live(got.access, now + REFRESH_MAX_AGE_S) && !Live(got.refresh, now + REFRESH_MAX_AGE_S);
    }
  }
}
