/**
 * Where the browser ends up: the edge gate (frontend/proxy.ts), the home page and the auth guard of
 * each route group, which send it on to one another.
 */
module Redirects {
  import opened Options
  import opened AuthHandlers
  import J = CookieJar

  datatype Role = PlatformAdmin | SchoolAdmin | Teacher | Student

  datatype User = User(role: Role, mustChangePassword: bool)

  // ---------------------------------------------------------------- routes

  datatype Page =
    | Home
    | Guarded(allow: set<Role>)
    | Plain                       // sign-in, change-password and not-found: no guard

  predicate StartsWith(s: string, prefix: string) {
    prefix <= s
  }

  /** The path is prefix plus one more segment. */
  predicate OneBelow(path: string, prefix: string) {
    prefix < path && '/' !in path[|prefix|..]
  }

  predicate EndsWith(path: string, suffix: string) {
    |suffix| <= |path| && path[|path| - |suffix|..] == suffix
  }

  /** An event page, or its upload or gallery page. */
  predicate EventPage(path: string) {
    || OneBelow(path, "/events/")
    || (EndsWith(path, "/upload") && OneBelow(path[..|path| - 7], "/events/"))
    || (EndsWith(path, "/gallery") && OneBelow(path[..|path| - 8], "/events/"))
  }

  const PLATFORM: set<Role> := {PlatformAdmin}
  const SCHOOL: set<Role> := {SchoolAdmin, Teacher}
  const STUDENT: set<Role> := {Student}

  function PageAt(path: string): Page {
    if path == "/" then Home
    else if path in {"/schools", "/estate", "/whatsapp"} || OneBelow(path, "/schools/") then Guarded(PLATFORM)
    else if path in {"/dashboard", "/events", "/staff", "/classes", "/students", "/audit"}
         || EventPage(path) || OneBelow(path, "/classes/") || OneBelow(path, "/students/") || OneBelow(path, "/photos/")
    then Guarded(SCHOOL)
    else if path == "/me/events" then Guarded(STUDENT)
    else if path == "/how-matching-works" then Guarded(PLATFORM + SCHOOL + STUDENT)
    else Plain
  }

  function HomePathForRole(role: Role): string {
    match role
    case PlatformAdmin => "/schools"
    case Student => "/me/events"
    case SchoolAdmin => "/dashboard"
    case Teacher => "/dashboard"
  }

  /** Everyone's home lies in a group that admits them. */
  lemma HomeAdmits(role: Role)
    ensures var p := PageAt(HomePathForRole(role)); p.Guarded? && role in p.allow
  {
    assert "/me/events"[1] == 'm' && "/dashboard"[1] == 'd' && "/schools"[1] == 's';
    assert "/estate"[1] == 'e' && "/whatsapp"[1] == 'w' && "/schools/"[1] == 's';
    assert "/events"[1] == 'e' && "/staff"[1] == 's' && "/classes"[1] == 'c';
    assert "/students"[1] == 's' && "/audit"[1] == 'a';
    assert "/events/"[1] == 'e' && "/classes/"[1] == 'c' && "/students/"[1] == 's' && "/photos/"[1] == 'p';
    match role
    case PlatformAdmin => assert PageAt("/schools") == Guarded(PLATFORM);
    case Student => assert PageAt("/me/events") == Guarded(STUDENT);
    case SchoolAdmin => assert PageAt("/dashboard") == Guarded(SCHOOL);
    case Teacher => assert PageAt("/dashboard") == Guarded(SCHOOL);
  }

  // ---------------------------------------------------------------- the edge gate

  predicate IsPublic(path: string) {
    path == "/login" || StartsWith(path, "/login/")
  }

  /** The matcher leaves out the BFF, the framework's own files and any path with a dot. */
  predicate GateApplies(path: string) {
    && StartsWith(path, "/") && '.' !in path
    && !StartsWith(path, "/api") && !StartsWith(path, "/_next/static") && !StartsWith(path, "/_next/image")
  }

  /** Which cookies the browser would send. */
  datatype Cookies = Cookies(access: bool, refresh: bool)

  predicate HasSession(c: Cookies) {
    c.access || c.refresh
  }

  /** Where the gate sends the request instead, if anywhere. */
  function Gate(path: string, c: Cookies): Option<string> {
    if !GateApplies(path) then None
    else if !HasSession(c) && !IsPublic(path) then Some("/login")
    else if HasSession(c) && path == "/login" then Some("/")
    else None
  }

  // ---------------------------------------------------------------- the pages

  /** What a page learns about the user: signed in, no user in the answer, a 401, or another failure. */
  datatype View = SignedIn(user: User) | NoUser | Dead | Broken

  function HomeTarget(v: View): Option<string> {
    match v
    case SignedIn(u) => Some(if u.mustChangePassword then "/change-password" else HomePathForRole(u.role))
    case NoUser => Some("/login")
    case Dead => Some("/login")
    case Broken => None
  }

  function GuardTarget(allow: set<Role>, v: View): Option<string> {
    match v
    case SignedIn(u) =>
      if u.mustChangePassword then Some("/change-password")
      else if u.role in allow then None
      else Some(HomePathForRole(u.role))
    case NoUser => Some("/login")
    case Dead => Some("/login")
    case Broken => None
  }

  /** What the user hook hands a page once it has answered. */
  function ViewFrom(error: Option<int>, user: Option<User>): View {
    match error
    case Some(status) => if status == 401 then Dead else Broken
    case None => if user.Some? then SignedIn(user.value) else NoUser
  }

  /** The home page's branches; while the hook is loading nothing happens. An error without a status is
      any number but 401. */
  method HomeRedirect(isLoading: bool, error: Option<int>, user: Option<User>) returns (redirectTo: Option<string>)
    ensures redirectTo == if isLoading then None else HomeTarget(ViewFrom(error, user))
  {
    var sessionDead := error == Some(401);
    var backendError := error.Some? && !sessionDead;
    redirectTo := None;
    if !isLoading && !backendError {
      if sessionDead || user == None {
        redirectTo := Some("/login");
      } else if user.value.mustChangePassword {
        redirectTo := Some("/change-password");
      } else {
        redirectTo := Some(HomePathForRole(user.value.role));
      }
    }
  }

  /** The guard's branches. The reason it adds to the sign-in address is not part of the path. */
  method GuardRedirect(allow: set<Role>, isLoading: bool, error: Option<int>, user: Option<User>)
    returns (redirectTo: Option<string>)
    ensures redirectTo == if isLoading then None else GuardTarget(allow, ViewFrom(error, user))
  {
    var sessionDead := error == Some(401);
    var backendError := error.Some? && !sessionDead;
    redirectTo := None;
    if !isLoading && !backendError {
      if sessionDead {
        redirectTo := Some("/login");
      } else if user == None {
        redirectTo := Some("/login");
      } else if user.value.mustChangePassword {
        redirectTo := Some("/change-password");
      } else if user.value.role !in allow {
        redirectTo := Some(HomePathForRole(user.value.role));
      }
    }
  }

  // ---------------------------------------------------------------- one page load

  /** Everything outside the front end during one load: cookies that expire before it, the backend's
      answers to the proxy, and whether an answer with an ok status carries the user. */
  datatype Load = Load(accessExpires: bool, refreshExpires: bool,
                       first: Reply, refreshed: Reply, retry: Reply, carriesUser: bool)

  function Expire(c: Cookies, l: Load): Cookies {
    Cookies(c.access && !l.accessExpires, c.refresh && !l.refreshExpires)
  }

  function Me(c: Cookies, l: Load): Outcome {
    Proxied(if c.refresh then "refresh token" else "", l.first, l.refreshed, l.retry)
  }

  function ViewOf(o: Outcome, l: Load, u: User): View {
    if o.status == 401 then Dead
    else if !Ok(o.status) then Broken
    else if l.carriesUser then SignedIn(u)
    else NoUser
  }

  function AfterEffect(c: Cookies, e: Effect): Cookies {
    match e
    case Keep => c
    case Clear => Cookies(false, false)
    case SetPair(_, _, maxAge) => Cookies(maxAge > 0, true)
  }

  /** Which cookies of a jar the gate sees: it looks for a value. */
  function CookiesIn(jar: J.Jar, now: int): Cookies {
    Cookies(J.Sent(jar.access, now) != "", J.Sent(jar.refresh, now) != "")
  }

  /** What a load does to the cookies is what the jar shows after the proxy's answer to the cookies sent. */
  lemma LoadsAreReceived(jar: J.Jar, now: int, l: Load)
    ensures var o := Proxied(J.Sent(jar.refresh, now), l.first, l.refreshed, l.retry);
            && Me(CookiesIn(jar, now), l) == o
            && AfterEffect(CookiesIn(jar, now), o.effect) == CookiesIn(J.Receive(jar, now, CookiesOf(o.effect)), now)
  {
    hide CookiesOf;
    CookiesByEffect(Proxied(J.Sent(jar.refresh, now), l.first, l.refreshed, l.retry).effect);
  }

  lemma CookiesByEffect(e: Effect)
    ensures e.Keep? ==> CookiesOf(e) == map[]
    ensures e.Clear? ==> CookiesOf(e) == map[ACCESS := SetCookie("", 0), REFRESH := SetCookie("", 0)]
    ensures e.SetPair? ==> ACCESS in CookiesOf(e) && CookiesOf(e)[ACCESS] == SetCookie(e.access, e.maxAge)
    ensures e.SetPair? ==> REFRESH in CookiesOf(e) && CookiesOf(e)[REFRESH] == SetCookie(e.refresh, REFRESH_MAX_AGE_S)
  {
  }

  datatype Step = Stays | Goes(path: string, cookies: Cookies)

  /** One load of a path: the gate first, then the page, which may ask for the user and move on. */
  function LoadPage(path: string, before: Cookies, l: Load, u: User): Step {
    var c := Expire(before, l);
    match Gate(path, c)
    case Some(target) => Goes(target, c)
    case None =>
      match PageAt(path)
      case Plain => Stays
      case Home =>
        var o := Me(c, l);
        (match HomeTarget(ViewOf(o, l, u)) case None => Stays case Some(p) => Goes(p, AfterEffect(c, o.effect)))
      case Guarded(allow) =>
        var o := Me(c, l);
        (match GuardTarget(allow, ViewOf(o, l, u)) case None => Stays case Some(p) => Goes(p, AfterEffect(c, o.effect)))
  }

  /** The chain of redirects reaches a page that stays put within the given loads. */
  predicate Settles(path: string, c: Cookies, loads: seq<Load>, u: User)
    decreases |loads|
  {
    loads != [] &&
    match LoadPage(path, c, loads[0], u)
    case Stays => true
    case Goes(p, d) => Settles(p, d, loads[1..], u)
  }

  // ---------------------------------------------------------------- where the browser rests

  /** What may be on show at a path once the browser stays there. */
  predicate MayRest(path: string, c: Cookies, v: View) {
    GateApplies(path) ==>
      && (HasSession(c) ==> path != "/login")
      && (!HasSession(c) ==> IsPublic(path))
      && match PageAt(path)
         case Plain => true
         case Home => v == Broken
         case Guarded(allow) => v == Broken || (v.SignedIn? && v.user.role in allow && !v.user.mustChangePassword)
  }

  /** The last page of a chain that settles, with the cookies and the load it rests on. */
  function RestOf(path: string, c: Cookies, loads: seq<Load>, u: User): (string, Cookies, Load)
    requires Settles(path, c, loads, u)
    decreases |loads|
  {
    match LoadPage(path, c, loads[0], u)
    case Stays => (path, Expire(c, loads[0]), loads[0])
    case Goes(p, d) => RestOf(p, d, loads[1..], u)
  }

  /** Wherever a chain comes to rest: without a session only at a public page, with one never at sign-in,
      and at a guarded page only with a role the page admits and no password change due, or an error. */
  lemma {:induction false} RestsWhereAllowed(path: string, c: Cookies, loads: seq<Load>, u: User)
    requires Settles(path, c, loads, u)
    ensures var (p, d, l) := RestOf(path, c, loads, u);
            MayRest(p, d, ViewOf(Me(d, l), l, u))
    decreases |loads|
  {
    hide PageAt, GateApplies, IsPublic, HomePathForRole, Me;
    match LoadPage(path, c, loads[0], u)
    case Stays =>
    case Goes(p, d) => RestsWhereAllowed(p, d, loads[1..], u);
  }

  // ---------------------------------------------------------------- every chain settles

  /** The backend answers 401 to the very pair it has just issued in exchange for the refresh token. */
  predicate RejectsOwnPair(l: Load) {
    && Rotated("refresh token", l.first, l.refreshed)
    && l.retry.Replied? && l.retry.status == 401
  }

  /** The load finds no user, yet leaves a session that holds a refresh cookie in place. */
  predicate LoopsOnRefresh(l: Load) {
    && !l.refreshExpires
    && (RejectsOwnPair(l) || (!l.carriesUser && Ok(Proxied("refresh token", l.first, l.refreshed, l.retry).status)))
  }

  /** The same for a session that holds only an access cookie. */
  predicate LoopsOnAccess(l: Load) {
    !l.accessExpires && !l.carriesUser && Ok(Proxied("", l.first, l.refreshed, l.retry).status)
  }

  predicate CanLoop(l: Load) {
    LoopsOnRefresh(l) || LoopsOnAccess(l)
  }

  lemma UnguardedPages()
    ensures PageAt("/login") == Plain && PageAt("/change-password") == Plain && PageAt("/") == Home
  {
    assert |"/login"| == 6 && |"/change-password"| == 16;
    assert "/login"[1] == 'l' && "/change-password"[1] == 'c' && "/change-password"[2] == 'h';
    assert "/schools/"[1] == 's' && "/events/"[1] == 'e' && "/classes/"[2] == 'l';
    assert "/students/"[1] == 's' && "/photos/"[1] == 'p';
  }

  lemma UnguardedGates()
    ensures GateApplies("/login") && GateApplies("/") && GateApplies("/change-password")
    ensures IsPublic("/login") && !IsPublic("/") && !IsPublic("/change-password")
  {
    assert |"/login"| == 6 && |"/change-password"| == 16;
    assert "/login"[1] == 'l' && "/change-password"[1] == 'c';
    assert "/api"[1] == 'a' && "/_next/static"[1] == '_' && "/_next/image"[1] == '_' && "/login/"[1] == 'l';
  }

  lemma LoginPages()
    ensures PageAt("/login") == Plain && PageAt("/change-password") == Plain && PageAt("/") == Home
    ensures GateApplies("/login") && GateApplies("/") && GateApplies("/change-password")
    ensures IsPublic("/login") && !IsPublic("/") && !IsPublic("/change-password")
    ensures "/login" != "/" && "/change-password" != "/login"
  {
    hide PageAt, GateApplies, IsPublic;
    UnguardedPages();
    UnguardedGates();
    assert |"/login"| == 6 && |"/change-password"| == 16;
  }

  lemma HomePages(role: Role)
    ensures GateApplies(HomePathForRole(role)) && !IsPublic(HomePathForRole(role))
  {
    assert "/schools"[1] == 's' && "/me/events"[1] == 'm' && "/dashboard"[1] == 'd';
    assert "/api"[1] == 'a' && "/_next/static"[1] == '_' && "/_next/image"[1] == '_';
    assert "/login/"[1] == 'l' && "/login"[1] == 'l';
  }

  /** With no cookies, the sign-in page stays. */
  lemma SettlesAtLogin(loads: seq<Load>, u: User)
    requires |loads| >= 1
    ensures Settles("/login", Cookies(false, false), loads, u)
  {
    hide PageAt, GateApplies, IsPublic;
    LoginPages();
  }

  /** A load that cannot loop and finds no user leaves no session behind. */
  lemma NoUserNoSession(c: Cookies, l: Load, u: User)
    requires !CanLoop(l)
    ensures var d := Expire(c, l);
            var v := ViewOf(Me(d, l), l, u);
            v == NoUser || v == Dead ==> AfterEffect(d, Me(d, l).effect) == Cookies(false, false)
  {
  }

  /** Change-password needs two loads at most. */
  lemma SettlesAtChangePassword(c: Cookies, loads: seq<Load>, u: User)
    requires |loads| >= 2
    ensures Settles("/change-password", c, loads, u)
  {
    hide PageAt, GateApplies, IsPublic;
    LoginPages();
    var d := Expire(c, loads[0]);
    if !HasSession(d) {
      assert LoadPage("/change-password", c, loads[0], u) == Goes("/login", Cookies(false, false));
      SettlesAtLogin(loads[1..], u);
    }
  }

  /** A user's own home needs two loads at most, unless the password must change. */
  lemma SettlesAtOwnHome(c: Cookies, loads: seq<Load>, u: User)
    requires |loads| >= 2 && !CanLoop(loads[0]) && !u.mustChangePassword
    ensures Settles(HomePathForRole(u.role), c, loads, u)
  {
    hide PageAt, GateApplies, IsPublic, HomePathForRole, Me, CanLoop;
    var path := HomePathForRole(u.role);
    HomeAdmits(u.role);
    HomePages(u.role);
    NotLogin(u.role);
    NoUserNoSession(c, loads[0], u);
    SettlesAtLogin(loads[1..], u);
  }

  lemma NotLogin(role: Role)
    ensures HomePathForRole(role) != "/login"
  {
    assert "/login"[1] == 'l';
  }

  /** The home page needs three loads at most. */
  lemma SettlesAtHome(c: Cookies, loads: seq<Load>, u: User)
    requires |loads| >= 3 && !CanLoop(loads[0]) && !CanLoop(loads[1])
    ensures Settles("/", c, loads, u)
  {
    hide PageAt, GateApplies, IsPublic, HomePathForRole, Me, CanLoop, Settles;
    LoginPages();
    SettlesOneStep("/", c, loads, u);
    NoUserNoSession(c, loads[0], u);
    SettlesAtLogin(loads[1..], u);
    match LoadPage("/", c, loads[0], u)
    case Stays =>
    case Goes(p, e) =>
      if u.mustChangePassword {
        SettlesAtChangePassword(e, loads[1..], u);
      } else {
        SettlesAtOwnHome(e, loads[1..], u);
      }
  }

  lemma SettlesOneStep(path: string, c: Cookies, loads: seq<Load>, u: User)
    requires loads != []
    ensures Settles(path, c, loads, u) ==
            match LoadPage(path, c, loads[0], u) case Stays => true case Goes(p, d) => Settles(p, d, loads[1..], u)
  {
  }

  /** From any path, with any cookies and any user, even with the backend down or cookies expiring on
      the way, the browser comes to rest within four page loads, unless one of them can loop. */
  lemma EveryChainSettles(path: string, c: Cookies, loads: seq<Load>, u: User)
    requires |loads| >= 4 && forall l :: l in loads ==> !CanLoop(l)
    ensures Settles(path, c, loads, u)
  {
    hide PageAt, GateApplies, IsPublic, HomePathForRole, Me, CanLoop, Settles;
    assert loads[0] in loads && loads[1] in loads && loads[2] in loads;
    assert loads[1..][0] == loads[1] && loads[1..][1] == loads[2];
    SettlesOneStep(path, c, loads, u);
    NoUserNoSession(c, loads[0], u);
    SettlesAtLogin(loads[1..], u);
    match LoadPage(path, c, loads[0], u)
    case Stays =>
    case Goes(p, e) =>
      if p == "/" {
        SettlesAtHome(e, loads[1..], u);
      } else if p == "/change-password" {
        SettlesAtChangePassword(e, loads[1..], u);
      } else if e != Cookies(false, false) || p != "/login" {
        SettlesAtOwnHome(e, loads[1..], u);
      }
  }

  /** While every load finds no user and keeps the refresh cookie, the browser goes between the home page
      and the sign-in page. */
  lemma {:induction false} LoopsWithRefresh(c: Cookies, loads: seq<Load>, u: User)
    requires c.refresh && forall l :: l in loads ==> LoopsOnRefresh(l)
    ensures !Settles("/", c, loads, u) && !Settles("/login", c, loads, u)
    decreases |loads|
  {
    hide PageAt, GateApplies, IsPublic;
    LoginPages();
    if loads != [] {
      assert loads[0] in loads;
      var d := Expire(c, loads[0]);
      LoopsWithRefresh(d, loads[1..], u);
      LoopsWithRefresh(AfterEffect(d, Me(d, loads[0]).effect), loads[1..], u);
    }
  }

  lemma {:induction false} LoopsWithAccess(loads: seq<Load>, u: User)
    requires forall l :: l in loads ==> LoopsOnAccess(l)
    ensures !Settles("/", Cookies(true, false), loads, u) && !Settles("/login", Cookies(true, false), loads, u)
    decreases |loads|
  {
    hide PageAt, GateApplies, IsPublic;
    LoginPages();
    if loads != [] {
      assert loads[0] in loads;
      LoopsWithAccess(loads[1..], u);
    }
  }

  /** The same load n times over. */
  function Again(l: Load, n: nat): (loads: seq<Load>)
    ensures |loads| == n && forall k :: k in loads ==> k == l
  {
    seq(n, _ => l)
  }

  /** The cookies of a session that a looping load never ends. */
  function LoopingSession(l: Load): Cookies {
    Cookies(!LoopsOnRefresh(l), LoopsOnRefresh(l))
  }

  /** A load that can loop does so for ever, from the home page and from the sign-in page. */
  lemma LoopsForEver(l: Load, n: nat, u: User)
    requires CanLoop(l)
    ensures !Settles("/", LoopingSession(l), Again(l, n), u)
    ensures !Settles("/login", LoopingSession(l), Again(l, n), u)
  {
    hide LoopsOnRefresh, LoopsOnAccess, Settles;
    if LoopsOnRefresh(l) {
      LoopsWithRefresh(LoopingSession(l), Again(l, n), u);
    } else {
      LoopsWithAccess(Again(l, n), u);
    }
  }

  /** Every load of the chain is one that the world allows. */
  ghost predicate Drawn(loads: seq<Load>, world: iset<Load>) {
    forall l :: l in loads ==> l in world
  }

  /** The exact condition: whatever loads the world allows, all chains of four or more of them settle,
      from any path and with any cookies, if and only if no load that it allows can loop. */
  lemma SettlingIsExact(world: iset<Load>, u: User)
    ensures (forall path, c, loads :: |loads| >= 4 && Drawn(loads, world) ==> Settles(path, c, loads, u))
       <==> (forall l :: l in world ==> !CanLoop(l))
  {
    hide Settles, CanLoop, LoopingSession;
    if forall l :: l in world ==> !CanLoop(l) {
      forall path, c, loads | |loads| >= 4 && Drawn(loads, world)
        ensures Settles(path, c, loads, u)
      {
        EveryChainSettles(path, c, loads, u);
      }
    }
    if l :| l in world && CanLoop(l) {
      LoopsForEver(l, 4, u);
      assert Drawn(Again(l, 4), world);
    }
  }

  /** The same of one load repeated: from four loads on, every path and all cookies settle under it, or
      else it can loop. */
  lemma RepetitionIsExact(l: Load, u: User)
    ensures (forall path, c, n: nat :: n >= 4 ==> Settles(path, c, Again(l, n), u)) <==> !CanLoop(l)
  {
    hide Settles, CanLoop, LoopingSession;
    if CanLoop(l) {
      LoopsForEver(l, 4, u);
      assert !Settles("/", LoopingSession(l), Again(l, 4), u);
    } else {
      forall path, c, n: nat | n >= 4
        ensures Settles(path, c, Again(l, n), u)
      {
        EveryChainSettles(path, c, Again(l, n), u);
      }
    }
  }

  /** Such loads exist: a backend that refuses the pair it has just issued, and, without a refresh cookie,
      one whose ok answer carries no user. */
  lemma LoadsThatLoop()
    ensures LoopsOnRefresh(Load(false, false, Replied(401, None), Replied(200, Some(Tokens("a", "r", None))),
                                Replied(401, None), true))
    ensures LoopsOnAccess(Load(false, false, Replied(200, None), Threw, Threw, false))
  {
  }

  /** Four loads are needed: a session that ends while the user is being sent on takes all of them. */
  lemma FourLoadsAreNeeded(u: User)
    ensures exists loads :: |loads| == 3 && (forall l :: l in loads ==> !CanLoop(l))
                            && !Settles("/login", Cookies(true, true), loads, u)
  {
    hide PageAt, GateApplies, IsPublic, HomePathForRole, Settles;
    var good := Load(false, false, Replied(200, None), Threw, Threw, true);
    var gone := Load(true, true, Replied(401, None), Threw, Threw, true);
    var c, loads := Cookies(true, true), [good, good, gone];
    LoginPages();
    HomePages(u.role);
    SettlesOneStep("/login", c, loads, u);
    SettlesOneStep("/", c, [good, gone], u);
    var next := if u.mustChangePassword then "/change-password" else HomePathForRole(u.role);
    SettlesOneStep(next, c, [gone], u);
    assert loads[1..] == [good, gone] && loads[1..][1..] == [gone] && [good, gone][1..] == [gone] && [gone][1..] == [];
    NothingSettles("/login", Cookies(false, false), u);
  }

  lemma NothingSettles(path: string, c: Cookies, u: User)
    ensures !Settles(path, c, [], u)
  {
  }

  // ---------------------------------------------------------------- where chains lead

  /** The session lasts and the backend answers with the user. */
  predicate Healthy(l: Load) {
    !l.accessExpires && !l.refreshExpires && l.first.Replied? && Ok(l.first.status) && l.carriesUser
  }

  /** Where someone signed in belongs who asks for a page. */
  function Destination(path: string, u: User): string {
    match PageAt(path)
    case Plain => path
    case Home => if u.mustChangePassword then "/change-password" else HomePathForRole(u.role)
    case Guarded(allow) =>
      if u.mustChangePassword then "/change-password" else if u.role in allow then path else HomePathForRole(u.role)
  }

  lemma RestStep(path: string, c: Cookies, loads: seq<Load>, u: User)
    requires loads != []
    ensures match LoadPage(path, c, loads[0], u)
            case Stays => Settles(path, c, loads, u) && RestOf(path, c, loads, u).0 == path
            case Goes(p, d) =>
              Settles(p, d, loads[1..], u) ==>
                Settles(path, c, loads, u) && RestOf(path, c, loads, u) == RestOf(p, d, loads[1..], u)
  {
  }

  /** Asking for the user in a healthy load yields the user and leaves the cookies. */
  lemma HealthyView(c: Cookies, l: Load, u: User)
    requires Healthy(l)
    ensures Expire(c, l) == c && ViewOf(Me(c, l), l, u) == SignedIn(u) && AfterEffect(c, Me(c, l).effect) == c
  {
  }

  /** At a page where someone signed in belongs, they stay. */
  lemma HealthyStay(path: string, c: Cookies, loads: seq<Load>, u: User)
    requires loads != [] && Healthy(loads[0]) && HasSession(c) && GateApplies(path) && path != "/login"
    requires Destination(path, u) == path && PageAt(path) != Home
    ensures Settles(path, c, loads, u) && RestOf(path, c, loads, u).0 == path
  {
    hide PageAt, GateApplies, IsPublic, HomePathForRole, Me, Settles, RestOf;
    HealthyView(c, loads[0], u);
    RestStep(path, c, loads, u);
    NotLogin(u.role);
    ChangeIsElsewhere(path);
    if u.mustChangePassword {
      LoginPages();
    } else {
      HomeAdmits(u.role);
    }
  }

  lemma ChangeIsElsewhere(path: string)
    ensures PageAt(path).Guarded? ==> path != "/change-password"
  {
    hide PageAt;
    LoginPages();
  }

  lemma HealthyHome(c: Cookies, loads: seq<Load>, u: User)
    requires loads != [] && Healthy(loads[0]) && HasSession(c)
    ensures var p := if u.mustChangePassword then "/change-password" else HomePathForRole(u.role);
            Settles(p, c, loads, u) && RestOf(p, c, loads, u).0 == p
  {
    hide PageAt, GateApplies, IsPublic, HomePathForRole, Me, Settles, RestOf, Healthy;
    LoginPages();
    HomePages(u.role);
    HomeAdmits(u.role);
    NotLogin(u.role);
    HealthyStay(if u.mustChangePassword then "/change-password" else HomePathForRole(u.role), c, loads, u);
  }

  lemma HealthyGoOn(path: string, c: Cookies, loads: seq<Load>, u: User)
    requires |loads| >= 2 && Healthy(loads[0]) && Healthy(loads[1])
    requires HasSession(c) && GateApplies(path) && path != "/login"
    ensures Settles(path, c, loads, u) && RestOf(path, c, loads, u).0 == Destination(path, u)
  {
    hide PageAt, GateApplies, IsPublic, HomePathForRole, Me, Settles, RestOf;
    HealthyView(c, loads[0], u);
    RestStep(path, c, loads, u);
    HealthyHome(c, loads[1..], u);
  }

  /** With a session and a healthy backend everyone ends up, within three loads, where they belong: on the
      page asked for if it admits them, else at home, and at the change of password while one is due. */
  lemma SignedInChainsLead(path: string, c: Cookies, loads: seq<Load>, u: User)
    requires HasSession(c) && GateApplies(path) && |loads| >= 3
    requires Healthy(loads[0]) && Healthy(loads[1]) && Healthy(loads[2])
    ensures Settles(path, c, loads, u)
    ensures RestOf(path, c, loads, u).0 == Destination(if path == "/login" then "/" else path, u)
  {
    hide PageAt, GateApplies, IsPublic, HomePathForRole, Me, Settles, RestOf, Destination;
    if path == "/login" {
      LoginPages();
      HealthyView(c, loads[0], u);
      RestStep(path, c, loads, u);
      HealthyGoOn("/", c, loads[1..], u);
    } else {
      HealthyGoOn(path, c, loads, u);
    }
  }

  lemma PublicIsPlain(path: string)
    requires IsPublic(path)
    ensures PageAt(path) == Plain
  {
    assert "/login"[1] == 'l' && path[1] == 'l' by {
      assert "/login/"[1] == 'l';
    }
    assert |"/login"| == 6;
    assert "/schools/"[1] == 's' && "/events/"[1] == 'e' && "/classes/"[1] == 'c';
    assert "/students/"[1] == 's' && "/photos/"[1] == 'p';
    assert "/schools"[1] == 's' && "/estate"[1] == 'e' && "/whatsapp"[1] == 'w' && "/me/events"[1] == 'm';
    assert "/dashboard"[1] == 'd' && "/events"[1] == 'e' && "/staff"[1] == 's' && "/classes"[1] == 'c';
    assert "/students"[1] == 's' && "/audit"[1] == 'a' && "/how-matching-works"[1] == 'h';
  }

  /** Without a session every path but the public ones leads to the sign-in page. */
  lemma SignedOutChainsLead(path: string, c: Cookies, loads: seq<Load>, u: User)
    requires !HasSession(c) && GateApplies(path) && |loads| >= 2
    ensures Settles(path, c, loads, u)
    ensures RestOf(path, c, loads, u).0 == if IsPublic(path) then path else "/login"
  {
    hide PageAt, GateApplies, IsPublic, Settles, RestOf, Me;
    LoginPages();
    RestStep(path, c, loads, u);
    RestStep("/login", Cookies(false, false), loads[1..], u);
    if IsPublic(path) {
      PublicIsPlain(path);
    }
  }

  /** The backend refuses the access token, and does not exchange the refresh token. */
  predicate Ended(l: Load) {
    l.first.Replied? && l.first.status == 401 && !Complete(RefreshTokens(l.refreshed))
  }

  /** A page that needs the user leads someone whose session has ended to the sign-in page, signed out. */
  lemma EndedChainsLead(path: string, c: Cookies, loads: seq<Load>, u: User)
    requires GateApplies(path) && PageAt(path) != Plain && |loads| >= 2
    requires HasSession(Expire(c, loads[0])) && Ended(loads[0])
    ensures Settles(path, c, loads, u)
    ensures RestOf(path, c, loads, u).0 == "/login" && RestOf(path, c, loads, u).1 == Cookies(false, false)
  {
    hide PageAt, GateApplies, IsPublic, Settles, RestOf;
    LoginPages();
    RestStep(path, c, loads, u);
    RestStep("/login", Cookies(false, false), loads[1..], u);
    RestsSignedOut(loads[1..], u);
  }

  lemma RestsSignedOut(loads: seq<Load>, u: User)
    requires loads != []
    ensures Settles("/login", Cookies(false, false), loads, u)
    ensures RestOf("/login", Cookies(false, false), loads, u).1 == Cookies(false, false)
  {
    hide PageAt, GateApplies, IsPublic;
    LoginPages();
  }

  /** While the backend is down or failing, someone with a session is left where they are. */
  lemma DownStays(path: string, c: Cookies, loads: seq<Load>, u: User)
    requires loads != [] && GateApplies(path) && path != "/login" && HasSession(Expire(c, loads[0]))
    requires loads[0].first.Threw? || !(200 <= loads[0].first.status <= 299 || loads[0].first.status == 401)
    ensures Settles(path, c, loads, u) && RestOf(path, c, loads, u).0 == path
  {
    hide PageAt, GateApplies, IsPublic, Settles, RestOf;
    RestStep(path, c, loads, u);
  }
}
