/** The application router: resolution of the Telegram user id from the host
    bridge, the one-time existence check that sets `userExists` and clears
    `loading`, and the route table guarded by `userExists`. */
module Session {
  import opened Wrappers
  import opened UserClient

  /** What one launch-payload source yields after decoding and JSON parsing. */
  datatype Source =
    | Missing            // no payload string, or no non-empty `user` parameter in it
    | Malformed          // decoding or `JSON.parse` throws inside the source's `try`
    | Parsed(id: Option<int>)  // the `user` object parsed; its `id` field, `None` when absent

  /** The Telegram WebApp object: the already parsed `initDataUnsafe.user.id`
      and the raw `initData` string. */
  datatype WebApp = WebApp(unsafeUserId: Option<int>, initData: Source)

  /** The host: the WebApp object when present, and the `tgWebAppData`
      parameter of the page URL. */
  datatype Host = Host(webApp: Option<WebApp>, urlData: Source)

  /** The value `getTelegramUserId` returns: `null`, or the `id` field of a
      parsed user object (`Returned(None)` is JavaScript's `undefined`). */
  datatype Claim = Null | Returned(id: Option<int>)

  /** JavaScript truthiness of a numeric id: present and non-zero. */
  predicate Truthy(id: Option<int>) {
    id.Some? && id.value != 0
  }

  /** One source tried on its own: it is skipped, or it settles on the `id`
      field it read. */
  datatype Attempt = Skip | Settle(id: Option<int>)

  function FromUnsafeUser(host: Host): Attempt {
    if host.webApp.Some? && Truthy(host.webApp.value.unsafeUserId)
    then Settle(host.webApp.value.unsafeUserId) else Skip
  }

  function FromInitData(host: Host): Attempt {
    if host.webApp.Some? && host.webApp.value.initData.Parsed?
    then Settle(host.webApp.value.initData.id) else Skip
  }

  function FromUrl(host: Host): Attempt {
    if host.urlData.Parsed? then Settle(host.urlData.id) else Skip
  }

  /** Reference definition of a prioritised fallback: the first source that
      settles wins; none settling gives `null`. */
  function FirstAvailable(attempts: seq<Attempt>): (c: Claim)
    ensures c == Null <==> forall k :: 0 <= k < |attempts| ==> attempts[k].Skip?
    ensures c.Returned? ==> exists k :: 0 <= k < |attempts| && attempts[k] == Settle(c.id)
                                       && forall j :: 0 <= j < k ==> attempts[j].Skip?
  {
    if attempts == [] then Null
    else if attempts[0].Settle? then Returned(attempts[0].id)
    else
      var c := FirstAvailable(attempts[1..]);
      assert c.Returned? ==> exists k :: 1 <= k < |attempts| && attempts[k] == Settle(c.id)
                                         && forall j :: 0 <= j < k ==> attempts[j].Skip? by {
        if c.Returned? {
          var k :| 0 <= k < |attempts[1..]| && attempts[1..][k] == Settle(c.id)
                   && forall j :: 0 <= j < k ==> attempts[1..][j].Skip?;
          assert attempts[k + 1] == Settle(c.id);
          assert forall j :: 0 <= j < k + 1 ==> attempts[j].Skip? by {
            forall j | 0 <= j < k + 1 ensures attempts[j].Skip? {
              if j > 0 { assert attempts[j] == attempts[1..][j - 1]; }
            }
          }
        }
      }
      c
  }

  /** `getTelegramUserId`: the parsed user's id when truthy, else the user of
      `initData`, else the user inside the URL's `tgWebAppData`, else `null`.
      A throwing parse is caught and falls through to the next source. */
  function GetTelegramUserId(host: Host): (c: Claim)
    ensures host.webApp.Some? && Truthy(host.webApp.value.unsafeUserId) ==>
              c == Returned(host.webApp.value.unsafeUserId)
    ensures c == Null <==> FromUnsafeUser(host).Skip? && FromInitData(host).Skip? && FromUrl(host).Skip?
    ensures c.Returned? && c.id.Some? && c.id.value == 0 ==> FromUnsafeUser(host).Skip?
  {
    match host.webApp
    case Some(tg) =>
      if Truthy(tg.unsafeUserId) then Returned(tg.unsafeUserId)
      else if tg.initData.Parsed? then Returned(tg.initData.id)
      else UrlStep(host.urlData)
    case None => UrlStep(host.urlData)
  }

  /** The `tgWebAppData` step; a `Malformed` payload is logged and gives `null`. */
  function UrlStep(urlData: Source): (c: Claim)
    ensures c == Null <==> !urlData.Parsed?
    ensures c.Returned? ==> c.id == urlData.id
  {
    if urlData.Parsed? then Returned(urlData.id) else Null
  }

  /** The sources are tried in the fixed order parsed user, `initData`, URL. */
  lemma ResolutionOrder(host: Host)
    ensures GetTelegramUserId(host) == FirstAvailable([FromUnsafeUser(host), FromInitData(host), FromUrl(host)])
  {
    var attempts := [FromUnsafeUser(host), FromInitData(host), FromUrl(host)];
    assert attempts[1..] == [FromInitData(host), FromUrl(host)];
    assert attempts[1..][1..] == [FromUrl(host)];
    assert attempts[1..][1..][1..] == [];
    assert FirstAvailable([FromUrl(host)]) == UrlStep(host.urlData);
  }

  /** A parse failure never changes the outcome: it acts like an absent source. */
  lemma MalformedFallsThrough(tg: Option<WebApp>, url: Source)
    ensures tg.Some? ==>
      GetTelegramUserId(Host(Some(tg.value.(initData := Malformed)), url))
      == GetTelegramUserId(Host(Some(tg.value.(initData := Missing)), url))
    ensures GetTelegramUserId(Host(tg, Malformed)) == GetTelegramUserId(Host(tg, Missing))
  {
  }

  /** An id of 0 in the parsed user counts as absent. */
  lemma ZeroIdIsAbsent(initData: Source, url: Source)
    ensures GetTelegramUserId(Host(Some(WebApp(Some(0), initData)), url))
         == GetTelegramUserId(Host(Some(WebApp(None, initData)), url))
  {
  }

  /** The id `init` sends to the info endpoint: the claim, when the WebApp
      object exists and the claim is truthy. */
  function RequestedId(host: Host): (id: Option<int>)
    ensures id.Some? ==> id.value != 0 && host.webApp.Some? && GetTelegramUserId(host) == Returned(id)
    ensures host.webApp.Some? && Truthy(ClaimId(GetTelegramUserId(host))) ==> id.Some?
  {
    if host.webApp.Some? && Truthy(ClaimId(GetTelegramUserId(host)))
    then ClaimId(GetTelegramUserId(host)) else None
  }

  function ClaimId(c: Claim): Option<int> {
    if c.Returned? then c.id else None
  }

  /** The value `init` stores into `userExists` from the info reply; `None`
      when `getUserByTgId` rejects or resolves to `null` (reading `.exists`
      of `null` throws), both caught by `init`. */
  function ExistsFlag(reply: Reply<InfoJson>): (flag: Option<bool>)
    ensures flag.Some? <==> reply.Response? && reply.ok && reply.json.Some?
    ensures flag.Some? ==> flag.value == reply.json.value.userExists
  {
    match GetUserByTgId(reply)
    case Rejected => None
    case Resolved(body) => if body.Some? then Some(body.value.userExists) else None
  }

  /** The session decision made once per load. */
  datatype Decision = Onboarding | Home

  /** Home exactly when an id was resolved and the info reply says the user
      exists; a missing id or any failure of the check leads to onboarding. */
  function SessionDecision(host: Host, reply: Reply<InfoJson>): (d: Decision)
    ensures d == Home <==> RequestedId(host).Some? && reply.Response? && reply.ok
                           && reply.json.Some? && reply.json.value.userExists
    ensures GetTelegramUserId(host) == Null ==> d == Onboarding
  {
    if RequestedId(host).Some? && ExistsFlag(reply) == Some(true) then Home else Onboarding
  }

  /** Locations of the route table; `Unmatched` is every other path. */
  datatype Location =
    | Root | OnboardingPath | HomePath | CategoryPath(category: string)
    | NewsPath(id: string) | SettingsPath | Unmatched

  /** A value that fills one `:param` segment of a route pattern: non-empty and
      without a `/`. Any other value makes the path miss its pattern. */
  predicate PathSegment(s: string) {
    s != "" && '/' !in s
  }

  datatype Screen =
    | LoadingScreen | StartScreen | HomeScreen | CategoryNewsScreen(category: string)
    | NewsDetailScreen(id: string) | SettingsScreen

  /** What a route renders: a screen, or a redirect to another location. */
  datatype RouteElement = Render(screen: Screen) | Redirect(to: Location)

  /** The router's output for one location. While `loading`, the loading
      screen replaces the whole route table. */
  function Route(loading: bool, userExists: bool, loc: Location): (e: RouteElement)
    ensures loading ==> e == Render(LoadingScreen)
    ensures e == Render(HomeScreen) ==> userExists
    ensures e == Render(StartScreen) ==> !userExists
    ensures e.Redirect? ==> e.to in {Root, HomePath, OnboardingPath}
  {
    if loading then Render(LoadingScreen)
    else match loc
      case Root => if userExists then Redirect(HomePath) else Redirect(OnboardingPath)
      case OnboardingPath => if userExists then Redirect(HomePath) else Render(StartScreen)
      case HomePath => if !userExists then Redirect(OnboardingPath) else Render(HomeScreen)
      case CategoryPath(c) => Render(CategoryNewsScreen(c))
      case NewsPath(id) => Render(NewsDetailScreen(id))
      case SettingsPath => Render(SettingsScreen)
      case Unmatched => Redirect(Root)
  }

  /** The element reached from `loc` after following at most `hops` redirects. */
  function Follow(loading: bool, userExists: bool, loc: Location, hops: nat): (e: RouteElement)
    ensures loading ==> e == Render(LoadingScreen)
    ensures e == Render(HomeScreen) ==> userExists
    ensures e == Render(StartScreen) ==> !userExists
    decreases hops
  {
    match Route(loading, userExists, loc)
    case Render(s) => Render(s)
    case Redirect(next) => if hops == 0 then Redirect(next) else Follow(loading, userExists, next, hops - 1)
  }

  /** `/` leads to the home page iff the user exists, otherwise to onboarding. */
  lemma RootDecides(userExists: bool)
    ensures Route(false, userExists, Root) == Redirect(if userExists then HomePath else OnboardingPath)
    ensures Follow(false, userExists, Root, 1) == Render(if userExists then HomeScreen else StartScreen)
  {
  }

  /** The onboarding and home guards are complementary: exactly one of them
      renders its page, and the other redirects to it. */
  lemma GuardsComplementary(userExists: bool)
    ensures (Route(false, userExists, OnboardingPath) == Render(StartScreen))
         != (Route(false, userExists, HomePath) == Render(HomeScreen))
    ensures userExists ==> Route(false, userExists, OnboardingPath) == Redirect(HomePath)
    ensures !userExists ==> Route(false, userExists, HomePath) == Redirect(OnboardingPath)
  {
  }

  /** No redirect loops: from every location, at most two redirects reach a
      rendered screen, and an unknown path ends where `/` ends. */
  lemma {:induction false} RedirectsSettle(userExists: bool, loc: Location)
    ensures Follow(false, userExists, loc, 2).Render?
    ensures Follow(false, userExists, Unmatched, 2) == Follow(false, userExists, Root, 1)
  {
    RootDecides(userExists);
  }

  /** The router component's state. */
  class Router {
    var loading: bool
    var userExists: bool
    /** The ids sent to `GET /api/user/info`, in order. */
    var infoRequests: seq<int>

    constructor ()
      ensures loading && !userExists && infoRequests == []
    {
      loading := true;
      userExists := false;
      infoRequests := [];
    }

    /** The mount effect `init`: resolve the id when the WebApp object exists,
        ask the backend whether that user exists, and in every case (the
        `finally`) clear `loading`. */
    method Init(host: Host, reply: Reply<InfoJson>)
      modifies this
      ensures !loading
      ensures infoRequests == old(infoRequests) + (if RequestedId(host).Some? then [RequestedId(host).value] else [])
      ensures userExists == if RequestedId(host).Some? && ExistsFlag(reply).Some?
                            then ExistsFlag(reply).value else old(userExists)
    {
      if host.webApp.Some? {
        var userId := GetTelegramUserId(host);
        if userId.Returned? && Truthy(userId.id) {
          infoRequests := infoRequests + [userId.id.value];
          var user := GetUserByTgId(reply);
          if user.Resolved? && user.value.Some? {
            userExists := user.value.value.userExists;
          }
          // otherwise the await or the `.exists` read throws; `catch` only logs
        }
      }
      loading := false;
    }

    /** An explicit existence re-check for `id`, made after a write such as
        registration: one more info request, and `userExists` takes the
        reply's `exists` when the reply is ok and parses. */
    method Recheck(id: int, reply: Reply<InfoJson>)
      modifies this`userExists, this`infoRequests
      ensures infoRequests == old(infoRequests) + [id]
      ensures userExists == if ExistsFlag(reply).Some? then ExistsFlag(reply).value else old(userExists)
    {
      infoRequests := infoRequests + [id];
      var user := GetUserByTgId(reply);
      if user.Resolved? && user.value.Some? {
        userExists := user.value.value.userExists;
      }
    }
  }

  /** One application load: a fresh router runs `init`, then `/` is opened.
      The user lands on the home page exactly when the session decision is
      Home, and at most one info request is made, none without an id. */
  method Load(host: Host, reply: Reply<InfoJson>) returns (landing: RouteElement, requests: seq<int>)
    ensures landing == Render(if SessionDecision(host, reply) == Home then HomeScreen else StartScreen)
    ensures |requests| <= 1
    ensures requests == [] <==> RequestedId(host).None?
    ensures GetTelegramUserId(host) == Null ==> requests == [] && landing == Render(StartScreen)
  {
    var router := new Router();
    router.Init(host, reply);
    RootDecides(router.userExists);
    landing := Follow(router.loading, router.userExists, Root, 1);
    requests := router.infoRequests;
  }
}
