/** Registration seen from the router: a user who is not registered at load
    submits the onboarding form, and the onboarding page's navigation to
    `/home` is handled by the router of the same load. */
module Onboarding {
  import opened Wrappers
  import opened UserClient
  import opened Session
  import opened StartPage

  /** The router decides `userExists` once per load and the onboarding page
      navigates to `/home` after saving, with no new existence check. The
      `/home` guard then sends a user who was new at load back to
      onboarding, however the registration went. */
  method OnboardAsWritten(host: Host, boot: Reply<InfoJson>, selected: seq<string>, user: Option<TgUser>,
                          info: Reply<InfoJson>, save: Reply<()>)
    returns (landing: Option<RouteElement>)
    ensures landing.Some? <==> selected != [] && InfoBody(info).Some?
                               && (InfoBody(info).value.userExists || save.Response?)
    ensures SessionDecision(host, boot) == Onboarding && landing.Some? ==> landing == Some(Render(StartScreen))
  {
    var router := new Router();
    router.Init(host, boot);
    var page := new Page();
    page.selected := selected;
    var requests, navigation := page.OnSubmit(user, info, save);
    landing := None;
    if navigation.Some? {
      landing := Some(Follow(router.loading, router.userExists, navigation.value, 1));
    }
  }

  /** The same flow with an explicit existence re-check for the submitted id
      before the navigation is followed: once the backend reports the user,
      the navigation reaches the home page, and it reaches it only when the
      load or the re-check reported the user. */
  method OnboardCorrected(host: Host, boot: Reply<InfoJson>, selected: seq<string>, user: Option<TgUser>,
                          info: Reply<InfoJson>, save: Reply<()>, recheck: Reply<InfoJson>)
    returns (landing: Option<RouteElement>)
    ensures landing.Some? <==> selected != [] && InfoBody(info).Some?
                               && (InfoBody(info).value.userExists || save.Response?)
    ensures landing.Some? && UserId(user).Some? && ExistsFlag(recheck) == Some(true) ==>
              landing == Some(Render(HomeScreen))
    ensures landing == Some(Render(HomeScreen)) ==>
              SessionDecision(host, boot) == Home || ExistsFlag(recheck) == Some(true)
  {
    var router := new Router();
    router.Init(host, boot);
    var page := new Page();
    page.selected := selected;
    var requests, navigation := page.OnSubmit(user, info, save);
    landing := None;
    if navigation.Some? {
      if UserId(user).Some? {
        router.Recheck(UserId(user).value, recheck);
      }
      landing := Some(Follow(router.loading, router.userExists, navigation.value, 1));
    }
  }

  /** A concrete user, id 42, who is not registered at load. */
  lemma NewUserAtLoad()
    ensures SessionDecision(Host(Some(WebApp(Some(42), Missing)), Missing),
                            Response(true, Some(InfoJson(false, None)))) == Onboarding
  {
  }
}
