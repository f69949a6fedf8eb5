/** The onboarding page: the category selection and the submit procedure
    that checks for an existing user, saves a new one and navigates home. */
module StartPage {
  import opened Wrappers
  import opened UserClient
  import opened Categories
  import opened Session

  /** The Telegram user of the unsafe init data, as the page reads it. */
  datatype TgUser = TgUser(id: Option<int>, firstName: Option<string>)

  /** The body posted to `/api/user/save`; `None` is `null` or an omitted field. */
  datatype SavePayload = SavePayload(
    tgId: Option<int>,
    categories: seq<string>,
    fullName: Option<string>,
    email: Option<string>)

  /** A request the page sends, in the order it sends them. */
  datatype Request = InfoRequest(tgId: Option<int>) | SaveRequest(payload: SavePayload)

  /** The user's id and first name, `None` when there is no user. */
  function UserId(user: Option<TgUser>): Option<int> {
    if user.Some? then user.value.id else None
  }

  function FirstName(user: Option<TgUser>): Option<string> {
    if user.Some? then user.value.firstName else None
  }

  /** The parsed info body as the page reads it: it calls `.json()` without
      looking at `ok`, so a non-ok response with a JSON body is read too. */
  function InfoBody(info: Reply<InfoJson>): (body: Option<InfoJson>)
    ensures body.Some? <==> info.Response? && info.json.Some?
    ensures body.Some? ==> body == info.json
  {
    if info.Response? then info.json else None
  }

  class Page {
    var selected: seq<string>

    constructor ()
      ensures selected == []
    {
      selected := [];
    }

    method ToggleCategory(category: string)
      modifies this
      ensures selected == Toggle(old(selected), category)
    {
      if category in selected {
        selected := Without(selected, category);
      } else {
        selected := selected + [category];
      }
    }

    /** `onSubmit`, given the replies of the info and save requests. It
        returns the requests sent and the navigation performed (`None`: the
        page stays, as after a caught exception). */
    method OnSubmit(user: Option<TgUser>, info: Reply<InfoJson>, save: Reply<()>)
      returns (requests: seq<Request>, navigation: Option<Location>)
      ensures selected == [] ==> requests == [] && navigation == None
      ensures selected != [] ==> |requests| >= 1 && requests[0] == InfoRequest(UserId(user))
      ensures navigation.Some? ==> navigation == Some(HomePath)
      ensures InfoBody(info).Some? && InfoBody(info).value.userExists && selected != [] ==>
                requests == [InfoRequest(UserId(user))] && navigation == Some(HomePath)
      ensures |requests| == 2 <==> selected != [] && InfoBody(info).Some? && !InfoBody(info).value.userExists
      ensures |requests| == 2 ==> requests[1] == SaveRequest(SavePayload(UserId(user), selected, FirstName(user), None))
      ensures |requests| <= 2
      ensures navigation.Some? <==> selected != [] && InfoBody(info).Some?
                                    && (InfoBody(info).value.userExists || save.Response?)
    {
      requests, navigation := [], None;
      if |selected| == 0 {
        return;
      }
      requests := requests + [InfoRequest(UserId(user))];
      var userData := InfoBody(info);
      if userData.None? {
        return;  // the fetch or `.json()` rejected: caught, no navigation
      }
      if userData.value.userExists {
        navigation := Some(HomePath);
        return;
      }
      requests := requests + [SaveRequest(SavePayload(UserId(user), selected, FirstName(user), None))];
      if save.NetworkError? {
        return;  // the save fetch rejected: caught, no navigation
      }
      navigation := Some(HomePath);
    }
  }
}
