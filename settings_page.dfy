/** The settings page: the profile form filled from the fetched user, the
    category toggle, saving through `PUT /api/user/update`, and the support
    message dialog. */
module SettingsPage {
  import opened Wrappers
  import opened UserClient
  import opened Categories
  import opened Session

  /** The characters JavaScript's `String.prototype.trim` removes: the
      WhiteSpace (TAB, VT, FF, ZWNBSP and the Unicode space separators) and
      LineTerminator characters of ECMAScript. */
  predicate IsJsWhitespace(c: char) {
    || c in {'\t', '\U{000B}', '\U{000C}', ' ', '\U{00A0}', '\U{FEFF}', '\U{1680}',
             '\U{202F}', '\U{205F}', '\U{3000}', '\n', '\r', '\U{2028}', '\U{2029}'}
    || ('\U{2000}' <= c <= '\U{200A}')
  }

  predicate Blank(s: string) {
    forall i :: 0 <= i < |s| ==> IsJsWhitespace(s[i])
  }

  /** `s` without its leading whitespace: a suffix of `s` that does not start
      with whitespace, all that was dropped being whitespace. */
  function TrimStart(s: string): (r: string)
    ensures |r| <= |s| && r == s[|s| - |r|..]
    ensures r != [] ==> !IsJsWhitespace(r[0])
    ensures forall i :: 0 <= i < |s| - |r| ==> IsJsWhitespace(s[i])
  {
    if s != [] && IsJsWhitespace(s[0]) then TrimStart(s[1..]) else s
  }

  /** `s` without its trailing whitespace: a prefix of `s` that does not end
      with whitespace, all that was dropped being whitespace. */
  function TrimEnd(s: string): (r: string)
    ensures |r| <= |s| && r == s[..|r|]
    ensures r != [] ==> !IsJsWhitespace(r[|r| - 1])
    ensures forall i :: |r| <= i < |s| ==> IsJsWhitespace(s[i])
  {
    if s != [] && IsJsWhitespace(s[|s| - 1]) then TrimEnd(s[..|s| - 1]) else s
  }

  /** `String.prototype.trim`: a part of `s` with no whitespace at either end. */
  function Trim(s: string): (r: string)
    ensures |r| <= |s|
    ensures r != [] ==> !IsJsWhitespace(r[0]) && !IsJsWhitespace(r[|r| - 1])
  {
    TrimEnd(TrimStart(s))
  }

  /** A message trims to the empty string exactly when it is all whitespace. */
  lemma TrimEmptyIffBlank(s: string)
    ensures Trim(s) == "" <==> Blank(s)
  {
    if !Blank(s) {
      var i :| 0 <= i < |s| && !IsJsWhitespace(s[i]);
      assert TrimStart(s) != [];
    }
  }

  /** The form state: categories, full name and email. */
  datatype Form = Form(categories: seq<string>, fullName: string, email: string)

  /** The form filled from a fetched user: a missing (or falsy) field becomes
      the empty list or the empty string. */
  function FormFrom(user: UserJson): (f: Form)
    ensures user.categories.Some? ==> f.categories == user.categories.value
    ensures user.categories.None? ==> f.categories == []
    ensures user.fullName.Some? ==> f.fullName == user.fullName.value
    ensures user.fullName.None? ==> f.fullName == ""
    ensures user.email.Some? ==> f.email == user.email.value
    ensures user.email.None? ==> f.email == ""
  {
    Form(user.categories.GetOr([]), user.fullName.GetOr(""), user.email.GetOr(""))
  }

  /** The request `handleSave` sends: the user id and the whole form. */
  datatype UpdateRequest = UpdateRequest(tgId: Option<int>, body: Form)

  /** The body posted to `/api/user/support`. */
  datatype SupportPayload = SupportPayload(userName: Option<string>, userEmail: Option<string>, message: string)

  /** The id of the unsafe init data's user, read from the Telegram WebApp object.
      The handlers take that object as an `Option`, `None` when `Telegram.WebApp`
      is unavailable, and read the id only from a present one. */
  function BridgeUserId(tg: WebApp): Option<int> {
    tg.unsafeUserId
  }

  class Page {
    var userData: Option<UserJson>
    var loading: bool
    var saving: bool
    var showSupportModal: bool
    var supportMessage: string
    var form: Form

    constructor ()
      ensures userData == None && loading && !saving && !showSupportModal
      ensures supportMessage == "" && form == Form([], "", "")
    {
      userData := None;
      loading := true;
      saving := false;
      showSupportModal := false;
      supportMessage := "";
      form := Form([], "", "");
    }

    /** The mount effect: fetch the user; keep it and fill the form only when
        the reply says `exists` and carries a `user`; clear `loading` always. */
    method FetchUserData(tg: Option<WebApp>, reply: Reply<InfoJson>)
      modifies this`userData, this`form, this`loading
      ensures !loading
      ensures tg.Some? && LoadedProfile(reply).Some? ==>
                userData == LoadedProfile(reply) && form == FormFrom(LoadedProfile(reply).value)
      ensures tg.None? || LoadedProfile(reply).None? ==> userData == old(userData) && form == old(form)
    {
      if tg.Some? {
        var profile := LoadedProfile(reply);
        if profile.Some? {
          userData := profile;
          form := FormFrom(profile.value);
        }
      }
      loading := false;
    }

    /** The header counter "Категории (n выбрано)". */
    function CategoryCounter(): nat
      reads this
    {
      |form.categories|
    }

    /** `handleCategoryToggle`: only the categories of the form change; the
        counter grows by one, or drops by every occurrence removed. */
    method HandleCategoryToggle(category: string)
      modifies this`form
      ensures form == old(form).(categories := Toggle(old(form.categories), category))
      ensures CategoryCounter() == if category in old(form.categories)
                                   then old(CategoryCounter()) - multiset(old(form.categories))[category]
                                   else old(CategoryCounter()) + 1
    {
      var updated := Toggle(form.categories, category);
      assert |multiset(Without(form.categories, category))|
          == |multiset(form.categories)| - multiset(form.categories)[category];
      form := form.(categories := updated);
    }

    /** The `onChange` handlers of the name and email inputs. */
    method EditFullName(value: string)
      modifies this`form
      ensures form == old(form).(fullName := value)
    {
      form := form.(fullName := value);
    }

    method EditEmail(value: string)
      modifies this`form
      ensures form == old(form).(email := value)
    {
      form := form.(email := value);
    }

    /** `handleSave`: nothing without `userData`; otherwise send the whole form
        for the bridge's user id, navigate home when the reply's body parses,
        and in every case clear `saving` again. */
    method HandleSave(tg: Option<WebApp>, reply: Reply<()>)
      returns (sent: Option<UpdateRequest>, navigation: Option<Location>)
      modifies this`saving
      ensures userData.None? ==> sent == None && navigation == None && saving == old(saving)
      ensures userData.Some? ==> !saving
      ensures sent.Some? <==> userData.Some? && tg.Some?
      ensures sent.Some? ==> sent.value == UpdateRequest(BridgeUserId(tg.value), form)
      ensures navigation.Some? <==> sent.Some? && reply.Response? && reply.json.Some?
      ensures navigation.Some? ==> navigation == Some(HomePath)
    {
      sent, navigation := None, None;
      if userData.None? {
        return;
      }
      saving := true;
      if tg.Some? {
        sent := Some(UpdateRequest(BridgeUserId(tg.value), form));
        if reply.Response? && reply.json.Some? {
          navigation := Some(HomePath);
        }
        // otherwise `updateUser` rejects: caught and logged
      }
      saving := false;
    }

    method OpenSupportModal()
      modifies this`showSupportModal
      ensures showSupportModal
    {
      showSupportModal := true;
    }

    method CloseSupportModal()
      modifies this`showSupportModal
      ensures !showSupportModal
    {
      showSupportModal := false;
    }

    method EditSupportMessage(value: string)
      modifies this`supportMessage
      ensures supportMessage == value
    {
      supportMessage := value;
    }

    /** `handleSupportSubmit`: ignored for a blank message; otherwise post the
        untrimmed message with the user's name and email, and on an ok
        response close the dialog and clear the message. */
    method HandleSupportSubmit(reply: Reply<()>) returns (sent: Option<SupportPayload>)
      modifies this`showSupportModal, this`supportMessage
      ensures Blank(old(supportMessage)) ==> sent == None
      ensures !Blank(old(supportMessage)) ==>
                sent == Some(SupportPayload(
                  if userData.Some? then userData.value.fullName else None,
                  if userData.Some? then userData.value.email else None,
                  old(supportMessage)))
      ensures sent.Some? && reply.Response? && reply.ok ==> !showSupportModal && supportMessage == ""
      ensures !(sent.Some? && reply.Response? && reply.ok) ==>
                showSupportModal == old(showSupportModal) && supportMessage == old(supportMessage)
    {
      TrimEmptyIffBlank(supportMessage);
      if Trim(supportMessage) == "" {
        return None;
      }
      sent := Some(SupportPayload(
        if userData.Some? then userData.value.fullName else None,
        if userData.Some? then userData.value.email else None,
        supportMessage));
      if reply.Response? && reply.ok {
        showSupportModal := false;
        supportMessage := "";
      }
    }
  }
}
