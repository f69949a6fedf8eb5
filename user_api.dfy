/** The backend user endpoints over an in-memory users table and support
    requests table: info, save (insert or overwrite), partial update, and
    support requests. */
module UserApi {
  import opened Wrappers

  /** A row of the users table. The stored categories are kept as a list
      (the source keeps them as JSON text behind two helper methods). */
  datatype User = User(
    tgId: int,
    categories: seq<string>,
    fullName: Option<string>,
    email: Option<string>,
    createdAt: int)

  /** The body of `POST /api/user/save`. */
  datatype UserPayload = UserPayload(tgId: int, categories: seq<string>, fullName: Option<string>, email: Option<string>)

  /** The body of `PUT /api/user/update`; `None` means "leave unchanged". */
  datatype UpdatePayload = UpdatePayload(categories: Option<seq<string>>, fullName: Option<string>, email: Option<string>)

  /** The body of `POST /api/user/support`. */
  datatype SupportPayload = SupportPayload(userName: Option<string>, userEmail: Option<string>, message: string)

  datatype SupportRequest = SupportRequest(id: int, userName: Option<string>, userEmail: Option<string>, message: string)

  /** "Does not exist", or "exists" together with the user's
      stored fields (tg_id, categories, full_name, email, created_at). */
  datatype InfoResponse = NotRegistered | Registered(user: User)

  datatype SaveResponse = SaveResponse(
    categoriesCount: nat, categories: seq<string>, fullName: Option<string>, email: Option<string>)

  /** Which fields an update was given. */
  datatype UpdatedFields = UpdatedFields(categories: bool, fullName: bool, email: bool)

  datatype UpdateResponse =
    | UpdateFailed(error: string)
    | UpdateOk(updated: UpdatedFields, categories: seq<string>, fullName: Option<string>, email: Option<string>)

  datatype SupportResponse = SupportResponse(requestId: int, message: string)

  const UserNotFound: string := "User not found"
  const SupportAck: string := "Обращение отправлено в поддержку"

  /** Some row of `users` has this Telegram id. */
  predicate Stored(users: seq<User>, tgId: int) {
    exists k :: 0 <= k < |users| && users[k].tgId == tgId
  }

  /** The first row of the query by Telegram id: the index of the
      first row with that id, if any. */
  function FindUser(users: seq<User>, tgId: int): (i: Option<nat>)
    ensures i.Some? ==> i.value < |users| && users[i.value].tgId == tgId
    ensures i.Some? ==> forall k :: 0 <= k < i.value ==> users[k].tgId != tgId
    ensures i.None? <==> !Stored(users, tgId)
  {
    if users == [] then None
    else if users[0].tgId == tgId then Some(0)
    else
      var rest := FindUser(users[1..], tgId);
      assert forall k :: 1 <= k < |users| ==> users[k] == users[1..][k - 1];
      if rest.Some? then Some(rest.value + 1) else None
  }

  /** `get_user_info`: the first stored row with that id, or "does not exist". */
  function InfoOf(users: seq<User>, tgId: int): (r: InfoResponse)
    ensures r.NotRegistered? <==> !Stored(users, tgId)
    ensures r.Registered? ==> r.user.tgId == tgId && r.user in users
    ensures r.Registered? ==> exists k :: 0 <= k < |users| && users[k] == r.user
                                          && forall j :: 0 <= j < k ==> users[j].tgId != tgId
  {
    var i := FindUser(users, tgId);
    if i.Some? then Registered(users[i.value]) else NotRegistered
  }

  /** The stored row after `save` found it: categories, name and email are
      replaced by the payload's, even by `None`. */
  function Overwritten(u: User, p: UserPayload): (r: User)
    ensures r.categories == p.categories && r.fullName == p.fullName && r.email == p.email
    ensures r.tgId == u.tgId && r.createdAt == u.createdAt
  {
    u.(categories := p.categories, fullName := p.fullName, email := p.email)
  }

  /** The users table after `save_user`: an unknown id gets exactly one new
      row, a known id has its first row overwritten; no row with another id
      changes. */
  function SavedUsers(users: seq<User>, p: UserPayload, now: int): (r: seq<User>)
    ensures !Stored(users, p.tgId) ==> r == users + [User(p.tgId, p.categories, p.fullName, p.email, now)]
    ensures Stored(users, p.tgId) ==> |r| == |users|
    ensures Stored(users, p.tgId) ==> var i := FindUser(users, p.tgId).value;
              r[i] == Overwritten(users[i], p) && forall k :: 0 <= k < |users| && k != i ==> r[k] == users[k]
    ensures forall k :: 0 <= k < |users| && users[k].tgId != p.tgId ==> r[k] == users[k]
  {
    var i := FindUser(users, p.tgId);
    if i.Some? then users[i.value := Overwritten(users[i.value], p)]
    else users + [User(p.tgId, p.categories, p.fullName, p.email, now)]
  }

  /** The `save_user` response: the count is the payload's length. */
  function SaveReply(p: UserPayload): (r: SaveResponse)
    ensures r.categoriesCount == |p.categories|
    ensures r.categories == p.categories && r.fullName == p.fullName && r.email == p.email
  {
    SaveResponse(|p.categories|, p.categories, p.fullName, p.email)
  }

  /** The stored row after `update_user`: a given field replaces the stored
      value, a `None` field leaves it unchanged. */
  function Patched(u: User, p: UpdatePayload): (r: User)
    ensures r.categories == (if p.categories.Some? then p.categories.value else u.categories)
    ensures r.fullName == (if p.fullName.Some? then p.fullName else u.fullName)
    ensures r.email == (if p.email.Some? then p.email else u.email)
    ensures r.tgId == u.tgId && r.createdAt == u.createdAt
  {
    var c := if p.categories.Some? then p.categories.value else u.categories;
    var n := if p.fullName.Some? then p.fullName else u.fullName;
    var e := if p.email.Some? then p.email else u.email;
    u.(categories := c, fullName := n, email := e)
  }

  /** The users table after `update_user`: unchanged for an unknown id;
      otherwise only the first row with that id is patched. */
  function UpdatedUsers(users: seq<User>, tgId: int, p: UpdatePayload): (r: seq<User>)
    ensures |r| == |users|
    ensures !Stored(users, tgId) ==> r == users
    ensures Stored(users, tgId) ==> var i := FindUser(users, tgId).value;
              r[i] == Patched(users[i], p) && forall k :: 0 <= k < |users| && k != i ==> r[k] == users[k]
    ensures forall k :: 0 <= k < |users| && users[k].tgId != tgId ==> r[k] == users[k]
  {
    var i := FindUser(users, tgId);
    if i.Some? then users[i.value := Patched(users[i.value], p)] else users
  }

  /** The `update_user` response. */
  function UpdateReply(users: seq<User>, tgId: int, p: UpdatePayload): (r: UpdateResponse)
    ensures r.UpdateFailed? <==> !Stored(users, tgId)
    ensures r.UpdateFailed? ==> r.error == UserNotFound
    ensures r.UpdateOk? ==> r.updated == UpdatedFields(p.categories.Some?, p.fullName.Some?, p.email.Some?)
    ensures r.UpdateOk? ==> var u := Patched(users[FindUser(users, tgId).value], p);
              r.categories == u.categories && r.fullName == u.fullName && r.email == u.email
  {
    var i := FindUser(users, tgId);
    if i.None? then UpdateFailed(UserNotFound)
    else
      var u := Patched(users[i.value], p);
      UpdateOk(UpdatedFields(p.categories.Some?, p.fullName.Some?, p.email.Some?), u.categories, u.fullName, u.email)
  }

  /** An update that gives no field changes nothing and still succeeds. */
  lemma EmptyUpdateIsNoOp(users: seq<User>, tgId: int)
    requires Stored(users, tgId)
    ensures UpdatedUsers(users, tgId, UpdatePayload(None, None, None)) == users
    ensures UpdateReply(users, tgId, UpdatePayload(None, None, None)).UpdateOk?
    ensures UpdateReply(users, tgId, UpdatePayload(None, None, None)).updated == UpdatedFields(false, false, false)
  {
    var i := FindUser(users, tgId).value;
    assert Patched(users[i], UpdatePayload(None, None, None)) == users[i];
  }

  /** No two rows share a Telegram id. */
  predicate UniqueTgIds(users: seq<User>) {
    forall j, k :: 0 <= j < k < |users| ==> users[j].tgId != users[k].tgId
  }

  /** After saving, `info` for that id reports the saved fields (the round
      trip of save and info), whatever the table held before. */
  lemma SaveThenInfo(users: seq<User>, p: UserPayload, now: int)
    ensures var r := InfoOf(SavedUsers(users, p, now), p.tgId);
            r.Registered? && r.user.categories == p.categories
            && r.user.fullName == p.fullName && r.user.email == p.email
  {
    var r := SavedUsers(users, p, now);
    assert Stored(r, p.tgId) by {
      if Stored(users, p.tgId) {
        var i := FindUser(users, p.tgId).value;
        assert r[i].tgId == p.tgId;
      } else {
        assert r[|users|].tgId == p.tgId;
      }
    }
    var i := FindUser(r, p.tgId).value;
    if !Stored(users, p.tgId) {
      assert i == |users|;
    } else {
      assert i == FindUser(users, p.tgId).value;
    }
  }

  /** Saving never creates a second row for a Telegram id. */
  lemma SaveKeepsUnique(users: seq<User>, p: UserPayload, now: int)
    requires UniqueTgIds(users)
    ensures UniqueTgIds(SavedUsers(users, p, now))
  {
  }

  /** After an update, `info` for that id reports the patched row; for an
      unknown id it still reports "does not exist". */
  lemma UpdateThenInfo(users: seq<User>, tgId: int, p: UpdatePayload)
    ensures Stored(users, tgId) ==>
              InfoOf(UpdatedUsers(users, tgId, p), tgId) == Registered(Patched(users[FindUser(users, tgId).value], p))
    ensures !Stored(users, tgId) ==> InfoOf(UpdatedUsers(users, tgId, p), tgId) == NotRegistered
  {
    if Stored(users, tgId) {
      var i := FindUser(users, tgId).value;
      var r := UpdatedUsers(users, tgId, p);
      assert r[i].tgId == tgId;
      assert FindUser(r, tgId) == Some(i);
    }
  }

  /** An update keeps the rows' Telegram ids, so it keeps them unique. */
  lemma UpdateKeepsUnique(users: seq<User>, tgId: int, p: UpdatePayload)
    requires UniqueTgIds(users)
    ensures UniqueTgIds(UpdatedUsers(users, tgId, p))
  {
  }

  /** The highest id of the support requests (0 for none). */
  function MaxRequestId(requests: seq<SupportRequest>): (m: int)
    ensures forall k :: 0 <= k < |requests| ==> requests[k].id <= m
    ensures requests == [] ==> m == 0
    ensures requests != [] ==> exists k :: 0 <= k < |requests| && requests[k].id == m
  {
    if |requests| <= 1 then (if requests == [] then 0 else requests[0].id)
    else
      var init := requests[..|requests| - 1];
      var rest := MaxRequestId(init);
      var last := requests[|requests| - 1].id;
      assert forall k :: 0 <= k < |init| ==> requests[k] == init[k];
      if last > rest then last else rest
  }

  /** The users and support-request tables behind one database session. */
  class Store {
    var users: seq<User>
    var supportRequests: seq<SupportRequest>

    /** No two users share a Telegram id. No constraint in the database
        enforces it; the handlers keep it. */
    predicate Valid()
      reads this
    {
      UniqueTgIds(users)
    }

    constructor ()
      ensures Valid() && users == [] && supportRequests == []
    {
      users := [];
      supportRequests := [];
    }

    method GetUserInfo(tgId: int) returns (r: InfoResponse)
      ensures r == InfoOf(users, tgId)
    {
      var i := FindUser(users, tgId);
      if i.Some? {
        r := Registered(users[i.value]);
      } else {
        r := NotRegistered;
      }
    }

    /** `save_user`, with `now` the creation time a new row receives. */
    method SaveUser(p: UserPayload, now: int) returns (r: SaveResponse)
      modifies this`users
      ensures users == SavedUsers(old(users), p, now)
      ensures r == SaveReply(p)
      ensures old(Valid()) ==> Valid()
    {
      if Valid() {
        SaveKeepsUnique(users, p, now);
      }
      var i := FindUser(users, p.tgId);
      if i.Some? {
        var u := users[i.value];
        u := u.(categories := p.categories, fullName := p.fullName, email := p.email);
        users := users[i.value := u];
      } else {
        users := users + [User(p.tgId, p.categories, p.fullName, p.email, now)];
      }
      r := SaveResponse(|p.categories|, p.categories, p.fullName, p.email);
    }

    /** `update_user`. */
    method UpdateUser(tgId: int, p: UpdatePayload) returns (r: UpdateResponse)
      modifies this`users
      ensures users == UpdatedUsers(old(users), tgId, p)
      ensures r == UpdateReply(old(users), tgId, p)
      ensures old(Valid()) ==> Valid()
    {
      if Valid() {
        UpdateKeepsUnique(users, tgId, p);
      }
      var i := FindUser(users, tgId);
      if i.None? {
        return UpdateFailed(UserNotFound);
      }
      var u := users[i.value];
      if p.categories.Some? {
        u := u.(categories := p.categories.value);
      }
      if p.fullName.Some? {
        u := u.(fullName := p.fullName);
      }
      if p.email.Some? {
        u := u.(email := p.email);
      }
      users := users[i.value := u];
      r := UpdateOk(UpdatedFields(p.categories.Some?, p.fullName.Some?, p.email.Some?), u.categories, u.fullName, u.email);
    }

    /** `create_support_request`: appends one request with a new id, higher
        than every stored one, and returns that id. */
    method CreateSupportRequest(p: SupportPayload) returns (r: SupportResponse)
      modifies this`supportRequests
      ensures supportRequests == old(supportRequests)
                                 + [SupportRequest(r.requestId, p.userName, p.userEmail, p.message)]
      ensures forall k :: 0 <= k < |old(supportRequests)| ==> old(supportRequests)[k].id < r.requestId
      ensures r.message == SupportAck
    {
      var id := MaxRequestId(supportRequests) + 1;
      supportRequests := supportRequests + [SupportRequest(id, p.userName, p.userEmail, p.message)];
      r := SupportResponse(id, SupportAck);
    }
  }
}
