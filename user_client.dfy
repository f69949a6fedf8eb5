/** The browser side of the user endpoints: an abstract HTTP reply, the
    `getUserByTgId` wrapper of the client's user API, and the body of
    `GET /api/user/info` as the pages read it. */
module UserClient {
  import opened Wrappers

  /** What `fetch` gives back: the promise rejects (network failure, timeout),
      or a response with its `ok` flag and its body, `None` when the body is
      not valid JSON (so that `.json()` rejects). */
  datatype Reply<T> = NetworkError | Response(ok: bool, json: Option<T>)

  /** A settled promise: rejected, or resolved with a value. */
  datatype Settled<T> = Rejected | Resolved(value: T)

  /** A user record as the info endpoint returns it; a field that is `null`
      or missing is `None`. */
  datatype UserJson = UserJson(
    tgId: int,
    categories: Option<seq<string>>,
    fullName: Option<string>,
    email: Option<string>)

  /** The body of `GET /api/user/info`; `userExists` is the truthiness of its
      `exists` field. */
  datatype InfoJson = InfoJson(userExists: bool, user: Option<UserJson>)

  /** `getUserByTgId`: a non-ok response resolves to `null` (`None`) without
      reading the body; an ok response resolves to the parsed body, and
      rejects when the body is not JSON. */
  function GetUserByTgId(reply: Reply<InfoJson>): (r: Settled<Option<InfoJson>>)
    ensures r.Rejected? <==> reply.NetworkError? || (reply.ok && reply.json.None?)
    ensures r == Resolved(None) <==> reply.Response? && !reply.ok
    ensures r.Resolved? && r.value.Some? ==> reply == Response(true, r.value)
  {
    match reply
    case NetworkError => Rejected
    case Response(ok, json) =>
      if !ok then Resolved(None)
      else if json.None? then Rejected
      else Resolved(json)
  }

  /** The profile a page keeps after the info request: only when the response
      says `exists` and carries a `user`. Reading `exists` of a `null`
      response throws; the page catches it and keeps nothing. */
  function LoadedProfile(reply: Reply<InfoJson>): (r: Option<UserJson>)
    ensures r.Some? <==> reply.Response? && reply.ok && reply.json.Some?
                         && reply.json.value.userExists && reply.json.value.user.Some?
    ensures r.Some? ==> r == reply.json.value.user
  {
    match GetUserByTgId(reply)
    case Rejected => None
    case Resolved(body) =>
      if body.Some? && body.value.userExists && body.value.user.Some? then body.value.user
      else None
  }
}
