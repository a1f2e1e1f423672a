/**
 * The username lookup against the game's profile service. The HTTP request
 * itself is outside the model: its reply is an input, and this module only
 * maps that reply to the (id, name) pair the verification flow uses.
 */
module Mojang {
  import opened Wrappers

  /** A canonical game account: its id and its display name. */
  datatype Profile = Profile(id: string, name: string)

  /** What the profile request came back with. `RequestFailed` is a request
      that raised (no connection, timeout, ...). For a reply, `id` and `name`
      are the JSON body's fields, None when the body is not JSON or lacks them. */
  datatype LookupReply =
    | RequestFailed
    | Reply(status: int, id: Option<string>, name: Option<string>)

  /** `get_minecraft_uuid`: a profile only for a 200 reply whose body has both
      fields; every other outcome, a raised exception included, is "no profile". */
  function ResolveProfile(reply: LookupReply): (r: Option<Profile>)
    ensures r.Some? <==> reply.Reply? && reply.status == 200 && reply.id.Some? && reply.name.Some?
    ensures r.Some? ==> r.value.id == reply.id.value && r.value.name == reply.name.value
  {
    match reply
    case RequestFailed => None
    case Reply(status, id, name) =>
      if status != 200 then None
      else if id.None? || name.None? then None
      else Some(Profile(id.value, name.value))
  }

  /** The caller's `if not minecraft_uuid` test: a missing profile and an
      empty id both count as an unknown username. */
  predicate Resolved(p: Option<Profile>)
    ensures Resolved(p) ==> p.Some?
    ensures p.Some? && p.value.id == "" ==> !Resolved(p)
  {
    p.Some? && p.value.id != ""
  }
}
