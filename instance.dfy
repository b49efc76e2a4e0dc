/** The instance service (its behaviour as
    pkg/cloudca/services/cloudca/instance_test.go pins it down): each operation
    maps what the entity service returned, a (bytes, error) pair, to its own
    result, without state and without loops. */
module InstanceService {
  import opened Json
  import opened ApiResponse

  /** What an entity-service call (`Get`, `Execute`, `Delete`) returned. */
  datatype EntityReply = EntityReply(body: seq<byte>, err: Option<Failure>)

  /** The operations whose result is only "did it work". */
  datatype Action =
    | Purge | Start | Stop | Recover | Reboot
    | AssociateSSHKey | ChangeComputeOffering | CreateRecoveryPoint
    | Destroy | DestroyWithOptions

  /** `InstanceApi.Get`: the instance decoded from the body, or the entity
      service's error unchanged. `parse` is `json.Unmarshal` into an `Instance`. */
  function Get<I>(reply: EntityReply, parse: seq<byte> -> Result<I>): (r: Result<I>)
    ensures reply.err.Some? ==> r == Err(reply.err.value)
  {
    if reply.err.Some? then Err(reply.err.value) else parse(reply.body)
  }

  /** `InstanceApi.Exists`: an instance exists when Get succeeds; a 404
      `ErrorResponse` means "does not exist" with no error; any other error is
      returned unchanged. */
  function Exists<I>(reply: EntityReply, parse: seq<byte> -> Result<I>): (r: (bool, Option<Failure>))
    ensures r.0 <==> Get(reply, parse).Ok?
    ensures Get(reply, parse).Ok? ==> r == (true, None)
    ensures reply.err == Some(ErrorResponse(Response("", "", NotFound, None, None, None))) ==> r == (false, None)
    ensures r.1.None? <==>
      (Get(reply, parse).Ok? || (Get(reply, parse).error.ErrorResponse? && Get(reply, parse).error.response.statusCode == NotFound))
    ensures r.1.Some? ==> r.1 == Some(Get(reply, parse).error)
    ensures reply.err.Some? && !(reply.err.value.ErrorResponse? && reply.err.value.response.statusCode == NotFound) ==>
      r == (false, reply.err)
  {
    match Get(reply, parse)
    case Ok(_) => (true, None)
    case Err(e) =>
      if e.ErrorResponse? && e.response.statusCode == NotFound then (false, None) else (false, Some(e))
  }

  /** Purge, Start, Stop, Recover, Reboot, AssociateSSHKey,
      ChangeComputeOffering, CreateRecoveryPoint, Destroy and
      DestroyWithOptions: true exactly when the call returned no error, and the
      error passed on unchanged, whatever bytes came with it. The action only
      selects the operation the entity service runs. */
  function Perform(action: Action, reply: EntityReply): (r: (bool, Option<Failure>))
    ensures r.0 <==> reply.err.None?
    ensures r.1 == reply.err
  {
    if reply.err.Some? then (false, reply.err) else (true, None)
  }

  /** `InstanceApi.ResetPassword`: the `password` member of the body, or ""
      with the error. `decode` is `json.Unmarshal` into a map of raw members. */
  function ResetPassword(reply: EntityReply, decode: seq<byte> -> Body): (r: (string, Option<Failure>))
    ensures reply.err.Some? ==> r == ("", reply.err)
    ensures r.1.Some? ==> r.0 == ""
  {
    if reply.err.Some? then ("", reply.err)
    else
      match decode(reply.body)
      case NotObject => ("", Some(Malformed))
      case Object(f) =>
        var password := StringField(f, "password");
        if password.Some? then (password.value, None) else ("", Some(Malformed))
  }

  /** A successful reset whose body holds a string `password` returns it. */
  lemma ResetPasswordReturnsPassword(reply: EntityReply, decode: seq<byte> -> Body, password: string, f: map<string, Raw>)
    requires reply.err.None?
    requires decode(reply.body) == Object(f) && "password" in f && f["password"].value == JString(password)
    ensures ResetPassword(reply, decode) == (password, None)
  {
  }
}
