/** `handleVersionCommand`: report the running version, then the latest one
    published on the npm registry. */
module VersionCommand {
  import opened Wrappers
  import opened Telegram
  import opened Access

  const NoSender := "ExpectedFromUserIdNumberForVersionCommand"
  const NoName := "ExpectedPackageNameStringToHandleVersionCommand"
  const NoReply := "ExpectedReplyFunctionToHandleVersionCommand"
  const NoRequest := "ExpectedRequestFunctionToHandleVersionCommand"
  const NoVersion := "ExpectedVersionStringToHandleVersionCommand"

  /** What the registry request calls back with: an error or no response
      at all, or a response with its status and the `version` of its body
      (empty when the body or its `version` is missing). */
  datatype Registry = NoResponse | Response(statusCode: int, version: string)

  function Url(named: string): string {
    "https://registry.npmjs.org/" + named + "/latest"
  }

  function CurrentVersion(c: Constants, v: string): string {
    c.botInteraction + " Running version: " + v
  }

  function LatestVersion(c: Constants, v: string): string {
    c.botInteraction + " Latest version: " + v
  }

  function FailedToGetVersion(c: Constants): string {
    c.botInteraction + " Failed to get version information from NPM"
  }

  /** The registry answered with a version. */
  predicate Answered(registry: Registry) {
    registry.Response? && registry.statusCode == 200 && registry.version != ""
  }

  predicate Complete(from: Id, named: string, hasReply: bool, hasRequest: bool, version: string) {
    Truthy(from) && named != "" && hasReply && hasRequest && version != ""
  }

  /** The first missing argument, in the order they are checked. */
  function Validate(from: Id, named: string, hasReply: bool, hasRequest: bool, version: string): (r: Result<Unit>)
    ensures r.Ok? <==> Complete(from, named, hasReply, hasRequest, version)
    ensures !Truthy(from) ==> r == Err(BadRequest(NoSender))
    ensures Truthy(from) && named == "" ==> r == Err(BadRequest(NoName))
    ensures (Truthy(from) && named != "" && hasReply && hasRequest && version == "") ==> r == Err(BadRequest(NoVersion))
  {
    if !Truthy(from) then Err(BadRequest(NoSender))
    else if named == "" then Err(BadRequest(NoName))
    else if !hasReply then Err(BadRequest(NoReply))
    else if !hasRequest then Err(BadRequest(NoRequest))
    else if version == "" then Err(BadRequest(NoVersion))
    else Ok(Unit)
  }

  /** `handleVersionCommand({from, id, named, reply, request, version})`,
      the registry answering `registry`. */
  function HandleVersion(c: Constants, from: Id, id: Id, named: string, hasReply: bool, hasRequest: bool,
                         version: string, registry: Registry): (h: Handled)
    ensures Validate(from, named, hasReply, hasRequest, version).Err? ==>
      h == Handled([], Validate(from, named, hasReply, hasRequest, version))
    ensures Validate(from, named, hasReply, hasRequest, version).Ok? && CheckAccess(from, id).Err? ==>
      h == Handled([], CheckAccess(from, id))
    ensures h.result.Ok? <==> (Complete(from, named, hasReply, hasRequest, version) && CheckAccess(from, id).Ok?)
    ensures h.result.Ok? ==> (|h.actions| == 3
      && h.actions[0] == Reply(CurrentVersion(c, version), NoOptions)
      && h.actions[1] == Request(Url(named), true)
      && h.actions[2] == Reply(if Answered(registry) then LatestVersion(c, registry.version)
                               else FailedToGetVersion(c), NoOptions))
    ensures h.result.Err? ==> h.actions == []
  {
    match Validate(from, named, hasReply, hasRequest, version)
    case Err(e) => Handled([], Err(e))
    case Ok(_) =>
      match CheckAccess(from, id)
      case Err(e) => Handled([], Err(e))
      case Ok(_) =>
        var answer := if Answered(registry) then LatestVersion(c, registry.version) else FailedToGetVersion(c);
        Handled([Reply(CurrentVersion(c, version), NoOptions), Request(Url(named), true), Reply(answer, NoOptions)],
                Ok(Unit))
  }

  /** The running version is announced and the registry asked before its
      answer is known: the answer only decides the last reply. */
  lemma AnswerOnlyDecidesLastReply(c: Constants, from: Id, id: Id, named: string, version: string,
                                   r1: Registry, r2: Registry)
    requires HandleVersion(c, from, id, named, true, true, version, r1).result.Ok?
    ensures HandleVersion(c, from, id, named, true, true, version, r1).actions[..2]
         == HandleVersion(c, from, id, named, true, true, version, r2).actions[..2]
  {
  }
}
