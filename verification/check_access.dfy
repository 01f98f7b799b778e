/** `checkAccess`: only the connected user may run a privileged command. */
module Access {
  import opened Wrappers
  import opened Telegram

  const NoSender := "ExpectedFromUserIdToCheckAccess"
  const NeedsConnectCode := "CommandRequiresConnectCode"

  /** `[401, reason]` */
  function Unauthorized(reason: string): Failure {
    Coded(Status(401), reason)
  }

  /** `checkAccess({from, id})`: the sender is checked first, then whether a
      user is connected and is the sender. */
  function CheckAccess(from: Id, id: Id): (r: Result<Unit>)
    ensures r.Ok? <==> Truthy(from) && Truthy(id) && from == id
    ensures !Truthy(from) ==> r == Err(BadRequest(NoSender))
    ensures Truthy(from) && !Truthy(id) ==> r == Err(Unauthorized(NeedsConnectCode))
    ensures r.Err? ==> r == Err(BadRequest(NoSender)) || r == Err(Unauthorized(NeedsConnectCode))
  {
    if !Truthy(from) then Err(BadRequest(NoSender))
    else if !Truthy(id) || !StrictEquals(from, id) then Err(Unauthorized(NeedsConnectCode))
    else Ok(Unit)
  }

  /** A numeric sender never matches a string id, whatever its digits. */
  lemma NumberNeverMatchesString(n: int, s: string)
    ensures CheckAccess(Num(n), Str(s)).Err?
  {
  }

  /** Access is symmetric in the two ids once both are set. */
  lemma AccessSymmetric(a: Id, b: Id)
    requires Truthy(a) && Truthy(b)
    ensures CheckAccess(a, b) == CheckAccess(b, a)
  {
  }
}
