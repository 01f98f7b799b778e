/** `handleStopCommand`: ask the connected user to confirm stopping the bot,
    with a two-button keyboard. */
module StopCommand {
  import opened Wrappers
  import opened Telegram
  import opened Access

  const NoSender := "ExpectedFromUserIdToExecuteStopCommand"
  const NoReply := "ExpectedReplyFunctionToExecuteStopCommand"

  /** `stopBotMessage({})`: its text, parse mode and inline keyboard. */
  function StopMessage(c: Constants): Options {
    Options(MarkdownV2, [Button(c.stopCancelLabel, c.terminateBot), Button(c.stopConfirmLabel, c.removeMessage)])
  }

  function StopText(c: Constants): string {
    c.botIcon + " Are you sure that you want to stop the bot?"
  }

  /** `handleStopCommand({from, id, reply})`; `hasReply` says whether `reply`
      was given, and `sent` how the awaited reply settles. */
  function HandleStop(c: Constants, from: Id, id: Id, hasReply: bool, sent: Result<Unit>): (h: Handled)
    ensures !Truthy(from) ==> h == Handled([], Err(BadRequest(NoSender)))
    ensures Truthy(from) && !hasReply ==> h == Handled([], Err(BadRequest(NoReply)))
    ensures Truthy(from) && hasReply && CheckAccess(from, id).Err? ==> h == Handled([], CheckAccess(from, id))
    ensures h.actions != [] <==> Truthy(from) && hasReply && CheckAccess(from, id).Ok?
    ensures h.actions != [] ==> h.actions == [Reply(StopText(c), StopMessage(c))] && h.result == sent
  {
    if !Truthy(from) then Handled([], Err(BadRequest(NoSender)))
    else if !hasReply then Handled([], Err(BadRequest(NoReply)))
    else match CheckAccess(from, id)
      case Err(e) => Handled([], Err(e))
      case Ok(_) => Handled([Reply(StopText(c), StopMessage(c))], sent)
  }

  /** Only the connected user gets the confirmation: anyone else, or anyone
      while no user is connected, gets no reply at all. */
  lemma StopOnlyForConnected(c: Constants, from: Id, id: Id, sent: Result<Unit>)
    ensures HandleStop(c, from, id, true, sent).actions != [] <==> Truthy(id) && from == id
  {
  }
}
