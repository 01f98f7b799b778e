/** `handleStartCommand`: greet the user, or say the bot is already connected. */
module StartCommand {
  import opened Wrappers
  import opened Telegram

  /** `handleStartCommand({id, reply})`. No access check; the handler
      returns the reply's promise, so it settles as the reply settles
      (`sent`). */
  function HandleStart(c: Constants, id: Id, sent: Result<Unit>): (h: Handled)
    ensures |h.actions| == 1 && h.actions[0].Reply? && h.actions[0].options == NoOptions
    ensures h.actions[0].text == c.botIsConnected <== Truthy(id)
    ensures h.actions[0].text == c.startMessage <== !Truthy(id)
    ensures h.result == sent
  {
    if Truthy(id) then Handled([Reply(c.botIsConnected, NoOptions)], sent)
    else Handled([Reply(c.startMessage, NoOptions)], sent)
  }

  /** The reply depends only on whether a user is connected, not on which. */
  lemma StartDependsOnlyOnConnected(c: Constants, a: Id, b: Id, sent: Result<Unit>)
    requires Truthy(a) == Truthy(b)
    ensures HandleStart(c, a, sent) == HandleStart(c, b, sent)
  {
  }
}
