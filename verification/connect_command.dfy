/** `handleConnectCommand`: tell an unconnected bot's user their connection
    code, which is their own user id. */
module ConnectCommand {
  import opened Wrappers
  import opened Telegram

  /** The code message, `🤖 Connection code is: \`${from}\``. */
  function CodeMessage(from: Id): string {
    "\U{1F916} Connection code is: `" + Render(from) + "`"
  }

  /** `handleConnectCommand({from, id, reply})`. No access check; the
      handler returns the reply's promise, so it settles as the reply
      settles (`sent`). */
  function HandleConnect(c: Constants, from: Id, id: Id, sent: Result<Unit>): (h: Handled)
    ensures |h.actions| == 1 && h.actions[0].Reply? && h.actions[0].options == NoOptions
    ensures Truthy(id) ==> h.actions[0].text == c.botIsConnected
    ensures !Truthy(id) ==> h.actions[0].text == CodeMessage(from)
    ensures h.result == sent
  {
    if Truthy(id) then Handled([Reply(c.botIsConnected, NoOptions)], sent)
    else Handled([Reply(CodeMessage(from), NoOptions)], sent)
  }

  /** Once a user is connected, the reply says nothing about the sender. */
  lemma ConnectedHidesSender(c: Constants, a: Id, b: Id, id: Id, sent: Result<Unit>)
    requires Truthy(id)
    ensures HandleConnect(c, a, id, sent) == HandleConnect(c, b, id, sent)
  {
  }

  /** While no user is connected, different senders get different codes. */
  lemma CodeIdentifiesSender(c: Constants, a: string, b: string, id: Id, sent: Result<Unit>)
    requires !Truthy(id) && a != b
    ensures HandleConnect(c, Str(a), id, sent) != HandleConnect(c, Str(b), id, sent)
  {
    var p := "\U{1F916} Connection code is: `";
    var ma := CodeMessage(Str(a));
    var mb := CodeMessage(Str(b));
    assert ma == p + a + "`" && mb == p + b + "`";
    assert ma[|p|..|ma| - 1] == a && mb[|p|..|mb| - 1] == b;
  }
}
