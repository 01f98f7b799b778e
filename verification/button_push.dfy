/** `handleButtonPush`: a press on an inline keyboard button. Only the
    connected user's presses are acted on; the callback data, reduced to a
    command type, decides between terminating the bot and warning about an
    unknown button. */
module ButtonPush {
  import opened Wrappers
  import opened Text
  import opened Telegram
  import opened Access

  const NoBot := "ExpectedTelegramBotToHandleButtonPushEvent"
  const NoContext := "ExpectedTelegramContextToHandleButtonPushEvent"
  const NoConnectedUser := "ExpectedConnectedUserIdToHandleButtonPushEvent"
  const NoNodes := "ExpectedArrayOfNodesToHandleButtonPushEvent"

  /** The callback query of the context: who pressed, and the button's data. */
  datatype Press = Press(from: Id, data: string)

  function Validate(hasBot: bool, hasContext: bool, id: Id, nodesIsArray: bool): (r: Result<Unit>)
    ensures r.Ok? <==> hasBot && hasContext && Truthy(id) && nodesIsArray
    ensures !hasBot ==> r == Err(BadRequest(NoBot))
    ensures hasBot && !hasContext ==> r == Err(BadRequest(NoContext))
    ensures hasBot && hasContext && !Truthy(id) ==> r == Err(BadRequest(NoConnectedUser))
    ensures hasBot && hasContext && Truthy(id) && !nodesIsArray ==> r == Err(BadRequest(NoNodes))
  {
    if !hasBot then Err(BadRequest(NoBot))
    else if !hasContext then Err(BadRequest(NoContext))
    else if !Truthy(id) then Err(BadRequest(NoConnectedUser))
    else if !nodesIsArray then Err(BadRequest(NoNodes))
    else Ok(Unit)
  }

  /** The command type of a button: the two move commands carry an argument
      after their name, so data starting with one is that command (the
      invoice move checked first); anything else is its own type. */
  function Classify(c: Constants, data: string): (r: string)
    ensures StartsWith(data, c.moveInvoiceNode) ==> r == c.moveInvoiceNode
    ensures !StartsWith(data, c.moveInvoiceNode) && StartsWith(data, c.moveTradeNode) ==> r == c.moveTradeNode
    ensures !StartsWith(data, c.moveInvoiceNode) && !StartsWith(data, c.moveTradeNode) ==> r == data
  {
    if StartsWith(data, c.moveInvoiceNode) then c.moveInvoiceNode
    else if StartsWith(data, c.moveTradeNode) then c.moveTradeNode
    else data
  }

  /** The action a command type leads to. */
  function Dispatch(c: Constants, kind: string): (a: Action)
    ensures a == TerminateBot <==> kind == c.terminateBot
    ensures a != TerminateBot ==> a == WarnUnknownButton
  {
    if kind == c.terminateBot then TerminateBot else WarnUnknownButton
  }

  /** `handleButtonPush({bot, ctx, id, nodes})`; `press` is the context's
      callback query. What terminating or warning does in turn is not part
      of this model: each is one action, and the push settles once it is
      taken. */
  function HandleButtonPush(c: Constants, hasBot: bool, hasContext: bool, id: Id, nodesIsArray: bool, press: Press)
    : (h: Handled)
    ensures Validate(hasBot, hasContext, id, nodesIsArray).Err? ==>
      h == Handled([], Validate(hasBot, hasContext, id, nodesIsArray))
    ensures h.result.Ok? <==> Validate(hasBot, hasContext, id, nodesIsArray).Ok? && CheckAccess(press.from, id).Ok?
    ensures h.result.Err? ==> h.actions == []
    ensures h.result.Ok? ==> h.actions == [Dispatch(c, Classify(c, press.data))]
    ensures Validate(hasBot, hasContext, id, nodesIsArray).Ok? && CheckAccess(press.from, id).Err? ==>
      h.result == CheckAccess(press.from, id)
  {
    match Validate(hasBot, hasContext, id, nodesIsArray)
    case Err(e) => Handled([], Err(e))
    case Ok(_) =>
      match CheckAccess(press.from, id)
      case Err(e) => Handled([], Err(e))
      case Ok(_) => Handled([Dispatch(c, Classify(c, press.data))], Ok(Unit))
  }

  lemma {:induction false} StartsWithTrans(s: string, t: string, u: string)
    requires StartsWith(s, t) && StartsWith(t, u)
    ensures StartsWith(s, u)
  {
    assert s[..|u|] == s[..|t|][..|u|];
  }

  /** Reducing a type again changes nothing. */
  lemma {:induction false} ClassifyIdempotent(c: Constants, data: string)
    ensures Classify(c, Classify(c, data)) == Classify(c, data)
  {
    assert StartsWith(c.moveInvoiceNode, c.moveInvoiceNode);
    assert StartsWith(c.moveTradeNode, c.moveTradeNode);
    if !StartsWith(data, c.moveInvoiceNode) && StartsWith(data, c.moveTradeNode)
       && StartsWith(c.moveTradeNode, c.moveInvoiceNode) {
      StartsWithTrans(data, c.moveTradeNode, c.moveInvoiceNode);
    }
  }

  /** When the terminate command is not itself a move command, the bot is
      terminated exactly when the connected user presses the button whose
      data is that command. */
  lemma {:induction false} TerminateOnlyOnItsButton(c: Constants, id: Id, press: Press)
    requires !StartsWith(c.terminateBot, c.moveInvoiceNode) && !StartsWith(c.terminateBot, c.moveTradeNode)
    ensures TerminateBot in HandleButtonPush(c, true, true, id, true, press).actions
        <==> Truthy(id) && press.from == id && press.data == c.terminateBot
  {
    if Truthy(id) && press.from == id {
      var kind := Classify(c, press.data);
      if kind == c.terminateBot && press.data != c.terminateBot {
        assert kind == c.moveInvoiceNode || kind == c.moveTradeNode;
        assert StartsWith(kind, kind);
      }
    }
  }
}
