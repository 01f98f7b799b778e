/** What the Telegram side of the program works with: the JavaScript values
    that stand for user ids, the actions a handler performs on the chat or
    the process, and the constants whose values live in files that are not
    part of this model (icons, interaction texts, button labels, callback
    commands), which are parameters.
 */
module Telegram {
  import opened Wrappers
  import opened Text
  import opened LnSession

  /** A user id as the program sees it: absent, `NaN` (what `Number` makes
      of a non-numeric code), a number, or a string. */
  datatype Id = Undefined | NaN | Num(n: int) | Str(s: string)

  /** `!!v` */
  predicate Truthy(v: Id) {
    match v
    case Undefined => false
    case NaN => false
    case Num(n) => n != 0
    case Str(s) => s != ""
  }

  /** `a === b`: no conversion between numbers and strings, `NaN` equal to nothing. */
  predicate StrictEquals(a: Id, b: Id) {
    match (a, b)
    case (Undefined, Undefined) => true
    case (Num(x), Num(y)) => x == y
    case (Str(x), Str(y)) => x == y
    case _ => false
  }

  /** Among set ids, strict equality is equality of the values. */
  lemma StrictEqualsSet(a: Id, b: Id)
    requires Truthy(a)
    ensures StrictEquals(a, b) <==> a == b
  {
  }

  /** `${v}` */
  function Render(v: Id): string {
    match v
    case Undefined => "undefined"
    case NaN => "NaN"
    case Num(n) => IntToDecimal(n)
    case Str(s) => s
  }

  datatype ParseMode = Markdown | MarkdownV2

  /** An inline keyboard button: its label and the callback data it sends. */
  datatype Button = Button(text: string, data: string)

  /** The options of a reply: none, or a parse mode and an inline keyboard. */
  datatype Options = NoOptions | Options(mode: ParseMode, keyboard: seq<Button>)

  /** What a handler does, in the order it does it. */
  datatype Action =
    | Reply(text: string, options: Options)
    | RemoveCommand
    | Request(url: string, json: bool)
    | Rpc(effect: Effect)
    | SendMessage(to: Id, text: string, mode: ParseMode)
    | TerminateBot
    | WarnUnknownButton

  /** The session effects of `effects`, as actions. */
  function Rpcs(effects: seq<Effect>): (r: seq<Action>)
    ensures |r| == |effects| && forall i :: 0 <= i < |effects| ==> r[i] == Rpc(effects[i])
  {
    if |effects| == 0 then [] else [Rpc(effects[0])] + Rpcs(effects[1..])
  }

  /** The values read from `constants.js`, `icons.json` and `interaction.json`. */
  datatype Constants = Constants(
    infoIcon: string,             // icons.info
    disconnectedIcon: string,     // icons.json: disconnected
    botIcon: string,              // icons.bot
    botInteraction: string,       // interactions.bot
    botIsConnected: string,       // interactions.bot_is_connected
    startMessage: string,         // interactions.start_message
    userIdPrompt: string,         // interaction.json: user_id_prompt.message
    stopCancelLabel: string,      // labels.stopBotCancelButtonLabel
    stopConfirmLabel: string,     // labels.stopBotConfirmButtonLabel
    moveInvoiceNode: string,      // callbackCommands.moveInvoiceNode
    moveTradeNode: string,        // callbackCommands.moveTradeNode
    terminateBot: string,         // callbackCommands.terminateBot
    removeMessage: string)        // callbackCommands.removeMessage

  /** A node as the bot keeps it: its session, alias, display name and key. */
  datatype NodeEntry = NodeEntry(ln: Ln, alias: string, from: string, public_key: string)

  /** What a handler did, and how its promise settled. */
  datatype Handled = Handled(actions: seq<Action>, result: Result<Unit>)
}
