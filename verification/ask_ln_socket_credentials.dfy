/** `askLnSocketCredentials`: prompt for a node's public key, socket, commando
    rune, a name to save it under and whether it is the default node, then
    hand the answers to the LNSocket credentials writer.
 */
module AskLnSocketCredentials {
  import opened Wrappers
  import opened FileSystem
  import opened Json
  import opened CredentialStore
  import opened LnSocketCredentials
  import opened LnSession
  import opened Prompts
  import Put = PutLnSocketCredentials

  const NoAsk := "ExpectedAskFunctionForAskingLnSocketCredentials"
  const NoLogger := "ExpectedWinstonLoggerObjectForAskingLnSocketCredentials"

  const DefaultSavedNodeName := "coreln"

  /** The text prompts, in the order they are put. */
  const TextPrompts: seq<Prompt> := [
    Prompt("pubkey", "Enter public key", Input(PublicKey), NoDefault),
    Prompt("socket", "Enter socket", Input(NonEmpty), NoDefault),
    Prompt("rune", "Enter commando rune", Input(NonEmpty), NoDefault),
    Prompt("name", "Enter a saved node name (can be one word random lowercase)", Input(NonEmpty),
           DefaultText(DefaultSavedNodeName))
  ]

  const IsDefaultPrompt := Prompt("ok", "Is this the default node?", Confirm, DefaultYes)

  /** The error of an empty answer to each text prompt. */
  const Missing: seq<string> := [
    "ExpectedPublicKeyToSaveLnSocketCredentials",
    "ExpectedSocketToSaveLnSocketCredentials",
    "ExpectedCommandoRuneToSaveLnSocketCredentials",
    "ExpectedSavedNodeNameToSaveLnSocketCredentials"
  ]

  /** Every text prompt was answered. */
  predicate Answered(answers: Answers) {
    forall i :: 0 <= i < |TextPrompts| ==> At(answers.texts, i) != ""
  }

  /** The arguments the writer is called with. */
  function ArgsOf(answers: Answers): Put.PutLnArgs {
    Put.PutLnArgs(true, At(answers.texts, 0), At(answers.texts, 2), At(answers.texts, 3), At(answers.texts, 1),
                  answers.confirm)
  }

  /** The prompts put to the user, the disk afterwards, the session effects
      of the writer's verification, and how the call settles. */
  datatype AskOutcome = AskOutcome(asked: seq<Prompt>, fs: Fs, effects: seq<Effect>, result: Result<Unit>)

  /** `askLnSocketCredentials({ask, logger})`; `hasAsk` and `hasLogger` say
      whether the arguments were given. */
  function AskLnSocketCredentials(env: Env, fs: Fs, net: Network, hasAsk: bool, hasLogger: bool, answers: Answers)
    : (o: AskOutcome)
    ensures !hasAsk ==> o == AskOutcome([], fs, [], Err(BadRequest(NoAsk)))
    ensures hasAsk && !hasLogger ==> o == AskOutcome([], fs, [], Err(BadRequest(NoLogger)))
    ensures forall k :: (0 <= k < |TextPrompts| && hasAsk && hasLogger && At(answers.texts, k) == ""
      && (forall j :: 0 <= j < k ==> At(answers.texts, j) != "")) ==>
      o.asked == TextPrompts[..k + 1] && o.result == Err(BadRequest(Missing[k]))
    ensures hasAsk && hasLogger && Answered(answers) ==>
      && o.asked == TextPrompts + [IsDefaultPrompt]
      && var put := Put.PutLnSocketCredentials(env, fs, net, Put.PutLnArgs(true,
           At(answers.texts, 0), At(answers.texts, 2), At(answers.texts, 3), At(answers.texts, 1), answers.confirm));
      o.fs == put.fs && o.effects == put.effects && o.result == put.result
  {
    if !hasAsk then AskOutcome([], fs, [], Err(BadRequest(NoAsk)))
    else if !hasLogger then AskOutcome([], fs, [], Err(BadRequest(NoLogger)))
    else
      var texts := CollectTexts(TextPrompts, Missing, answers.texts);
      match texts.answers
      case Err(e) => AskOutcome(texts.asked, fs, [], Err(e))
      case Ok(_) =>
        var put := Put.PutLnSocketCredentials(env, fs, net, ArgsOf(answers));
        AskOutcome(TextPrompts + [IsDefaultPrompt], put.fs, put.effects, put.result)
  }

  /** The prompts put are the declared ones, in order, stopping early only
      when an answer is missing. */
  lemma AskedPrefix(env: Env, fs: Fs, net: Network, hasAsk: bool, hasLogger: bool, answers: Answers)
    ensures AskLnSocketCredentials(env, fs, net, hasAsk, hasLogger, answers).asked <= TextPrompts + [IsDefaultPrompt]
  {
    var first := FirstEmpty(Padded(answers.texts, |TextPrompts|));
    if hasAsk && hasLogger && first.Some? {
      assert TextPrompts[..first.value + 1] <= TextPrompts + [IsDefaultPrompt];
    }
  }

  /** A prompt left unanswered ends the call with an error before anything
      is written or any session opened. */
  lemma UnansweredWritesNothing(env: Env, fs: Fs, net: Network, hasAsk: bool, hasLogger: bool, answers: Answers)
    requires !Answered(answers)
    ensures var o := AskLnSocketCredentials(env, fs, net, hasAsk, hasLogger, answers);
      o.fs == fs && o.effects == [] && o.result.Err?
  {
    var first := FirstEmpty(Padded(answers.texts, |TextPrompts|));
    assert first.Some?;
  }

  /** After a successful capture the node reads back, under the name given,
      as exactly the key, rune and socket typed in. */
  lemma AskThenGet(env: Env, fs: Fs, net: Network, answers: Answers)
    requires AskLnSocketCredentials(env, fs, net, true, true, answers).result.Ok?
    ensures GetLnSocketCredentials(env, AskLnSocketCredentials(env, fs, net, true, true, answers).fs, At(answers.texts, 3))
         == Ok(LnCredentials(JStr(At(answers.texts, 0)), JStr(At(answers.texts, 2)), JStr(At(answers.texts, 1))))
  {
  }
}
