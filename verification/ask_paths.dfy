/** `askPaths`: prompt for the paths of a gRPC node's CA certificate, client
    certificate and client key, its socket, a name to save it under and
    whether it is the default node, then hand the answers to the gRPC
    credentials writer.
 */
module AskPaths {
  import opened Wrappers
  import opened Paths
  import opened FileSystem
  import opened Json
  import opened CredentialStore
  import opened Reader = SavedCredentials
  import opened Prompts
  import Put = PutSavedCredentials

  const NoAsk := "ExpectedAskFunctionForAskingPaths"
  const NoLogger := "ExpectedWinstonLoggerObjectForAskingPaths"

  const DefaultSavedNodeName := "coreln"

  /** The text prompts, in the order they are put. */
  const TextPrompts: seq<Prompt> := [
    Prompt("path", "Enter Path to ca.pem file", Input(ExistingPath("Expected valid path to ca.pem file")), NoDefault),
    Prompt("path", "Enter Path to client.pem file", Input(ExistingPath("Expected valid path to client.pem file")),
           NoDefault),
    Prompt("path", "Enter Path to client-key.pem file",
           Input(ExistingPath("Expected valid path to client-key.pem file")), NoDefault),
    Prompt("socket", "Enter grpc socket (host:port)", Input(NonEmpty), NoDefault),
    Prompt("name", "Enter a saved node name (can be one word random lowercase)", Input(NonEmpty),
           DefaultText(DefaultSavedNodeName))
  ]

  const IsDefaultPrompt := Prompt("ok", "Is this the default node?", Confirm, DefaultYes)

  /** The error of an empty answer to each text prompt. */
  const Missing: seq<string> := [
    "ExpectedCaPemPathToSaveCredentials",
    "ExpectedClientPemPathToSaveCredentials",
    "ExpectedClientKeyPemPathToSaveCredentials",
    "ExpectedSocketToSaveCredentials",
    "ExpectedSavedNodeNameToSaveCredentials"
  ]

  /** Every text prompt was answered. */
  predicate Answered(answers: Answers) {
    forall i :: 0 <= i < |TextPrompts| ==> At(answers.texts, i) != ""
  }

  /** The arguments the writer is called with. */
  function ArgsOf(answers: Answers): Put.PutSavedArgs {
    Put.PutSavedArgs(At(answers.texts, 0), At(answers.texts, 1), At(answers.texts, 2), true,
                     At(answers.texts, 3), At(answers.texts, 4), answers.confirm)
  }

  /** The prompts put to the user, the disk afterwards and how the call settles. */
  datatype AskOutcome = AskOutcome(asked: seq<Prompt>, fs: Fs, result: Result<Unit>)

  /** `askPaths({ask, logger})`, the verifying reads completing in `order`. */
  function AskPaths(env: Env, fs: Fs, hasAsk: bool, hasLogger: bool, answers: Answers, order: seq<CertFile>)
    : (o: AskOutcome)
    ensures !hasAsk ==> o == AskOutcome([], fs, Err(BadRequest(NoAsk)))
    ensures hasAsk && !hasLogger ==> o == AskOutcome([], fs, Err(BadRequest(NoLogger)))
    ensures forall k :: (0 <= k < |TextPrompts| && hasAsk && hasLogger && At(answers.texts, k) == ""
      && (forall j :: 0 <= j < k ==> At(answers.texts, j) != "")) ==>
      o.asked == TextPrompts[..k + 1] && o.result == Err(BadRequest(Missing[k]))
    ensures hasAsk && hasLogger && Answered(answers) ==>
      && o.asked == TextPrompts + [IsDefaultPrompt]
      && var put := Put.PutSavedCredentials(env, fs, Put.PutSavedArgs(
           ca_cert_path := At(answers.texts, 0), client_cert_path := At(answers.texts, 1),
           client_key_path := At(answers.texts, 2), logger := true, socket := At(answers.texts, 3),
           saved_node := At(answers.texts, 4), is_default := answers.confirm), order);
      o.fs == put.fs && o.result == put.result
  {
    if !hasAsk then AskOutcome([], fs, Err(BadRequest(NoAsk)))
    else if !hasLogger then AskOutcome([], fs, Err(BadRequest(NoLogger)))
    else
      var texts := CollectTexts(TextPrompts, Missing, answers.texts);
      match texts.answers
      case Err(e) => AskOutcome(texts.asked, fs, Err(e))
      case Ok(_) =>
        var put := Put.PutSavedCredentials(env, fs, ArgsOf(answers), order);
        AskOutcome(TextPrompts + [IsDefaultPrompt], put.fs, put.result)
  }

  /** The prompts put are the declared ones, in order, stopping early only
      when an answer is missing. */
  lemma AskedPrefix(env: Env, fs: Fs, hasAsk: bool, hasLogger: bool, answers: Answers, order: seq<CertFile>)
    ensures AskPaths(env, fs, hasAsk, hasLogger, answers, order).asked <= TextPrompts + [IsDefaultPrompt]
  {
    var first := FirstEmpty(Padded(answers.texts, |TextPrompts|));
    if hasAsk && hasLogger && first.Some? {
      assert TextPrompts[..first.value + 1] <= TextPrompts + [IsDefaultPrompt];
    }
  }

  /** A prompt left unanswered ends the call with an error before anything
      is written. */
  lemma UnansweredWritesNothing(env: Env, fs: Fs, hasAsk: bool, hasLogger: bool, answers: Answers, order: seq<CertFile>)
    requires !Answered(answers)
    ensures var o := AskPaths(env, fs, hasAsk, hasLogger, answers, order);
      o.fs == fs && o.result.Err?
  {
    var first := FirstEmpty(Padded(answers.texts, |TextPrompts|));
    assert first.Some?;
  }

  /** After a successful capture the node reads back, under the name given,
      as the contents of the files the answers named: the `client.pem` answer
      supplies the client certificate and the `client-key.pem` answer the
      key. */
  lemma AskThenGet(env: Env, fs: Fs, answers: Answers, order: seq<CertFile>, contents: Reads)
    requires AskPaths(env, fs, true, true, answers, order).result.Ok?
    requires contents == ReadAll(env, AskPaths(env, fs, true, true, answers, order).fs,
      CertPaths(At(answers.texts, 0), At(answers.texts, 1), At(answers.texts, 2)))
    requires !AnyFailed(contents)
    ensures GetSavedCredentials(env, AskPaths(env, fs, true, true, answers, order).fs, At(answers.texts, 4), order)
         == Ok(Reader.SavedCredentials(contents.ca.value, contents.cert.value, contents.key.value,
                                       JStr(At(answers.texts, 3))))
  {
    Put.SaveThenGet(env, fs, ArgsOf(answers), order, contents);
  }
}
