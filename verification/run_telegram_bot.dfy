/** `runTelegramBot`: open the node sessions, start the bot on them, then
    open the sessions again and report which nodes answer `getinfo`. The
    bot's own failure is only logged; the call fails only when the
    arguments are wrong or a round of sessions cannot be opened.
 */
module RunTelegramBot {
  import opened Wrappers
  import opened FileSystem
  import opened CredentialStore
  import opened LnSession
  import opened Telegram
  import opened CoreLns
  import Bot = StartTelegramBot

  const NoAsk := "ExpectedAskFunctionToRunTelegramBot"
  const NoBot := "ExpectedTelegramBotToRunTelegramBot"
  const NoFs := "ExpectedFilesystemMethodsToRunTelegramBot"
  const NoKey := "ExpectedApiKeyToRunTelegramBot"
  const NoLogger := "ExpectedWinstonLoggerToRunTelegramBot"
  const NoNodes := "ExpectedArrayOfSavedNodesToRunTelegramBot"
  const NoRequest := "ExpectedRequestFunctionToRunTelegrambot"

  /** The arguments, reduced to what the checks look at: `nodes` is `None`
      when it is not an array. */
  datatype RunArgs = RunArgs(
    hasAsk: bool, hasBot: bool, hasFs: bool, key: string, hasLogger: bool,
    nodes: Option<seq<string>>, hasRequest: bool, id: Id)

  function Validate(a: RunArgs): (r: Result<Unit>)
    ensures r.Ok? <==> a.hasAsk && a.hasBot && a.hasFs && a.key != "" && a.hasLogger && a.nodes.Some? && a.hasRequest
    ensures !a.hasAsk ==> r == Err(BadRequest(NoAsk))
    ensures a.hasAsk && !a.hasBot ==> r == Err(BadRequest(NoBot))
    ensures a.hasAsk && a.hasBot && !a.hasFs ==> r == Err(BadRequest(NoFs))
    ensures a.hasAsk && a.hasBot && a.hasFs && a.key == "" ==> r == Err(BadRequest(NoKey))
    ensures (a.hasAsk && a.hasBot && a.hasFs && a.key != "" && !a.hasLogger) ==> r == Err(BadRequest(NoLogger))
    ensures (a.hasAsk && a.hasBot && a.hasFs && a.key != "" && a.hasLogger && a.nodes.None?) ==>
      r == Err(BadRequest(NoNodes))
    ensures (a.hasAsk && a.hasBot && a.hasFs && a.key != "" && a.hasLogger && a.nodes.Some? && !a.hasRequest) ==>
      r == Err(BadRequest(NoRequest))
  {
    if !a.hasAsk then Err(BadRequest(NoAsk))
    else if !a.hasBot then Err(BadRequest(NoBot))
    else if !a.hasFs then Err(BadRequest(NoFs))
    else if a.key == "" then Err(BadRequest(NoKey))
    else if !a.hasLogger then Err(BadRequest(NoLogger))
    else if a.nodes.None? then Err(BadRequest(NoNodes))
    else if !a.hasRequest then Err(BadRequest(NoRequest))
    else Ok(Unit)
  }

  /** The arguments handed to the bot. */
  function BotArgs(a: RunArgs, lns: seq<Ln>): Bot.StartArgs {
    Bot.StartArgs(true, Some(lns), a.key, a.id, true, true, true)
  }

  /** What a node's second `getinfo` yields: its key, or nothing when the
      call fails or comes back empty (the error is ignored). */
  function Reported(ln: Ln, net: Network): (r: Option<string>)
    ensures r.Some? <==> GetInfo(ln, net).result.Ok? && GetInfo(ln, net).result.value.Some?
    ensures r.Some? ==> r.value == GetInfo(ln, net).result.value.value.id
  {
    match GetInfo(ln, net).result
    case Ok(Some(info)) => Some(info.id)
    case _ => None
  }

  /** `getConnected.filter(n => !!n)`: the keys reported, in session order,
      without the empty ones. */
  function OnlineIds(lns: seq<Ln>, net: Network): (r: seq<string>)
    ensures |r| <= |lns|
    ensures forall x :: x in r <==> x != "" && exists i :: 0 <= i < |lns| && Reported(lns[i], net) == Some(x)
  {
    if |lns| == 0 then []
    else
      var rest := OnlineIds(lns[1..], net);
      assert forall i :: 1 <= i < |lns| ==> lns[i] == lns[1..][i - 1];
      assert forall x :: (exists i :: 1 <= i < |lns| && Reported(lns[i], net) == Some(x)) ==>
        exists i :: 0 <= i < |lns| - 1 && Reported(lns[1..][i], net) == Some(x);
      Shown(lns[0], net) + rest
  }

  /** What one session adds to the list: its key when it reports a non-empty one. */
  function Shown(ln: Ln, net: Network): (r: seq<string>)
    ensures forall x :: x in r <==> x != "" && Reported(ln, net) == Some(x)
    ensures |r| <= 1
  {
    match Reported(ln, net)
    case Some(id) => if id != "" then [id] else []
    case None => []
  }

  /** Filtering goes session by session, so it keeps the order of the sessions. */
  lemma {:induction false} OnlineIdsAppend(a: seq<Ln>, b: seq<Ln>, net: Network)
    ensures OnlineIds(a + b, net) == OnlineIds(a, net) + OnlineIds(b, net)
  {
    if |a| > 0 {
      assert (a + b)[0] == a[0];
      assert (a + b)[1..] == a[1..] + b;
      OnlineIdsAppend(a[1..], b, net);
      var h := Shown(a[0], net);
      assert h + (OnlineIds(a[1..], net) + OnlineIds(b, net)) == (h + OnlineIds(a[1..], net)) + OnlineIds(b, net);
    } else {
      assert a + b == b;
    }
  }

  function Effects(lns: seq<Ln>, net: Network): seq<Effect> {
    if |lns| == 0 then [] else GetInfo(lns[0], net).effects + Effects(lns[1..], net)
  }

  /** `{connected, online}` */
  datatype Online = Online(connected: Id, online: seq<string>)

  /** The trace (the bot's steps, the session effects as `NodeRpc` steps),
      whether the handlers are registered afterwards, and how the run settles. */
  datatype Ran = Ran(steps: seq<Bot.Step>, botInit: bool, result: Result<Online>)

  /** `runTelegramBot(args)` on the disk `fs`; the first round of sessions
      meets the network `net`, the second one, once the bot has started,
      the network `later`. `code` and `announced` are the bot's oracles. */
  function RunTelegramBot(env: Env, fs: Fs, net: Network, later: Network, botInit: bool, a: RunArgs,
                          code: string, announced: Result<Unit>): (r: Ran)
    ensures Validate(a).Err? ==> r == Ran([], botInit, Err(Validate(a).error))
    ensures Validate(a).Ok? && GetCoreLns(env, fs, net, Many(a.nodes.value)).result.Err? ==>
      r.result == Err(GetCoreLns(env, fs, net, Many(a.nodes.value)).result.error) && r.botInit == botInit
    ensures (Validate(a).Ok? && GetCoreLns(env, fs, net, Many(a.nodes.value)).result.Ok?
      && GetCoreLns(env, fs, later, Many(a.nodes.value)).result.Err?) ==>
      r.result == Err(GetCoreLns(env, fs, later, Many(a.nodes.value)).result.error)
    ensures r.result.Ok? <==> (Validate(a).Ok? && GetCoreLns(env, fs, net, Many(a.nodes.value)).result.Ok?
      && GetCoreLns(env, fs, later, Many(a.nodes.value)).result.Ok?)
    ensures r.result.Ok? ==>
      var started := Bot.Start(net, botInit, BotArgs(a, GetCoreLns(env, fs, net, Many(a.nodes.value)).result.value),
                               code, announced);
      && r.result.value.connected == started.connected
      && r.botInit == started.botInit
      && r.result.value.online == OnlineIds(GetCoreLns(env, fs, later, Many(a.nodes.value)).result.value, later)
  {
    match Validate(a)
    case Err(e) => Ran([], botInit, Err(e))
    case Ok(_) =>
      var first := GetCoreLns(env, fs, net, Many(a.nodes.value));
      var sessions := Bot.NodeRpcs(first.effects);
      match first.result
      case Err(e) => Ran(sessions, botInit, Err(e))
      case Ok(lns) =>
        var started := Bot.Start(net, botInit, BotArgs(a, lns), code, announced);
        var second := GetCoreLns(env, fs, later, Many(a.nodes.value));
        var steps := sessions + started.steps + Bot.NodeRpcs(second.effects);
        match second.result
        case Err(e) => Ran(steps, started.botInit, Err(e))
        case Ok(again) =>
          Ran(steps + Bot.NodeRpcs(Effects(again, later)), started.botInit,
              Ok(Online(started.connected, OnlineIds(again, later))))
  }

  /** The sessions handed to the bot always pass its session check, so the
      only argument the bot can refuse is an id that is the bot's own. */
  lemma BotRefusesOnlyItsOwnId(env: Env, fs: Fs, net: Network, a: RunArgs)
    requires Validate(a).Ok? && GetCoreLns(env, fs, net, Many(a.nodes.value)).result.Ok?
    ensures var args := BotArgs(a, GetCoreLns(env, fs, net, Many(a.nodes.value)).result.value);
      Bot.Validate(args).Ok? <==> !(Truthy(a.id) && Bot.IsBotId(a.key, a.id))
  {
  }

  /** A bot that fails to start does not fail the run: the connected id is
      still reported with the nodes that answer. */
  lemma BotFailureOnlyLogged(env: Env, fs: Fs, net: Network, later: Network, botInit: bool, a: RunArgs,
                             code: string, announced: Result<Unit>)
    requires announced.Err?
    requires Validate(a).Ok? && GetCoreLns(env, fs, net, Many(a.nodes.value)).result.Ok?
    requires GetCoreLns(env, fs, later, Many(a.nodes.value)).result.Ok?
    ensures RunTelegramBot(env, fs, net, later, botInit, a, code, announced).result.Ok?
  {
  }
}
