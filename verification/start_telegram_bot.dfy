/** `startTelegramBot`: check the arguments, read each node's identity,
    register the bot's handlers once per process, make sure a connected
    user id is known (asking for the code of `/connect` when it is not),
    and announce the nodes to that user. Whatever happens, the call
    settles with `{connected, failure}` and never rejects.

    The handlers themselves, the command menu and the announcement are
    actions of the Telegram library or of files that are not part of this
    model: each is one step of the trace, and the announcement's outcome
    is a parameter. The prompt library is an oracle that reports the code
    typed.
 */
module StartTelegramBot {
  import opened Wrappers
  import opened Text
  import opened Prompts
  import opened LnSession
  import opened Telegram
  import opened Access

  const NoAsk := "ExpectedAskFunctionToStartTelegramBot"
  const NoCoreLns := "ExpectedCoreLnsToStartTelegramBot"
  const NoKey := "ExpectedApiKeyToStartTelegramBot"
  const BotIdAsCode := "ExpectedConnectCodeFromConnectCommandNotBotId"
  const NoLogger := "ExpectedLoggerToStartTelegramBot"
  const NoNodes := "ExpectedArrayOfSavedNodesToStartTelegramBot"
  const NoRequest := "ExpectedRequestMethodToStartTelegramBot"
  const NoConnectCode := "ExpectedConnectCodeToStartTelegramBot"
  const FailedToGetNodeInfo := "FailedToGetNodeInfo"

  const NotNumeric := "Expected numeric connect code from /connect command"
  const BotIdNotCode := "Expected /connect code, not bot id from API key"

  /** The arguments, reduced to what the checks look at: `coreLns` is
      `None` when it is not an array. */
  datatype StartArgs = StartArgs(
    hasAsk: bool, coreLns: Option<seq<Ln>>, key: string, id: Id,
    hasLogger: bool, nodesIsArray: bool, hasRequest: bool)

  /** The API key starts with `${id}:`, the bot's own id. */
  predicate IsBotId(key: string, id: Id) {
    StartsWith(key, Render(id) + ":")
  }

  function Validate(a: StartArgs): (r: Result<Unit>)
    ensures r.Ok? <==> (a.hasAsk && a.coreLns.Some? && |a.coreLns.value| > 0 && a.key != ""
      && !(Truthy(a.id) && IsBotId(a.key, a.id)) && a.hasLogger && a.nodesIsArray && a.hasRequest)
    ensures !a.hasAsk ==> r == Err(BadRequest(NoAsk))
    ensures a.hasAsk && (a.coreLns.None? || a.coreLns.value == []) ==> r == Err(BadRequest(NoCoreLns))
    ensures a.hasAsk && a.coreLns.Some? && a.coreLns.value != [] && a.key == "" ==> r == Err(BadRequest(NoKey))
    ensures (a.hasAsk && a.coreLns.Some? && a.coreLns.value != [] && a.key != "" && Truthy(a.id)
      && IsBotId(a.key, a.id)) ==> r == Err(BadRequest(BotIdAsCode))
    ensures (a.hasAsk && a.coreLns.Some? && a.coreLns.value != [] && a.key != ""
      && !(Truthy(a.id) && IsBotId(a.key, a.id))) ==>
      && (!a.hasLogger ==> r == Err(BadRequest(NoLogger)))
      && (a.hasLogger && !a.nodesIsArray ==> r == Err(BadRequest(NoNodes)))
      && (a.hasLogger && a.nodesIsArray && !a.hasRequest ==> r == Err(BadRequest(NoRequest)))
    ensures r.Err? ==> r.error in {BadRequest(NoAsk), BadRequest(NoCoreLns), BadRequest(NoKey),
      BadRequest(BotIdAsCode), BadRequest(NoLogger), BadRequest(NoNodes), BadRequest(NoRequest)}
  {
    if !a.hasAsk then Err(BadRequest(NoAsk))
    else if a.coreLns.None? || |a.coreLns.value| == 0 then Err(BadRequest(NoCoreLns))
    else if a.key == "" then Err(BadRequest(NoKey))
    else if Truthy(a.id) && IsBotId(a.key, a.id) then Err(BadRequest(BotIdAsCode))
    else if !a.hasLogger then Err(BadRequest(NoLogger))
    else if !a.nodesIsArray then Err(BadRequest(NoNodes))
    else if !a.hasRequest then Err(BadRequest(NoRequest))
    else Ok(Unit)
  }

  // ---------------------------------------------------------------------
  // The connect code

  /** `!isNaN(input)`, restricted to plain decimal numerals. */
  predicate IsNumeric(s: string) {
    s != "" && AllDigits(s)
  }

  /** `Number(code)` */
  function ToNumber(s: string): (r: Id)
    ensures IsNumeric(s) ==> r == Num(DecimalValue(s))
    ensures !IsNumeric(s) ==> r == NaN
  {
    if IsNumeric(s) then Num(DecimalValue(s)) else NaN
  }

  /** The `validate` of the connect-code prompt. */
  function CodeVerdict(key: string, input: string): (r: Verdict)
    ensures r == Refuse <==> input == ""
    ensures r == Explain(NotNumeric) <==> input != "" && !IsNumeric(input)
    ensures r == Explain(BotIdNotCode) <==> IsNumeric(input) && StartsWith(key, input + ":")
    ensures r == Accept <==> IsNumeric(input) && !StartsWith(key, input + ":")
  {
    if input == "" then Refuse
    else if !IsNumeric(input) then Explain(NotNumeric)
    else if StartsWith(key, input + ":") then Explain(BotIdNotCode)
    else Accept
  }

  /** A code the prompt accepts, written as `${n}` writes its number, gives
      an id that the argument check of the next start accepts. */
  lemma AcceptedCodePassesIdCheck(key: string, code: string)
    requires CodeVerdict(key, code) == Accept && Canonical(code)
    ensures !IsBotId(key, ToNumber(code))
  {
    CanonicalRoundTrip(code);
  }

  /** The prompt accepts `0` (unless the key starts with `0:`), but the id
      it gives is falsy, so every private command is then refused. */
  lemma ZeroCodeLocksOut(key: string, from: Id)
    requires !StartsWith(key, "0:")
    ensures CodeVerdict(key, "0") == Accept
    ensures ToNumber("0") == Num(0) && CheckAccess(from, ToNumber("0")).Err?
  {
    assert "0" + ":" == "0:";
  }

  // ---------------------------------------------------------------------
  // Node identities

  /** `fromName`: the alias and the first eight characters of the key. */
  function FromName(alias: string, public_key: string): (r: string)
    ensures r == alias + " " + Prefix(public_key, 8)
    ensures |r| == |alias| + 1 + (if |public_key| < 8 then |public_key| else 8)
  {
    alias + " " + Prefix(public_key, 8)
  }

  predicate Removed(c: char) {
    c == '*' || c == '~' || c == '`'
  }

  /** `(n || '').replace(/_/g, '\\_').replace(/[*~`]/g, '')`; the empty
      text is the only falsy one. */
  function Sanitize(s: string): (r: string)
    ensures forall i :: 0 <= i < |r| ==> !Removed(r[i])
    ensures forall i :: 0 < i < |r| && r[i] == '_' ==> r[i - 1] == '\\'
    ensures |r| > 0 ==> r[0] != '_'
  {
    if |s| == 0 then ""
    else
      var head := if s[0] == '_' then "\\_" else if Removed(s[0]) then "" else [s[0]];
      var rest := Sanitize(s[1..]);
      assert forall i :: 0 <= i < |rest| ==> (head + rest)[|head| + i] == rest[i];
      head + rest
  }

  /** Sanitizing works character by character. */
  lemma {:induction false} SanitizeAppend(a: string, b: string)
    ensures Sanitize(a + b) == Sanitize(a) + Sanitize(b)
  {
    if |a| == 0 {
      assert a + b == b;
    } else {
      assert (a + b)[0] == a[0];
      assert (a + b)[1..] == a[1..] + b;
      SanitizeAppend(a[1..], b);
    }
  }

  /** A name with none of the four characters is kept as it is. */
  lemma {:induction false} SanitizePlain(s: string)
    requires forall i :: 0 <= i < |s| ==> s[i] != '_' && !Removed(s[i])
    ensures Sanitize(s) == s
  {
    if |s| > 0 {
      SanitizePlain(s[1..]);
      assert s == [s[0]] + s[1..];
    }
  }

  /** What the bot keeps of a node: its session, alias, display name and key. */
  function Entry(ln: Ln, info: NodeInfo): NodeEntry {
    NodeEntry(ln, info.alias, Sanitize(FromName(info.alias, info.id)), info.id)
  }

  /** One session's part of `getNodes`: its entry, or `FailedToGetNodeInfo`
      when `getinfo` fails or comes back empty. */
  function NodeLookup(net: Network, ln: Ln): (o: Outcome<NodeEntry>)
    ensures o.effects == GetInfo(ln, net).effects
    ensures o.result.Ok? <==> GetInfo(ln, net).result.Ok? && GetInfo(ln, net).result.value.Some?
    ensures o.result.Ok? ==> o.result.value == Entry(ln, GetInfo(ln, net).result.value.value)
    ensures o.result.Err? ==> o.result.error == Thrown(FailedToGetNodeInfo)
  {
    var info := GetInfo(ln, net);
    Outcome(info.effects, match info.result
      case Ok(Some(i)) => Ok(Entry(ln, i))
      case _ => Err(Thrown(FailedToGetNodeInfo)))
  }

  function Lookups(net: Network, lns: seq<Ln>): (r: seq<Outcome<NodeEntry>>)
    ensures |r| == |lns| && forall i :: 0 <= i < |lns| ==> r[i] == NodeLookup(net, lns[i])
  {
    seq(|lns|, i requires 0 <= i < |lns| => NodeLookup(net, lns[i]))
  }

  /** `getNodes`: every session is asked for `getinfo`; any failure, an
      empty answer included, becomes `FailedToGetNodeInfo`. */
  function GetNodes(net: Network, lns: seq<Ln>): (o: Outcome<seq<NodeEntry>>)
    ensures o.result.Ok? <==> forall i :: 0 <= i < |lns| ==>
      GetInfo(lns[i], net).result.Ok? && GetInfo(lns[i], net).result.value.Some?
    ensures o.result.Ok? ==> |o.result.value| == |lns| && forall i :: 0 <= i < |lns| ==>
      o.result.value[i] == Entry(lns[i], GetInfo(lns[i], net).result.value.value)
    ensures o.result.Err? ==> o.result.error == Thrown(FailedToGetNodeInfo)
    ensures |lns| == 0 ==> o.effects == []
    ensures |lns| > 0 ==> o.effects == GetInfo(lns[0], net).effects + GetNodes(net, lns[1..]).effects
  {
    var outs := Lookups(net, lns);
    assert |lns| > 0 ==> outs[1..] == Lookups(net, lns[1..]);
    Collected(outs)
  }

  // ---------------------------------------------------------------------
  // The start

  /** A node as it is announced: alias and key. */
  datatype NodeRef = NodeRef(alias: string, id: string)

  function Refs(nodes: seq<NodeEntry>): (r: seq<NodeRef>)
    ensures |r| == |nodes| && forall i :: 0 <= i < |nodes| ==> r[i] == NodeRef(nodes[i].alias, nodes[i].public_key)
  {
    if |nodes| == 0 then [] else [NodeRef(nodes[0].alias, nodes[0].public_key)] + Refs(nodes[1..])
  }

  /** What a start does, in order. */
  datatype Step =
    | NodeRpc(effect: Effect)
    | SetCommands                           // the command menu
    | InitBot                               // error hook, handlers, `bot.start()`
    | AskCode                               // the connect-code prompt
    | PostOnline(to: Id, nodes: seq<NodeRef>)

  function NodeRpcs(effects: seq<Effect>): (r: seq<Step>)
    ensures |r| == |effects| && forall i :: 0 <= i < |effects| ==> r[i] == NodeRpc(effects[i])
  {
    if |effects| == 0 then [] else [NodeRpc(effects[0])] + NodeRpcs(effects[1..])
  }

  /** The trace, whether the handlers are registered afterwards, and the
      settled `{connected, failure}`. */
  datatype Started = Started(steps: seq<Step>, botInit: bool, connected: Id, failure: Option<Failure>)

  /** The connect-code step: the id given, or the one typed in. */
  function UserId(id: Id, code: string): (r: Result<Id>)
    ensures Truthy(id) ==> r == Ok(id)
    ensures !Truthy(id) && code == "" ==> r == Err(BadRequest(NoConnectCode))
    ensures !Truthy(id) && code != "" ==> r == Ok(ToNumber(code))
  {
    if Truthy(id) then Ok(id)
    else if code == "" then Err(BadRequest(NoConnectCode))
    else Ok(ToNumber(code))
  }

  /** What follows `getNodes` once every node answered: register the
      handlers unless done before, ask for the code unless an id is given,
      then announce the nodes to the connected user. */
  function Proceed(started: seq<Step>, botInit: bool, id: Id, entries: seq<NodeEntry>, code: string,
                   online: Result<Unit>): (s: Started)
    requires InitBot !in started && AskCode !in started
    ensures s.botInit
    ensures InitBot in s.steps <==> !botInit
    ensures AskCode in s.steps ==> !Truthy(id)
    ensures |started| <= |s.steps| && s.steps[..|started|] == started
    ensures s.connected == id || (!Truthy(id) && code != "" && s.connected == ToNumber(code))
    ensures s.failure.None? <==> UserId(id, code).Ok? && online.Ok?
    ensures UserId(id, code).Err? ==> s.failure == Some(BadRequest(NoConnectCode)) && s.connected == id
    ensures s.failure.None? ==> |s.steps| > 0 && s.steps[|s.steps| - 1] == PostOnline(s.connected, Refs(entries))
  {
    var init := if botInit then [] else [InitBot];
    var ask := if Truthy(id) then [] else [AskCode];
    var before := started + init + ask;
    assert InitBot in before <==> !botInit;
    assert AskCode in before ==> !Truthy(id);
    match UserId(id, code)
    case Err(e) => Started(before, true, id, Some(e))
    case Ok(connected) =>
      Started(before + [PostOnline(connected, Refs(entries))], true, connected,
              match online case Ok(_) => None case Err(e) => Some(e))
  }

  /** Everything after the argument check, on the sessions `lns`. */
  function Launch(net: Network, botInit: bool, id: Id, lns: seq<Ln>, code: string, online: Result<Unit>)
    : (s: Started)
    ensures s.botInit <==> botInit || GetNodes(net, lns).result.Ok?
    ensures InitBot in s.steps <==> !botInit && GetNodes(net, lns).result.Ok?
    ensures AskCode in s.steps ==> !Truthy(id)
    ensures s.connected == id || (!Truthy(id) && code != "" && s.connected == ToNumber(code))
    ensures Truthy(id) ==> s.connected == id
    ensures s.failure.None? <==> GetNodes(net, lns).result.Ok? && UserId(id, code).Ok? && online.Ok?
    ensures GetNodes(net, lns).result.Err? ==> s.failure == Some(Thrown(FailedToGetNodeInfo))
    ensures GetNodes(net, lns).result.Ok? && UserId(id, code).Err? ==>
      s.failure == Some(BadRequest(NoConnectCode)) && s.connected == id
    ensures s.failure.None? ==>
      |s.steps| > 0 && s.steps[|s.steps| - 1] == PostOnline(s.connected, Refs(GetNodes(net, lns).result.value))
  {
    var nodes := GetNodes(net, lns);
    var started := NodeRpcs(nodes.effects) + [SetCommands];
    SessionStepsOnly(nodes.effects);
    match nodes.result
    case Err(e) => Started(started, botInit, id, Some(e))
    case Ok(entries) => Proceed(started, botInit, id, entries, code, online)
  }

  /** The steps before the handlers are set up are session calls and the
      command menu. */
  lemma SessionStepsOnly(effects: seq<Effect>)
    ensures InitBot !in NodeRpcs(effects) + [SetCommands] && AskCode !in NodeRpcs(effects) + [SetCommands]
  {
    var steps := NodeRpcs(effects) + [SetCommands];
    assert forall i :: 0 <= i < |steps| ==> steps[i].NodeRpc? || steps[i] == SetCommands;
  }

  /** `startTelegramBot(args)` with the handlers registered (`botInit`) or
      not yet; `code` is the answer to the connect-code prompt and
      `online` how the announcement settles. */
  function Start(net: Network, botInit: bool, a: StartArgs, code: string, online: Result<Unit>): (s: Started)
    ensures Validate(a).Err? ==> s == Started([], botInit, a.id, Some(Validate(a).error))
    ensures Validate(a).Ok? ==> s == Launch(net, botInit, a.id, a.coreLns.value, code, online)
    ensures s.botInit <==> botInit || (Validate(a).Ok? && GetNodes(net, a.coreLns.value).result.Ok?)
    ensures InitBot in s.steps <==>
      !botInit && Validate(a).Ok? && GetNodes(net, a.coreLns.value).result.Ok?
    ensures s.failure.None? <==> (Validate(a).Ok? && GetNodes(net, a.coreLns.value).result.Ok?
      && UserId(a.id, code).Ok? && online.Ok?)
    ensures s.connected == a.id || (!Truthy(a.id) && code != "" && s.connected == ToNumber(code))
  {
    match Validate(a)
    case Err(e) => Started([], botInit, a.id, Some(e))
    case Ok(_) => Launch(net, botInit, a.id, a.coreLns.value, code, online)
  }

  /** Handlers are registered at most once per process: a start after one
      that registered them registers nothing. */
  lemma RegisteredOnce(net: Network, botInit: bool, a1: StartArgs, code1: string, online1: Result<Unit>,
                       a2: StartArgs, code2: string, online2: Result<Unit>)
    requires InitBot in Start(net, botInit, a1, code1, online1).steps
    ensures InitBot !in Start(net, Start(net, botInit, a1, code1, online1).botInit, a2, code2, online2).steps
  {
  }

  /** When an id is given the prompt is not shown and the id is kept, even
      if the start fails later. */
  lemma GivenIdNotAsked(net: Network, botInit: bool, a: StartArgs, code: string, online: Result<Unit>)
    requires Truthy(a.id)
    ensures AskCode !in Start(net, botInit, a, code, online).steps
    ensures Start(net, botInit, a, code, online).connected == a.id
  {
  }

  /** Each node's display name is its sanitized alias followed by a space and
      the sanitized start of its key. */
  lemma DisplayName(ln: Ln, info: NodeInfo)
    ensures Entry(ln, info).from == Sanitize(info.alias) + " " + Sanitize(Prefix(info.id, 8))
  {
    SanitizeAroundSpace(info.alias, Prefix(info.id, 8));
  }

  lemma SanitizeAroundSpace(a: string, b: string)
    ensures Sanitize(a + " " + b) == Sanitize(a) + " " + Sanitize(b)
  {
    var sp := " ";
    SanitizePlain(sp);
    calc {
      Sanitize(a + sp + b);
      { assert a + sp + b == a + (sp + b); }
      Sanitize(a + (sp + b));
      { SanitizeAppend(a, sp + b); }
      Sanitize(a) + Sanitize(sp + b);
      { SanitizeAppend(sp, b); }
      Sanitize(a) + (sp + Sanitize(b));
      Sanitize(a) + sp + Sanitize(b);
    }
  }
}
