/** `handleInfoCommand`: for the connected user, remove the `/info` message
    and reply with one summary block per node (alias, version, key, active
    channels). The access check fails synchronously, before the removal is
    started, so an unauthorized sender's message stays. */
module InfoCommand {
  import opened Wrappers
  import opened Text
  import opened Markdown
  import opened LnSession
  import opened Telegram
  import opened Access

  const NoSender := "ExpectedFromUserIdNumberForInfoCommand"
  const NoNodes := "ExpectedArrayOfNodesForInfoCommand"
  const NoRemove := "ExpectedRemoveFunctionForInfoCommand"
  const NoReply := "ExpectedReplyFunctionForInfoCommand"

  /** Reading a member of an empty `getinfo` result. */
  const UndefinedAccess := "TypeError: Cannot read properties of undefined"

  function Channels(active: int): (r: string)
    ensures r == "active channel" <==> active == 1
  {
    if active == 1 then "active channel" else "active channels"
  }

  /** The block of one node: four lines, the last one empty. */
  function NodeSummary(c: Constants, node: NodeInfo): string {
    JoinWith([
      AliasLine(c, node),
      "`" + node.id + "`",
      Escape(IntToDecimal(node.num_active_channels) + " " + Channels(node.num_active_channels)),
      ""], "\n")
  }

  function Summaries(c: Constants, infos: seq<NodeInfo>): (r: seq<string>)
    ensures |r| == |infos| && forall i :: 0 <= i < |infos| ==> r[i] == NodeSummary(c, infos[i])
  {
    if |infos| == 0 then [] else [NodeSummary(c, infos[0])] + Summaries(c, infos[1..])
  }

  /** Some node's `getinfo` call failed. */
  predicate RpcFailed(net: Network, nodes: seq<NodeEntry>) {
    exists i :: 0 <= i < |nodes| && GetInfo(nodes[i].ln, net).result.Err?
  }

  /** `map(nodes, ({ln}) => getInfo({ln}))`: one call per node, all made. */
  function Asks(net: Network, nodes: seq<NodeEntry>): (r: seq<Outcome<Option<NodeInfo>>>)
    ensures |r| == |nodes| && forall i :: 0 <= i < |nodes| ==> r[i] == GetInfo(nodes[i].ln, net)
  {
    seq(|nodes|, i requires 0 <= i < |nodes| => GetInfo(nodes[i].ln, net))
  }

  /** The member reads of the `summary` step: every answer, or the
      `TypeError` of reading a member of an empty one. */
  function Summed(answers: seq<Option<NodeInfo>>): (r: Result<seq<NodeInfo>>)
    ensures r.Ok? <==> forall i :: 0 <= i < |answers| ==> answers[i].Some?
    ensures r.Ok? ==> |r.value| == |answers| && forall i :: 0 <= i < |answers| ==> answers[i] == Some(r.value[i])
    ensures r.Err? ==> r.error == Thrown(UndefinedAccess)
  {
    if |answers| == 0 then Ok([])
    else
      var rest := Summed(answers[1..]);
      assert forall i :: 1 <= i < |answers| ==> answers[i] == answers[1..][i - 1];
      if answers[0].None? then Err(Thrown(UndefinedAccess))
      else if rest.Err? then rest
      else Ok([answers[0].value] + rest.value)
  }

  /** The `getInfo` step, then the member reads of `summary`: every node is
      asked; a failed call fails the whole, the first in list order when
      several fail; only when every call answered does an empty answer
      fail, with the `TypeError` of reading its members. */
  function GetInfos(net: Network, nodes: seq<NodeEntry>): (o: Outcome<seq<NodeInfo>>)
    ensures o.effects == Collected(Asks(net, nodes)).effects
    ensures o.result.Ok? ==> (|o.result.value| == |nodes|
      && forall i :: 0 <= i < |nodes| ==> GetInfo(nodes[i].ln, net).result == Ok(Some(o.result.value[i])))
    ensures o.result.Ok? <==> forall i :: 0 <= i < |nodes| ==>
      GetInfo(nodes[i].ln, net).result.Ok? && GetInfo(nodes[i].ln, net).result.value.Some?
    ensures (exists i :: 0 <= i < |nodes| && GetInfo(nodes[i].ln, net).result.Err?) ==>
      o.result.Err? && exists i :: (0 <= i < |nodes|
        && GetInfo(nodes[i].ln, net).result == Err(o.result.error)
        && forall j :: 0 <= j < i ==> GetInfo(nodes[j].ln, net).result.Ok?)
    ensures (forall i :: 0 <= i < |nodes| ==> GetInfo(nodes[i].ln, net).result.Ok?) && o.result.Err? ==>
      o.result.error == Thrown(UndefinedAccess)
  {
    var all := Collected(Asks(net, nodes));
    Outcome(all.effects, if all.result.Err? then Err(all.result.error) else Summed(all.result.value))
  }

  predicate Complete(from: Id, nodes: Option<seq<NodeEntry>>, hasRemove: bool, hasReply: bool) {
    Truthy(from) && nodes.Some? && hasRemove && hasReply
  }

  /** `handleInfoCommand({from, id, nodes, remove, reply})`; `nodes` is
      `None` when it is not an array. */
  function HandleInfo(c: Constants, net: Network, from: Id, id: Id, nodes: Option<seq<NodeEntry>>,
                      hasRemove: bool, hasReply: bool): (h: Handled)
    ensures !Truthy(from) ==> h == Handled([], Err(BadRequest(NoSender)))
    ensures Truthy(from) && nodes.None? ==> h == Handled([], Err(BadRequest(NoNodes)))
    ensures (Truthy(from) && nodes.Some? && !hasRemove) ==> h == Handled([], Err(BadRequest(NoRemove)))
    ensures Complete(from, nodes, hasRemove, hasReply) && CheckAccess(from, id).Err? ==>
      h == Handled([], CheckAccess(from, id))
    ensures Complete(from, nodes, hasRemove, hasReply) && CheckAccess(from, id).Ok? ==>
      |h.actions| > 0 && h.actions[0] == RemoveCommand
    ensures h.result.Ok? ==> (Complete(from, nodes, hasRemove, hasReply) && CheckAccess(from, id).Ok?
      && GetInfos(net, nodes.value).result.Ok?
      && h.actions == [RemoveCommand] + Rpcs(GetInfos(net, nodes.value).effects)
                      + [Reply(JoinWith(Summaries(c, GetInfos(net, nodes.value).result.value), "\n"),
                               Options(MarkdownV2, []))])
    ensures (Complete(from, nodes, hasRemove, hasReply) && CheckAccess(from, id).Ok?
      && GetInfos(net, nodes.value).result.Ok?) ==> h.result.Ok?
  {
    if !Truthy(from) then Handled([], Err(BadRequest(NoSender)))
    else if nodes.None? then Handled([], Err(BadRequest(NoNodes)))
    else if !hasRemove then Handled([], Err(BadRequest(NoRemove)))
    else if !hasReply then Handled([], Err(BadRequest(NoReply)))
    else match CheckAccess(from, id)
      case Err(e) => Handled([], Err(e))
      case Ok(_) =>
        var infos := GetInfos(net, nodes.value);
        match infos.result
        case Err(e) => Handled([RemoveCommand] + Rpcs(infos.effects), Err(e))
        case Ok(values) =>
          var summary := JoinWith(Summaries(c, values), "\n");
          Handled([RemoveCommand] + Rpcs(infos.effects) + [Reply(summary, Options(MarkdownV2, []))], Ok(Unit))
  }

  /** The first line of a node's block. */
  function AliasLine(c: Constants, node: NodeInfo): string {
    c.infoIcon + " Info: " + Escape(node.alias) + " running " + Escape(node.version)
  }

  /** Escaping the alias and the version piece by piece escapes the whole
      line (the icon and the fixed words hold no special character), so the
      line unescapes to the plain text: nothing of the alias is lost. */
  lemma AliasLineReadsBack(c: Constants, node: NodeInfo)
    requires forall i :: 0 <= i < |c.infoIcon| ==> !IsSpecial(c.infoIcon[i])
    ensures AliasLine(c, node) == Escape(c.infoIcon + " Info: " + node.alias + " running " + node.version)
    ensures Unescape(AliasLine(c, node)) == c.infoIcon + " Info: " + node.alias + " running " + node.version
  {
    InfoWordPlain();
    RunningWordPlain();
    EscapePlain(c.infoIcon);
    EscapeAppend(c.infoIcon, " Info: ");
    EscapeJoined(c.infoIcon + " Info: ", node.alias, " running ", node.version);
  }

  lemma InfoWordPlain()
    ensures Escape(" Info: ") == " Info: "
  {
    var w := " Info: ";
    assert forall i :: 0 <= i < |w| ==> !IsSpecial(w[i]);
    EscapePlain(w);
  }

  lemma RunningWordPlain()
    ensures Escape(" running ") == " running "
  {
    var w := " running ";
    assert forall i :: 0 <= i < |w| ==> !IsSpecial(w[i]);
    EscapePlain(w);
  }

  lemma EscapeJoined(a: string, b: string, m: string, d: string)
    ensures Escape(a + b + m + d) == Escape(a) + Escape(b) + Escape(m) + Escape(d)
  {
    EscapeAppend(a, b);
    EscapeAppend(a + b, m);
    EscapeAppend(a + b + m, d);
  }

  /** Nothing happens in the chat or on the nodes unless the sender is the
      connected user. */
  lemma UnauthorizedLeavesChatAlone(c: Constants, net: Network, from: Id, id: Id, nodes: seq<NodeEntry>)
    requires CheckAccess(from, id).Err?
    ensures HandleInfo(c, net, from, id, Some(nodes), true, true).actions == []
  {
  }
}
