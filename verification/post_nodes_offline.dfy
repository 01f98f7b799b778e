/** `postNodesOffline`: tell the connected user which nodes the bot lost its
    connection to, as one italic MarkdownV2 message. */
module PostNodesOffline {
  import opened Wrappers
  import opened Text
  import opened Markdown
  import opened Telegram

  const NoBot := "ExpectedTelegramBotToPostNodesOffline"
  const NoOffline := "ExpectedArrayOfOfflineNodesToPostNodesOffline"

  /** A node that went offline: its alias and its public key. */
  datatype OfflineNode = OfflineNode(alias: string, id: string)

  /** The sends made and how the call settles: with the message, with
      nothing when there was none to send, or with the send's rejection. */
  datatype Posted = Posted(actions: seq<Action>, result: Result<Option<string>>)

  /** `${alias} ${shortId(id)}`.trim(): the alias and the first eight
      characters of the key. */
  function Label(node: OfflineNode): (r: string)
    ensures r == [] || (!IsSpace(r[0]) && !IsSpace(r[|r| - 1]))
  {
    var text := node.alias + " " + Prefix(node.id, 8);
    Trim(text)
  }

  function Labels(offline: seq<OfflineNode>): (r: seq<string>)
    ensures |r| == |offline| && forall i :: 0 <= i < |offline| ==> r[i] == Label(offline[i])
  {
    seq(|offline|, i requires 0 <= i < |offline| => Label(offline[i]))
  }

  /** The two sentences of the notice, before escaping. */
  function Event(c: Constants): string {
    c.disconnectedIcon + " Lost connection!"
  }

  /** `Cannot connect to ${aliases}.`, the array rendered with commas. */
  function Details(offline: seq<OfflineNode>): string {
    "Cannot connect to " + JoinWith(Labels(offline), ",") + "."
  }

  /** The notice, or none when there is nobody to tell or nothing to say. */
  function Message(c: Constants, connected: Id, offline: seq<OfflineNode>): (r: Option<string>)
    ensures r.Some? <==> Truthy(connected) && |offline| > 0
    ensures r.Some? ==> r.value == "_" + Escape(Event(c) + " " + Details(offline)) + "_"
  {
    if !Truthy(connected) || |offline| == 0 then None
    else
      ItalicsAroundSpace(Event(c), Details(offline));
      Some("_" + Escape(Event(c)) + " " + Escape(Details(offline)) + "_")
  }

  /** A space needs no escape, so two texts joined by one escape apart. */
  lemma EscapeAroundSpace(a: string, b: string)
    ensures Escape(a + " " + b) == Escape(a) + " " + Escape(b)
  {
    var sp := " ";
    EscapePlain(sp);
    calc {
      Escape(a + sp + b);
      { assert a + sp + b == a + (sp + b); }
      Escape(a + (sp + b));
      { EscapeAppend(a, sp + b); }
      Escape(a) + Escape(sp + b);
      { EscapeAppend(sp, b); }
      Escape(a) + (sp + Escape(b));
      Escape(a) + sp + Escape(b);
    }
  }

  /** The italic notice is the escape of the whole sentence pair. */
  lemma ItalicsAroundSpace(a: string, b: string)
    ensures "_" + Escape(a) + " " + Escape(b) + "_" == "_" + Escape(a + " " + b) + "_"
  {
    EscapeAroundSpace(a, b);
    Regrouped(Escape(a), Escape(b));
  }

  lemma Regrouped(x: string, y: string)
    ensures "_" + x + " " + y + "_" == "_" + (x + " " + y) + "_"
  {
    assert "_" + x + " " + y == "_" + (x + " " + y);
  }

  /** `postNodesOffline({bot, connected, offline})`; `offline` is `None`
      when it is not an array, and `sent` is how the awaited `sendMessage`
      settles. */
  function PostNodesOffline(c: Constants, hasBot: bool, connected: Id, offline: Option<seq<OfflineNode>>,
                            sent: Result<Unit>): (p: Posted)
    ensures !hasBot ==> p == Posted([], Err(BadRequest(NoBot)))
    ensures hasBot && offline.None? ==> p == Posted([], Err(BadRequest(NoOffline)))
    ensures hasBot && offline.Some? && Message(c, connected, offline.value).None? ==> p == Posted([], Ok(None))
    ensures hasBot && offline.Some? && Message(c, connected, offline.value).Some? ==>
      var text := Message(c, connected, offline.value).value;
      && p.actions == [SendMessage(connected, text, MarkdownV2)]
      && (p.result.Ok? <==> sent.Ok?)
      && (p.result.Ok? ==> p.result.value == Some(text))
      && (p.result.Err? ==> p.result.error == sent.error)
  {
    if !hasBot then Posted([], Err(BadRequest(NoBot)))
    else if offline.None? then Posted([], Err(BadRequest(NoOffline)))
    else
      match Message(c, connected, offline.value)
      case None => Posted([], Ok(None))
      case Some(text) =>
        Posted([SendMessage(connected, text, MarkdownV2)], if sent.Ok? then Ok(Some(text)) else Err(sent.error))
  }

  /** Inside the italics the notice reads, once Telegram drops the escapes,
      as the plain event and details. */
  lemma MessageReadsBack(c: Constants, connected: Id, offline: seq<OfflineNode>)
    requires Message(c, connected, offline).Some?
    ensures var m := Message(c, connected, offline).value;
      && |m| >= 2 && m[0] == '_' && m[|m| - 1] == '_'
      && WellEscaped(m[1..|m| - 1])
      && Unescape(m[1..|m| - 1]) == Event(c) + " " + Details(offline)
  {
    var m := Message(c, connected, offline).value;
    assert m[1..|m| - 1] == Escape(Event(c) + " " + Details(offline));
  }

  /** One node: the details name just that node's label. */
  lemma OneNodeDetails(node: OfflineNode)
    ensures Details([node]) == "Cannot connect to " + Label(node) + "."
  {
  }

  /** A node's label starts with its alias when the alias has no surrounding
      white space and the key is not empty. */
  lemma {:induction false} LabelShowsAlias(node: OfflineNode)
    requires node.alias != [] && !IsSpace(node.alias[0]) && !IsSpace(node.alias[|node.alias| - 1])
    requires node.id != [] && !IsSpace(node.id[|Prefix(node.id, 8)| - 1])
    ensures Label(node) == node.alias + " " + Prefix(node.id, 8)
  {
    var s := node.alias + " " + Prefix(node.id, 8);
    assert s[0] == node.alias[0];
    assert s[|s| - 1] == Prefix(node.id, 8)[|Prefix(node.id, 8)| - 1] == node.id[|Prefix(node.id, 8)| - 1];
    TrimKeeps(s);
  }
}
