/** A session with a node over LNSocket: `authenticatedLn` opens one from the
    saved credentials, and the RPC wrappers of `methods.js` run commando
    calls on it, destroying the session when a call comes back with an error.

    The LNSocket library itself is not part of this model. The network is a
    parameter: which peers accept the handshake, and what `getinfo` answers.
    What the program does to a session is recorded as a trace of effects.
 */
module LnSession {
  import opened Wrappers
  import opened FileSystem
  import opened Json
  import opened CredentialStore
  import opened LnSocketCredentials

  /** The node a session is connected to: the arguments of `connect_and_init`. */
  datatype Peer = Peer(public_key: Json, socket: Json)

  /** `{ln: {destroy, rune, api}}` */
  datatype Ln = Ln(api: Peer, rune: Json)

  /** What `getinfo` reports of a node. */
  datatype NodeInfo = NodeInfo(alias: string, id: string, version: string, num_active_channels: int)

  /** The reply of a commando call: `{error}` or `{result}`. */
  datatype RpcOutput<T> = RpcError(message: string) | RpcResult(result: T)

  /** The network: the peers whose handshake succeeds, and each peer's answer
      to `getinfo` (`None` stands for an empty result). */
  datatype Network = Network(reachable: set<Peer>, getinfo: Peer -> RpcOutput<Option<NodeInfo>>)

  datatype Effect =
    | Connect(peer: Peer)
    | Call(peer: Peer, command: string, params: Option<Json>, rune: Json)
    | Destroy(peer: Peer)

  /** What an operation did to sessions, and how it ended. */
  datatype Outcome<T> = Outcome(effects: seq<Effect>, result: Result<T>)

  /** `r` is what `async.map` reports for the outcomes `outs`: every value
      at its position, or else the failure of the first call in list order
      that failed. */
  predicate Gathered<T(==)>(outs: seq<Outcome<T>>, r: Result<seq<T>>) {
    && (r.Ok? <==> forall i :: 0 <= i < |outs| ==> outs[i].result.Ok?)
    && (r.Ok? ==> (|r.value| == |outs| && forall i :: 0 <= i < |outs| ==> r.value[i] == outs[i].result.value))
    && (r.Err? ==> exists i :: (0 <= i < |outs| && outs[i].result == Err(r.error)
          && forall j :: 0 <= j < i ==> outs[j].result.Ok?))
  }

  /** Putting one more outcome in front keeps the report gathered. */
  lemma {:induction false} GatheredCons<T>(outs: seq<Outcome<T>>, rest: Result<seq<T>>, r: Result<seq<T>>)
    requires |outs| > 0 && Gathered(outs[1..], rest)
    requires r == (if outs[0].result.Err? then Err(outs[0].result.error)
      else if rest.Err? then Err(rest.error)
      else Ok([outs[0].result.value] + rest.value))
    ensures Gathered(outs, r)
  {
    var tail := outs[1..];
    assert forall i :: 1 <= i < |outs| ==> outs[i] == tail[i - 1];
    if outs[0].result.Err? {
      assert outs[0].result == Err(r.error);
    } else if rest.Err? {
      var k :| 0 <= k < |tail| && tail[k].result == Err(rest.error)
        && forall j :: 0 <= j < k ==> tail[j].result.Ok?;
      assert outs[k + 1].result == Err(r.error);
      assert forall j :: 0 <= j < k + 1 ==> outs[j].result.Ok?;
    } else {
      assert forall i :: 0 <= i < |outs| ==> outs[i].result.Ok?;
    }
  }

  /** The outcomes of calls all made, one per element, gathered as
      `async.map` gathers them: every effect in call order, and every value,
      or else the failure of the first call in list order that failed. */
  function Collected<T(==)>(outs: seq<Outcome<T>>): (o: Outcome<seq<T>>)
    ensures o.result.Ok? <==> forall i :: 0 <= i < |outs| ==> outs[i].result.Ok?
    ensures o.result.Ok? ==> (|o.result.value| == |outs|
      && forall i :: 0 <= i < |outs| ==> o.result.value[i] == outs[i].result.value)
    ensures o.result.Err? ==> exists i :: (0 <= i < |outs| && outs[i].result == Err(o.result.error)
      && forall j :: 0 <= j < i ==> outs[j].result.Ok?)
    ensures |outs| == 0 ==> o.effects == []
    ensures |outs| > 0 ==> o.effects == outs[0].effects + Collected(outs[1..]).effects
  {
    if |outs| == 0 then Outcome([], Ok([]))
    else
      var rest := Collected(outs[1..]);
      var result :=
        if outs[0].result.Err? then Err(outs[0].result.error)
        else if rest.result.Err? then Err(rest.result.error)
        else Ok([outs[0].result.value] + rest.result.value);
      assert Gathered(outs[1..], rest.result);
      GatheredCons(outs, rest.result, result);
      Outcome(outs[0].effects + rest.effects, result)
  }

  const InvalidCredentials := "ExpectedValidCredentialsToGetAuthenticatedLn"
  const InvalidRune := "ExpectedValidCommandoRuneToGetAuthenticatedLn"
  const InvalidSocket := "ExpectedValidSocketToGetAuthenticatedLn"
  const HandshakeFailed := "lnsocket connect_and_init"

  /** A session is live until it is destroyed. */
  predicate Live(effects: seq<Effect>, peer: Peer) {
    Destroy(peer) !in effects
  }

  /** The guards `authenticatedLn` puts on the credentials it was given. */
  function CheckCredentials(credentials: Option<LnCredentials>): (r: Result<LnCredentials>)
    ensures r.Ok? <==> (credentials.Some? && Truthy(credentials.value.public_key)
      && Truthy(credentials.value.rune) && Truthy(credentials.value.socket))
    ensures r.Ok? ==> r.value == credentials.value
    ensures credentials.None? ==> r == Err(Thrown(InvalidCredentials))
  {
    if credentials.None? || !Truthy(credentials.value.public_key) then Err(Thrown(InvalidCredentials))
    else if !Truthy(credentials.value.rune) then Err(Thrown(InvalidRune))
    else if !Truthy(credentials.value.socket) then Err(Thrown(InvalidSocket))
    else Ok(credentials.value)
  }

  /** The reader only returns credentials that pass those guards, so
      `authenticatedLn` never throws them. */
  lemma StoredCredentialsPassChecks(env: Env, fs: Fs, node: string)
    requires GetLnSocketCredentials(env, fs, node).Ok?
    ensures CheckCredentials(Some(GetLnSocketCredentials(env, fs, node).value)).Ok?
  {
  }

  /** `authenticatedLn({node})`: read the credentials, check them, connect. */
  function AuthenticatedLn(env: Env, fs: Fs, net: Network, node: string): (o: Outcome<Ln>)
    ensures GetLnSocketCredentials(env, fs, node).Err? ==>
      o == Outcome([], Err(GetLnSocketCredentials(env, fs, node).error))
    ensures GetLnSocketCredentials(env, fs, node).Ok? ==>
      var c := GetLnSocketCredentials(env, fs, node).value;
      && o.effects == [Connect(Peer(c.public_key, c.socket))]
      && (o.result.Ok? <==> Peer(c.public_key, c.socket) in net.reachable)
      && (o.result.Ok? ==> o.result.value == Ln(Peer(c.public_key, c.socket), c.rune))
  {
    match GetLnSocketCredentials(env, fs, node)
    case Err(e) => Outcome([], Err(e))
    case Ok(read) =>
      match CheckCredentials(Some(read))
      case Err(e) => assert false; Outcome([], Err(e))
      case Ok(c) =>
        var peer := Peer(c.public_key, c.socket);
        Outcome([Connect(peer)], if peer in net.reachable then Ok(Ln(peer, c.rune)) else Err(Foreign(HandshakeFailed)))
  }

  /** What `methods.js` promises of one commando call: the call is made
      with the given params (`None` when they are `undefined`) and the
      session's rune; an error reply destroys the session and is
      thrown as its message; a result is returned as is and the session stays
      live. */
  predicate RpcBehaves<T(==)>(ln: Ln, command: string, params: Option<Json>, output: RpcOutput<T>, o: Outcome<T>) {
    && |o.effects| > 0 && o.effects[0] == Call(ln.api, command, params, ln.rune)
    && (o.result.Err? <==> output.RpcError?)
    && (o.result.Err? ==> o.result.error == Thrown(output.message) && !Live(o.effects, ln.api))
    && (o.result.Ok? ==> o.result.value == output.result && Live(o.effects, ln.api))
  }

  function Rpc<T(==)>(ln: Ln, command: string, params: Option<Json>, output: RpcOutput<T>): (o: Outcome<T>)
    ensures RpcBehaves(ln, command, params, output, o)
  {
    var call := Call(ln.api, command, params, ln.rune);
    match output
    case RpcError(message) => Outcome([call, Destroy(ln.api)], Err(Thrown(message)))
    case RpcResult(result) => Outcome([call], Ok(result))
  }

  /** `listFunds({ln, params})` */
  function ListFunds<T(==)>(ln: Ln, params: Option<Json>, output: RpcOutput<T>): (o: Outcome<T>)
    ensures RpcBehaves(ln, "listfunds", params, output, o)
  {
    Rpc(ln, "listfunds", params, output)
  }

  /** `newAddr({ln, params})` */
  function NewAddr<T(==)>(ln: Ln, params: Option<Json>, output: RpcOutput<T>): (o: Outcome<T>)
    ensures RpcBehaves(ln, "newaddr", params, output, o)
  {
    Rpc(ln, "newaddr", params, output)
  }

  /** `getInfo({ln})`, answered by the network, with the shape of the other
      wrappers. */
  function GetInfo(ln: Ln, net: Network): (o: Outcome<Option<NodeInfo>>)
    ensures RpcBehaves(ln, "getinfo", None, net.getinfo(ln.api), o)
  {
    Rpc(ln, "getinfo", None, net.getinfo(ln.api))
  }
}
