/** Saving the credentials of an LNSocket node: check the arguments, create
    the store and node directories, write `config.json` (for the default
    node) and the node's `credentials.json`, then open a session with the
    saved credentials and ask the node for `getinfo`.

    The writes run concurrently in the source; their outcome does not depend
    on their order because they touch different files, so the model applies
    them one after the other. When both fail, the config file's error is the
    one reported.
 */
module PutLnSocketCredentials {
  import opened Wrappers
  import opened Paths
  import opened FileSystem
  import opened Json
  import opened CredentialStore
  import opened LnSocketCredentials
  import opened LnSession

  /** The arguments; the logger only matters by being there. */
  datatype PutLnArgs = PutLnArgs(
    logger: bool,
    public_key: string,
    rune: string,
    saved_node: string,
    socket: string,
    is_default: bool)

  const NoLogger := "ExpectedWinstonLoggerObjectForSavingLnSocketCredentials"
  const NoPublicKey := "ExpectedPublicKeyForSavingLnSocketCredentials"
  const NoRune := "ExpectedCommandoRuneForSavingLnSocketCredentials"
  const NoSavedNode := "ExpectedSavedNodeNameForSavingLnSocketCredentials"
  const NoSocket := "ExpectedSocketForSavingLnSocketCredentials"
  const NotValidated := "500-FailedToValidateLnSocketCredentials"

  predicate Complete(a: PutLnArgs) {
    a.logger && a.public_key != "" && a.rune != "" && a.saved_node != "" && a.socket != ""
  }

  /** The `validate` step: the first missing argument, in source order. */
  function Validate(a: PutLnArgs): (r: Result<Unit>)
    ensures r.Ok? <==> Complete(a)
    ensures !a.logger ==> r == Err(BadRequest(NoLogger))
    ensures a.logger && a.public_key == "" ==> r == Err(BadRequest(NoPublicKey))
    ensures a.logger && a.public_key != "" && a.rune == "" ==> r == Err(BadRequest(NoRune))
    ensures a.logger && a.public_key != "" && a.rune != "" && a.saved_node == "" ==> r == Err(BadRequestText(NoSavedNode))
    ensures a.logger && a.public_key != "" && a.rune != "" && a.saved_node != "" && a.socket == "" ==>
      r == Err(BadRequest(NoSocket))
  {
    if !a.logger then Err(BadRequest(NoLogger))
    else if a.public_key == "" then Err(BadRequest(NoPublicKey))
    else if a.rune == "" then Err(BadRequest(NoRune))
    else if a.saved_node == "" then Err(BadRequestText(NoSavedNode))
    else if a.socket == "" then Err(BadRequest(NoSocket))
    else Ok(Unit)
  }

  /** The members of `credentials.json`, in the order they are written. */
  function CredentialFields(a: PutLnArgs): seq<Field> {
    [Field("public_key", a.public_key), Field("rune", a.rune), Field("socket", a.socket)]
  }

  lemma CredentialKeysDistinct(a: PutLnArgs)
    ensures DistinctKeys(CredentialFields(a))
  {
    assert "public_key"[0] != "rune"[0] && "public_key"[0] != "socket"[0] && "rune"[0] != "socket"[0];
  }

  /** The writing steps for these arguments. */
  function Save(env: Env, fs: Fs, a: PutLnArgs): Saved {
    CredentialStore.Save(env, fs, a.saved_node, a.is_default, CredentialFields(a))
  }

  /** Whatever else is on the disk, a node whose credentials file holds what
      the writer writes reads back as the saved credentials. */
  lemma ReadBack(env: Env, fs: Fs, a: PutLnArgs)
    requires Complete(a)
    requires ReadFile(fs, CredentialsPath(env.home, a.saved_node)) == Some(Stringify(CredentialFields(a)))
    ensures GetLnSocketCredentials(env, fs, a.saved_node)
         == Ok(LnCredentials(JStr(a.public_key), JStr(a.rune), JStr(a.socket)))
  {
    var fields := CredentialFields(a);
    StringifyParses(fields);
    assert ReadCredentials(env, fs, a.saved_node, LnSocketCredentials.Reasons) == Ok(JObj(ToMembers(fields)));
    CredentialKeysDistinct(a);
    LookupField(fields, 0);
    LookupField(fields, 1);
    LookupField(fields, 2);
    CredentialsFromFile(a);
  }

  /** The reader gets back exactly what the writer saved under the node's name. */
  lemma SaveThenGet(env: Env, fs: Fs, a: PutLnArgs)
    requires Complete(a) && Save(env, fs, a).result.Ok?
    ensures GetLnSocketCredentials(env, Save(env, fs, a).credentialsWritten, a.saved_node)
         == Ok(LnCredentials(JStr(a.public_key), JStr(a.rune), JStr(a.socket)))
    ensures GetLnSocketCredentials(env, Save(env, fs, a).fs, a.saved_node)
         == Ok(LnCredentials(JStr(a.public_key), JStr(a.rune), JStr(a.socket)))
  {
    ReadBack(env, Save(env, fs, a).credentialsWritten, a);
    ReadBack(env, Save(env, fs, a).fs, a);
  }

  lemma CredentialsFromFile(a: PutLnArgs)
    requires Complete(a)
    requires Lookup(ToMembers(CredentialFields(a)), "public_key") == Some(JStr(a.public_key))
    requires Lookup(ToMembers(CredentialFields(a)), "rune") == Some(JStr(a.rune))
    requires Lookup(ToMembers(CredentialFields(a)), "socket") == Some(JStr(a.socket))
    ensures FromFile(JObj(ToMembers(CredentialFields(a)))) == Ok(LnCredentials(JStr(a.public_key), JStr(a.rune), JStr(a.socket)))
  {
  }

  /** Saving the default node points `config.json` at it, so a reader given
      no node name reads the saved credentials too. */
  lemma SaveDefaultThenGet(env: Env, fs: Fs, a: PutLnArgs)
    requires Complete(a) && a.is_default && Save(env, fs, a).result.Ok?
    ensures GetLnSocketCredentials(env, Save(env, fs, a).fs, "")
         == Ok(LnCredentials(JStr(a.public_key), JStr(a.rune), JStr(a.socket)))
  {
    var s := Save(env, fs, a);
    assert ReadFile(s.fs, ConfigPath(env.home)) == Some(Stringify(ConfigFields(a.saved_node)));
    DefaultBack(env, s.fs, a.saved_node, LnSocketCredentials.Reasons);
    SaveThenGet(env, fs, a);
  }

  lemma SavedReadsBack(env: Env, fs: Fs, a: PutLnArgs)
    requires Complete(a) && Save(env, fs, a).result.Ok?
    ensures GetLnSocketCredentials(env, Save(env, fs, a).fs, a.saved_node)
         == Ok(LnCredentials(JStr(a.public_key), JStr(a.rune), JStr(a.socket)))
    ensures GetLnSocketCredentials(env, Save(env, fs, a).fs, VerifiedName(a))
         == Ok(LnCredentials(JStr(a.public_key), JStr(a.rune), JStr(a.socket)))
  {
    SaveThenGet(env, fs, a);
    if a.is_default {
      SaveDefaultThenGet(env, fs, a);
    }
  }

  /** `node: !args.is_default ? args.saved_node : undefined` */
  function VerifiedName(a: PutLnArgs): string {
    if a.is_default then "" else a.saved_node
  }

  /** The `validateCredentials` step on the disk `fs` it gets to see: open a
      session for the saved node (through `config.json` when it is the
      default), ask for `getinfo`, destroy the session; an empty answer fails. */
  function VerifySaved(env: Env, fs: Fs, net: Network, a: PutLnArgs): (o: Outcome<Unit>)
    ensures var c := GetLnSocketCredentials(env, fs, VerifiedName(a));
      && (c.Err? ==> o == Outcome([], Err(c.error)))
      && (c.Ok? ==> |o.effects| > 0 && o.effects[0] == Connect(Peer(c.value.public_key, c.value.socket)))
      && (o.result.Ok? ==> c.Ok? && |o.effects| > 0 && o.effects[|o.effects| - 1] == Destroy(Peer(c.value.public_key, c.value.socket)))
    ensures var c := GetLnSocketCredentials(env, fs, VerifiedName(a));
      c.Ok? ==>
      var peer := Peer(c.value.public_key, c.value.socket);
      && (peer !in net.reachable ==> o.result == Err(Foreign(HandshakeFailed)))
      && (peer in net.reachable && net.getinfo(peer).RpcError? ==> o.result == Err(Thrown(net.getinfo(peer).message)))
      && (peer in net.reachable && net.getinfo(peer) == RpcResult(None) ==>
            o.result == Err(Thrown(NotValidated)) && o.effects[|o.effects| - 1] == Destroy(peer))
      && (o.result.Ok? <==> peer in net.reachable && net.getinfo(peer).RpcResult? && net.getinfo(peer).result.Some?)
  {
    var session := AuthenticatedLn(env, fs, net, VerifiedName(a));
    match session.result
    case Err(e) => Outcome(session.effects, Err(e))
    case Ok(ln) =>
      var checked := AskGetInfo(ln, net);
      Outcome(session.effects + checked.effects, checked.result)
  }

  /** `getInfo` on the open session, then `ln.destroy()`; an empty answer
      throws. An error reply is thrown by `getInfo`, which has destroyed
      the session already. */
  function AskGetInfo(ln: Ln, net: Network): (o: Outcome<Unit>)
    ensures |o.effects| > 0 && o.effects[0] == Call(ln.api, "getinfo", None, ln.rune)
    ensures net.getinfo(ln.api).RpcError? ==> o.result == Err(Thrown(net.getinfo(ln.api).message))
    ensures net.getinfo(ln.api) == RpcResult(None) ==> o.result == Err(Thrown(NotValidated))
    ensures o.result.Ok? <==> net.getinfo(ln.api).RpcResult? && net.getinfo(ln.api).result.Some?
    ensures o.effects[|o.effects| - 1] == Destroy(ln.api)
  {
    var info := GetInfo(ln, net);
    match info.result
    case Err(e) => Outcome(info.effects, Err(e))
    case Ok(answer) =>
      Outcome(info.effects + [Destroy(ln.api)], if answer.None? then Err(Thrown(NotValidated)) else Ok(Unit))
  }

  /** The outcome of a save: the disk afterwards, the session effects of the
      verification, and how the promise settles (`undefined` on success). */
  datatype PutOutcome = PutOutcome(fs: Fs, effects: seq<Effect>, result: Result<Unit>)

  /** The peer the saved credentials name. */
  function SavedPeer(a: PutLnArgs): Peer {
    Peer(JStr(a.public_key), JStr(a.socket))
  }

  /** `putLnSocketCredentials(args)` as its dependencies are declared: the
      verification waits for the credentials file only, so it may read the
      config file before or after the new one lands; `configLanded` says
      which happened. */
  function PutAsWritten(env: Env, fs: Fs, net: Network, a: PutLnArgs, configLanded: bool): (o: PutOutcome)
    ensures Validate(a).Err? ==> o == PutOutcome(fs, [], Validate(a))
    ensures Complete(a) ==> o.fs == Save(env, fs, a).fs
    ensures Complete(a) && Save(env, fs, a).result.Err? ==> o.result == Save(env, fs, a).result && o.effects == []
    ensures Complete(a) && Save(env, fs, a).result.Ok? ==>
      var seen := if configLanded then Save(env, fs, a).fs else Save(env, fs, a).credentialsWritten;
      o.effects == VerifySaved(env, seen, net, a).effects && o.result == VerifySaved(env, seen, net, a).result
  {
    if Validate(a).Err? then PutOutcome(fs, [], Validate(a))
    else
      var s := Save(env, fs, a);
      if s.result.Err? then PutOutcome(s.fs, [], s.result)
      else
        var v := VerifySaved(env, if configLanded then s.fs else s.credentialsWritten, net, a);
        PutOutcome(s.fs, v.effects, v.result)
  }

  /** `putLnSocketCredentials(args)` with the verification ordered after both
      writes, so it always checks the node just saved. */
  function PutLnSocketCredentials(env: Env, fs: Fs, net: Network, a: PutLnArgs): (o: PutOutcome)
    ensures Validate(a).Err? ==> o == PutOutcome(fs, [], Validate(a))
    ensures o.result.Ok? ==>
      && GetLnSocketCredentials(env, o.fs, a.saved_node) == Ok(LnCredentials(JStr(a.public_key), JStr(a.rune), JStr(a.socket)))
      && GetLnSocketCredentials(env, o.fs, VerifiedName(a)) == Ok(LnCredentials(JStr(a.public_key), JStr(a.rune), JStr(a.socket)))
    ensures Complete(a) && Save(env, fs, a).result.Ok? ==>
      |o.effects| > 0 && o.effects[0] == Connect(SavedPeer(a))
    ensures o.result.Ok? ==> |o.effects| > 0 && o.effects[|o.effects| - 1] == Destroy(SavedPeer(a))
    ensures (Complete(a) && Save(env, fs, a).result.Ok? && SavedPeer(a) in net.reachable
      && net.getinfo(SavedPeer(a)).RpcResult? && net.getinfo(SavedPeer(a)).result.Some?) ==> o.result.Ok?
    ensures o.result.Ok? ==>
      SavedPeer(a) in net.reachable && net.getinfo(SavedPeer(a)).RpcResult? && net.getinfo(SavedPeer(a)).result.Some?
    ensures (Complete(a) && Save(env, fs, a).result.Ok? && SavedPeer(a) in net.reachable
      && net.getinfo(SavedPeer(a)) == RpcResult(None)) ==>
      o.result == Err(Thrown(NotValidated)) && o.effects[|o.effects| - 1] == Destroy(SavedPeer(a))
    ensures Complete(a) ==> o.fs == Save(env, fs, a).fs
    ensures Complete(a) && Save(env, fs, a).result.Err? ==> o.result == Save(env, fs, a).result && o.effects == []
  {
    var o := PutAsWritten(env, fs, net, a, true);
    if Complete(a) && Save(env, fs, a).result.Ok? then
      SavedReadsBack(env, fs, a);
      o
    else o
  }

  /** A named save reads no `config.json` when it verifies, so when the
      config write lands does not matter: the race needs a default save. */
  lemma NamedSaveHasNoRace(env: Env, fs: Fs, net: Network, a: PutLnArgs)
    requires !a.is_default
    ensures PutAsWritten(env, fs, net, a, false) == PutAsWritten(env, fs, net, a, true)
  {
    if Complete(a) && Save(env, fs, a).result.Ok? {
      var s := Save(env, fs, a);
      assert s.credentialsWritten == s.fs;
    }
  }

  /** The race: on a store with no config file yet, saving the default node
      fails its own verification when the config write lands after the
      verification reads, although both files are written. */
  lemma {:induction false} RaceFailsFirstDefaultSave(env: Env, fs: Fs, net: Network, a: PutLnArgs)
    requires Complete(a) && a.is_default && Save(env, fs, a).result.Ok?
    requires ReadFile(fs, ConfigPath(env.home)).None?
    ensures PutAsWritten(env, fs, net, a, false).result
         == Err(BadRequest(LnSocketCredentials.Reasons.missingConfig))
    ensures (SavedPeer(a) in net.reachable && net.getinfo(SavedPeer(a)).RpcResult?
      && net.getinfo(SavedPeer(a)).result.Some?) ==> PutLnSocketCredentials(env, fs, net, a).result.Ok?
  {
    var early := Save(env, fs, a).credentialsWritten;
    var missing := BadRequest(LnSocketCredentials.Reasons.missingConfig);
    assert ReadFile(early, ConfigPath(env.home)).None?;
    assert ResolveNode(env, early, "", LnSocketCredentials.Reasons) == Err(missing);
    assert GetLnSocketCredentials(env, early, VerifiedName(a)) == Err(missing);
    assert VerifySaved(env, early, net, a) == Outcome([], Err(missing));
  }
}
