/** Reading the credentials of a node reached over LNSocket (a Lightning
    peer connection carrying commando RPCs): its public key, commando rune
    and socket address, from `<store>/<node>/credentials.json`.
 */
module LnSocketCredentials {
  import opened Wrappers
  import opened FileSystem
  import opened Json
  import opened CredentialStore

  const Reasons := CredentialStore.Reasons(
    "ExpectedConfigFileToGetLnSocketCredentialsFrom",
    "ExpectedValidConfigFileToGetLnSocketCredentials",
    "ExpectedDefaultNodeOrSpecifiedNodeToGetLnSocketCredentials",
    "ExpectedCredentialsFileToGetLnSocketCredentialsFrom",
    "ExpectedValidCredentialsFileToGetLnSocketCredentials")

  const NoPublicKey := "ExpectedPublicKeyInCredentialsFileToGetLnSocketCredentials"
  const NoRune := "ExpectedCommandoRuneInCredentialsFileToGetLnSocketCredentials"
  const NoSocket := "ExpectedSocketInCredentialsFileToGetLnSocketCredentials"

  /** The three members are passed on as parsed, whatever their JSON type. */
  datatype LnCredentials = LnCredentials(public_key: Json, rune: Json, socket: Json)

  /** The checks of the `credentials` step, in order, on a parsed file. */
  function FromFile(file: Json): (r: Result<LnCredentials>)
    ensures r.Ok? <==> (file.JObj? && Present(Lookup(file.members, "public_key"))
      && Present(Lookup(file.members, "rune")) && Present(Lookup(file.members, "socket")))
    ensures file.JNull? ==> r == Err(Thrown(NullAccess))
    ensures r.Ok? ==> r.value == LnCredentials(
      Lookup(file.members, "public_key").value, Lookup(file.members, "rune").value, Lookup(file.members, "socket").value)
    ensures file.JObj? && !Present(Lookup(file.members, "public_key")) ==> r == Err(BadRequest(NoPublicKey))
    ensures file.JObj? && Present(Lookup(file.members, "public_key")) && !Present(Lookup(file.members, "rune")) ==>
      r == Err(BadRequest(NoRune))
    ensures (file.JObj? && Present(Lookup(file.members, "public_key")) && Present(Lookup(file.members, "rune"))
      && !Present(Lookup(file.members, "socket"))) ==> r == Err(BadRequest(NoSocket))
  {
    if file.JNull? then Err(Thrown(NullAccess))
    else
      var key := Prop(file, "public_key");
      var rune := Prop(file, "rune");
      var socket := Prop(file, "socket");
      if !Present(key) then Err(BadRequest(NoPublicKey))
      else if !Present(rune) then Err(BadRequest(NoRune))
      else if !Present(socket) then Err(BadRequest(NoSocket))
      else Ok(LnCredentials(key.value, rune.value, socket.value))
  }

  /** `getLnSocketCredentials({node})`; the empty name stands for a missing one. */
  function GetLnSocketCredentials(env: Env, fs: Fs, node: string): (r: Result<LnCredentials>)
    ensures r.Ok? ==> Truthy(r.value.public_key) && Truthy(r.value.rune) && Truthy(r.value.socket)
    ensures r.Ok? <==> LoadCredentials(env, fs, node, Reasons).Ok? && FromFile(LoadCredentials(env, fs, node, Reasons).value).Ok?
    ensures node != "" ==> r == (var file :- ReadCredentials(env, fs, node, Reasons); FromFile(file))
    ensures ResolveNode(env, fs, node, Reasons).Err? ==> r == Err(ResolveNode(env, fs, node, Reasons).error)
    ensures node == "" && ReadFile(fs, ConfigPath(env.home)).None? ==>
      r == Err(BadRequest("ExpectedConfigFileToGetLnSocketCredentialsFrom"))
    ensures ResolveNode(env, fs, node, Reasons).Ok? ==>
      r == (var file :- ReadCredentials(env, fs, ResolveNode(env, fs, node, Reasons).value, Reasons); FromFile(file))
  {
    var file :- LoadCredentials(env, fs, node, Reasons);
    FromFile(file)
  }

  /** The config file is consulted only when no node is named. */
  lemma NamedNodeIgnoresConfig(env: Env, fs: Fs, node: string, text: string)
    requires node != ""
    ensures GetLnSocketCredentials(env, fs, node)
         == GetLnSocketCredentials(env, fs.(files := fs.files[ConfigPath(env.home) := text]), node)
  {
    ConfigIsNotCredentials(env.home, node);
    var fs' := fs.(files := fs.files[ConfigPath(env.home) := text]);
    assert ReadFile(fs', CredentialsPath(env.home, node)) == ReadFile(fs, CredentialsPath(env.home, node));
  }
}
