/** Saving the credentials of a gRPC node: check that the three PEM paths
    exist and that the other arguments are there, create the store and node
    directories, write `config.json` (for the default node) and the node's
    `credentials.json`, then read the credentials back through the reader.
 */
module PutSavedCredentials {
  import opened Wrappers
  import opened Paths
  import opened FileSystem
  import opened Json
  import opened CredentialStore
  import opened Reader = SavedCredentials

  datatype PutSavedArgs = PutSavedArgs(
    ca_cert_path: string,
    client_cert_path: string,
    client_key_path: string,
    logger: bool,
    socket: string,
    saved_node: string,
    is_default: bool)

  const InvalidCaPath := "ExpectedValidCaPathForSavingCredentials"
  const InvalidClientCertPath := "ExpectedValidClientCertPathForSavingCredentials"
  const InvalidClientKeyPath := "ExpectedValidClientKeyPathForSavingCredentials"
  const NoLogger := "ExpectedWinstonLoggerObjectForSavingCredentials"
  const NoSocket := "ExpectedSocketForSavingCredentials"
  const NoSavedNode := "ExpectedSavedNodeNameForSavingCredentials"

  /** `!!path && existsSync(path)` */
  predicate ValidPath(env: Env, fs: Fs, path: string) {
    path != "" && Exists(fs, Resolve(env.cwd, path))
  }

  predicate Acceptable(env: Env, fs: Fs, a: PutSavedArgs) {
    && ValidPath(env, fs, a.ca_cert_path) && ValidPath(env, fs, a.client_cert_path)
    && ValidPath(env, fs, a.client_key_path) && a.logger && a.socket != "" && a.saved_node != ""
  }

  /** The `validate` step: the first failing check, in source order. */
  function Validate(env: Env, fs: Fs, a: PutSavedArgs): (r: Result<Unit>)
    ensures r.Ok? <==> Acceptable(env, fs, a)
    ensures !ValidPath(env, fs, a.ca_cert_path) ==> r == Err(BadRequestText(InvalidCaPath))
    ensures ValidPath(env, fs, a.ca_cert_path) && !ValidPath(env, fs, a.client_cert_path) ==>
      r == Err(BadRequestText(InvalidClientCertPath))
    ensures (ValidPath(env, fs, a.ca_cert_path) && ValidPath(env, fs, a.client_cert_path)
      && !ValidPath(env, fs, a.client_key_path)) ==> r == Err(BadRequestText(InvalidClientKeyPath))
    ensures (ValidPath(env, fs, a.ca_cert_path) && ValidPath(env, fs, a.client_cert_path)
      && ValidPath(env, fs, a.client_key_path) && !a.logger) ==> r == Err(BadRequest(NoLogger))
    ensures (ValidPath(env, fs, a.ca_cert_path) && ValidPath(env, fs, a.client_cert_path)
      && ValidPath(env, fs, a.client_key_path) && a.logger && a.socket == "") ==> r == Err(BadRequest(NoSocket))
    ensures (ValidPath(env, fs, a.ca_cert_path) && ValidPath(env, fs, a.client_cert_path)
      && ValidPath(env, fs, a.client_key_path) && a.logger && a.socket != "" && a.saved_node == "") ==>
      r == Err(BadRequestText(NoSavedNode))
    ensures r.Err? && r.error == BadRequestText(NoSavedNode) ==> a.saved_node == "" && a.socket != ""
  {
    if !ValidPath(env, fs, a.ca_cert_path) then Err(BadRequestText(InvalidCaPath))
    else if !ValidPath(env, fs, a.client_cert_path) then Err(BadRequestText(InvalidClientCertPath))
    else if !ValidPath(env, fs, a.client_key_path) then Err(BadRequestText(InvalidClientKeyPath))
    else if !a.logger then Err(BadRequest(NoLogger))
    else if a.socket == "" then Err(BadRequest(NoSocket))
    else if a.saved_node == "" then Err(BadRequestText(NoSavedNode))
    else Ok(Unit)
  }

  /** The members of `credentials.json`, in the order they are written. */
  function CredentialFields(a: PutSavedArgs): seq<Field> {
    [ Field("ca_cert_path", a.ca_cert_path), Field("client_key_path", a.client_key_path),
      Field("client_cert_path", a.client_cert_path), Field("socket", a.socket) ]
  }

  lemma CredentialKeysDistinct(a: PutSavedArgs)
    ensures DistinctKeys(CredentialFields(a))
  {
    var f := CredentialFields(a);
    assert f[0].key[1] != f[1].key[1] && f[0].key[1] != f[2].key[1] && f[0].key[0] != f[3].key[0];
    assert f[1].key[7] != f[2].key[7] && f[1].key[0] != f[3].key[0] && f[2].key[0] != f[3].key[0];
  }

  /** The writing steps for these arguments. */
  function Save(env: Env, fs: Fs, a: PutSavedArgs): Saved {
    CredentialStore.Save(env, fs, a.saved_node, a.is_default, CredentialFields(a))
  }

  /** `node: !args.is_default ? args.saved_node : undefined` */
  function VerifiedName(a: PutSavedArgs): string {
    if a.is_default then "" else a.saved_node
  }

  /** The outcome of a save: the disk afterwards and how the promise settles. */
  datatype PutOutcome = PutOutcome(fs: Fs, result: Result<Unit>)

  /** `putSavedCredentials(args)`, reads completing in `order` during the
      verification. The verification is ordered after both writes. */
  function PutSavedCredentials(env: Env, fs: Fs, a: PutSavedArgs, order: seq<CertFile>): (o: PutOutcome)
    ensures Validate(env, fs, a).Err? ==> o == PutOutcome(fs, Validate(env, fs, a))
    ensures o.result.Ok? <==> (Validate(env, fs, a).Ok? && Save(env, fs, a).result.Ok?
      && GetSavedCredentials(env, Save(env, fs, a).fs, VerifiedName(a), order).Ok?)
    ensures (Validate(env, fs, a).Ok? && Save(env, fs, a).result.Ok? &&
      GetSavedCredentials(env, Save(env, fs, a).fs, VerifiedName(a), order).Err?) ==>
      o.result.error == GetSavedCredentials(env, Save(env, fs, a).fs, VerifiedName(a), order).error
    ensures Validate(env, fs, a).Ok? ==> o.fs == Save(env, fs, a).fs
    ensures Validate(env, fs, a).Ok? && Save(env, fs, a).result.Err? ==> o.result == Save(env, fs, a).result
  {
    if Validate(env, fs, a).Err? then PutOutcome(fs, Validate(env, fs, a))
    else
      var s := Save(env, fs, a);
      if s.result.Err? then PutOutcome(s.fs, s.result)
      else
        match GetSavedCredentials(env, s.fs, VerifiedName(a), order)
        case Err(e) => PutOutcome(s.fs, Err(e))
        case Ok(_) => PutOutcome(s.fs, Ok(Unit))
  }

  /** The three PEM files can be read on `fs`, with these contents. */
  predicate CertsReadable(env: Env, fs: Fs, a: PutSavedArgs, contents: Reads) {
    && contents == ReadAll(env, fs, CertPaths(a.ca_cert_path, a.client_cert_path, a.client_key_path))
    && !AnyFailed(contents)
  }

  /** A node whose credentials file holds what the writer writes reads back
      as the files it names and its socket. */
  lemma ReadBack(env: Env, fs: Fs, a: PutSavedArgs, order: seq<CertFile>, contents: Reads)
    requires a.socket != "" && a.saved_node != ""
    requires ReadFile(fs, CredentialsPath(env.home, a.saved_node)) == Some(Stringify(CredentialFields(a)))
    requires CertsReadable(env, fs, a, contents)
    ensures GetSavedCredentials(env, fs, a.saved_node, order)
         == Ok(Reader.SavedCredentials(contents.ca.value, contents.cert.value, contents.key.value, JStr(a.socket)))
  {
    var fields := CredentialFields(a);
    StringifyParses(fields);
    assert ReadCredentials(env, fs, a.saved_node, Reader.Reasons) == Ok(JObj(ToMembers(fields)));
    CredentialKeysDistinct(a);
    LookupField(fields, 0);
    LookupField(fields, 1);
    LookupField(fields, 2);
    LookupField(fields, 3);
    PathsFromFile(a);
    FromParsed(env, fs, a, order, contents, JObj(ToMembers(fields)));
  }

  lemma PathsFromFile(a: PutSavedArgs)
    requires Lookup(ToMembers(CredentialFields(a)), "ca_cert_path") == Some(JStr(a.ca_cert_path))
    requires Lookup(ToMembers(CredentialFields(a)), "client_cert_path") == Some(JStr(a.client_cert_path))
    requires Lookup(ToMembers(CredentialFields(a)), "client_key_path") == Some(JStr(a.client_key_path))
    requires Lookup(ToMembers(CredentialFields(a)), "socket") == Some(JStr(a.socket))
    ensures PathsOf(JObj(ToMembers(CredentialFields(a)))) == Some(CertPaths(a.ca_cert_path, a.client_cert_path, a.client_key_path))
    ensures Prop(JObj(ToMembers(CredentialFields(a))), "socket") == Some(JStr(a.socket))
  {
  }

  lemma FromParsed(env: Env, fs: Fs, a: PutSavedArgs, order: seq<CertFile>, contents: Reads, file: Json)
    requires a.socket != "" && a.saved_node != ""
    requires ReadCredentials(env, fs, a.saved_node, Reader.Reasons) == Ok(file)
    requires PathsOf(file) == Some(CertPaths(a.ca_cert_path, a.client_cert_path, a.client_key_path))
    requires Prop(file, "socket") == Some(JStr(a.socket))
    requires CertsReadable(env, fs, a, contents)
    ensures GetSavedCredentials(env, fs, a.saved_node, order)
         == Ok(Reader.SavedCredentials(contents.ca.value, contents.cert.value, contents.key.value, JStr(a.socket)))
  {
    assert LoadCredentials(env, fs, a.saved_node, Reader.Reasons) == Ok(file);
    assert !file.JNull?;
    assert Reported(order, contents).None?;
  }

  /** What a successful save wrote reads back, under the node's name and,
      for the default node, under no name; the certificates are whatever
      the named files hold. */
  lemma SaveThenGet(env: Env, fs: Fs, a: PutSavedArgs, order: seq<CertFile>, contents: Reads)
    requires Acceptable(env, fs, a) && Save(env, fs, a).result.Ok?
    requires CertsReadable(env, Save(env, fs, a).fs, a, contents)
    ensures GetSavedCredentials(env, Save(env, fs, a).fs, a.saved_node, order)
         == Ok(Reader.SavedCredentials(contents.ca.value, contents.cert.value, contents.key.value, JStr(a.socket)))
    ensures GetSavedCredentials(env, Save(env, fs, a).fs, VerifiedName(a), order)
         == Ok(Reader.SavedCredentials(contents.ca.value, contents.cert.value, contents.key.value, JStr(a.socket)))
  {
    var s := Save(env, fs, a);
    ReadBack(env, s.fs, a, order, contents);
    if a.is_default {
      assert ReadFile(s.fs, ConfigPath(env.home)) == Some(Stringify(ConfigFields(a.saved_node)));
      DefaultBack(env, s.fs, a.saved_node, Reader.Reasons);
      DefaultLoadsNamed(env, s.fs, a.saved_node, Reader.Reasons);
      SameFileSameResult(env, s.fs, "", a.saved_node, order);
    }
  }
}
