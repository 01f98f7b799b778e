/** What the two credential readers share: where `config.json` and a saved
    node's `credentials.json` live, how the node to read is chosen, and how
    its credentials file is read and parsed. The two readers differ only in
    the reasons they fail with, which `Reasons` carries.
 */
module CredentialStore {
  import opened Wrappers
  import opened Paths
  import opened FileSystem
  import opened Json

  const ConfigFile: string := "config.json"
  const CredentialsFile: string := "credentials.json"
  /** The member of `config.json` naming the default saved node. */
  const DefaultKey: string := "default_saved_node"

  /** A path argument that is not a string makes `path.join` and `readFile`
      throw synchronously, inside a callback, so the process dies with it. */
  const InvalidArgType: string := "TypeError [ERR_INVALID_ARG_TYPE]"

  /** Where the program runs: the user's home directory (`os.homedir()`) and
      the working directory relative paths are resolved against. */
  datatype Env = Env(home: Path, cwd: Path)

  /** `join(homePath({}).path, configFile)` */
  function ConfigPath(home: Path): Path {
    JoinAll(HomePath(home, ""), [ConfigFile])
  }

  /** `join(homePath({}).path, forNode, credentialsFile)`: the reader's path. */
  function CredentialsPath(home: Path, node: string): Path {
    JoinAll(HomePath(home, ""), [node, CredentialsFile])
  }

  /** `join(homePath({file: saved_node}).path, credentialsFile)`: the writer's
      path, which is the reader's path for the same node. */
  function SavedCredentialsPath(home: Path, node: string): (p: Path)
    ensures p == CredentialsPath(home, node)
  {
    WriterReaderPathsAgree(home, node, CredentialsFile);
    Join(HomePath(home, node), CredentialsFile)
  }

  lemma FileNamesAreSegments()
    ensures IsSegment(ConfigFile) && IsSegment(CredentialsFile)
  {
    assert '/' !in ConfigFile;
    assert '/' !in CredentialsFile;
  }

  lemma ConfigPathShape(home: Path)
    ensures ConfigPath(home) == HomePath(home, "") + [ConfigFile]
  {
    FileNamesAreSegments();
    JoinEndsWith(HomePath(home, ""), [], ConfigFile);
    assert [] + [ConfigFile] == [ConfigFile];
  }

  lemma CredentialsPathShape(home: Path, node: string)
    ensures CredentialsPath(home, node) == JoinAll(HomePath(home, ""), [node]) + [CredentialsFile]
  {
    FileNamesAreSegments();
    JoinEndsWith(HomePath(home, ""), [node], CredentialsFile);
    assert [node] + [CredentialsFile] == [node, CredentialsFile];
  }

  lemma FileNamesDiffer()
    ensures ConfigFile != CredentialsFile
  {
    assert ConfigFile[1] != CredentialsFile[1];
  }

  /** The config file is never a node's credentials file, whatever the
      node is called: the two names differ in their last segment. */
  lemma ConfigIsNotCredentials(home: Path, node: string)
    ensures ConfigPath(home) != CredentialsPath(home, node)
  {
    ConfigPathShape(home);
    CredentialsPathShape(home, node);
    FileNamesDiffer();
    var x := ConfigPath(home);
    var y := CredentialsPath(home, node);
    assert x[|x| - 1] != y[|y| - 1];
  }

  /** The reasons one reader fails with, in the order it can meet them. */
  datatype Reasons = Reasons(
    missingConfig: string,
    invalidConfig: string,
    noDefault: string,
    missingCredentials: string,
    invalidCredentials: string)

  /** The node the caller named, or else the default in `config.json`
      (the `forNode` step). */
  function ResolveNode(env: Env, fs: Fs, node: string, reasons: Reasons): (r: Result<string>)
    ensures node != "" ==> r == Ok(node)
    ensures node == "" && ReadFile(fs, ConfigPath(env.home)).None? ==>
      r == Err(BadRequest(reasons.missingConfig))
    ensures node == "" && ReadFile(fs, ConfigPath(env.home)).Some? && Parse(ReadFile(fs, ConfigPath(env.home)).value).None? ==>
      r == Err(BadRequest(reasons.invalidConfig))
    ensures node == "" && ReadFile(fs, ConfigPath(env.home)).Some? && Parse(ReadFile(fs, ConfigPath(env.home)).value).Some? ==>
      var config := Parse(ReadFile(fs, ConfigPath(env.home)).value).value;
      && (config.JNull? ==> r == Err(Thrown(NullAccess)))
      && (!config.JNull? && !Present(Prop(config, DefaultKey)) ==> r == Err(BadRequest(reasons.noDefault)))
      && (!config.JNull? && Present(Prop(config, DefaultKey)) && !Prop(config, DefaultKey).value.JStr? ==>
            r == Err(Thrown(InvalidArgType)))
      && (!config.JNull? && Present(Prop(config, DefaultKey)) && Prop(config, DefaultKey).value.JStr? ==>
            r == Ok(Prop(config, DefaultKey).value.s))
    ensures r.Ok? ==> r.value != ""
    ensures node == "" && r.Ok? ==>
      && ReadFile(fs, ConfigPath(env.home)).Some?
      && Parse(ReadFile(fs, ConfigPath(env.home)).value).Some?
      && Get(Parse(ReadFile(fs, ConfigPath(env.home)).value).value, DefaultKey) == Ok(Some(JStr(r.value)))
  {
    if node != "" then Ok(node)
    else
      var text :- ReadFile(fs, ConfigPath(env.home)).ToResult(BadRequest(reasons.missingConfig));
      var config :- Parse(text).ToResult(BadRequest(reasons.invalidConfig));
      var named :- Get(config, DefaultKey);
      if !Present(named) then Err(BadRequest(reasons.noDefault))
      else if !named.value.JStr? then Err(Thrown(InvalidArgType))
      else Ok(named.value.s)
  }

  /** The parsed credentials file of `node` (the `getCredentialsFile` step). */
  function ReadCredentials(env: Env, fs: Fs, node: string, reasons: Reasons): (r: Result<Json>)
    ensures ReadFile(fs, CredentialsPath(env.home, node)).None? ==>
      r == Err(BadRequest(reasons.missingCredentials))
    ensures ReadFile(fs, CredentialsPath(env.home, node)).Some? ==>
      r == Parse(ReadFile(fs, CredentialsPath(env.home, node)).value).ToResult(BadRequest(reasons.invalidCredentials))
  {
    var text :- ReadFile(fs, CredentialsPath(env.home, node)).ToResult(BadRequest(reasons.missingCredentials));
    Parse(text).ToResult(BadRequest(reasons.invalidCredentials))
  }

  /** The outcome `forNode` and `getCredentialsFile` reach together. */
  function LoadCredentials(env: Env, fs: Fs, node: string, reasons: Reasons): Result<Json> {
    var named :- ResolveNode(env, fs, node, reasons);
    ReadCredentials(env, fs, named, reasons)
  }

  /** A reader given no node name reads the node `config.json` names. */
  lemma DefaultLoadsNamed(env: Env, fs: Fs, node: string, reasons: Reasons)
    requires ResolveNode(env, fs, "", reasons) == Ok(node)
    ensures LoadCredentials(env, fs, "", reasons) == LoadCredentials(env, fs, node, reasons)
  {
  }

  // ---------------------------------------------------------------------
  // Saving, shared by both writers

  const ConfigWriteFailed := "UnexpectedErrorWritingConfigFile"
  const CredentialsWriteFailed := "UnexpectedErrorWritingCredentialsFile"

  /** The members of `config.json`: `{default_saved_node}`. */
  function ConfigFields(node: string): seq<Field> {
    [Field(DefaultKey, node)]
  }

  /** The disk once the credentials file is written but not yet the config
      file, the disk at the end, and how the writes went. */
  datatype Saved = Saved(credentialsWritten: Fs, fs: Fs, result: Result<Unit>)

  /** `makeHomeDir` then `makeSavedNodeDir`, errors ignored: no file changes. */
  function MakeDirs(env: Env, fs: Fs, node: string): (r: Fs)
    ensures forall q :: ReadFile(r, q) == ReadFile(fs, q)
  {
    Mkdir(Mkdir(fs, Base(env.home)).0, HomePath(env.home, node)).0
  }

  /** `makeHomeDir`, `makeSavedNodeDir`, `writeCredentialFile` and
      `writeConfigFile` (the last only for the default node): mkdir errors
      are ignored; a failed write is reported, the config file's first.
      The writes touch different files, so applying them one after the
      other gives the disk any interleaving gives. */
  function Save(env: Env, fs: Fs, node: string, isDefault: bool, fields: seq<Field>): (s: Saved)
    ensures s.result.Ok? ==>
      && ReadFile(s.credentialsWritten, CredentialsPath(env.home, node)) == Some(Stringify(fields))
      && ReadFile(s.fs, CredentialsPath(env.home, node)) == Some(Stringify(fields))
    ensures s.result.Ok? && isDefault ==> ReadFile(s.fs, ConfigPath(env.home)) == Some(Stringify(ConfigFields(node)))
    ensures !isDefault ==> ReadFile(s.fs, ConfigPath(env.home)) == ReadFile(fs, ConfigPath(env.home))
    ensures ReadFile(s.credentialsWritten, ConfigPath(env.home)) == ReadFile(fs, ConfigPath(env.home))
    ensures forall p :: p != ConfigPath(env.home) && p != CredentialsPath(env.home, node) ==>
      ReadFile(s.fs, p) == ReadFile(fs, p)
    ensures var made := MakeDirs(env, fs, node);
      && (isDefault && !CanWrite(made, ConfigPath(env.home)) ==> s.result == Err(BadRequest(ConfigWriteFailed)))
      && ((isDefault ==> CanWrite(made, ConfigPath(env.home))) && !CanWrite(made, CredentialsPath(env.home, node)) ==>
            s.result == Err(BadRequest(CredentialsWriteFailed)))
      && (s.result.Ok? <==> CanWrite(made, CredentialsPath(env.home, node)) && (isDefault ==> CanWrite(made, ConfigPath(env.home))))
  {
    ConfigIsNotCredentials(env.home, node);
    var made := MakeDirs(env, fs, node);
    var credentials := WriteFile(made, SavedCredentialsPath(env.home, node), Stringify(fields));
    var afterCredentials := if credentials.Some? then credentials.value else made;
    var config := if isDefault then WriteFile(afterCredentials, ConfigPath(env.home), Stringify(ConfigFields(node)))
                  else Some(afterCredentials);
    Saved(
      afterCredentials,
      if config.Some? then config.value else afterCredentials,
      if config.None? then Err(BadRequest(ConfigWriteFailed))
      else if credentials.None? then Err(BadRequest(CredentialsWriteFailed))
      else Ok(Unit))
  }

  /** A config file holding what the writer writes names `node` as the
      default, for either reader. */
  lemma DefaultBack(env: Env, fs: Fs, node: string, reasons: Reasons)
    requires node != ""
    requires ReadFile(fs, ConfigPath(env.home)) == Some(Stringify(ConfigFields(node)))
    ensures ResolveNode(env, fs, "", reasons) == Ok(node)
  {
    StringifyParses(ConfigFields(node));
    DefaultParsed(env, fs, node, Stringify(ConfigFields(node)), reasons);
  }

  lemma DefaultParsed(env: Env, fs: Fs, node: string, text: string, reasons: Reasons)
    requires node != ""
    requires ReadFile(fs, ConfigPath(env.home)) == Some(text)
    requires Parse(text) == Some(JObj(ToMembers(ConfigFields(node))))
    ensures ResolveNode(env, fs, "", reasons) == Ok(node)
  {
    var fields := ConfigFields(node);
    LookupField(fields, 0);
    var config := JObj(ToMembers(fields));
    assert Lookup(config.members, DefaultKey) == Some(JStr(node));
    assert Get(config, DefaultKey) == Ok(Some(JStr(node)));
    assert Present(Some(JStr(node)));
  }
}
