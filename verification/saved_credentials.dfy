/** Reading the credentials of a node reached over gRPC: the credentials
    file names three PEM files (CA certificate, client certificate, client
    key) by path, and holds the socket. The three files are read at once;
    when several reads fail, the one that finishes first decides the error,
    so the order in which reads complete is a parameter.
 */
module SavedCredentials {
  import opened Wrappers
  import opened Paths
  import opened FileSystem
  import opened Json
  import opened CredentialStore

  const Reasons := CredentialStore.Reasons(
    "ExpectedConfigFileToGetCredentialsFrom",
    "ExpectedValidConfigFileToGetCredentials",
    "ExpectedDefaultNodeOrSpecifiedNodeToGetCredentials",
    "ExpectedCredentialsFileToGetCredentialsFrom",
    "ExpectedValidCredentialsFileToGetCredentials")

  const NoSocket := "ExpectedSocketInCredentialsFileToGetSavedCredentials"

  datatype CertFile = CaCert | ClientCert | ClientKey

  /** The tasks in the order they are declared, which is the order they start. */
  const Declared: seq<CertFile> := [CaCert, ClientCert, ClientKey]

  function PathKey(k: CertFile): string {
    match k
    case CaCert => "ca_cert_path"
    case ClientCert => "client_cert_path"
    case ClientKey => "client_key_path"
  }

  function ReadFailed(k: CertFile): string {
    match k
    case CaCert => "UnexpectedErrorReadingCaCertFile"
    case ClientCert => "UnexpectedErrorReadingClientCertFile"
    case ClientKey => "UnexpectedErrorReadingClientKeyFile"
  }

  /** File contents are kept as text; the socket as parsed. */
  datatype SavedCredentials = SavedCredentials(ca_cert: string, client_cert: string, client_key: string, socket: Json)

  /** The three paths the credentials file names. */
  datatype CertPaths = CertPaths(ca: string, cert: string, key: string)

  /** The outcome of each read. */
  datatype Reads = Reads(ca: Option<string>, cert: Option<string>, key: Option<string>)

  function ReadOf(done: Reads, k: CertFile): Option<string> {
    match k
    case CaCert => done.ca
    case ClientCert => done.cert
    case ClientKey => done.key
  }

  predicate AnyFailed(done: Reads) {
    done.ca.None? || done.cert.None? || done.key.None?
  }

  /** The paths, when all three members are strings: `readFile` throws on
      anything else before any read is under way. An integer, which
      `readFile` would take as a file descriptor, is refused here too. */
  function PathsOf(file: Json): Option<CertPaths> {
    match (Prop(file, "ca_cert_path"), Prop(file, "client_cert_path"), Prop(file, "client_key_path"))
    case (Some(JStr(ca)), Some(JStr(cert)), Some(JStr(key))) => Some(CertPaths(ca, cert, key))
    case _ => None
  }

  /** `readFile(path)`, relative paths resolved against the working directory. */
  function ReadCert(env: Env, fs: Fs, path: string): Option<string> {
    ReadFile(fs, Resolve(env.cwd, path))
  }

  function ReadAll(env: Env, fs: Fs, paths: CertPaths): Reads {
    Reads(ReadCert(env, fs, paths.ca), ReadCert(env, fs, paths.cert), ReadCert(env, fs, paths.key))
  }

  /** The first read of `order` that failed. */
  function FirstFailed(order: seq<CertFile>, done: Reads): (r: Option<CertFile>)
    ensures r.Some? ==> r.value in order && ReadOf(done, r.value).None?
    ensures r.None? ==> forall i :: 0 <= i < |order| ==> ReadOf(done, order[i]).Some?
  {
    if |order| == 0 then None
    else if ReadOf(done, order[0]).None? then Some(order[0])
    else
      var r := FirstFailed(order[1..], done);
      assert r.None? ==> forall i :: 1 <= i < |order| ==> order[i] == order[1..][i - 1];
      r
  }

  /** The read whose failure is reported: the first failing one in completion
      order, reads missing from `order` completing last, in the order they
      started. */
  function Reported(order: seq<CertFile>, done: Reads): (r: Option<CertFile>)
    ensures r.Some? <==> AnyFailed(done)
    ensures r.Some? ==> ReadOf(done, r.value).None?
  {
    var r := FirstFailed(order + Declared, done);
    assert r.None? ==> !AnyFailed(done) by {
      if r.None? {
        var all := order + Declared;
        assert all[|order|] == CaCert && all[|order| + 1] == ClientCert && all[|order| + 2] == ClientKey;
      }
    }
    r
  }

  /** `getSavedCredentials({node})` with reads completing in `order`. */
  function GetSavedCredentials(env: Env, fs: Fs, node: string, order: seq<CertFile>): (r: Result<SavedCredentials>)
    ensures LoadCredentials(env, fs, node, Reasons).Err? ==> r == Err(LoadCredentials(env, fs, node, Reasons).error)
    ensures r.Ok? ==>
      var file := LoadCredentials(env, fs, node, Reasons).value;
      && PathsOf(file).Some?
      && ReadAll(env, fs, PathsOf(file).value) == Reads(Some(r.value.ca_cert), Some(r.value.client_cert), Some(r.value.client_key))
      && Prop(file, "socket") == Some(r.value.socket) && Truthy(r.value.socket)
    ensures LoadCredentials(env, fs, node, Reasons).Ok? ==>
      var file := LoadCredentials(env, fs, node, Reasons).value;
      PathsOf(file).Some? && AnyFailed(ReadAll(env, fs, PathsOf(file).value)) ==>
        exists k :: ReadOf(ReadAll(env, fs, PathsOf(file).value), k).None? && r == Err(BadRequest(ReadFailed(k)))
    ensures LoadCredentials(env, fs, node, Reasons).Ok? ==>
      var file := LoadCredentials(env, fs, node, Reasons).value;
      && (file.JNull? ==> r == Err(Thrown(NullAccess)))
      && (!file.JNull? && PathsOf(file).None? ==> r == Err(Thrown(InvalidArgType)))
      && (PathsOf(file).Some? && !AnyFailed(ReadAll(env, fs, PathsOf(file).value)) ==>
            (r.Ok? <==> Present(Prop(file, "socket"))) && (r.Err? ==> r == Err(BadRequest(NoSocket))))
    ensures r.Ok? <==> (LoadCredentials(env, fs, node, Reasons).Ok? &&
      var file := LoadCredentials(env, fs, node, Reasons).value;
      PathsOf(file).Some? && !AnyFailed(ReadAll(env, fs, PathsOf(file).value)) && Present(Prop(file, "socket")))
  {
    var file :- LoadCredentials(env, fs, node, Reasons);
    if file.JNull? then Err(Thrown(NullAccess))
    else
      match PathsOf(file)
      case None => Err(Thrown(InvalidArgType))
      case Some(paths) =>
        var done := ReadAll(env, fs, paths);
        match Reported(order, done)
        case Some(k) => Err(BadRequest(ReadFailed(k)))
        case None =>
          var socket := Prop(file, "socket");
          if !Present(socket) then Err(BadRequest(NoSocket))
          else Ok(SavedCredentials(done.ca.value, done.cert.value, done.key.value, socket.value))
  }

  /** The reader depends on the node name only through the file it loads. */
  lemma SameFileSameResult(env: Env, fs: Fs, node1: string, node2: string, order: seq<CertFile>)
    requires LoadCredentials(env, fs, node1, Reasons) == LoadCredentials(env, fs, node2, Reasons)
    ensures GetSavedCredentials(env, fs, node1, order) == GetSavedCredentials(env, fs, node2, order)
  {
  }

  /** With a single failing read, the error is the same whatever order the
      reads complete in. */
  lemma OneFailureAnyOrder(env: Env, fs: Fs, node: string, order1: seq<CertFile>, order2: seq<CertFile>, k: CertFile)
    requires LoadCredentials(env, fs, node, Reasons).Ok?
    requires PathsOf(LoadCredentials(env, fs, node, Reasons).value).Some?
    requires forall j :: ReadOf(ReadAll(env, fs, PathsOf(LoadCredentials(env, fs, node, Reasons).value).value), j).None? <==> j == k
    ensures GetSavedCredentials(env, fs, node, order1) == GetSavedCredentials(env, fs, node, order2) == Err(BadRequest(ReadFailed(k)))
  {
    var file := LoadCredentials(env, fs, node, Reasons).value;
    var done := ReadAll(env, fs, PathsOf(file).value);
    ReportedOnly(order1, done, k);
    ReportedOnly(order2, done, k);
    assert !file.JNull?;
  }

  lemma ReportedOnly(order: seq<CertFile>, done: Reads, k: CertFile)
    requires forall j :: ReadOf(done, j).None? <==> j == k
    ensures Reported(order, done) == Some(k)
  {
    assert ReadOf(done, k).None?;
    assert AnyFailed(done) by {
      match k
      case CaCert =>
      case ClientCert =>
      case ClientKey =>
    }
  }
}
