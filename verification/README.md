# coretroller core, modelled in Dafny

coretroller is a command-line controller for a Core Lightning node with a
Telegram bot attached. This project models its core:

- **The credential store.** This is a `.corebos` directory in the user's
  home. It holds a `config.json` naming the default saved node, and one
  directory per saved node holding a `credentials.json`.
  - LNSocket credentials are the node's public key, a commando rune and a
    socket.
  - gRPC credentials are the paths of a CA certificate, a client certificate
    and a client key, plus a socket.
- **Reading and writing the store.** The readers are
  `getLnSocketCredentials` and `getSavedCredentials`. The writers are
  `putLnSocketCredentials` and `putSavedCredentials`. The writers verify
  what they saved by connecting to the node.
- **The interactive capture of credentials.** `askLnSocketCredentials` and
  `askPaths` put a fixed sequence of prompts and hand the answers to a
  writer.
- **LNSocket sessions.** `authenticatedLn` opens a session.
  `getAuthenticatedLns` opens one session per distinct node name. The
  commando calls are `listfunds`, `newaddr` and `getinfo`.
- **The Telegram bot.**
  - `checkAccess`.
  - The `/info`, `/stop`, `/version`, `/start` and `/connect` commands.
  - The inline-button handler.
  - The "lost connection" notice.
  - `startTelegramBot` and `runTelegramBot`.
- **The two wallet queries.** `getBalance` and `getDepositAddress`.

Every operation is a pure function. The outside world becomes a parameter:

- the disk is an `Fs` value;
- the network is a `Network` giving the reachable peers and each peer's
  `getinfo` answer;
- the user's answers to prompts are an `Answers` record;
- the registry's answer to the version request is a `Registry` value;
- the order in which concurrent file reads complete is a list;
- how a Telegram reply or send settles is a `Result`, for the handlers
  that return or await it.

An operation returns what it did as well as how it settled:

- **Store writers:** the disk afterwards.
- **Session code:** the trace of session `Effect`s (connect, call, destroy).
- **Telegram handlers:** the trace of chat `Action`s.

A rejected promise or a callback error is `Err(Failure)`:

- `Coded(code, reason)` for the `[code, reason]` arrays. The code is a
  number, or the string `'400'` where the source writes it that way.
- `Thrown(message)` for exceptions. Where the exception is thrown inside
  an `fs` callback, or by a synchronous `async.auto` task after an awaited
  one, nothing catches it in the source: the process ends and the promise
  never settles. The model keeps such a crash as a `Thrown` result of the
  operation, and "## Left out" names the members where this happens.

The `async.auto` task graphs are modelled in the order the library runs
them. Tasks are started in the order of their keys once their dependencies
are done. When a task fails synchronously, the tasks queued after it are
never started. Two consequences follow:

- `/info` removes the command message only once the access check has passed
  (`InfoCommand.UnauthorizedLeavesChatAlone`).
- A failing `validate` step leaves every action untouched.

## Model

| member | source | states |
|---|---|---|
| Paths.HomePath | storage/home_path.js:17-21 | A falsy file name is dropped from the join, giving the `.corebos` directory itself. Otherwise the name is joined under it. |
| Paths.WriterReaderPathsAgree | core-lightning/put_ln_socket_credentials.js:115 | The writer's path (`homePath({file: node})` joined with the file name) is the reader's path (`homePath({})`, node, file name), for every node and name. |
| Paths.JoinAllAppend | storage/home_path.js:20 | `path.join` of a concatenation is joining in two steps. |
| FileSystem.ReadFile | core-lightning/get_ln_socket_credentials.js:35-39 | A read succeeds exactly on an existing file that is not a directory, and yields its contents. |
| FileSystem.WriteFile | core-lightning/put_ln_socket_credentials.js:122-130 | A write succeeds exactly when the parent directory exists and the target is neither a directory nor locked. Afterwards the target reads back as the data, and every other file reads as before. |
| FileSystem.Mkdir | core-lightning/put_ln_socket_credentials.js:54-69 | `mkdir` fails exactly when the parent is missing, the path exists or it is locked. Either way no file changes, and on success the directory is added. |
| FileSystem.MkdirEnsuresDir | core-lightning/put_ln_socket_credentials.js:71-86 | When the parent exists and the path is not a file, the directory exists after `mkdir`, whether the call failed (already there) or not. |
| Json.StringifyParses | core-lightning/put_ln_socket_credentials.js:11 | Round trip: parsing what `JSON.stringify(obj, null, 2)` writes for a flat object of strings gives back that object. |
| Json.LookupField | core-lightning/get_ln_socket_credentials.js:96-100 | In an object written from distinct keys, each key reads back as the string written under it. |
| Json.Get | core-lightning/get_ln_socket_credentials.js:47-49 | Reading a member of `null` throws; on any other value it yields the member, or nothing on non-objects. |
| CredentialStore.ResolveNode | core-lightning/get_ln_socket_credentials.js:28-55 | A named node is used as given. Without a name, the ladder is, in order: a missing `config.json`, an unparsable one, a `null` one (the member read throws), a falsy `default_saved_node` (`noDefault`), and a truthy non-string one (the path join throws `ERR_INVALID_ARG_TYPE`). Otherwise the result is that non-empty string. |
| CredentialStore.ReadCredentials | core-lightning/get_ln_socket_credentials.js:57-79 | A missing credentials file and an unparsable one are told apart. Otherwise the result is the parsed file. |
| CredentialStore.DefaultLoadsNamed | core-lightning/get_ln_socket_credentials.js:28-60 | A reader given no name reads exactly what it reads when given the node `config.json` names. |
| CredentialStore.Save | core-lightning/put_ln_socket_credentials.js:54-132 | After a successful save, the credentials file holds the stringified fields, both before and after `config.json` lands. `config.json` names the node only for a default save and is untouched otherwise. No other file changes. The save succeeds iff each file it writes can be written. A failed config write reports `UnexpectedErrorWritingConfigFile`, and otherwise a failed credentials write reports `UnexpectedErrorWritingCredentialsFile`. |
| CredentialStore.MakeDirs | core-lightning/put_ln_socket_credentials.js:54-86 | Creating the store and node directories, errors ignored, changes no file. |
| CredentialStore.DefaultBack | core-lightning/put_ln_socket_credentials.js:88-110 | The `config.json` the writer writes resolves, in the reader, to the node it names. |
| CredentialStore.ConfigIsNotCredentials | core-lightning/put_ln_socket_credentials.js:9-10 | `config.json` is never the credentials file of any node, so the two writes never touch the same file. |
| CredentialStore.SavedCredentialsPath | core-lightning/put_saved_credentials.js:120 | The gRPC writer's path is the reader's path for the same node. |
| LnSocketCredentials.FromFile | core-lightning/get_ln_socket_credentials.js:81-102 | The checks `public_key`, `rune`, `socket` are made in that order, each with its own error; a `null` file throws. Success iff all three are present and truthy, and the members are passed on unchanged. |
| LnSocketCredentials.GetLnSocketCredentials | core-lightning/get_ln_socket_credentials.js:25-104 | Success iff the file loads and passes the member checks; on success all three members are truthy. With a node name it is the named file run through the checks. Without one, a failure to resolve the node is the result: a missing `config.json` gives `ExpectedConfigFileToGetLnSocketCredentialsFrom`, and the rest of the ladder is `ResolveNode`'s. A resolved node's file is run through the checks. |
| LnSocketCredentials.NamedNodeIgnoresConfig | core-lightning/get_ln_socket_credentials.js:28-31 | When a node is named, the contents of `config.json` make no difference to the result. |
| LnSession.CheckCredentials | core-lightning/authenticated_ln.js:22-36 | Success iff credentials exist and key, rune and socket are truthy; absent credentials throw `ExpectedValidCredentialsToGetAuthenticatedLn`. |
| LnSession.StoredCredentialsPassChecks | core-lightning/authenticated_ln.js:20-36 | Credentials the reader returns always pass the session's own guards, so those guards only matter for other callers. |
| LnSession.AuthenticatedLn | core-lightning/authenticated_ln.js:19-55 | A credential failure is passed on with no session attempted. Otherwise one connect to (key, socket) is attempted, and it succeeds iff the peer is reachable, giving the session with the saved rune. |
| LnSession.ListFunds | core-lightning/methods.js:2-25 | The first effect calls `listfunds` with the given params and the session's rune. An error answer throws its message and destroys the session; a result is returned with the session left open. `NewAddr` is the same call for `newaddr`, with the same contract. |
| LnSession.GetInfo | core-lightning/put_ln_socket_credentials.js:143 | The same contract for `getinfo` with `params: undefined`, with the peer's answer taken from the network. |
| PutLnSocketCredentials.Validate | core-lightning/put_ln_socket_credentials.js:29-51 | Success iff every argument is given. Otherwise the first missing one in source order is reported; the saved-node error carries the string code `'400'`. |
| PutLnSocketCredentials.ReadBack | core-lightning/put_ln_socket_credentials.js:112-132 | Whatever else is on disk, a node whose credentials file holds what the writer writes reads back as the saved key, rune and socket. |
| PutLnSocketCredentials.SaveThenGet | core-lightning/put_ln_socket_credentials.js:112-132 | Round trip: after a successful save, the reader returns the saved credentials for the node, both before and after `config.json` lands. |
| PutLnSocketCredentials.SaveDefaultThenGet | core-lightning/put_ln_socket_credentials.js:88-110 | After a successful default save, the reader given no node name returns the saved credentials. |
| PutLnSocketCredentials.SavedReadsBack | core-lightning/put_ln_socket_credentials.js:134-141 | After a successful save, the name the verification reads under (empty for a default node) yields the saved credentials. |
| PutLnSocketCredentials.VerifySaved | core-lightning/put_ln_socket_credentials.js:134-152 | A read failure is passed on with no session. Otherwise the session connects first. An unreachable peer fails the handshake, and an error answer throws its message. An empty answer destroys the session and then throws `500-FailedToValidateLnSocketCredentials`. It succeeds iff the peer is reachable and answers `getinfo` with a result. |
| PutLnSocketCredentials.AskGetInfo | core-lightning/put_ln_socket_credentials.js:143-151 | The `getinfo` call comes first and a destroy comes last. An error answer throws its message, and an empty answer throws `500-FailedToValidateLnSocketCredentials`. Success iff the answer is a result. |
| PutLnSocketCredentials.PutAsWritten | core-lightning/put_ln_socket_credentials.js:132-149 | The writer with the verification waiting on the credentials file only. An invalid argument leaves the disk and sessions untouched. Otherwise the disk afterwards is the save's disk, and a failed save is the result with no session effects. After a successful save, the verification runs against the whole save's disk if the config write has landed, and against the disk with only the credentials written if it has not. |
| PutLnSocketCredentials.NamedSaveHasNoRace | core-lightning/put_ln_socket_credentials.js:136-140 | A named (non-default) save verifies the same way whether or not the config write has landed, since it passes the node name and reads no `config.json`. |
| PutLnSocketCredentials.PutLnSocketCredentials | core-lightning/put_ln_socket_credentials.js:25-156 | The corrected writer. An invalid argument changes nothing. Valid arguments leave the disk as the save leaves it, and a failed write is the outcome, with no session. Success implies the node, and the name verified, read back as the saved credentials. The verification connects to the saved peer and ends by destroying it. Given valid arguments and a successful write, the save succeeds iff the saved peer is reachable and answers `getinfo` with a result. An empty answer gives `500-FailedToValidateLnSocketCredentials` after the destroy. |
| PutLnSocketCredentials.RaceFailsFirstDefaultSave | core-lightning/put_ln_socket_credentials.js:134-141 | Counterexample: on a store with no `config.json`, the verification as written, reading before `config.json` lands, fails with `ExpectedConfigFileToGetLnSocketCredentialsFrom`. The corrected writer succeeds on the same input. |
| SavedCredentials.FirstFailed | core-lightning/get_saved_credentials.js:67-104 | The read reported is one that failed and is in the completion order. When none is reported, every read in that order succeeded. |
| SavedCredentials.Reported | core-lightning/get_saved_credentials.js:67-104 | A failure is reported iff some certificate read failed, and the read it names did fail. |
| SavedCredentials.GetSavedCredentials | core-lightning/get_saved_credentials.js:10-126 | Load failures pass through. A `null` file throws, and non-string paths throw `ERR_INVALID_ARG_TYPE`. When a read fails, the error names a read that failed. When all reads succeed, a falsy `socket` fails with `ExpectedSocketInCredentialsFileToGetSavedCredentials`. Success iff the load, the paths and the reads succeed and `socket` is truthy; it returns the read contents and the file's `socket`. |
| SavedCredentials.SameFileSameResult | core-lightning/get_saved_credentials.js:43-65 | Two names whose credentials files load the same give the same result. |
| SavedCredentials.OneFailureAnyOrder | core-lightning/get_saved_credentials.js:67-104 | When exactly one certificate read fails, that failure is reported whatever order the reads complete in. |
| SavedCredentials.ReportedOnly | core-lightning/get_saved_credentials.js:67-104 | With a single failing read, that read is the one reported. |
| PutSavedCredentials.Validate | core-lightning/put_saved_credentials.js:30-56 | Success iff the three paths are given and exist, the logger is given and socket and name are non-empty. Each check's error is given for the first failing check, in source order: the paths with code `'400'`, the logger, the socket, then the name with code `'400'`. |
| PutSavedCredentials.PutSavedCredentials | core-lightning/put_saved_credentials.js:26-162 | An invalid argument changes nothing. Valid arguments leave the disk as the save leaves it, and a failed write is the outcome. Success iff validation, both writes and the verifying read succeed. A verification failure is the reader's error. |
| PutSavedCredentials.ReadBack | core-lightning/put_saved_credentials.js:117-139 | A node whose credentials file holds what the writer writes reads back as the contents of the files it names, with its socket. |
| PutSavedCredentials.SaveThenGet | core-lightning/put_saved_credentials.js:117-139 | Round trip: after a successful save, the reader under the node's name, and under the name verified, returns the named files' contents and the socket. |
| Prompts.PublicKeyForm | core-lightning/ask_ln_socket_credentials.js:5 | A public key is exactly `02` or `03` followed by 64 hexadecimal digits. |
| Prompts.PublicKeyIgnoresCase | core-lightning/ask_ln_socket_credentials.js:5 | The `/i` flag: a string is a key iff its lower-case form is. |
| Prompts.Judge | core-lightning/ask_ln_socket_credentials.js:40-50 | An empty input is refused. A public-key prompt accepts exactly keys and otherwise explains "Expected valid public key". Path prompts accept exactly existing paths. |
| Prompts.FirstEmpty | core-lightning/ask_ln_socket_credentials.js:40-43 | The position of the first empty answer: absent iff every answer is non-empty, and otherwise an empty one with only non-empty ones before it. |
| Prompts.Collect | core-lightning/ask_ln_socket_credentials.js:32-144 | Prompts are put in order up to the first empty answer, which fails with that prompt's error. With no empty answer every prompt is put and the answers come back as given. |
| Prompts.CollectTexts | core-lightning/ask_ln_socket_credentials.js:32-144 | The same on the library's answers, a missing one read as empty: success iff every prompt is answered; on failure exactly the prompts up to the first unanswered one were put. |
| AskLnSocketCredentials.AskLnSocketCredentials | core-lightning/ask_ln_socket_credentials.js:16-183 | The argument errors come first. The first empty answer fails with its prompt's error, after exactly the prompts up to it. Otherwise all five prompts are put and the writer's outcome, with the answers mapped onto its arguments, is returned. |
| AskLnSocketCredentials.AskedPrefix | core-lightning/ask_ln_socket_credentials.js:32-144 | The prompts put are always a prefix of the declared ones, in order. |
| AskLnSocketCredentials.UnansweredWritesNothing | core-lightning/ask_ln_socket_credentials.js:40-43 | A prompt left unanswered ends the call with an error, with the disk unchanged and no session opened. |
| AskLnSocketCredentials.AskThenGet | core-lightning/ask_ln_socket_credentials.js:165-180 | After a successful capture, the node reads back under the name given, with the key, rune and socket answered. The answers are mapped onto the right members although they are asked in a different order. |
| AskPaths.AskPaths | core-lightning/ask_paths.js:15-224 | The same ladder as the LNSocket capture, for the three paths, socket and name, ending in the gRPC writer's outcome. |
| AskPaths.AskedPrefix | core-lightning/ask_paths.js:23-201 | The prompts put are always a prefix of the declared ones, in order. |
| AskPaths.UnansweredWritesNothing | core-lightning/ask_paths.js:23-201 | A prompt left unanswered ends the call with an error, with the disk unchanged. |
| AskPaths.AskThenGet | core-lightning/ask_paths.js:204-222 | After a successful capture, the node reads back under the name given. The `client.pem` answer supplies the client certificate and the `client-key.pem` answer the key. |
| CoreLns.NamesOf | core-lightning/get_core_lns.js:23-35 | An absent or empty argument asks for the default node; a single name is a one-element list. |
| CoreLns.Dedup | core-lightning/get_core_lns.js:6 | The result has no repeats, the same elements as the input, and is no longer. |
| CoreLns.DedupFirstSeenOrder | core-lightning/get_core_lns.js:6 | The elements keep the order of their first occurrence in the input. |
| CoreLns.DedupDistinct | core-lightning/get_core_lns.js:6 | A list already free of repeats is kept as it is. |
| LnSession.Collected | core-lightning/get_core_lns.js:38-40 | The async `map` over session attempts. Success iff every attempt succeeds, with the results in list order. A failure is that of an attempt whose predecessors all succeeded. Every attempt is made, and their effects are kept in list order. |
| CoreLns.GetCoreLns | core-lightning/get_core_lns.js:19-61 | With no names: one session for the default node. With names: success iff `authenticatedLn` opens every distinct name. The sessions then come in first-seen order, one per name, each the session opened for that name. Otherwise the failure is that of the first such name that fails. A success holds at least one session. |
| CoreLns.AttemptsGathered | core-lightning/get_core_lns.js:38-40 | The attempts gathered by `map`: success iff every name opens, with each name's session at its position. Otherwise the failure is that of the first name in list order that fails. |
| CoreLns.RepeatedNameOneSession | core-lightning/get_core_lns.js:37 | Asking for `[n, n]` is asking for `n`. |
| Telegram.StrictEqualsSet | libs/core-telegram/authentication/check_access.js:28 | Among set ids, `===` is equality of the values. |
| Access.CheckAccess | libs/core-telegram/authentication/check_access.js:11-39 | Success iff the sender and the connected id are set and equal. A missing sender is a 400, a missing or different id a 401. |
| Access.NumberNeverMatchesString | libs/core-telegram/authentication/check_access.js:28 | A numeric sender never matches a string id, whatever the digits. |
| Access.AccessSymmetric | libs/core-telegram/authentication/check_access.js:17-30 | For set ids the check does not depend on which one is the sender. |
| ConnectCommand.HandleConnect | libs/core-telegram/commands/handle_connect_command.js:12-18 | Exactly one plain reply: "already connected" when an id is set, otherwise the sender's connect code. The handler settles as the returned reply settles. |
| ConnectCommand.ConnectedHidesSender | libs/core-telegram/commands/handle_connect_command.js:13-15 | Once connected, the reply does not depend on who asks. |
| ConnectCommand.CodeIdentifiesSender | libs/core-telegram/commands/handle_connect_command.js:17 | Before connecting, different senders get different replies. |
| StartCommand.HandleStart | libs/core-telegram/commands/handle_start_command.js:12-19 | Exactly one plain reply: "already connected" iff an id is set, otherwise the start message. The handler settles as the returned reply settles. |
| StartCommand.StartDependsOnlyOnConnected | libs/core-telegram/commands/handle_start_command.js:14-18 | The reply depends only on whether an id is set. |
| StopCommand.HandleStop | libs/core-telegram/commands/handle_stop_command.js:15-48 | The argument errors come first, then a refused access, each with no reply. The chat sees something iff the arguments are there and access passes. It then sees exactly the confirmation with its two buttons, and the handler settles as the awaited reply settles. |
| StopCommand.StopOnlyForConnected | libs/core-telegram/commands/handle_stop_command.js:33-43 | The stop confirmation is shown iff an id is set and the sender is that user. |
| VersionCommand.Validate | libs/core-telegram/commands/handle_version_command.js:28-50 | Success iff every argument is given; otherwise the first missing one is reported. |
| VersionCommand.HandleVersion | libs/core-telegram/commands/handle_version_command.js:23-78 | Argument and access failures do nothing. Success iff both pass, and then: the running version, the registry request, and the latest version or the failure text. |
| VersionCommand.AnswerOnlyDecidesLastReply | libs/core-telegram/commands/handle_version_command.js:56-73 | The registry's answer affects only the last reply. |
| InfoCommand.Channels | libs/core-telegram/commands/handle_info_command.js:76 | Singular "active channel" exactly for one channel. |
| InfoCommand.Summaries | libs/core-telegram/commands/handle_info_command.js:68-90 | One block per node, in node order. |
| InfoCommand.GetInfos | libs/core-telegram/commands/handle_info_command.js:60-74 | Every node is asked. A failed call fails the whole; with several, the first in list order is reported. When every call answers, an empty answer fails with the `TypeError` of reading its members. Success iff every node answers with a result, giving each node's answer at its position. |
| InfoCommand.Summed | libs/core-telegram/commands/handle_info_command.js:71-74 | Reading the members of the answers succeeds iff none is empty. It then gives every answer at its position, and otherwise fails with the `TypeError`. |
| InfoCommand.HandleInfo | libs/core-telegram/commands/handle_info_command.js:28-103 | The argument ladder comes first, then access. A refused sender leaves the chat untouched. A passed check removes the command first. A success replies with the MarkdownV2 blocks after the `getinfo` calls; every node answering makes it succeed. |
| InfoCommand.AliasLineReadsBack | libs/core-telegram/commands/handle_info_command.js:79 | Escaping alias and version separately escapes the whole line, which unescapes to the plain text (for an icon free of special characters). |
| InfoCommand.UnauthorizedLeavesChatAlone | libs/core-telegram/commands/handle_info_command.js:54-57 | A refused sender causes no removal, no node call and no reply. |
| Markdown.Escape | libs/core-telegram/commands/handle_info_command.js:8 | Each special character gains one backslash. The result is well escaped and unescapes to the input. |
| Markdown.EscapeUnescape | libs/core-telegram/post/post_nodes_offline.js:6 | The other half of the round trip: every well-escaped text is the escape of its unescaping. |
| Markdown.EscapePlain | libs/core-telegram/post/post_nodes_offline.js:6 | A text without special characters is left alone. |
| Markdown.EscapeAppend | libs/core-telegram/post/post_nodes_offline.js:6 | Escaping works character by character, so it distributes over concatenation. |
| ButtonPush.Validate | libs/core-telegram/buttons/handle_button_push.js:30-48 | The missing bot, context, user and nodes are reported in that order. |
| ButtonPush.Classify | libs/core-telegram/buttons/handle_button_push.js:59-76 | The move-invoice prefix wins, then the move-trade prefix; any other data is its own type. |
| ButtonPush.Dispatch | libs/core-telegram/buttons/handle_button_push.js:79-92 | The bot is terminated iff the type is the terminate command; otherwise the unknown button is warned about. |
| ButtonPush.HandleButtonPush | libs/core-telegram/buttons/handle_button_push.js:25-97 | Success iff the arguments are valid and the presser is the connected user, with exactly one action, the dispatch of the classified data. A failure does nothing. |
| ButtonPush.ClassifyIdempotent | libs/core-telegram/buttons/handle_button_push.js:59-76 | A type classifies as itself. |
| ButtonPush.TerminateOnlyOnItsButton | libs/core-telegram/buttons/handle_button_push.js:51-92 | The bot terminates iff the connected user presses exactly the terminate button (when that command is not one of the move prefixes). |
| PostNodesOffline.Label | libs/core-telegram/post/post_nodes_offline.js:55 | A label (alias, a space, the short id, trimmed) never starts or ends with white space. |
| PostNodesOffline.Labels | libs/core-telegram/post/post_nodes_offline.js:55 | One label per node, in order. |
| PostNodesOffline.Message | libs/core-telegram/post/post_nodes_offline.js:42-62 | There is a message iff a user is connected and some node is offline. It is the italic, escaped "lost connection" event followed by the list. |
| PostNodesOffline.ItalicsAroundSpace | libs/core-telegram/post/post_nodes_offline.js:60 | Escaping the event and the details apart, around a space, is escaping the whole sentence, since a space needs no escape. |
| PostNodesOffline.PostNodesOffline | libs/core-telegram/post/post_nodes_offline.js:24-79 | The argument ladder comes first. With nothing to say nothing is sent and the call resolves empty. Otherwise the message goes to the connected user, and the call resolves to it iff the awaited send succeeds; a rejected send is its error. |
| PostNodesOffline.MessageReadsBack | libs/core-telegram/post/post_nodes_offline.js:60 | Stripping the italics and unescaping the message gives the plain event and details. |
| PostNodesOffline.OneNodeDetails | libs/core-telegram/post/post_nodes_offline.js:58 | For one node the details name exactly that node's label. |
| PostNodesOffline.LabelShowsAlias | libs/core-telegram/post/post_nodes_offline.js:55 | An alias without surrounding spaces is at the head of the label. |
| StartTelegramBot.Validate | telegram/start_telegram_bot.js:63-93 | Success iff every argument passes. The checks come in source order, including refusing an id that is the bot's own (the key's prefix). |
| StartTelegramBot.ToNumber | telegram/start_telegram_bot.js:290 | `Number(code)` is the decimal value of a numeric code, and `NaN` otherwise. |
| StartTelegramBot.CodeVerdict | telegram/start_telegram_bot.js:267-283 | An empty code is refused. A non-numeric one is explained. A numeric one that is the bot's id is explained. Every other code is accepted. |
| StartTelegramBot.AcceptedCodePassesIdCheck | telegram/start_telegram_bot.js:273-290 | A canonically written accepted code, turned into a number, is never taken for the bot's id by the argument check. |
| StartTelegramBot.ZeroCodeLocksOut | telegram/start_telegram_bot.js:267-290 | The code "0" is accepted, yet the id it gives is falsy, so every later access check fails. |
| StartTelegramBot.FromName | telegram/start_telegram_bot.js:18 | Alias, a space and the first eight characters of the key, with the length that implies. |
| StartTelegramBot.Sanitize | telegram/start_telegram_bot.js:32 | No `*`, `~` or backquote is left, and every underscore is escaped by a backslash. |
| StartTelegramBot.SanitizeAppend | telegram/start_telegram_bot.js:32 | Sanitizing distributes over concatenation. |
| StartTelegramBot.SanitizePlain | telegram/start_telegram_bot.js:32 | A text without underscores or removed characters is left alone. |
| StartTelegramBot.NodeLookup | telegram/start_telegram_bot.js:99-117 | One session's `getinfo`: its entry (session, alias, sanitized display name, key) iff the call answers with a result, and `FailedToGetNodeInfo` on any failure. |
| StartTelegramBot.GetNodes | telegram/start_telegram_bot.js:96-119 | Success iff every node answers `getinfo` with a result, giving each node's entry at its position. Any failure is `FailedToGetNodeInfo`. |
| StartTelegramBot.Refs | telegram/start_telegram_bot.js:332 | Each node is announced by its alias and key, in order. |
| StartTelegramBot.UserId | telegram/start_telegram_bot.js:254-296 | A set id is kept. Otherwise an empty answer fails, and any other answer becomes `Number(code)`. |
| StartTelegramBot.Proceed | telegram/start_telegram_bot.js:121-351 | After the node lookups: the handlers are registered iff not yet registered; a code is asked only when no id is set; there is no failure iff the id and the announcement succeed; a run ending in success announces the nodes online to the connected user. The earlier steps are kept as the trace's prefix. |
| StartTelegramBot.Launch | telegram/start_telegram_bot.js:95-351 | The handlers are registered iff not yet registered and the nodes answered. A code is asked only when no id is set. The failure is absent iff nodes, id and announcement succeed, and a success ends by announcing the nodes online to the connected user. |
| StartTelegramBot.Start | telegram/start_telegram_bot.js:54-354 | An argument error is reported as the failure, with nothing done and the id unchanged. Otherwise it is `Launch`. The handlers are registered iff they were not yet and the nodes answer. There is no failure iff arguments, nodes, id and announcement succeed. |
| StartTelegramBot.RegisteredOnce | telegram/start_telegram_bot.js:125-128 | Once the handlers are registered, no later start registers them again. |
| StartTelegramBot.GivenIdNotAsked | telegram/start_telegram_bot.js:257-260 | With an id given, no code is asked and that id is the connected one. |
| StartTelegramBot.DisplayName | telegram/start_telegram_bot.js:103-111 | A node's display name is its sanitized alias and sanitized short key. |
| RunTelegramBot.Validate | telegram/run_telegram_bot.js:44-74 | Success iff every argument is given; otherwise the first missing one in source order is reported. |
| RunTelegramBot.Reported | telegram/run_telegram_bot.js:121-129 | A node's key is reported iff its `getinfo` succeeds with a result. Errors are swallowed. |
| RunTelegramBot.OnlineIds | telegram/run_telegram_bot.js:135-149 | An id is online iff it is non-empty and reported by some session. There are no more ids than sessions. |
| RunTelegramBot.OnlineIdsAppend | telegram/run_telegram_bot.js:146 | Filtering goes session by session, keeping their order. |
| RunTelegramBot.RunTelegramBot | telegram/run_telegram_bot.js:39-154 | An argument error does nothing, and a failing first session round fails without starting the bot. When the first round succeeds and the second fails, the run fails with the second round's error. Success iff arguments and both rounds succeed. Then the connected id comes from the bot, and the online ids are those the second round reports. |
| RunTelegramBot.BotRefusesOnlyItsOwnId | telegram/run_telegram_bot.js:85-108 | The bot refuses its arguments only when the id is the bot's own. |
| RunTelegramBot.BotFailureOnlyLogged | telegram/run_telegram_bot.js:138-147 | A failed bot start, whatever its error, does not fail the run: with arguments and both session rounds succeeding, the run succeeds. |
| GetBalance.Tokens | balances/get_balance.js:4 | `Math.floor(msat / 1000)`: the largest whole number of tokens within the amount. |
| GetBalance.OnChain | balances/get_balance.js:53-73 | Zero when only off-chain funds are asked for or there are no outputs. Otherwise the tokens of the outputs counted. |
| GetBalance.OffChain | balances/get_balance.js:76-96 | Zero when only on-chain funds are asked for or there are no channels. Otherwise the tokens of the channels counted. |
| GetBalance.GetBalance | balances/get_balance.js:26-129 | The missing node and `listfunds` failures pass through. Success iff neither occurs. The flags pick on-chain only, off-chain only, detailed, or the sum, in that order of precedence. |
| GetBalance.ConfirmedOutputsAtMostAll | balances/get_balance.js:60-71 | Counting only confirmed outputs never gives more than counting all. |
| GetBalance.NormalChannelsAtMostAll | balances/get_balance.js:83-94 | Counting only normal channels never gives more than counting all. |
| GetBalance.TokensMonotonic | balances/get_balance.js:4 | More millisatoshis never give fewer tokens. |
| GetBalance.ConfirmedAtMostUnconfirmed | balances/get_balance.js:53-96 | Asking for the confirmed balance never gives more on either side. |
| GetBalance.BothOnlyFlagsGiveZero | balances/get_balance.js:99-126 | With both "only" flags the answer is a zero total. |
| GetBalance.PerSideRounding | balances/get_balance.js:99-126 | Rounding each side down separately loses at most one token against rounding the sum. |
| GetBalance.TotalIsSumOfDetailed | balances/get_balance.js:99-126 | The total is the sum of the detailed sides. |
| GetBalance.OutputsMsatAppend | balances/get_balance.js:60-71 | The sum over outputs splits over concatenation. |
| GetBalance.NormalStateIsNotMatched | balances/get_balance.js:6 | A channel whose state is `CHANNELD_NORMAL` is not counted as normal, because its lower-case form keeps the underscore. |
| GetDepositAddress.AddressType | chain/get_deposit_address.js:32-44 | Type 1 exactly for the `np2wpkh` format, type 0 for anything else or none. |
| GetDepositAddress.Chosen | chain/get_deposit_address.js:64-73 | The bech32 address when it is present and non-empty, else the p2sh-segwit member as it is. The result is `undefined` exactly when neither gives an address, and empty only when the p2sh-segwit member is the empty text. |
| GetDepositAddress.Amount | chain/get_deposit_address.js:3 | A zero amount is written "0". |
| GetDepositAddress.GetDepositAddress | chain/get_deposit_address.js:19-77 | The missing node and `newaddr` failures pass through. Success iff neither occurs. The address is the `bech32` one when it is present and non-empty, and the `p2sh_segwit` member (possibly `undefined`) otherwise. The QR code encodes the payment URL of that same address, written `undefined` when absent. |
| GetDepositAddress.NoAddressIsUndefined | chain/get_deposit_address.js:58-70 | An answer with neither address gives an `undefined` deposit address, and a QR code of `bitcoin:undefined?amount=` and the amount. |
| GetDepositAddress.UrlCarriesAddress | chain/get_deposit_address.js:58 | The payment URL is `bitcoin:`, the address, then `?amount=` and the amount. |
| GetDepositAddress.UrlInjective | chain/get_deposit_address.js:58 | Different addresses (without `?`) give different payment URLs for the same amount. |
| Text.Trim | libs/core-telegram/post/post_nodes_offline.js:55 | The result is a slice of the input with no white space at either end, where white space is every character JavaScript's `trim()` removes. Everything cut off is white space. |
| Text.TrimKeeps | libs/core-telegram/post/post_nodes_offline.js:55 | A text without surrounding spaces is left alone. |
| Text.Prefix | libs/core-telegram/post/post_nodes_offline.js:9 | `slice(0, n)`: a prefix of the text, n characters long, or all of a shorter text. |
| Text.LowerAscii | balances/get_balance.js:85 | `toLowerCase` on ASCII: same length, upper-case letters lowered, everything else kept. |
| Text.DecimalRoundTrip | telegram/start_telegram_bot.js:290 | Writing a number in decimal and reading it back gives the number. |
| Text.CanonicalRoundTrip | telegram/start_telegram_bot.js:76 | A canonically written numeral, read and written again, gives the same text. |

## Left out

- I/O:
  - Logging (`logger.info`, `logger.error`, `console.log`) is not modelled.
  - The process exit on the terminate button is not modelled.
  - The QR image generator and `toFixed` rendering of amounts are parameters.
  - The prompt library is an oracle of answers.
  - The npm registry request is a `Registry` value.
  - The LNSocket handshake and commando transport are reduced to a `Network`.
- `getInfo` is imported from `core-lightning/methods.js`, but that file does not define it. It is modelled as a commando `getinfo` call like the other two methods.
- `getCoreLns` is imported from `core-lightning/index.js`, but that file does not export it. It is modelled as the function `get_core_lns.js` defines.
- Json.Parse: a number literal whose value underflows to zero (such as `1e-400`) is read as truthy, where `JSON.parse` gives the falsy 0. A `\u` escape of a lone surrogate (such as `\uD800`) is refused, where `JSON.parse` accepts it. Both matter only to hand-edited files.
- `authenticatedCoreLightning` and the gRPC client are not part of this model. Of the gRPC writer's verification only the credentials read is kept; the `Getinfo` call is left out.
- Concurrency:
  - Tasks that run concurrently in the source are modelled one after another, in the order `async.auto` starts them.
  - The certificate reads take a completion order as a parameter.
- Numbers are naturals:
  - msat amounts cannot be negative or fractional and never overflow;
  - `Number(code)` is modelled for decimal digit strings only; exponents, hexadecimal and surrounding spaces all give `NaN` here.
- StartTelegramBot.ToNumber: `Number(code)` is modelled for decimal digit strings only. Signs, fractions, exponents, hexadecimal and surrounding spaces all give `NaN` here, where JavaScript reads them as numbers.
- StartTelegramBot.CodeVerdict: `isNaN` is modelled for decimal digit strings only, so signed, fractional, exponent, hexadecimal and space-padded codes are refused as non-numeric here, where the source accepts them.
- PutSavedCredentials.PutSavedCredentials: the verification is ordered after both writes. In the source it waits for the credentials file only, so the race shown by the Findings row can also happen here; it is not modelled separately.
- PutSavedCredentials.PutSavedCredentials: a `Getinfo` failure throws inside a gRPC callback, which the promise never reports. It is not modelled.
- LnSession.Collected: when several attempts fail, async `map` reports whichever settles first; the model reports the first in list order.
- LnSession.AuthenticatedLn: a handshake that hangs is not modelled. `genkey` randomness is not modelled.
- InfoCommand.HandleInfo: a failing `remove` or `reply` is not modelled. An empty `getinfo` answer is modelled as an `Err(Thrown(..))` result carrying the `TypeError` its member access throws. In the source that throw comes from the synchronous `summary` task, which async re-throws outside any promise: the process ends and `/info` never settles.
- InfoCommand.Summed: its `Err(Thrown(UndefinedAccess))` stands for an uncaught crash, not a rejection, as for `HandleInfo`.
- InfoCommand.GetInfos: its `Err(Thrown(UndefinedAccess))` stands for the same uncaught crash from `summary`.
- CredentialStore.ResolveNode: a `null` `config.json` and a truthy non-string `default_saved_node` throw inside the `readFile` callback or the next task. Nothing catches either, so the process ends and the promise never settles; the model gives `Err(Thrown(..))` instead.
- LnSocketCredentials.FromFile: a `null` credentials file throws in the `credentials` task, which async starts from the `readFile` callback. This is an uncaught crash in the source, modelled as `Err(Thrown(NullAccess))`.
- SavedCredentials.GetSavedCredentials: the `null`-file and non-string-path throws happen in the read tasks, which async starts from the credentials file's `readFile` callback, so they are uncaught crashes in the source, modelled as `Err(Thrown(..))`. Also, an integer path is taken by `readFile` as a file descriptor rather than refused; the model treats every non-string path as `ERR_INVALID_ARG_TYPE`.
- StartTelegramBot.Start:
  - The help text, commands, callbacks and error handlers registered once are a single `InitBot` step.
  - `setMyCommands` is a single `SetCommands` step that always succeeds.
  - The announcement `postNodesOnline` (not part of this model) is its outcome parameter.
  - The proxy, payments limit and minimum forward amount arguments are not modelled.
- StartTelegramBot.Launch: the handlers registered by the first start keep that call's connected id and nodes for the life of the process. Later calls are not seen by them, and the model records no more than the `botInit` flag.
- RunTelegramBot.RunTelegramBot: the second round of sessions meets a second `Network` value, since the nodes may have changed meanwhile. The result's `online` holds node keys, as the code builds it; the doc comment promises `{alias, id}` objects.
- GetBalance.GetBalance: the channel state is compared with `channeldnormal` as written. Core Lightning reports `CHANNELD_NORMAL`, so channels are never counted as normal; see `GetBalance.NormalStateIsNotMatched`.
- ButtonPush.HandleButtonPush: the move-invoice and move-trade actions fall into the unknown-button branch, as the source has no case for them. The termination and warning actions' own effects are not modelled.
- VersionCommand.HandleVersion: the failure of either reply is not modelled.

## Findings

| source | as written | input that shows it | evidently intended | confidence | as-written member | corrected member |
|---|---|---|---|---|---|---|
| core-lightning/put_ln_socket_credentials.js:134-141 | `validateCredentials` depends only on `writeCredentialFile`. For a default node it reads the credentials through `config.json`, which `writeConfigFile` may not have written yet. | The first default save on a store with no `config.json`: the verification fails with `ExpectedConfigFileToGetLnSocketCredentialsFrom` although both files get written. | The verification waits for both writes. Then a reachable node that answers `getinfo` makes the save succeed. | not executed | PutLnSocketCredentials.RaceFailsFirstDefaultSave | PutLnSocketCredentials.PutLnSocketCredentials |
