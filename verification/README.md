# Hedge-v3-cli core, modelled in Dafny

Hedge-v3-cli is the command-line companion of the Hedge image-library server. This
project models its core:

- **Session lifecycle** (`ServerManager`). The CLI reads the server's PID handshake file
  and classifies the server as Stop, Starting, Loading or Running. It spawns the server
  when no handshake exists and polls up to 100 times for a `READY` health reply. It then
  acquires a session with one lease signal: 10 s in one-shot mode, or 30 s renewed every
  25 s in maintained mode. Requests carry the discovered `http://localhost:<port>` address
  and a bearer token. Replies are sorted into a decoded value, a structured API error, or a
  transport or decoding failure.
- **Download layer** (`DownloadModule`, `Adapter`). The site-to-rule registry, dispatch to
  the only supported rule (`sankakucomplex`), the retrying fetch primitive (at most three
  sends, with connect and timeout failures retried), the pause between items, and the
  conversion of a scraped result into a source-data update form.
- **Scraping sweep** (`source_data download`). One query for pending items, then each item
  is downloaded, its update is sent, and it is tallied. The sweep paces itself between
  items.
- **Import commands** (`import list/add/batch/save`) and the import API module. This
  covers when each command contacts the server, the exact requests it sends, and the
  reason and summary texts it prints.
- **Local configuration and channel selection**. This covers where the configuration file
  is looked for, its defaults under the per-user data directory, and the stored current
  channel.

Everything the program asks of the outside world is a parameter of the model:

- file reads, the environment and the platform;
- HTTP replies, given as the outcome the transport and the JSON decoders produced;
- the outcome of the scraping rule.

Loops that wait on the world are methods over a sequence of observations: the readiness
poll and the retrying fetch. Rust's integer behaviour is written out where it matters:
truncating division, `as u64`, and `u64`/`u32` wrap-around in a release build. The sweep's
pacing uses the `wait` of the code, wrap-around included. A `panic!` is the value
`Common.Fatal`: the handshake file's read errors abort the readiness poll and the session
acquisition with it.

Modules: `Common` (Option, Result, Fatal), `Text` (decimal rendering and parsing, join and
concatenation), `Paths` (`PathBuf::join`), `Json`, `Dates` (chrono's `%Y-%m-%d`), `Http`,
`Server`, `Download`, `SourceDataCommand`, `ImportApi`, `ImportCommand`, `Config`,
`Channel`.

Where the code and its documented behaviour differ, the model follows the code:

- The pacing `wait` underflows when the whole seconds an item took exceed the spacing (see Findings).
  The documented behaviour is the half-spacing floor. The sweep's pauses follow the code
  (`Download.WaitAsWritten`); they agree with the corrected `Download.Wait` exactly while
  every item's cost fits within the spacing.
- `source_data download` ignores an error returned by session acquisition and queries anyway.
  The import commands stop with "Cannot establish connection to server." instead.
- `server.rs` and `download/mod.rs` read `config.work_path` and `config.download`, which the
  `LocalConfig` of `config.rs` does not have. The model gives each its own configuration
  record: `Server.ServerConfig` and `Download.DownloadConfig`.

## Model

| member | source | states |
|---|---|---|
| Server.ReadPidFile | src/module/server.rs:256-269 | A missing handshake file means "no server" and is the only way to get no record. A parsed file gives its record. Any other read error, or a body that does not parse, aborts with a message naming the file. |
| Server.StartServer | src/module/server.rs:142-159 | The spawned command is the server binary under the server path. Its only argument pair is `--channel-path` and the channel's directory under appdata. Output goes to `server.log` in that directory. |
| Server.SpawnPointsAtPidFile | src/module/server.rs:142-147 | The directory the server is started with holds both the handshake file that `read_pid_file` reads and the log file the spawn writes, so spawn and poll meet at the same file. |
| Server.SetAccess | src/module/server.rs:187-190 | Both access fields are overwritten: the address becomes known and the token is the handshake's. |
| Server.SetAccessRoundTrip | src/module/server.rs:187-190 | The stored address names localhost on exactly the handshake's port, and the stored token is the handshake's. |
| Server.SetAccessInjective | src/module/server.rs:187-190 | Two handshakes install the same access only if they have the same port and token. |
| Server.FreshManagerSendsBarePath | src/module/server.rs:26-34 | A new manager knows no address and no token, so its requests go to the bare path without an authorization header. |
| Server.Status | src/module/server.rs:35-56 | Stop without a handshake and nothing sent. With a handshake, pid, port and start time are reported. A record lacking port or token is Starting, with no probe and access unchanged. A complete record installs its access and sends one health probe. The status is Starting iff the probe fails, Running iff it decodes to `READY`, and Loading for any other decoded reply. |
| Server.StatusRunningIffReady | src/module/server.rs:35-56 | Reading the handshake file as `status` does aborts exactly on the reads that stop the poll without connecting. Otherwise `status` reports Running for exactly the observations at which the readiness poll of `check_connection` connects. |
| Server.PollResult | src/module/server.rs:164-181 | A poll ending at an observation returns the abort of its handshake read iff that read is unreadable or malformed, with `read_pid_file`'s message. Otherwise it reports connected iff the observation is ready. |
| Server.CheckConnection | src/module/server.rs:160-186 | The poll makes between 1 and 100 observations, 100 ms apart, and stops at the first one that is ready or whose handshake read aborts. Observations before the stop are neither. It connects iff it stopped at a ready one. It aborts iff it stopped at an unreadable or malformed handshake file, with the message `read_pid_file` gives. Otherwise it uses the whole budget and ends unconnected. The access left behind is the one from the last complete handshake seen. |
| Server.ConnectedRequestsReachServer | src/module/server.rs:187-196 | After the poll connects, every request goes to localhost on the handshake's port at the requested path, with the handshake's token as bearer. |
| Server.Acquire | src/module/server.rs:57-92 | An unreadable or malformed handshake file at the start aborts before any spawn, poll or lease. Otherwise it spawns iff no handshake file existed. A lease is sent iff the poll connects, exactly one, of 10000 ms one-shot or 30000 ms maintained, addressed with the access the poll found. A poll that stops at an aborting read aborts with that read's message, and a poll without any stop times out; neither sends a lease or starts a heartbeat. Once the lease is sent, the outcome is success iff the lease reply is 2xx/3xx, and otherwise exactly `LeaseRejected` with the lease reply's own error. The outcome is the timeout iff the start was readable and the poll never stopped. A heartbeat starts iff the mode is maintained and acquisition succeeded. |
| Server.CommandOutcome | src/module/server.rs:57-68 | What a command gets from `waiting_for_start`: nothing when the handshake read aborted the process, `Ok` iff acquisition succeeded, the fixed timeout text on a timeout, and the lease error's own text otherwise. |
| Server.LeaseOutlivesPeriod | src/module/server.rs:75-85 | Each 30 s maintained lease is still running when the next renewal goes out 25 s later. |
| Server.HeartbeatRound | src/module/server.rs:278-297 | Each renewal is a 30000 ms lease to the stored access. A round reports an error iff the send itself failed: an error status counts as success. |
| Server.Permanent | src/module/server.rs:93-104 | Sends one request to the permanent-mode endpoint with the enable flag. It succeeds iff the reply decodes and aborts otherwise. |
| Server.PermanentCarriesAccess | src/module/server.rs:93-104 | The permanent-mode request reaches the stored address at the permanent-mode path (or that path alone without an address). It carries the stored token and sends the requested flag. |
| Http.BuildRequest | src/module/server.rs:191-196 | A request carries the resolved URL, the bearer headers of the access, and the method and body given. |
| Http.AuthHeadersCarryToken | src/module/server.rs:194-196 | There is at most one header, it is present iff a token is known, and the bearer token read back from it is the stored one. |
| Http.RequestUrlResolution | src/module/server.rs:192 | With a known address the URL is the address followed by the path. Without one it is the path alone. |
| Http.Decode | src/module/server.rs:197-205 | Success iff a 2xx/3xx reply's body decodes to the expected shape, and then it is that value. An API error iff a non-2xx/3xx body decodes as `{code, message}`, carrying both. Transport iff the send failed or the body could not be read. |
| Http.DecodeNoContent | src/module/server.rs:240-255 | Success iff any 2xx/3xx reply was received, whatever its body. Error statuses are decoded as `Decode` does. A failed send is a transport error. |
| Http.DecodeLenient | src/module/server.rs:288-297 | Success iff a reply was received at all; the only error is a transport error. |
| Http.DecodersNested | src/module/server.rs:191-255 | The three decoders (`req`, `req_without_res`, and the heartbeat's lenient `req_without_res`) are successively more permissive. The lenient decoder fails only when all three fail with a transport error. |
| Text.IntToStringRoundTrip | src/module/server.rs:188 | A port rendered in decimal reads back as the same integer, negative values included. |
| Paths.JoinStaysUnderBase | src/module/server.rs:143-147 | Joining a relative component keeps the base as a prefix and the component as a suffix, with at most one separator between them. |
| Download.NewModule | src/module/download/mod.rs:18-37 | The timeout is 20 s and the spacing 8 s unless configured. The registry is built from the configured site entries. |
| Download.SiteMapKeys | src/module/download/mod.rs:28-31 | The registry's keys are exactly the configured sites. |
| Download.SiteMapLastWins | src/module/download/mod.rs:28-31 | A site's rule is the one in its last configuration entry. |
| Download.Download | src/module/download/mod.rs:38-48 | The rule runs iff the site is registered with `sankakucomplex`, and then its outcome is returned. Otherwise it fails before any fetch, naming the unknown site or the unsupported rule. |
| Download.UnlistedSiteNeverFetches | src/module/download/mod.rs:38-48 | A site no configuration entry names never reaches the rule, and the error names it. |
| Download.RuleRunsIffLastEntrySankaku | src/module/download/mod.rs:28-48 | The rule runs for a configured site iff its last entry names `sankakucomplex`. |
| Download.FetchRequestFor | src/module/download/mod.rs:63-70 | Every fetch carries the four fixed browser headers and the adapter's timeout. |
| Download.TryReq | src/module/download/mod.rs:71-90 | Sends are one more than the leading connect/timeout failures, capped at 3, with a 1 s pause after each such failure. Every send is the same request for the URL, with the browser headers and the adapter's timeout. A response is returned with the number of failures before it, always below 3. Any other failure is returned at once. After three retryable failures the third one is returned. |
| Download.Wait | src/module/download/mod.rs:49-53 | Corrected pacing: the pause is the spacing minus the whole seconds the item took, never below half the spacing, and always within [spacing/2, spacing]. |
| Download.WaitAsWrittenOversleeps | src/module/download/mod.rs:49-53 | As written, a 15 s item with 8 s spacing gives a pause of 2^64 - 7 s, longer than the spacing. |
| Download.WaitAsWrittenAgrees | src/module/download/mod.rs:49-53 | When the cost fits within the spacing, the written and the corrected pause agree. |
| Download.WaitAsWrittenExceedsSpacing | src/module/download/mod.rs:49-53 | As written, whenever the whole seconds an item took exceed the spacing, the next pause is longer than the spacing. |
| Download.WaitAntitone | src/module/download/mod.rs:49-53 | With the corrected pacing (`Download.Wait`), a slower item never leads to a longer pause. |
| Download.ToUpdateForm | src/module/download/mod.rs:132-145 | Title, description and relations are copied. Tags and books are present iff scraped, with the same counts. Status, links and additional info are left unset. |
| Download.UpdateFormRoundTrip | src/module/download/mod.rs:132-145 | The conversion loses nothing: the scraped result can be read back from the form exactly. |
| SourceDataCommand.ProcessItem | src/command/source_data.rs:59-94 | An item succeeds iff it downloads and its update is accepted. It fails at download iff the download fails. A downloaded item's update carries its site, id and converted form. |
| SourceDataCommand.Sweep | src/command/source_data.rs:54-96 | Every item is processed in order and lands in exactly one tally, so success plus failed equals the item count. Success counts exactly the succeeded items. A pause follows every item but the last, computed by `wait` as written from that item's cost: its measured time, or 0 after a failed download. |
| SourceDataCommand.DownloadCommand | src/command/source_data.rs:32-100 | The one query asks for up to 1000 items of status NOT_EDITED or ERROR on `sankakucomplex`. A failed query stops the command. An empty result reports the total and processes nothing. Otherwise every item is swept with the configured spacing (8 s by default) and the pauses of `wait` as written. The success tally counts exactly the items that downloaded and updated, and the failure tally the rest. The query's total is reported. |
| SourceDataCommand.PausesWithinSpacing | src/command/source_data.rs:82-92 | While every item's cost fits within the spacing, each pause of the sweep equals the corrected `wait` and lies between half the spacing and the spacing. |
| SourceDataCommand.SlowItemOversleeps | src/command/source_data.rs:82-84 | An item that is not the last and whose whole seconds exceed the spacing makes the sweep pause longer than the spacing after it. |
| SourceDataCommand.AllSucceeded | src/command/source_data.rs:67-80 | When every item succeeds, every item is counted as a success. |
| SourceDataCommand.OneFailureCostsOne | src/command/source_data.rs:67-93 | A single failing item, wherever it stands, leaves exactly one item out of the success tally. |
| SourceDataCommand.FooterRangeCoversPage | src/command/source_data.rs:29 | Without wrap-around, the footer's range starts right after the offset and spans exactly the items shown. |
| ImportApi.JsonCodeRoundTrip | src/module/import.rs:52-59 | Each order-time source's code reads back as that source, so no two share a code. |
| ImportApi.BatchBodyRoundTrip | src/module/import.rs:28-36 | The batch request goes to the batch endpoint. A server reading its body recovers exactly the partition date, both order-time settings and the analyse flag. |
| ImportApi.EndpointsDistinct | src/module/import.rs:18-42 | `list` is the only read and has no body. The three writes are POSTs with bodies, to three different endpoints under `/api/imports`. |
| ImportApi.RequestBodies | src/module/import.rs:21-42 | The `add` body names the file and asks for a mobile import iff removal is requested. The `save` body targets nothing in particular. |
| Dates.FormatRoundTrip | src/module/import.rs:33 | The `%Y-%m-%d` rendering of every date parses back to the same date. |
| Dates.ParseRejectsMissingDay | src/module/import.rs:33 | A rendered day past the end of its month in that year (February 29th outside a leap year, April 31st) does not read back as a date. A date holds only days its month has. |
| ImportCommand.List | src/command/import.rs:7-28 | Acquisition comes first, and on failure nothing is requested and the connection message is printed. Otherwise there is one list request, whose error is reported, or whose total and page size are. |
| ImportCommand.Add | src/command/import.rs:30-46 | It contacts the server iff files are given. Then it sends one add request per file, in order. Each file's line says added iff its request succeeded, and otherwise carries that request's error. A failure does not stop the rest. |
| ImportCommand.Batch | src/command/import.rs:48-75 | It contacts the server iff some setting is given. Then it sends one batch request with exactly those settings. It reports "Batch Succeed." iff the reply lists no item. Otherwise it reports "Some items batch failed." and one reason per listed item, even one with no warnings. |
| ImportCommand.BatchReasonContents | src/command/import.rs:66 | A batch reason is the item's warning messages in order with nothing between them. Its length is their total length. |
| ImportCommand.SaveReasonParts | src/command/import.rs:91-97 | The message for each flagged problem is included, in the fixed order, and nothing else. |
| ImportCommand.SaveReasonLength | src/command/import.rs:91-98 | A save reason is empty iff no problem is flagged. Otherwise its length is the messages plus one space between neighbours. |
| ImportCommand.SaveSummary | src/command/import.rs:102-107 | The summary always starts with the saved count. It goes beyond "<total> item(s) saved." iff some item failed. |
| ImportCommand.SaveSummaryCountsFailures | src/command/import.rs:102-104 | When some items failed, the summary continues after one space with a number that reads back as exactly the failure count, and ends with " item(s) save failed." |
| ImportCommand.Save | src/command/import.rs:77-108 | Acquisition comes first. Then one save request, whose error is reported, or one reason per failed item and the summary. |
| ImportCommand.FailedAcquisitionSendsNothing | src/command/import.rs:7-90 | In all four import commands, whenever the command contacts the server and acquisition fails, no API call is sent and the connection error is reported, whatever the server would have answered. |
| ImportCommand.TimedOutListReport | src/command/import.rs:7-11 | A poll that times out makes `list` print the connection prefix followed by "Check connection failed: timed out." and request nothing. |
| Config.UserdataPath | src/module/config.rs:52-65 | The per-user directory is defined iff there is a home directory and the platform is macOS or Linux. It lies under home at the platform's fixed place. A missing home is reported before an unsupported platform. |
| Config.ConfigFilePath | src/module/config.rs:23-26 | The environment variable wins when set, and then the per-user directory is not consulted. Otherwise the path is `cli/config.toml` under it, failing as it fails. |
| Config.Resolve | src/module/config.rs:43-49 | Debug mode is on only when set to true. The per-user directory is consulted, and can abort, only when no `userdata_path` is given. Server and appdata default to `server` and `appdata` under the resolved userdata path. |
| Config.LoadConfig | src/module/config.rs:22-50 | A missing file counts as an empty one. Any other read error aborts naming the path, and a malformed file aborts with a format error. Otherwise the settings are resolved. |
| Config.MissingFileSameAsEmptyFile | src/module/config.rs:27-41 | A missing settings file behaves exactly like an empty one. |
| Config.ExplicitPathsNeedNoPlatform | src/module/config.rs:22-50 | With the file path and the userdata path both given, loading never aborts on any platform. The default server directory then lies under the given userdata path. |
| Config.LinuxDefaults | src/module/config.rs:22-65 | With no settings on Linux, everything lives under `~/.config/Hedge-v3`. |
| Channel.New | src/module/channel.rs:13-19 | The current channel is the stored one, else `default`. Channels live in `channel` under appdata. |
| Channel.UseChannel | src/module/channel.rs:20-22 | Choosing a channel stores exactly that channel. |
| Channel.UsedChannelIsNextCurrent | src/module/channel.rs:13-25 | A chosen channel is the current channel of the next run, whatever channel the choosing manager had. |
| Channel.ServerDirIsChannelEntry | src/module/server.rs:144 | The server's working directory (under appdata, `channel`, then the channel name) is the current channel's entry in the channel directory. |

## Left out

- `ServerManager::kill` and `ServerManager::log`: process signalling and log printing are operating-system I/O with no decision logic beyond "no record, do nothing".
- The heartbeat task itself: an endless `tokio` loop. The model covers one round (`Server.HeartbeatRound`) and the lease/period timing (`Server.LeaseOutlivesPeriod`).
- `ChannelManager::list_channel`: it lists a directory.
- Process spawning, sleeping and file creation in `start_server`: the model states the command launched, not the launch.
- The `sankakucomplex` rule (`download/sankakucomplex.rs`) is not part of this model. Its outcome, including retry count and time cost, is a parameter.
- The source-data API module (`module/source_data.rs`) and `LocalDataManager` are not part of this model. Their replies and stored data are parameters.
- `source_data query` apart from its footer: the column widths and the item descriptions are presentation only.
- JSON and TOML decoding: a decoder's outcome is given with the reply or the file.
- The proxy setting: `Proxy::all(..).unwrap()` panics on a malformed proxy URL, which is not modelled.
- Floating-point rendering of the time cost (`{:.2}s`), the ANSI colours, timestamps and table padding of printed lines.
- The display text of transport and decoder errors: `Http.ReqError` keeps only the error's kind, plus the code and message of API errors.
- Debug-build overflow panics: the model follows release-build wrap-around.
- `src/config/mod.rs`: an older configuration loader that `src/main.rs` does not use (it reads a fixed empty path).
- `src/main.rs`, `src/command/apply.rs` and `src/utils/error.rs`: command dispatch with empty arms, an empty stub, and a message wrapper.
- Server.Status: takes the handshake record as already read. The abort on an unreadable or malformed file is `Server.ReadPidFile`'s, and `Server.StatusRunningIffReady` composes the two.
- ImportCommand.List, ImportCommand.Add, ImportCommand.Batch, ImportCommand.Save and SourceDataCommand.DownloadCommand: take the acquisition outcome as a returned error text (`DownloadCommand` not at all). An unreadable or malformed handshake file ends the process inside acquisition, before any of them runs; `Server.CommandOutcome` states that no outcome reaches the command then, but the commands themselves are not composed with `Server.Acquire`.
- Server.ReadPidFile: states the message prefix naming the file, not the operating system's error text after it.
- Server.Permanent: the abort message's trailing error text is not modelled.
- ImportCommand.List: reports the total and the number of rows, not the rows' formatting.
- SourceDataCommand.DownloadCommand: per-item log lines are represented by the item reports, not by text.
- Server.CheckConnection: requires an observation for each of the 100 polls the budget allows; later entries are never read.
- Download.TryReq: requires an outcome for each of the three possible sends; the sends not made are never read.
- Dates.Date: the year is unbounded, whereas chrono's `NaiveDate` holds years from about -262000 to 262000 only. Month and day follow the proleptic Gregorian calendar as chrono's do.

## Findings

| source | as written | input that shows it | evidently intended | confidence | as-written member | corrected member |
|---|---|---|---|---|---|---|
| src/module/download/mod.rs:49-53 | `waiting - cost` is a `u64` subtraction, which wraps in a release build (a debug build panics) when the item's whole seconds exceed the spacing | spacing 8 s, `time_cost` 15000 ms: the pause is 2^64 - 7 s | the pause is never below half the spacing, so 4 s here | not executed | Download.WaitAsWritten, shown by Download.WaitAsWrittenOversleeps | Download.Wait |
