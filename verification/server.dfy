/** Session lifecycle of `ServerManager` (src/module/server.rs): reading the PID handshake
    file, classifying the server's status, the bounded readiness poll, and acquiring a
    session in one-shot or maintained mode. File reads, health replies and lease replies
    are parameters: each is what the file system or the server answered. */
module Server {
  import opened Common
  import Text
  import Json
  import Http
  import Paths

  const HealthPath := "/app/health"
  const ReadySentinel := "READY"
  /** The poll reads the handshake file at most this many times, 100 ms apart. */
  const PollBudget := 100
  const PollIntervalMs := 100
  const LeasePath := "/app/lifetime/signal"
  const PermanentPath := "/app/lifetime/permanent"
  const OneShotLeaseMs := 10000
  const MaintainedLeaseMs := 30000
  const HeartbeatPeriodMs := 25000
  const TimeoutMessage := "Check connection failed: timed out."
  const LocalhostPrefix := "http://localhost:"
  const ServerBinaryPath := "bin/hedge-v3-server"

  type I32 = x: int | -0x8000_0000 <= x < 0x8000_0000

  /** The `work_path` settings this file reads from the configuration. */
  datatype ServerConfig = ServerConfig(serverPath: string, appdataPath: string)

  /** The handshake file the server writes once it has started. */
  datatype PidFile = PidFile(pid: int, port: Option<I32>, token: Option<string>, startTime: int)

  datatype StatusType = Stop | Starting | Loading | Running

  datatype ServerStatus = ServerStatus(status: StatusType, pid: Option<int>, port: Option<I32>, startTime: Option<int>)

  // ---------------------------------------------------------------- files

  function ChannelDir(config: ServerConfig, channel: string): string
  {
    Paths.Join(Paths.Join(config.appdataPath, "channel"), channel)
  }

  function PidFilePath(config: ServerConfig, channel: string): string
  {
    Paths.Join(ChannelDir(config, channel), "PID")
  }

  /** The detached process `start_server` launches: the server binary, pointed at the
      channel directory, with stdout and stderr both sent to one log file there. */
  datatype SpawnCommand = SpawnCommand(binary: string, args: seq<string>, logFile: string)

  function StartServer(config: ServerConfig, channel: string): (c: SpawnCommand)
    ensures c.args == ["--channel-path", ChannelDir(config, channel)]
    ensures c.binary == Paths.Join(config.serverPath, ServerBinaryPath)
    ensures c.logFile == Paths.Join(ChannelDir(config, channel), "server.log")
  {
    var dir := ChannelDir(config, channel);
    SpawnCommand(Paths.Join(config.serverPath, ServerBinaryPath), ["--channel-path", dir], Paths.Join(dir, "server.log"))
  }

  /** What reading the handshake file produced. */
  datatype PidFileRead = Missing | Unreadable(reason: string) | Malformed(reason: string) | Parsed(record: PidFile)

  /** `read_pid_file`: a missing file means "not started"; any other read error, or a body
      that does not parse, aborts the command. */
  function ReadPidFile(path: string, read: PidFileRead): (r: Result<Option<PidFile>, Fatal>)
    ensures r == Success(None) <==> read.Missing?
    ensures r.Success? && r.value.Some? <==> read.Parsed?
    ensures read.Parsed? ==> r.value == Some(read.record)
    ensures read.Unreadable? ==> Text.StartsWith(r.error.message, "Read pid file " + path + " failed. ")
    ensures read.Malformed? ==> Text.StartsWith(r.error.message, "Pid file " + path + " format error. ")
  {
    match read
    case Missing => Success(None)
    case Unreadable(reason) => Failure(Fatal("Read pid file " + path + " failed. " + reason))
    case Malformed(reason) => Failure(Fatal("Pid file " + path + " format error. " + reason))
    case Parsed(record) => Success(Some(record))
  }

  // ---------------------------------------------------------------- access

  /** `set_access`: both fields are overwritten from the handshake's port and token. */
  function SetAccess(port: I32, token: string): (a: Http.Access)
    ensures a.address.Some? && a.token == Some(token)
  {
    Http.Access(Some(LocalhostPrefix + Text.IntToString(port)), Some(token))
  }

  /** The port a `http://localhost:<port>` address names. */
  function PortOfAddress(address: string): Option<int>
  {
    if Text.StartsWith(address, LocalhostPrefix) then Text.ParseInt(address[|LocalhostPrefix|..])
    else None
  }

  /** The address `set_access` stores points at localhost on exactly the handshake's port,
      and the token is stored as given, so two handshakes with different ports or tokens
      never yield the same access. */
  lemma SetAccessRoundTrip(port: I32, token: string)
    ensures PortOfAddress(SetAccess(port, token).address.value) == Some(port)
    ensures SetAccess(port, token).token.value == token
  {
    var address := SetAccess(port, token).address.value;
    assert address[|LocalhostPrefix|..] == Text.IntToString(port);
    Text.IntToStringRoundTrip(port);
  }

  /** Different handshakes never install the same access: the address determines the port
      and the token is kept as is. */
  lemma SetAccessInjective(port: I32, token: string, port': I32, token': string)
    ensures SetAccess(port, token) == SetAccess(port', token') ==> port == port' && token == token'
  {
    if SetAccess(port, token) == SetAccess(port', token') {
      var address := SetAccess(port, token).address.value;
      assert address[|LocalhostPrefix|..] == Text.IntToString(port);
      assert SetAccess(port', token').address.value[|LocalhostPrefix|..] == Text.IntToString(port');
      Text.IntToStringInjective(port, port');
    }
  }

  /** A manager that has not yet read a handshake sends every request to the bare path,
      without an authorization header. */
  lemma FreshManagerSendsBarePath(verb: Http.Method, path: string, body: Option<Json.Json>)
    ensures Http.BuildRequest(Http.NoAccess, verb, path, body).url == path
    ensures Http.BearerToken(Http.BuildRequest(Http.NoAccess, verb, path, body).headers).None?
  {
    Http.RequestUrlResolution(Http.NoAccess, path);
    Http.AuthHeadersCarryToken(Http.NoAccess);
  }

  predicate Complete(r: PidFile) {
    r.port.Some? && r.token.Some?
  }

  function HealthRequest(access: Http.Access): Http.Request
  {
    Http.BuildRequest(access, Http.Get, HealthPath, None)
  }

  // ---------------------------------------------------------------- status

  /** The outcome of `status`: the classification, the access it leaves behind, and the
      health request it sent, if any. */
  datatype StatusReport = StatusReport(status: ServerStatus, access: Http.Access, probe: Option<Http.Request>)

  /** `status`: Stop without a handshake file; Starting while port or token is missing or the
      health probe fails; Loading or Running by the health reply. It never spawns. */
  function Status(access: Http.Access, record: Option<PidFile>, health: Http.Exchange<string>): (r: StatusReport)
    ensures record.None? ==> r == StatusReport(ServerStatus(Stop, None, None, None), access, None)
    ensures record.Some? ==> r.status.status != Stop
    ensures record.Some? ==>
      r.status.pid == Some(record.value.pid) && r.status.port == record.value.port
      && r.status.startTime == Some(record.value.startTime)
    ensures r.probe.Some? <==> record.Some? && Complete(record.value)
    ensures record.Some? && !Complete(record.value) ==> r.status.status == Starting && r.access == access
    ensures r.probe.Some? ==>
      r.access == SetAccess(record.value.port.value, record.value.token.value)
      && r.probe.value == HealthRequest(r.access)
    ensures r.probe.Some? ==> (r.status.status == Starting <==> Http.Decode(health).Failure?)
    ensures r.status.status == Running <==> r.probe.Some? && Http.Decode(health) == Success(ReadySentinel)
    ensures r.status.status == Loading <==>
      r.probe.Some? && Http.Decode(health).Success? && Http.Decode(health).value != ReadySentinel
  {
    match record
    case None => StatusReport(ServerStatus(Stop, None, None, None), access, None)
    case Some(p) =>
      if p.port.None? || p.token.None? then
        StatusReport(ServerStatus(Starting, Some(p.pid), p.port, Some(p.startTime)), access, None)
      else
        var a := SetAccess(p.port.value, p.token.value);
        var kind :=
          match Http.Decode(health)
          case Failure(_) => Starting
          case Success(s) => if s != ReadySentinel then Loading else Running;
        StatusReport(ServerStatus(kind, Some(p.pid), p.port, Some(p.startTime)), a, Some(HealthRequest(a)))
  }

  // ---------------------------------------------------------------- readiness poll

  /** A read of the handshake file that aborts the command. */
  predicate AbortingRead(read: PidFileRead) {
    read.Unreadable? || read.Malformed?
  }

  /** One poll: the handshake file as read, and the reply a health probe would get. */
  datatype Observation = Observation(read: PidFileRead, health: Http.Exchange<string>)

  /** A health reply that decodes to the ready sentinel. */
  predicate ReadyReply(health: Http.Exchange<string>) {
    health.Received? && Http.IsSuccessOrRedirect(health.status)
    && health.body.Readable? && health.body.asValue == Some(ReadySentinel)
  }

  lemma ReadyReplyDecodes(health: Http.Exchange<string>)
    ensures ReadyReply(health) <==> Http.Decode(health) == Success(ReadySentinel)
  {
  }

  /** A poll that reads a handshake with both port and token. */
  predicate CompleteRead(o: Observation) {
    o.read.Parsed? && Complete(o.read.record)
  }

  /** The poll connects at an observation with port, token and a `READY` health reply. */
  predicate Ready(o: Observation) {
    CompleteRead(o) && ReadyReply(o.health)
  }

  /** The poll ends at an observation: it connects there, or the read aborts. */
  predicate Stops(o: Observation) {
    Ready(o) || AbortingRead(o.read)
  }

  /** The access a complete handshake installs. */
  function ObservedAccess(o: Observation): Http.Access
    requires CompleteRead(o)
  {
    SetAccess(o.read.record.port.value, o.read.record.token.value)
  }

  /** The access after the first `n` polls: each complete handshake overwrites it. */
  function AccessAfter(access: Http.Access, obs: seq<Observation>, n: nat): Http.Access
    requires n <= |obs|
  {
    if n == 0 then access
    else
      var o := obs[n - 1];
      if CompleteRead(o) then ObservedAccess(o)
      else AccessAfter(access, obs, n - 1)
  }

  /** Reading the handshake file as `status` does, then classifying: it aborts exactly on
      the reads that stop the poll without connecting, and otherwise reports Running
      exactly for the observations at which the poll connects. */
  lemma StatusRunningIffReady(path: string, access: Http.Access, o: Observation)
    ensures ReadPidFile(path, o.read).Failure? <==> AbortingRead(o.read)
    ensures ReadPidFile(path, o.read).Success? ==>
      (Status(access, ReadPidFile(path, o.read).value, o.health).status.status == Running <==> Ready(o))
  {
    ReadyReplyDecodes(o.health);
  }

  /** What the poll returns when it ends at `o`: the abort of the handshake read, or
      whether it connected there. */
  function PollResult(path: string, o: Observation): (r: Result<bool, Fatal>)
    ensures r == Success(true) <==> Ready(o)
    ensures r.Failure? <==> AbortingRead(o.read)
    ensures r.Failure? ==> r == Failure(ReadPidFile(path, o.read).error)
  {
    if AbortingRead(o.read) then Failure(ReadPidFile(path, o.read).error) else Success(Ready(o))
  }

  /** `check_connection`: at most `PollBudget` polls, each after a `PollIntervalMs` sleep,
      reading the handshake file at `path`. It ends at the first poll that is ready (it
      connects) or whose read aborts (the command aborts with `read_pid_file`'s message);
      missing files, missing fields and failed or not-ready probes move on to the next
      poll, and a budget without either ends unconnected. */
  method CheckConnection(path: string, access: Http.Access, obs: seq<Observation>)
      returns (r: Result<bool, Fatal>, polls: nat, waitedMs: nat, access': Http.Access)
    requires |obs| >= PollBudget
    ensures 1 <= polls <= PollBudget && waitedMs == polls * PollIntervalMs
    ensures forall j :: 0 <= j < polls - 1 ==> !Stops(obs[j])
    ensures polls < PollBudget ==> Stops(obs[polls - 1])
    ensures r == Success(true) <==> Ready(obs[polls - 1])
    ensures r.Failure? <==> AbortingRead(obs[polls - 1].read)
    ensures r.Failure? ==> r == Failure(ReadPidFile(path, obs[polls - 1].read).error)
    ensures r == Success(false) ==> polls == PollBudget
    ensures access' == AccessAfter(access, obs, polls)
    ensures r == Success(true) ==> access' == ObservedAccess(obs[polls - 1])
  {
    var k, stopped;
    k, stopped, access' := FirstStop(access, obs);
    polls := if stopped then k + 1 else k;
    waitedMs := polls * PollIntervalMs;
    r := PollResult(path, obs[polls - 1]);
  }

  /** The poll loop itself: the index of the first stopping observation within the
      budget, if there is one, and the access after the polls made up to it. */
  method FirstStop(access: Http.Access, obs: seq<Observation>) returns (k: nat, stopped: bool, access': Http.Access)
    requires |obs| >= PollBudget
    ensures k <= PollBudget && (stopped ==> k < PollBudget) && (!stopped ==> k == PollBudget)
    ensures forall j :: 0 <= j < k ==> !Stops(obs[j])
    ensures stopped ==> Stops(obs[k])
    ensures access' == AccessAfter(access, obs, if stopped then k + 1 else k)
  {
    k := 0;
    stopped := false;
    access' := access;
    while k < PollBudget && !stopped
      invariant k <= PollBudget
      invariant forall j :: 0 <= j < k ==> !Stops(obs[j])
      invariant stopped ==> k < PollBudget && Stops(obs[k]) && access' == AccessAfter(access, obs, k + 1)
      invariant !stopped ==> access' == AccessAfter(access, obs, k)
      decreases PollBudget - k, if stopped then 0 else 1
    {
      var o := obs[k];
      if CompleteRead(o) {
        access' := ObservedAccess(o);
      }
      if Stops(o) {
        stopped := true;
      } else {
        k := k + 1;
      }
    }
  }

  /** After a poll connects at `o`, every request goes to localhost on the handshake's
      port, at the requested path, with the handshake's token as bearer. */
  lemma ConnectedRequestsReachServer(o: Observation, verb: Http.Method, path: string, body: Option<Json.Json>)
    requires CompleteRead(o)
    ensures var r := Http.BuildRequest(ObservedAccess(o), verb, path, body);
      && |path| <= |r.url|
      && PortOfAddress(r.url[..|r.url| - |path|]) == Some(o.read.record.port.value as int)
      && r.url[|r.url| - |path|..] == path
      && Http.BearerToken(r.headers) == o.read.record.token
  {
    var access := ObservedAccess(o);
    SetAccessRoundTrip(o.read.record.port.value, o.read.record.token.value);
    Http.RequestUrlResolution(access, path);
    Http.AuthHeadersCarryToken(access);
  }

  // ---------------------------------------------------------------- acquisition

  /** `waiting_for_start` is one-shot; `maintaining_for_start` keeps the lease alive. */
  datatype Mode = OneShot | Maintained

  function LeaseMs(mode: Mode): nat
  {
    match mode
    case OneShot => OneShotLeaseMs
    case Maintained => MaintainedLeaseMs
  }

  function LeaseBody(interval: int): Json.Json
  {
    Json.Obj(map["interval" := Json.Int(interval), "standalone" := Json.Bool(true)])
  }

  /** `single_signal(interval)`: a standalone lease of `interval` milliseconds. */
  function LeaseRequest(access: Http.Access, interval: int): Http.Request
  {
    Http.BuildRequest(access, Http.Post, LeasePath, Some(LeaseBody(interval)))
  }

  /** Why no session was acquired: the handshake file could not be read (the command
      aborts), no ready handshake within the poll budget (displayed as `TimeoutMessage`),
      or the lease request's own error. */
  datatype AcquireError = Aborted(fatal: Fatal) | TimedOut | LeaseRejected(cause: Http.ReqError)

  /** What acquiring a session did: the spawn (if any), the polls made, the one lease sent
      after a successful handshake, whether a heartbeat task was started, and the outcome. */
  datatype Acquisition = Acquisition(
    spawn: Option<SpawnCommand>,
    polls: nat,
    lease: Option<Http.Request>,
    heartbeat: bool,
    access: Http.Access,
    result: Result<(), AcquireError>)

  /** The handshake file the server writes lies in the directory the server is started
      with, next to its log: the spawn and the poll agree on where to meet. */
  lemma SpawnPointsAtPidFile(config: ServerConfig, channel: string)
    ensures var c := StartServer(config, channel);
      && |c.args| == 2
      && PidFilePath(config, channel) == Paths.Join(c.args[1], "PID")
      && c.logFile == Paths.Join(c.args[1], "server.log")
  {
  }

  /** `waiting_for_start` / `maintaining_for_start`: an unreadable handshake file aborts
      before anything else; the server is spawned only when the file is missing; then the
      poll, and after a successful handshake exactly one lease (10000 ms one-shot, 30000 ms
      maintained) whose failure is returned. A poll that ends unconnected sends no lease and
      returns its abort or the timeout. Only a maintained session that succeeded starts the
      heartbeat. */
  method Acquire(config: ServerConfig, channel: string, mode: Mode, access: Http.Access,
                 initial: PidFileRead, obs: seq<Observation>, leaseReply: Http.Exchange<()>)
      returns (a: Acquisition)
    requires |obs| >= PollBudget
    ensures AbortingRead(initial) ==>
      a == Acquisition(None, 0, None, false, access,
                       Failure(Aborted(ReadPidFile(PidFilePath(config, channel), initial).error)))
    ensures !AbortingRead(initial) ==>
      && (a.spawn.Some? <==> initial.Missing?)
      && 1 <= a.polls <= PollBudget
      && (forall j :: 0 <= j < a.polls - 1 ==> !Stops(obs[j]))
      && (a.polls < PollBudget ==> Stops(obs[a.polls - 1]))
    ensures a.spawn.Some? ==> a.spawn.value == StartServer(config, channel)
    ensures a.lease.Some? <==> !AbortingRead(initial) && Ready(obs[a.polls - 1])
    ensures !AbortingRead(initial) && AbortingRead(obs[a.polls - 1].read) ==>
      a.result == Failure(Aborted(ReadPidFile(PidFilePath(config, channel), obs[a.polls - 1].read).error))
    ensures !AbortingRead(initial) && !Stops(obs[a.polls - 1]) ==> a.result == Failure(TimedOut)
    ensures a.lease.None? ==> a.result.Failure? && !a.heartbeat
    ensures a.lease.Some? ==>
      a.access == ObservedAccess(obs[a.polls - 1])
      && a.lease.value == LeaseRequest(a.access, LeaseMs(mode))
      && (a.result.Success? <==> Http.DecodeNoContent(leaseReply).Success?)
    ensures a.result.Failure? && a.result.error.LeaseRejected? ==>
      Http.DecodeNoContent(leaseReply) == Failure(a.result.error.cause)
    ensures a.lease.Some? && a.result.Failure? ==>
      a.result == Failure(LeaseRejected(Http.DecodeNoContent(leaseReply).error))
    ensures a.result == Failure(TimedOut) <==> !AbortingRead(initial) && !Stops(obs[a.polls - 1])
    ensures a.heartbeat <==> mode == Maintained && a.result.Success?
  {
    var path := PidFilePath(config, channel);
    if AbortingRead(initial) {
      return Acquisition(None, 0, None, false, access, Failure(Aborted(ReadPidFile(path, initial).error)));
    }
    var spawn := if initial.Missing? then Some(StartServer(config, channel)) else None;
    var r, polls, _, access' := CheckConnection(path, access, obs);
    match r
    case Failure(f) =>
      return Acquisition(spawn, polls, None, false, access', Failure(Aborted(f)));
    case Success(connected) =>
      if !connected {
        return Acquisition(spawn, polls, None, false, access', Failure(TimedOut));
      }
    var lease := LeaseRequest(access', LeaseMs(mode));
    match Http.DecodeNoContent(leaseReply)
    case Success(_) =>
      a := Acquisition(spawn, polls, Some(lease), mode == Maintained, access', Success(()));
    case Failure(e) =>
      a := Acquisition(spawn, polls, Some(lease), false, access', Failure(LeaseRejected(e)));
  }

  /** What a command receives from `waiting_for_start`: nothing when the handshake read
      aborted (the process ends there), otherwise `Ok` or the error's display text; the
      timeout displays `TimeoutMessage`, and a lease error its own text, `leaseText`. */
  function CommandOutcome(result: Result<(), AcquireError>, leaseText: string): (r: Option<Result<(), string>>)
    ensures r.None? <==> result.Failure? && result.error.Aborted?
    ensures r == Some(Success(())) <==> result.Success?
    ensures result == Failure(TimedOut) ==> r == Some(Failure(TimeoutMessage))
    ensures result.Failure? && result.error.LeaseRejected? ==> r == Some(Failure(leaseText))
  {
    match result
    case Success(_) => Some(Success(()))
    case Failure(Aborted(_)) => None
    case Failure(TimedOut) => Some(Failure(TimeoutMessage))
    case Failure(LeaseRejected(_)) => Some(Failure(leaseText))
  }

  // ---------------------------------------------------------------- heartbeat

  /** Milliseconds after acquisition at which the `k`-th lease is sent: the initial lease
      at 0, then one renewal per heartbeat period. */
  function LeaseSentAt(k: nat): nat
  {
    k * HeartbeatPeriodMs
  }

  /** Each maintained lease is still running when the next renewal is sent. */
  lemma LeaseOutlivesPeriod(k: nat)
    ensures LeaseSentAt(k) + MaintainedLeaseMs > LeaseSentAt(k + 1)
  {
  }

  /** One round of the heartbeat loop: the renewal it sends, and the error it logs. Only a
      failed send is an error (the lenient decoder), and no error ends the loop. */
  function HeartbeatRound(access: Http.Access, reply: Http.Exchange<()>): (r: (Http.Request, Option<Http.ReqError>))
    ensures r.0 == LeaseRequest(access, MaintainedLeaseMs)
    ensures r.1.Some? <==> reply.SendFailed?
  {
    var request := LeaseRequest(access, MaintainedLeaseMs);
    match Http.DecodeLenient(reply)
    case Success(_) => (request, None)
    case Failure(e) => (request, Some(e))
  }

  // ---------------------------------------------------------------- permanent mode

  function PermanentBody(enable: bool): Json.Json
  {
    Json.Obj(map["type" := Json.Str("command-line-application"), "value" := Json.Bool(enable)])
  }

  /** `permanent`: one request to the permanent-mode endpoint; any failure aborts. */
  function Permanent(access: Http.Access, enable: bool, reply: Http.Exchange<seq<string>>): (r: (Http.Request, Result<(), Fatal>))
    ensures r.0 == Http.BuildRequest(access, Http.Post, PermanentPath, Some(PermanentBody(enable)))
    ensures r.1.Success? <==> Http.Decode(reply).Success?
  {
    var request := Http.BuildRequest(access, Http.Post, PermanentPath, Some(PermanentBody(enable)));
    match Http.Decode(reply)
    case Success(_) => (request, Success(()))
    case Failure(_) => (request, Failure(Fatal("Error occurred when set permanent.")))
  }

  /** The permanent-mode request reaches the stored address at the permanent-mode path,
      carries the stored token, and sends the requested flag. */
  lemma PermanentCarriesAccess(access: Http.Access, enable: bool, reply: Http.Exchange<seq<string>>)
    ensures var r := Permanent(access, enable, reply).0;
      && (access.address.Some? ==>
            r.url[..|access.address.value|] == access.address.value
            && r.url[|access.address.value|..] == PermanentPath)
      && (access.address.None? ==> r.url == PermanentPath)
      && Http.BearerToken(r.headers) == access.token
      && r.body.Some? && r.body.value.Obj? && r.body.value.fields["value"] == Json.Bool(enable)
  {
    Http.RequestUrlResolution(access, PermanentPath);
    Http.AuthHeadersCarryToken(access);
  }
}
