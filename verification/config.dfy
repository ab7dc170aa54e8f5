/** Loading the local configuration (src/module/config.rs): where the file is looked for,
    how a missing file, an unreadable file and a malformed file are treated, and how each
    setting falls back to a default under the per-user data directory. The environment
    and the file system are parameters. */
module Config {
  import opened Common
  import Paths

  datatype Platform = MacOS | Linux | Other

  /** What the process can see of its surroundings: the platform it was built for, the
      home directory (if one can be found) and the `LOCAL_CONFIG_PATH` variable. */
  datatype Environment = Environment(platform: Platform, home: Option<string>, localConfigPath: Option<string>)

  /** The settings file as written: every key optional. */
  datatype ConfigFile = ConfigFile(
    debugMode: Option<bool>,
    applicationPath: Option<string>,
    serverPath: Option<string>,
    appdataPath: Option<string>,
    userdataPath: Option<string>)

  /** The resolved settings the rest of the program uses. */
  datatype LocalConfig = LocalConfig(
    debugMode: bool,
    applicationPath: Option<string>,
    userdataPath: string,
    serverPath: string,
    appdataPath: string)

  /** The outcome of reading the settings file: absent, unreadable for another reason,
      or read, with the outcome of parsing its TOML text. */
  datatype ConfigRead = NotFound | ReadError(reason: string) | Read(parsed: Result<ConfigFile, string>)

  const MacOSUserdata := "Library/Application Support/Hedge-v3"
  const LinuxUserdata := ".config/Hedge-v3"
  const ConfigFileName := "cli/config.toml"
  const NoHomeMessage := "Cannot read HOME dir."
  const UnsupportedPlatformMessage := "Unsupported system platform."

  /** The per-user data directory: fixed by platform under the home directory; the
      process aborts without a home directory, and on any platform but macOS and Linux. */
  function UserdataPath(env: Environment): (r: Result<string, Fatal>)
    ensures r.Success? <==> env.home.Some? && env.platform != Other
    ensures env.home.None? ==> r == Failure(Fatal(NoHomeMessage))
    ensures env.home.Some? && env.platform == Other ==> r == Failure(Fatal(UnsupportedPlatformMessage))
    ensures r.Success? && env.platform == MacOS ==> r.value == Paths.Join(env.home.value, MacOSUserdata)
    ensures r.Success? && env.platform == Linux ==> r.value == Paths.Join(env.home.value, LinuxUserdata)
  {
    match env.home
    case None => Failure(Fatal(NoHomeMessage))
    case Some(u) =>
      match env.platform
      case MacOS => Success(Paths.Join(u, MacOSUserdata))
      case Linux => Success(Paths.Join(u, LinuxUserdata))
      case Other => Failure(Fatal(UnsupportedPlatformMessage))
  }

  /** Where the settings file is: the environment variable when set (the per-user
      directory is then never consulted), otherwise `cli/config.toml` under it. */
  function ConfigFilePath(env: Environment): (r: Result<string, Fatal>)
    ensures env.localConfigPath.Some? ==> r == Success(env.localConfigPath.value)
    ensures env.localConfigPath.None? ==>
      (r.Success? <==> UserdataPath(env).Success?)
      && (r.Success? ==> r.value == Paths.Join(UserdataPath(env).value, ConfigFileName))
      && (r.Failure? ==> r.error == UserdataPath(env).error)
  {
    match env.localConfigPath
    case Some(p) => Success(p)
    case None =>
      match UserdataPath(env)
      case Failure(f) => Failure(f)
      case Success(u) => Success(Paths.Join(u, ConfigFileName))
  }

  /** The file used when none exists: every key absent. */
  const DefaultConfigFile := ConfigFile(None, None, None, None, None)

  /** Fills in the absent settings. The per-user directory is computed only when the
      file names no `userdata_path`, so it can only abort then; the server and appdata
      directories default to `server` and `appdata` under the resolved userdata path. */
  function Resolve(env: Environment, data: ConfigFile): (r: Result<LocalConfig, Fatal>)
    ensures r.Success? <==> data.userdataPath.Some? || UserdataPath(env).Success?
    ensures r.Failure? ==> r.error == UserdataPath(env).error
    ensures r.Success? ==>
      && r.value.debugMode == (data.debugMode == Some(true))
      && r.value.applicationPath == data.applicationPath
      && (data.userdataPath.Some? ==> r.value.userdataPath == data.userdataPath.value)
      && (data.userdataPath.None? ==> r.value.userdataPath == UserdataPath(env).value)
      && (data.serverPath.Some? ==> r.value.serverPath == data.serverPath.value)
      && (data.serverPath.None? ==> r.value.serverPath == Paths.Join(r.value.userdataPath, "server"))
      && (data.appdataPath.Some? ==> r.value.appdataPath == data.appdataPath.value)
      && (data.appdataPath.None? ==> r.value.appdataPath == Paths.Join(r.value.userdataPath, "appdata"))
  {
    var userdata := match data.userdataPath
      case Some(p) => Success(p)
      case None => UserdataPath(env);
    match userdata
    case Failure(f) => Failure(f)
    case Success(u) =>
      Success(LocalConfig(
        data.debugMode.GetOr(false),
        data.applicationPath,
        u,
        data.serverPath.GetOr(Paths.Join(u, "server")),
        data.appdataPath.GetOr(Paths.Join(u, "appdata"))))
  }

  const CannotLoadPrefix := "Cannot load local config "
  const FormatErrorPrefix := "Local config format error: "

  /** `load_config`: the settings file at `ConfigFilePath`, whose reading is `read`.
      A missing file counts as an empty one; any other read failure and a malformed file
      abort the process. */
  function LoadConfig(env: Environment, read: ConfigRead): (r: Result<LocalConfig, Fatal>)
    ensures ConfigFilePath(env).Failure? ==> r == Failure(ConfigFilePath(env).error)
    ensures ConfigFilePath(env).Success? && read.ReadError? ==>
      r == Failure(Fatal(CannotLoadPrefix + ConfigFilePath(env).value + ": " + read.reason))
    ensures ConfigFilePath(env).Success? && read.Read? && read.parsed.Failure? ==>
      r == Failure(Fatal(FormatErrorPrefix + read.parsed.error))
    ensures ConfigFilePath(env).Success? && read.NotFound? ==> r == Resolve(env, DefaultConfigFile)
    ensures ConfigFilePath(env).Success? && read.Read? && read.parsed.Success? ==> r == Resolve(env, read.parsed.value)
  {
    match ConfigFilePath(env)
    case Failure(f) => Failure(f)
    case Success(path) =>
      match read
      case NotFound => Resolve(env, DefaultConfigFile)
      case ReadError(reason) => Failure(Fatal(CannotLoadPrefix + path + ": " + reason))
      case Read(Failure(e)) => Failure(Fatal(FormatErrorPrefix + e))
      case Read(Success(data)) => Resolve(env, data)
  }

  /** A missing settings file behaves exactly like an empty one. */
  lemma MissingFileSameAsEmptyFile(env: Environment)
    ensures LoadConfig(env, NotFound) == LoadConfig(env, Read(Success(ConfigFile(None, None, None, None, None))))
  {
  }

  /** With the settings file named by the environment and the userdata directory named in
      it, loading never aborts, whatever the platform and whether or not there is a home
      directory, and the server and appdata defaults sit under the named directory. */
  lemma ExplicitPathsNeedNoPlatform(env: Environment, data: ConfigFile)
    requires env.localConfigPath.Some? && data.userdataPath.Some?
    ensures LoadConfig(env, Read(Success(data))).Success?
    ensures var c := LoadConfig(env, Read(Success(data))).value;
      data.serverPath.None? ==> c.serverPath[..|data.userdataPath.value|] == data.userdataPath.value
  {
    var c := LoadConfig(env, Read(Success(data))).value;
    if data.serverPath.None? {
      Paths.JoinStaysUnderBase(data.userdataPath.value, "server");
    }
  }

  /** With no settings at all on Linux, everything lives under `~/.config/Hedge-v3`. */
  lemma LinuxDefaults(home: string)
    ensures var env := Environment(Linux, Some(home), None);
      var u := Paths.Join(home, LinuxUserdata);
      LoadConfig(env, NotFound) == Success(LocalConfig(false, None, u, Paths.Join(u, "server"), Paths.Join(u, "appdata")))
  {
  }
}
