/**
 * Credential resolution of the Heroku provider: choosing the netrc file,
 * classifying what the file system reports for it, looking up the
 * `api.heroku.com` machine, and falling back to the explicit `email` and
 * `api_key` settings when reading the netrc file fails.
 *
 * The environment, the home directory, the file system, the netrc parser and
 * the JSON decoder are not modelled; what they report is an input (`Host`,
 * `ProviderData`).
 */
module Provider {
  import opened Wrappers

  /** The netrc machine whose login and password are the Heroku credentials. */
  const HerokuMachine: string := "api.heroku.com"

  /** One `machine` entry of a netrc file. */
  datatype Machine = Machine(name: string, login: string, password: string)

  /**
   * What the file system and the netrc parser report for a path that exists,
   * or for which stat fails with an error other than "does not exist".
   * A path that does not exist is a path absent from `Host.files`.
   */
  datatype FileStatus =
    | IsDir                        // stat succeeds and reports a directory
    | StatErr(msg: string)         // stat fails with another error
    | ParseErr(msg: string)        // a regular file the netrc parser rejects
    | Parsed(machines: seq<Machine>)  // a regular file, parsed, in file order

  /** The process environment, as far as credential resolution sees it. */
  datatype Host = Host(
    netrcPathVar: string,              // value of NETRC_PATH ("" when unset)
    goos: string,                      // runtime.GOOS
    homeDir: Result<string, string>,   // the home directory, or why it is unknown
    files: map<string, FileStatus>)    // every path that exists, or that stat cannot examine

  /** The errors that credential resolution can produce. */
  datatype ProviderError =
    | HomeDirError(msg: string)               // the home directory could not be expanded
    | StatError(msg: string)                  // stat failed for a reason other than absence
    | NetrcParseError(path: string, msg: string)  // "error parsing netrc file at <path>: <msg>"
    | HeadersJsonError(msg: string)           // the `headers` setting is not a JSON object of strings

  /** The provider's settings: `email`, `api_key` and `headers`. */
  datatype ProviderData = ProviderData(
    email: string,
    apiKey: string,
    headers: string,
    headersJson: Result<map<string, string>, string>)  // what json.Unmarshal makes of `headers`

  /** The fields of a Config that credential resolution sets. */
  datatype Credentials = Credentials(email: string, apiKey: string, headers: map<string, string>)

  /** The provider's client configuration, updated in place by ReadNetrcFile. */
  class Config {
    var email: string
    var apiKey: string
    var headers: map<string, string>

    /** `Config{}`: every field at its zero value (a nil header map reads as empty). */
    constructor ()
      ensures email == "" && apiKey == "" && headers == map[]
    {
      email, apiKey, headers := "", "", map[];
    }

    /** The credential fields as a value. */
    function Value(): (c: Credentials)
      reads this
    {
      Credentials(email, apiKey, headers)
    }
  }

  // ---------------------------------------------------------------------------
  // Choosing the netrc path

  /** The default netrc file name of the platform. */
  function NetrcFileName(goos: string): (name: string)
    ensures |name| == 6 && name[1..] == "netrc"
    ensures name[0] == '_' <==> goos == "windows"
    ensures name[0] != '_' ==> name[0] == '.'
  {
    if goos == "windows" then "_netrc" else ".netrc"
  }

  /** homedir.Expand of a path that starts with "~": the "~" replaced by the home directory. */
  function ExpandHome(homeDir: Result<string, string>, path: string): (r: Result<string, ProviderError>)
    requires |path| > 0 && path[0] == '~'
    ensures homeDir.Success? ==> r == Success(homeDir.value + path[1..])
    ensures homeDir.Failure? ==> r == Failure(HomeDirError(homeDir.error))
  {
    match homeDir
    case Success(home) => Success(home + path[1..])
    case Failure(msg) => Failure(HomeDirError(msg))
  }

  /**
   * The netrc path: NETRC_PATH verbatim when it is set, otherwise `~/_netrc`
   * on windows and `~/.netrc` elsewhere, expanded against the home directory.
   */
  function NetrcPath(host: Host): (r: Result<string, ProviderError>)
    ensures host.netrcPathVar != "" ==> r == Success(host.netrcPathVar)
    ensures host.netrcPathVar == "" && host.homeDir.Success? && host.goos == "windows" ==>
              r == Success(host.homeDir.value + "/_netrc")
    ensures host.netrcPathVar == "" && host.homeDir.Success? && host.goos != "windows" ==>
              r == Success(host.homeDir.value + "/.netrc")
    ensures r.Failure? <==> host.netrcPathVar == "" && host.homeDir.Failure?
    ensures r.Failure? ==> r.error == HomeDirError(host.homeDir.error)
  {
    if host.netrcPathVar != "" then Success(host.netrcPathVar)
    else
      var tilde := "~/" + NetrcFileName(host.goos);
      assert tilde[1..] == "/" + NetrcFileName(host.goos);
      assert "/" + NetrcFileName(host.goos) == if host.goos == "windows" then "/_netrc" else "/.netrc";
      ExpandHome(host.homeDir, tilde)
  }

  // ---------------------------------------------------------------------------
  // Looking up the Heroku machine

  /** The first machine named `name`, if there is one. */
  function FindMachine(machines: seq<Machine>, name: string): (r: Option<Machine>)
    ensures r.None? <==> forall i :: 0 <= i < |machines| ==> machines[i].name != name
    ensures r.Some? ==> exists i :: 0 <= i < |machines| && machines[i] == r.value && r.value.name == name &&
                                   forall j :: 0 <= j < i ==> machines[j].name != name
  {
    if |machines| == 0 then None
    else if machines[0].name == name then Some(machines[0])
    else
      var r := FindMachine(machines[1..], name);
      assert forall i :: 1 <= i < |machines| ==> machines[i] == machines[1..][i - 1];
      r
  }

  /** The machine found is the first one of that name. */
  lemma FindMachineIsFirst(machines: seq<Machine>, name: string, k: nat)
    requires k < |machines| && machines[k].name == name
    requires forall j :: 0 <= j < k ==> machines[j].name != name
    ensures FindMachine(machines, name) == Some(machines[k])
  {
  }

  // ---------------------------------------------------------------------------
  // What readNetrcFile decides

  /** The three outcomes of reading the netrc file. */
  datatype NetrcOutcome =
    | Untouched             // returns nil and leaves the config as it was
    | Found(machine: Machine)  // returns nil after copying the machine's credentials
    | Failed(error: ProviderError)  // returns an error; the config is not touched

  /** The outcome of readNetrcFile on `host`. */
  function NetrcLookup(host: Host): (o: NetrcOutcome)
    ensures o.Found? ==> o.machine.name == HerokuMachine
  {
    match NetrcPath(host)
    case Failure(e) => Failed(e)
    case Success(path) =>
      if path !in host.files then Untouched
      else
        match host.files[path]
        case IsDir => Untouched
        case StatErr(msg) => Failed(StatError(msg))
        case ParseErr(msg) => Failed(NetrcParseError(path, msg))
        case Parsed(machines) =>
          match FindMachine(machines, HerokuMachine)
          case None => Untouched
          case Some(m) => Found(m)
  }

  /** A missing netrc file or a directory in its place is ignored. */
  lemma AbsentOrDirectoryIsIgnored(host: Host, path: string)
    requires NetrcPath(host) == Success(path)
    requires path !in host.files || host.files[path] == IsDir
    ensures NetrcLookup(host) == Untouched
  {
  }

  /** A netrc file without an `api.heroku.com` machine is ignored. */
  lemma NoHerokuMachineIsIgnored(host: Host, path: string, machines: seq<Machine>)
    requires NetrcPath(host) == Success(path)
    requires path in host.files && host.files[path] == Parsed(machines)
    requires forall i :: 0 <= i < |machines| ==> machines[i].name != HerokuMachine
    ensures NetrcLookup(host) == Untouched
  {
  }

  /** The first `api.heroku.com` machine of a parsed netrc file is the one used. */
  lemma FirstHerokuMachineIsUsed(host: Host, path: string, machines: seq<Machine>, k: nat)
    requires NetrcPath(host) == Success(path)
    requires path in host.files && host.files[path] == Parsed(machines)
    requires k < |machines| && machines[k].name == HerokuMachine
    requires forall j :: 0 <= j < k ==> machines[j].name != HerokuMachine
    ensures NetrcLookup(host) == Found(machines[k])
  {
  }

  /**
   * readNetrcFile fails exactly when the home directory cannot be expanded,
   * stat fails for a reason other than absence, or the file does not parse.
   */
  lemma NetrcFailures(host: Host)
    ensures NetrcLookup(host).Failed? <==>
              || (host.netrcPathVar == "" && host.homeDir.Failure?)
              || (NetrcPath(host).Success? && NetrcPath(host).value in host.files &&
                  (host.files[NetrcPath(host).value].StatErr? || host.files[NetrcPath(host).value].ParseErr?))
    ensures NetrcLookup(host).Failed? && NetrcPath(host).Success? ==>
              var status := host.files[NetrcPath(host).value];
              NetrcLookup(host).error ==
                if status.StatErr? then StatError(status.msg)
                else NetrcParseError(NetrcPath(host).value, status.msg)
  {
  }

  /** readNetrcFile: the config update that NetrcLookup describes. */
  method ReadNetrcFile(config: Config, headers: map<string, string>, host: Host)
    returns (err: Option<ProviderError>)
    modifies config
    ensures NetrcLookup(host).Found? ==>
              err == None &&
              config.email == NetrcLookup(host).machine.login &&
              config.apiKey == NetrcLookup(host).machine.password &&
              config.headers == headers
    ensures NetrcLookup(host).Untouched? ==> err == None && unchanged(config)
    ensures NetrcLookup(host).Failed? ==> err == Some(NetrcLookup(host).error) && unchanged(config)
  {
    var path := host.netrcPathVar;
    if path == "" {
      var filename := ".netrc";
      if host.goos == "windows" {
        filename := "_netrc";
      }
      var expanded := ExpandHome(host.homeDir, "~/" + filename);
      if expanded.Failure? {
        return Some(expanded.error);
      }
      path := expanded.value;
    }

    if path !in host.files {
      return None;
    }
    var status := host.files[path];
    if status.StatErr? {
      return Some(StatError(status.msg));
    } else if status.IsDir? {
      return None;
    }

    if status.ParseErr? {
      return Some(NetrcParseError(path, status.msg));
    }

    var machine := FindMachine(status.machines, HerokuMachine);
    if machine.None? {
      return None;
    }

    config.email := machine.value.login;
    config.apiKey := machine.value.password;
    config.headers := headers;
    return None;
  }

  // ---------------------------------------------------------------------------
  // providerConfigure

  /** The header pairs the `headers` setting decodes to: none when it is empty. */
  function DecodedHeaders(d: ProviderData): (r: Result<map<string, string>, ProviderError>)
    ensures d.headers == "" ==> r == Success(map[])
    ensures d.headers != "" ==> r.Success? == d.headersJson.Success?
    ensures d.headers != "" && r.Success? ==> r.value == d.headersJson.value
    ensures r.Failure? ==> r.error == HeadersJsonError(d.headersJson.error)
  {
    if d.headers == "" then Success(map[])
    else
      match d.headersJson
      case Success(h) => Success(h)
      case Failure(msg) => Failure(HeadersJsonError(msg))
  }

  /** The header set built pair by pair from the decoded headers. */
  method CopyHeaders(headers: map<string, string>) returns (h: map<string, string>)
    ensures h.Keys == headers.Keys
    ensures forall k :: k in headers ==> h[k] == headers[k]
  {
    h := map[];
    var pending := headers.Keys;
    while pending != {}
      invariant pending <= headers.Keys
      invariant h.Keys == headers.Keys - pending
      invariant forall k :: k in h ==> h[k] == headers[k]
      decreases pending
    {
      var k :| k in pending;
      h := h[k := headers[k]];
      pending := pending - {k};
    }
  }

  /**
   * What providerConfigure yields: an error, or the credentials its Config holds.
   * It fails only on a malformed `headers` setting, and the headers it keeps are
   * either the decoded ones or none.
   */
  function ResolveCredentials(d: ProviderData, host: Host): (r: Result<Credentials, ProviderError>)
    ensures r.Failure? <==> d.headers != "" && d.headersJson.Failure?
    ensures r.Failure? ==> r.error == HeadersJsonError(d.headersJson.error)
    ensures r.Success? ==> r.value.headers == map[] || DecodedHeaders(d) == Success(r.value.headers)
  {
    match DecodedHeaders(d)
    case Failure(e) => Failure(e)
    case Success(h) =>
      match NetrcLookup(host)
      case Found(m) => Success(Credentials(m.login, m.password, h))
      case Untouched => Success(Credentials("", "", map[]))
      case Failed(_) => Success(Credentials(d.email, d.apiKey, h))
  }

  /** A malformed `headers` setting aborts configuration whatever the netrc file holds. */
  lemma HeadersErrorPrecedesNetrc(d: ProviderData, host1: Host, host2: Host)
    requires d.headers != "" && d.headersJson.Failure?
    ensures ResolveCredentials(d, host1) == ResolveCredentials(d, host2) ==
            Failure(HeadersJsonError(d.headersJson.error))
  {
  }

  /**
   * Whenever the netrc file is used or its read fails, the config carries the
   * header set: none for an empty `headers` setting, else the decoded object.
   */
  lemma ResolvedHeaders(d: ProviderData, host: Host)
    requires ResolveCredentials(d, host).Success?
    requires !NetrcLookup(host).Untouched?
    ensures d.headers == "" ==> ResolveCredentials(d, host).value.headers == map[]
    ensures d.headers != "" ==> d.headersJson.Success? &&
                                ResolveCredentials(d, host).value.headers == d.headersJson.value
  {
  }

  /** The Heroku machine of the netrc file supplies email, API key and the headers. */
  lemma NetrcMachineSuppliesCredentials(d: ProviderData, host: Host, path: string, machines: seq<Machine>, k: nat)
    requires DecodedHeaders(d).Success?
    requires NetrcPath(host) == Success(path)
    requires path in host.files && host.files[path] == Parsed(machines)
    requires k < |machines| && machines[k].name == HerokuMachine
    requires forall j :: 0 <= j < k ==> machines[j].name != HerokuMachine
    ensures ResolveCredentials(d, host) ==
            Success(Credentials(machines[k].login, machines[k].password, DecodedHeaders(d).value))
  {
  }

  /**
   * A missing netrc file, a directory in its place, or a file without the
   * Heroku machine is not a failure, so the explicit email and api_key are
   * NOT used: the configuration keeps Config{}'s empty fields.
   */
  lemma IgnoredNetrcIgnoresExplicitCredentials(d: ProviderData, host: Host)
    requires DecodedHeaders(d).Success?
    requires NetrcLookup(host).Untouched?
    ensures ResolveCredentials(d, host) == Success(Credentials("", "", map[]))
  {
  }

  /** A failed netrc read replaces the whole config with the explicit settings and the headers. */
  lemma NetrcFailureFallsBack(d: ProviderData, host: Host)
    requires DecodedHeaders(d).Success?
    requires NetrcLookup(host).Failed?
    ensures ResolveCredentials(d, host) == Success(Credentials(d.email, d.apiKey, DecodedHeaders(d).value))
  {
  }

  /** The scenario with no netrc file: explicit "u" / "t" are not picked up. */
  lemma MissingNetrcScenario()
    ensures ResolveCredentials(
              ProviderData("u", "t", "", Failure("unused")),
              Host("", "linux", Success("/home/u"), map[])) ==
            Success(Credentials("", "", map[]))
  {
  }

  /** The scenario with an unreadable netrc file: explicit "u" / "t" are used. */
  lemma UnreadableNetrcScenario()
    ensures ResolveCredentials(
              ProviderData("u", "t", "", Failure("unused")),
              Host("/etc/netrc", "linux", Success("/home/u"), map["/etc/netrc" := StatErr("permission denied")])) ==
            Success(Credentials("u", "t", map[]))
  {
  }

  /** providerConfigure: decode headers, read the netrc file, fall back on failure. */
  method ProviderConfigure(d: ProviderData, host: Host) returns (r: Result<Config, ProviderError>)
    ensures r.Failure? ==> ResolveCredentials(d, host) == Failure(r.error)
    ensures r.Success? ==> fresh(r.value) && ResolveCredentials(d, host) == Success(r.value.Value())
  {
    var config := new Config();

    var headers: map<string, string> := map[];
    if d.headers != "" {
      match d.headersJson
      case Failure(msg) =>
        return Failure(HeadersJsonError(msg));
      case Success(decoded) =>
        headers := decoded;
    }

    var h := CopyHeaders(headers);
    assert h == headers;

    var err := ReadNetrcFile(config, h, host);
    if err.Some? {
      config.email, config.apiKey, config.headers := d.email, d.apiKey, h;
    }
    return Success(config);
  }
}
