/** The provider's configuration: providerConfigure, which merges the
    explicit provider arguments with the Rancher CLI config file, and
    loadConfig, which reads that file. Reading the file, decoding its JSON,
    parsing its URL and probing the management API are outcomes passed in. */
module Provider {
  import opened Attr
  import opened ResourceState

  /** CLIConfig: the fields of the Rancher CLI's cli.json the provider uses. */
  datatype CLIConfig = CLIConfig(
    accessKey: string,
    secretKey: string,
    tokenKey: string,
    url: string,
    caCerts: string,
    insecure: bool,
    path: string)

  /** What reading the config file gave: it does not exist, another read
      error, or its content as JSON decoding left it (the decoded fields, and
      the decoding error if there was one). */
  datatype ReadOutcome =
    | NotExist
    | ReadError(msg: string)
    | Content(decoded: CLIConfig, decodeErr: Option<string>)

  /** loadConfig: the config with its path, and the error to return. */
  function LoadConfig(path: string, read: ReadOutcome): (r: (CLIConfig, Option<string>))
    ensures r.0.path == path
    ensures read.NotExist? ==> r == (CLIConfig("", "", "", "", "", false, path), None)
    ensures r.1.Some? <==> read.ReadError? || (read.Content? && read.decodeErr.Some?)
  {
    match read
    case NotExist => (CLIConfig("", "", "", "", "", false, path), None)
    case ReadError(msg) => (CLIConfig("", "", "", "", "", false, path), Some(msg))
    case Content(decoded, decodeErr) => (decoded.(path := path), decodeErr)
  }

  /** The six values providerConfigure works with. */
  datatype Settings = Settings(
    apiURL: string,
    accessKey: string,
    secretKey: string,
    tokenKey: string,
    caCerts: string,
    insecure: bool)

  /** The Config the provider hands to its resources. */
  datatype Config = Config(
    url: string,
    accessKey: string,
    secretKey: string,
    tokenKey: string,
    caCerts: string,
    insecure: bool)

  /** A URL as url.Parse splits it, reduced to the parts used. */
  datatype ParsedURL = ParsedURL(scheme: string, host: string)

  /** Every argument is read with an unchecked type assertion. */
  predicate Readable(d: ResourceData)
    reads d
  {
    d.Get("api_url").Str? && d.Get("access_key").Str? && d.Get("secret_key").Str? &&
    d.Get("token_key").Str? && d.Get("ca_certs").Str? && d.Get("insecure").Bool? && d.Get("config").Str?
  }

  /** The explicit arguments. */
  function Explicit(d: ResourceData): Settings
    reads d
    requires Readable(d)
  {
    Settings(d.Get("api_url").s, d.Get("access_key").s, d.Get("secret_key").s,
      d.Get("token_key").s, d.Get("ca_certs").s, d.Get("insecure").b)
  }

  // The merge rule, stated once for a string and once for the whole.

  /** A non-empty explicit value wins over the file's. */
  function Prefer(explicit: string, file: string): (r: string)
    ensures explicit != "" ==> r == explicit
    ensures explicit == "" ==> r == file
    ensures r == "" <==> explicit == "" && file == ""
  {
    if explicit != "" then explicit else file
  }

  /** The settings after the file is merged in; fileURL is the file's URL
      reduced to scheme://host. */
  function MergeFile(s: Settings, file: CLIConfig, fileURL: string): Settings
  {
    Settings(
      if s.apiURL == "" && file.url != "" then fileURL else s.apiURL,
      Prefer(s.accessKey, file.accessKey),
      Prefer(s.secretKey, file.secretKey),
      Prefer(s.tokenKey, file.tokenKey),
      Prefer(s.caCerts, file.caCerts),
      s.insecure || file.insecure)
  }

  function ConfigOf(s: Settings): Config
  {
    Config(s.apiURL, s.accessKey, s.secretKey, s.tokenKey, s.caCerts, s.insecure)
  }

  /** The result of settings that are final: an error without an API URL,
      the probe's error, or the config. */
  function Finish(s: Settings, probe: Option<string>): Result<Config>
  {
    if s.apiURL == "" then Failure("No api_url provided")
    else if probe.Some? then Failure(probe.value)
    else Success(ConfigOf(s))
  }

  /** What providerConfigure returns, given the outcomes of reading the
      config file, parsing its URL and probing the API. A config that comes
      out has an API URL and carries each explicit non-empty value, the
      file's value only where the explicit one is empty, insecure when
      either says so, and the file's URL, as scheme://host, only when the
      explicit one is empty and the file's is not. */
  function Configure(e: Settings, configFile: string, read: ReadOutcome, parsed: Result<ParsedURL>,
      probe: Option<string>): (r: Result<Config>)
    ensures configFile == "" ==> r == Finish(e, probe)
    ensures e.apiURL == "" && (configFile == "" || LoadConfig(configFile, read).0.url == "") ==> r.Failure?
    ensures r.Success? ==>
      var c := r.value;
      var file := LoadConfig(configFile, read).0;
      c.url != "" &&
      (e.apiURL != "" ==> c.url == e.apiURL) &&
      (c.url != e.apiURL ==>
        (configFile != "" && e.apiURL == "" && file.url != "" && parsed.Success? &&
         c.url == parsed.value.scheme + "://" + parsed.value.host)) &&
      (e.accessKey != "" ==> c.accessKey == e.accessKey) &&
      (e.secretKey != "" ==> c.secretKey == e.secretKey) &&
      (e.tokenKey != "" ==> c.tokenKey == e.tokenKey) &&
      (e.caCerts != "" ==> c.caCerts == e.caCerts) &&
      (configFile != "" && e.accessKey == "" ==> c.accessKey == file.accessKey) &&
      (configFile != "" && e.secretKey == "" ==> c.secretKey == file.secretKey) &&
      (configFile != "" && e.tokenKey == "" ==> c.tokenKey == file.tokenKey) &&
      (configFile != "" && e.caCerts == "" ==> c.caCerts == file.caCerts) &&
      (c.insecure <==> e.insecure || (configFile != "" && file.insecure))
  {
    if configFile == "" then Finish(e, probe)
    else
      var (file, loadErr) := LoadConfig(configFile, read);
      if loadErr.Some? then Failure(loadErr.value)
      else if e.apiURL == "" && file.url != "" && parsed.Failure? then Failure(parsed.error)
      else
        var fileURL := if parsed.Success? then parsed.value.scheme + "://" + parsed.value.host else "";
        Finish(MergeFile(e, file, fileURL), probe)
  }

  /** providerConfigure: the locals start from the arguments and, when a
      config file is named, each empty one is overwritten from the file. */
  method ProviderConfigure(d: ResourceData, read: ReadOutcome, parsed: Result<ParsedURL>, probe: Option<string>)
      returns (r: Result<Config>)
    requires Readable(d)
    ensures r == Configure(Explicit(d), d.Get("config").s, read, parsed, probe)
  {
    var apiURL := d.Get("api_url").s;
    var accessKey := d.Get("access_key").s;
    var secretKey := d.Get("secret_key").s;
    var tokenKey := d.Get("token_key").s;
    var caCerts := d.Get("ca_certs").s;
    var insecure := d.Get("insecure").b;

    var configFile := d.Get("config").s;
    if configFile != "" {
      var (config, err) := LoadConfig(configFile, read);
      if err.Some? {
        return Failure(err.value);
      }
      if apiURL == "" && config.url != "" {
        if parsed.Failure? {
          return Failure(parsed.error);
        }
        apiURL := parsed.value.scheme + "://" + parsed.value.host;
      }
      if accessKey == "" {
        accessKey := config.accessKey;
      }
      if secretKey == "" {
        secretKey := config.secretKey;
      }
      if tokenKey == "" {
        tokenKey := config.tokenKey;
      }
      if caCerts == "" {
        caCerts := config.caCerts;
      }
      if insecure == false {
        insecure := config.insecure;
      }
    }

    if apiURL == "" {
      return Failure("No api_url provided");
    }
    if probe.Some? {
      return Failure(probe.value);
    }
    return Success(Config(apiURL, accessKey, secretKey, tokenKey, caCerts, insecure));
  }

  /** A missing config file is no error, and configuring with it is the same
      as configuring without a file. */
  lemma MissingFileIsNoFile(e: Settings, configFile: string, parsed: Result<ParsedURL>, probe: Option<string>)
    ensures LoadConfig(configFile, NotExist).1.None?
    ensures Configure(e, configFile, NotExist, parsed, probe) == Configure(e, "", NotExist, parsed, probe)
  {
    if configFile != "" {
      var file := LoadConfig(configFile, NotExist).0;
      assert MergeFile(e, file, "") == e;
    }
  }
}
