/** The pure decisions of `start` in src/models/Studio.ts: option defaulting,
    the startup file check, the advertised URL and the upgrade routing shared
    by the local and the remote server. */
module StudioStart {
  import opened Base

  const DefaultPort: int := 3210
  const DefaultRemoteAddress: string := "https://studio.asyncapi.com"
  /** The only request path that is upgraded to a live-sync socket. */
  const LiveServerPath: string := "/live-server"
  const LiveServerQuery: string := "?liveServer="
  /** The local UI's origin, up to the port. */
  const LocalHost: string := "http://localhost:"

  /** `StudioStartOptions`; absent optional fields are `None`. */
  datatype StartOptions = StartOptions(
    filePath: string,
    port: Option<int>,
    remote: Option<bool>,
    remoteAddress: Option<string>)

  /** Local mode serves the Studio build itself; remote mode only runs the
      sync channel for a Studio hosted at `address`. */
  datatype Mode = Local | Remote(address: string)

  /** What `start` goes on to set up once the file check has passed: one
      watcher on `filePath`, and a server of the given mode on `port`. */
  datatype Config = Config(filePath: string, port: int, mode: Mode)

  datatype StartError = SpecificationFileNotFound(filePath: string)

  /** `existsSync`, over the set of paths that exist on disk. */
  predicate IsValidFilePath(existing: set<string>, filePath: string)
  {
    filePath in existing
  }

  /** `options.port || DEFAULT_PORT`: 0 is falsy, so it is replaced too. */
  function PortOrDefault(port: Option<int>): (r: int)
    ensures r == DefaultPort <==> (port == None || port == Some(0) || port == Some(DefaultPort))
    ensures port.Some? && port.value != 0 ==> r == port.value
    ensures r != 0
  {
    match port
    case Some(p) => if p != 0 then p else DefaultPort
    case None => DefaultPort
  }

  /** `options.remoteAddress || DEFAULT_REMOTE_ADDRESS`: the empty string is
      falsy, so it is replaced too. */
  function AddressOrDefault(address: Option<string>): (r: string)
    ensures r == DefaultRemoteAddress <==> (address == None || address == Some("") || address == Some(DefaultRemoteAddress))
    ensures address.Some? && address.value != "" ==> r == address.value
    ensures r != ""
  {
    match address
    case Some(a) => if a != "" then a else DefaultRemoteAddress
    case None => DefaultRemoteAddress
  }

  /** `start` up to the point where the watcher and the server are created: a
      missing file throws before any of them exists. */
  function Start(opts: StartOptions, existing: set<string>): (r: Result<Config, StartError>)
    ensures r.Failure? <==> opts.filePath !in existing
    ensures r.Failure? ==> r.error == SpecificationFileNotFound(opts.filePath)
    ensures r.Success? ==> r.value.filePath == opts.filePath && r.value.port == PortOrDefault(opts.port)
    ensures r.Success? ==> (r.value.mode == Local <==> opts.remote != Some(true))
    ensures r.Success? && r.value.mode.Remote? ==> r.value.mode.address == AddressOrDefault(opts.remoteAddress)
  {
    var port := PortOrDefault(opts.port);
    var remoteAddress := AddressOrDefault(opts.remoteAddress);
    if !IsValidFilePath(existing, opts.filePath) then Failure(SpecificationFileNotFound(opts.filePath))
    else if opts.remote == Some(true) then Success(Config(opts.filePath, port, Remote(remoteAddress)))
    else Success(Config(opts.filePath, port, Local))
  }

  /** Where the UI is loaded from: the local server itself or the remote host. */
  function UiBase(cfg: Config): (r: string)
    ensures cfg.mode.Remote? ==> r == cfg.mode.address
    ensures cfg.mode == Local ==> LocalHost <= r
    ensures cfg.mode == Local ==> IsIntText(r[|LocalHost|..]) && ParseInt(r[|LocalHost|..]) == cfg.port
  {
    match cfg.mode
    case Local =>
      var r := LocalHost + IntToString(cfg.port);
      assert r[|LocalHost|..] == IntToString(cfg.port);
      IntToStringRoundTrip(cfg.port);
      r
    case Remote(address) => address
  }

  /** The URL printed and opened once the server listens. */
  function StudioUrl(cfg: Config): (r: string)
    ensures UiBase(cfg) + LiveServerQuery <= r
  {
    UiBase(cfg) + LiveServerQuery + IntToString(cfg.port)
  }

  /** How the Studio page reads the sync port back out of its URL. */
  function QueryPort(url: string, base: string): Option<int>
  {
    var prefix := base + LiveServerQuery;
    if prefix <= url && IsIntText(url[|prefix|..]) then Some(ParseInt(url[|prefix|..])) else None
  }

  /** The advertised URL names the UI base and, in its `liveServer` parameter,
      exactly the port the sync server listens on. */
  lemma {:induction false} StudioUrlCarriesPort(cfg: Config)
    ensures UiBase(cfg) + LiveServerQuery <= StudioUrl(cfg)
    ensures QueryPort(StudioUrl(cfg), UiBase(cfg)) == Some(cfg.port)
  {
    var prefix := UiBase(cfg) + LiveServerQuery;
    var url := StudioUrl(cfg);
    assert url == prefix + IntToString(cfg.port);
    assert url[|prefix|..] == IntToString(cfg.port);
    IntToStringRoundTrip(cfg.port);
  }

  /** What the 'upgrade' handler does with a request. */
  datatype UpgradeAction = HandleUpgrade | Destroy

  function RouteUpgrade(url: string): (a: UpgradeAction)
    ensures a == HandleUpgrade <==> url == LiveServerPath
    ensures a == Destroy <==> url != LiveServerPath
  {
    if url == LiveServerPath then HandleUpgrade else Destroy
  }
}
