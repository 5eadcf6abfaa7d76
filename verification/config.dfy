/**
 * The API server's configuration sections, their defaults and their
 * validation (pkg/apiserver/config/config.go).
 */
module ApiserverConfig {

  import opened Wrappers
  import LogOptions
  import AuthOptions

  /** What `os.Stat` reports about a path: an error, a regular file, or something else. */
  datatype FileStatus = Missing | Regular | NotRegular

  /** The file system as the validators see it. */
  type StatOracle = string -> FileStatus

  /** The TLS client-authentication modes a server section accepts by name. */
  const AuthModes: seq<string> := ["request", "require", "verify_if_given", "require_and_verify"]

  /** Go's `http.DefaultMaxHeaderBytes` (1 MiB). */
  const DefaultMaxHeaderBytes: int := 0x10_0000

  /** Five minutes, in the nanoseconds a `types.Duration` counts. */
  const FiveMinutes: int := 5 * 60 * 1_000_000_000

  datatype ConfigError =
    | BindAddrRequired                          // a server section has no bind address
    | BindAddrsMissing                          // neither frontend address is set
    | BindAddrsEqual                            // both frontend addresses are the same
    | StatFailed(path: string)                  // the error os.Stat returned for the path
    | NotRegularFile(field: string, path: string)
    | CompanionRequired(given: string, required: string)  // one of a certificate/key pair is missing
    | UnknownAuthMode(kind: string, mode: string)

  /** Every path names an existing regular file. */
  predicate AllRegular(stat: StatOracle, paths: seq<string>)
  {
    forall i :: 0 <= i < |paths| ==> stat(paths[i]) == Regular
  }

  /** A certificate and its key are both absent, or both present and regular files. */
  predicate CertificatePairOk(stat: StatOracle, cert: string, key: string)
  {
    (cert == "" <==> key == "") && (cert != "" ==> stat(cert) == Regular && stat(key) == Regular)
  }

  /** An authentication mode is either unset or one of the known modes. */
  predicate AuthModeOk(mode: string)
  {
    mode == "" || mode in AuthModes
  }

  /** The check of one path named by `field`. */
  function CheckFile(stat: StatOracle, field: string, path: string): (err: Option<ConfigError>)
    ensures err == None <==> stat(path) == Regular
    ensures stat(path) == Missing ==> err == Some(StatFailed(path))
    ensures stat(path) == NotRegular ==> err == Some(NotRegularFile(field, path))
  {
    match stat(path)
    case Missing => Some(StatFailed(path))
    case NotRegular => Some(NotRegularFile(field, path))
    case Regular => None
  }

  /**
   * The check of a list of paths, stopping at the first that fails: the
   * error reported is that path's, and every path before it is regular.
   */
  function CheckFiles(stat: StatOracle, field: string, paths: seq<string>): (err: Option<ConfigError>)
    ensures err == None <==> AllRegular(stat, paths)
    ensures err != None ==>
              exists i :: 0 <= i < |paths| && stat(paths[i]) != Regular && err == CheckFile(stat, field, paths[i])
                          && AllRegular(stat, paths[..i])
  {
    if paths == [] then None
    else if CheckFile(stat, field, paths[0]) != None then CheckFile(stat, field, paths[0])
    else
      var rest := CheckFiles(stat, field, paths[1..]);
      if rest != None then
        ghost var i :| 0 <= i < |paths[1..]| && stat(paths[1..][i]) != Regular
                       && rest == CheckFile(stat, field, paths[1..][i]) && AllRegular(stat, paths[1..][..i]);
        assert paths[..i + 1] == [paths[0]] + paths[1..][..i];
        rest
      else
        rest
  }

  /**
   * The certificate/key checks shared by every section: first that both or
   * neither are given, then that the certificate, then the key, is a regular
   * file.
   */
  function CheckCertificatePair(stat: StatOracle, certField: string, keyField: string, cert: string, key: string)
    : (err: Option<ConfigError>)
    ensures err == None <==> CertificatePairOk(stat, cert, key)
    ensures cert != "" && key == "" ==> err == Some(CompanionRequired(certField, keyField))
    ensures cert == "" && key != "" ==> err == Some(CompanionRequired(keyField, certField))
    ensures cert != "" && key != "" && stat(cert) != Regular ==> err == CheckFile(stat, certField, cert)
    ensures cert != "" && key != "" && stat(cert) == Regular ==> err == CheckFile(stat, keyField, key)
  {
    if cert != "" && key == "" then Some(CompanionRequired(certField, keyField))
    else if cert == "" && key != "" then Some(CompanionRequired(keyField, certField))
    else if cert != "" && CheckFile(stat, certField, cert) != None then CheckFile(stat, certField, cert)
    else if key != "" then CheckFile(stat, keyField, key)
    else None
  }

  /**
   * The validation chain shared by the peer and backend sections: bind
   * address, then trusted CA files, then the certificate pair, and the
   * authentication mode (`kind` names it in the message) last.
   */
  function CheckServer(stat: StatOracle, bindAddr: string, rootCAPool: seq<string>,
                       cert: string, key: string, mode: string, kind: string): (err: Option<ConfigError>)
    ensures err == None <==>
              bindAddr != "" && AllRegular(stat, rootCAPool) && CertificatePairOk(stat, cert, key) && AuthModeOk(mode)
    ensures bindAddr == "" ==> err == Some(BindAddrRequired)
    ensures bindAddr != "" && !AllRegular(stat, rootCAPool) ==> err == CheckFiles(stat, "trusted_ca_file", rootCAPool)
    ensures bindAddr != "" && AllRegular(stat, rootCAPool) && !CertificatePairOk(stat, cert, key) ==>
              err == CheckCertificatePair(stat, "certificate_file", "certificate_key_file", cert, key)
    ensures err == Some(UnknownAuthMode(kind, mode)) <==>
              bindAddr != "" && AllRegular(stat, rootCAPool) && CertificatePairOk(stat, cert, key) && !AuthModeOk(mode)
  {
    if bindAddr == "" then Some(BindAddrRequired)
    else if CheckFiles(stat, "trusted_ca_file", rootCAPool) != None then CheckFiles(stat, "trusted_ca_file", rootCAPool)
    else if CheckCertificatePair(stat, "certificate_file", "certificate_key_file", cert, key) != None then
      CheckCertificatePair(stat, "certificate_file", "certificate_key_file", cert, key)
    else if mode != "" && mode !in AuthModes then Some(UnknownAuthMode(kind, mode))
    else None
  }

  /** The peer (cluster replication) server section. */
  class PeerOptions {
    var BindAddr: string
    var MemberURLs: seq<string>
    var RootCAPool: seq<string>
    var CertificateFile: string
    var CertificateKeyFile: string
    var CertificateAuthMode: string
    var ClientCertificateFile: string
    var ClientCertificateKeyFile: string
    var ClientInsecureSkipTLSVerify: bool

    /** Every field holds its zero value. */
    predicate IsZero()
      reads this
    {
      && BindAddr == "" && MemberURLs == [] && RootCAPool == []
      && CertificateFile == "" && CertificateKeyFile == "" && CertificateAuthMode == ""
      && ClientCertificateFile == "" && ClientCertificateKeyFile == "" && !ClientInsecureSkipTLSVerify
    }

    /** `new(PeerOptions)`: every field zero. */
    constructor ()
      ensures IsZero()
    {
      BindAddr, MemberURLs, RootCAPool := "", [], [];
      CertificateFile, CertificateKeyFile, CertificateAuthMode := "", "", "";
      ClientCertificateFile, ClientCertificateKeyFile, ClientInsecureSkipTLSVerify := "", "", false;
    }

    /**
     * Sets the bind address, the authentication mode and the member list and
     * nothing else; with no CA or certificate paths the section then validates
     * whatever the file system holds.
     */
    method SetDefaults()
      modifies this
      ensures BindAddr == ":7070" && CertificateAuthMode == "request" && MemberURLs == ["http://localhost:7070"]
      ensures RootCAPool == old(RootCAPool) && CertificateFile == old(CertificateFile)
      ensures CertificateKeyFile == old(CertificateKeyFile) && ClientCertificateFile == old(ClientCertificateFile)
      ensures ClientCertificateKeyFile == old(ClientCertificateKeyFile)
      ensures ClientInsecureSkipTLSVerify == old(ClientInsecureSkipTLSVerify)
      ensures RootCAPool == [] && CertificateFile == "" && CertificateKeyFile == "" ==>
                forall stat :: Validate(stat) == None
    {
      BindAddr := ":7070";
      CertificateAuthMode := "request";
      MemberURLs := ["http://localhost:7070"];
    }

    /**
     * Valid exactly when the bind address is set, every trusted CA is a
     * regular file, the certificate pair is complete and regular, and the
     * mode is unset or known. A missing bind address is reported before
     * anything else, the first bad CA next, and an unknown mode only when
     * everything else is fine.
     */
    function Validate(stat: StatOracle): (err: Option<ConfigError>)
      reads this
      ensures err == None <==>
                BindAddr != "" && AllRegular(stat, RootCAPool)
                && CertificatePairOk(stat, CertificateFile, CertificateKeyFile) && AuthModeOk(CertificateAuthMode)
      ensures BindAddr == "" ==> err == Some(BindAddrRequired)
      ensures BindAddr != "" && !AllRegular(stat, RootCAPool) ==>
                err == CheckFiles(stat, "trusted_ca_file", RootCAPool)
      ensures (CertificateFile == "") != (CertificateKeyFile == "") ==> err != None
      ensures err == Some(UnknownAuthMode("certificate", CertificateAuthMode)) <==>
                BindAddr != "" && AllRegular(stat, RootCAPool)
                && CertificatePairOk(stat, CertificateFile, CertificateKeyFile) && !AuthModeOk(CertificateAuthMode)
    {
      CheckServer(stat, BindAddr, RootCAPool, CertificateFile, CertificateKeyFile, CertificateAuthMode, "certificate")
    }
  }

  /** The public HTTP/HTTPS entry point section. */
  class FrontendOptions {
    var HttpBindAddr: string
    var HttpsBindAddr: string
    var ReadTimeout: int
    var ReadHeaderTimeout: int
    var WriteTimeout: int
    var IdleTimeout: int
    var MaxHeaderBytes: int
    var DefaultCertificateFile: string
    var DefaultCertificateKeyFile: string

    /** Every field holds its zero value. */
    predicate IsZero()
      reads this
    {
      && HttpBindAddr == "" && HttpsBindAddr == ""
      && ReadTimeout == 0 && ReadHeaderTimeout == 0 && WriteTimeout == 0 && IdleTimeout == 0
      && MaxHeaderBytes == 0 && DefaultCertificateFile == "" && DefaultCertificateKeyFile == ""
    }

    /** `new(FrontendOptions)`: every field zero. */
    constructor ()
      ensures IsZero()
    {
      HttpBindAddr, HttpsBindAddr := "", "";
      ReadTimeout, ReadHeaderTimeout, WriteTimeout, IdleTimeout := 0, 0, 0, 0;
      MaxHeaderBytes, DefaultCertificateFile, DefaultCertificateKeyFile := 0, "", "";
    }

    /**
     * Sets the two bind addresses, the header limit and three of the four
     * timeouts; the write timeout and the default certificate pair are kept.
     */
    method SetDefaults()
      modifies this
      ensures HttpBindAddr == ":8080" && HttpsBindAddr == ":8443"
      ensures MaxHeaderBytes == DefaultMaxHeaderBytes
      ensures IdleTimeout == FiveMinutes && ReadTimeout == FiveMinutes && ReadHeaderTimeout == FiveMinutes
      ensures WriteTimeout == old(WriteTimeout)
      ensures DefaultCertificateFile == old(DefaultCertificateFile)
      ensures DefaultCertificateKeyFile == old(DefaultCertificateKeyFile)
      ensures DefaultCertificateFile == "" && DefaultCertificateKeyFile == "" ==> forall stat :: Validate(stat) == None
    {
      HttpBindAddr := ":8080";
      HttpsBindAddr := ":8443";
      MaxHeaderBytes := DefaultMaxHeaderBytes;
      IdleTimeout := FiveMinutes;
      ReadTimeout := FiveMinutes;
      ReadHeaderTimeout := FiveMinutes;
    }

    /**
     * Valid exactly when the two addresses differ (which already means one
     * of them is set) and the default certificate pair is complete and
     * regular. Two empty addresses get their own message.
     */
    function Validate(stat: StatOracle): (err: Option<ConfigError>)
      reads this
      ensures err == None <==>
                HttpBindAddr != HttpsBindAddr && CertificatePairOk(stat, DefaultCertificateFile, DefaultCertificateKeyFile)
      ensures err == None ==> HttpBindAddr != "" || HttpsBindAddr != ""
      ensures HttpBindAddr == "" && HttpsBindAddr == "" ==> err == Some(BindAddrsMissing)
      ensures HttpBindAddr != "" && HttpBindAddr == HttpsBindAddr ==> err == Some(BindAddrsEqual)
      ensures HttpBindAddr != HttpsBindAddr ==>
                err == CheckCertificatePair(stat, "default_certificate_file", "default_certificate_key_file",
                                            DefaultCertificateFile, DefaultCertificateKeyFile)
    {
      if HttpBindAddr == "" && HttpsBindAddr == "" then Some(BindAddrsMissing)
      else if HttpBindAddr == HttpsBindAddr then Some(BindAddrsEqual)
      else CheckCertificatePair(stat, "default_certificate_file", "default_certificate_key_file",
                                DefaultCertificateFile, DefaultCertificateKeyFile)
    }
  }

  /** The tunnel control-plane server section. */
  class BackendOptions {
    var BindAddr: string
    var ReadTimeout: int
    var ReadHeaderTimeout: int
    var WriteTimeout: int
    var IdleTimeout: int
    var MaxHeaderBytes: int
    var RootCAPool: seq<string>
    var ClientAuthMode: string
    var CertificateFile: string
    var CertificateKeyFile: string

    /** Every field holds its zero value. */
    predicate IsZero()
      reads this
    {
      && BindAddr == "" && RootCAPool == [] && ClientAuthMode == ""
      && ReadTimeout == 0 && ReadHeaderTimeout == 0 && WriteTimeout == 0 && IdleTimeout == 0
      && MaxHeaderBytes == 0 && CertificateFile == "" && CertificateKeyFile == ""
    }

    /** `new(BackendOptions)`: every field zero. */
    constructor ()
      ensures IsZero()
    {
      BindAddr, RootCAPool, ClientAuthMode := "", [], "";
      ReadTimeout, ReadHeaderTimeout, WriteTimeout, IdleTimeout := 0, 0, 0, 0;
      MaxHeaderBytes, CertificateFile, CertificateKeyFile := 0, "", "";
    }

    /**
     * Sets the bind address, the client authentication mode, the header limit
     * and three timeouts; with no CA or certificate paths the section then
     * validates whatever the file system holds.
     */
    method SetDefaults()
      modifies this
      ensures BindAddr == ":8090" && ClientAuthMode == "request"
      ensures MaxHeaderBytes == DefaultMaxHeaderBytes
      ensures IdleTimeout == FiveMinutes && ReadTimeout == FiveMinutes && ReadHeaderTimeout == FiveMinutes
      ensures WriteTimeout == old(WriteTimeout) && RootCAPool == old(RootCAPool)
      ensures CertificateFile == old(CertificateFile) && CertificateKeyFile == old(CertificateKeyFile)
      ensures RootCAPool == [] && CertificateFile == "" && CertificateKeyFile == "" ==>
                forall stat :: Validate(stat) == None
    {
      BindAddr := ":8090";
      ClientAuthMode := "request";
      MaxHeaderBytes := DefaultMaxHeaderBytes;
      IdleTimeout := FiveMinutes;
      ReadTimeout := FiveMinutes;
      ReadHeaderTimeout := FiveMinutes;
    }

    /**
     * The same chain as the peer section, with the mode called the client
     * authentication mode.
     */
    function Validate(stat: StatOracle): (err: Option<ConfigError>)
      reads this
      ensures err == None <==>
                BindAddr != "" && AllRegular(stat, RootCAPool)
                && CertificatePairOk(stat, CertificateFile, CertificateKeyFile) && AuthModeOk(ClientAuthMode)
      ensures BindAddr == "" ==> err == Some(BindAddrRequired)
      ensures BindAddr != "" && !AllRegular(stat, RootCAPool) ==>
                err == CheckFiles(stat, "trusted_ca_file", RootCAPool)
      ensures (CertificateFile == "") != (CertificateKeyFile == "") ==> err != None
      ensures err == Some(UnknownAuthMode("client", ClientAuthMode)) <==>
                BindAddr != "" && AllRegular(stat, RootCAPool)
                && CertificatePairOk(stat, CertificateFile, CertificateKeyFile) && !AuthModeOk(ClientAuthMode)
    {
      CheckServer(stat, BindAddr, RootCAPool, CertificateFile, CertificateKeyFile, ClientAuthMode, "client")
    }
  }

  /** One section's error, tagged with the section it came from (the "log: ", "peer: ", ... prefix). */
  datatype SectionError =
    | LogSection(logError: LogOptions.LogError)
    | PeerSection(error: ConfigError)
    | FrontendSection(error: ConfigError)
    | BackendSection(error: ConfigError)

  /** The position of a section in the validation order. */
  function Rank(e: SectionError): (r: nat)
    ensures r < 4
  {
    match e
    case LogSection(_) => 0
    case PeerSection(_) => 1
    case FrontendSection(_) => 2
    case BackendSection(_) => 3
  }

  /** The whole configuration file. */
  class Configuration {
    var Log: LogOptions.Options
    var Auth: AuthOptions.Options
    var Peer: PeerOptions
    var Frontend: FrontendOptions
    var Backend: BackendOptions

    /**
     * `NewConfiguration`: the log and auth sections as their `NewOptions`
     * make them, the three server sections with every field zero.
     */
    constructor NewConfiguration()
      ensures fresh(Log) && fresh(Auth) && fresh(Peer) && fresh(Frontend) && fresh(Backend)
      ensures Log.Level == null && !Log.Development && !Log.DisableCaller && !Log.DisableStacktrace
      ensures Log.Sampling != null && fresh(Log.Sampling) && Log.Sampling.Initial == 0 && Log.Sampling.Thereafter == 0
      ensures Log.Encoding == "" && Log.OutputPaths == [] && Log.ErrorOutputPaths == []
      ensures Auth.Method == "" && Auth.Options != null && fresh(Auth.Options) && Auth.Options.Raw == None
      ensures Peer.IsZero() && Frontend.IsZero() && Backend.IsZero()
    {
      Log := new LogOptions.Options.NewOptions();
      Auth := new AuthOptions.Options.NewOptions();
      Peer := new PeerOptions();
      Backend := new BackendOptions();
      Frontend := new FrontendOptions();
    }

    /** An entry of an error list is the current error of the section it names. */
    predicate Reported(stat: StatOracle, e: SectionError)
      reads this, Log, Peer, Frontend, Backend
    {
      match e
      case LogSection(x) => Log.Validate() == Some(x)
      case PeerSection(x) => Peer.Validate(stat) == Some(x)
      case FrontendSection(x) => Frontend.Validate(stat) == Some(x)
      case BackendSection(x) => Backend.Validate(stat) == Some(x)
    }

    /**
     * Applies the defaults of the log, peer, frontend and backend sections;
     * the auth section is not touched. Without certificate or CA paths every
     * section then validates.
     */
    method SetDefaults()
      modifies Log, Log.Sampling, Peer, Frontend, Backend
      // the log section
      ensures Log.Level != null && fresh(Log.Level) && Log.Level.Level == LogOptions.Debug
      ensures Log.Encoding == "console" && Log.Validate() == None
      ensures old(Log.Sampling) != null ==> Log.Sampling == old(Log.Sampling)
      ensures old(Log.Sampling) == null ==> Log.Sampling != null && fresh(Log.Sampling)
      ensures Log.Sampling != null && Log.Sampling.Initial == 100 && Log.Sampling.Thereafter == 100
      ensures Log.OutputPaths == ["stderr"] && Log.ErrorOutputPaths == ["stderr"]
      ensures Log.Development == old(Log.Development) && Log.DisableCaller == old(Log.DisableCaller)
      ensures Log.DisableStacktrace == old(Log.DisableStacktrace)
      // the peer section
      ensures Peer.BindAddr == ":7070" && Peer.CertificateAuthMode == "request"
      ensures Peer.MemberURLs == ["http://localhost:7070"]
      ensures Peer.RootCAPool == old(Peer.RootCAPool) && Peer.CertificateFile == old(Peer.CertificateFile)
      ensures Peer.CertificateKeyFile == old(Peer.CertificateKeyFile)
      ensures Peer.ClientCertificateFile == old(Peer.ClientCertificateFile)
      ensures Peer.ClientCertificateKeyFile == old(Peer.ClientCertificateKeyFile)
      ensures Peer.ClientInsecureSkipTLSVerify == old(Peer.ClientInsecureSkipTLSVerify)
      // the frontend section
      ensures Frontend.HttpBindAddr == ":8080" && Frontend.HttpsBindAddr == ":8443"
      ensures Frontend.MaxHeaderBytes == DefaultMaxHeaderBytes
      ensures Frontend.IdleTimeout == FiveMinutes && Frontend.ReadTimeout == FiveMinutes
      ensures Frontend.ReadHeaderTimeout == FiveMinutes && Frontend.WriteTimeout == old(Frontend.WriteTimeout)
      ensures Frontend.DefaultCertificateFile == old(Frontend.DefaultCertificateFile)
      ensures Frontend.DefaultCertificateKeyFile == old(Frontend.DefaultCertificateKeyFile)
      // the backend section
      ensures Backend.BindAddr == ":8090" && Backend.ClientAuthMode == "request"
      ensures Backend.MaxHeaderBytes == DefaultMaxHeaderBytes
      ensures Backend.IdleTimeout == FiveMinutes && Backend.ReadTimeout == FiveMinutes
      ensures Backend.ReadHeaderTimeout == FiveMinutes && Backend.WriteTimeout == old(Backend.WriteTimeout)
      ensures Backend.RootCAPool == old(Backend.RootCAPool) && Backend.CertificateFile == old(Backend.CertificateFile)
      ensures Backend.CertificateKeyFile == old(Backend.CertificateKeyFile)
      // the auth section is not touched
      ensures unchanged(Auth) && (Auth.Options != null ==> unchanged(Auth.Options))
      ensures old(Peer.RootCAPool) == [] && old(Peer.CertificateFile) == "" && old(Peer.CertificateKeyFile) == "" ==>
                forall stat :: Peer.Validate(stat) == None
      ensures old(Frontend.DefaultCertificateFile) == "" && old(Frontend.DefaultCertificateKeyFile) == "" ==>
                forall stat :: Frontend.Validate(stat) == None
      ensures old(Backend.RootCAPool) == [] && old(Backend.CertificateFile) == "" && old(Backend.CertificateKeyFile) == "" ==>
                forall stat :: Backend.Validate(stat) == None
    {
      Log.SetDefaults();
      Peer.SetDefaults();
      Frontend.SetDefaults();
      Backend.SetDefaults();
    }

    /**
     * Validates the log, peer, frontend and backend sections, in that order,
     * and collects one prefixed error per failing section; the auth section
     * is not consulted. The aggregate is nil exactly when the list is empty.
     */
    method Validate(stat: StatOracle) returns (errs: seq<SectionError>)
      ensures errs == [] <==>
                Log.Validate() == None && Peer.Validate(stat) == None
                && Frontend.Validate(stat) == None && Backend.Validate(stat) == None
      ensures forall k :: 0 <= k < |errs| ==> Reported(stat, errs[k])
      ensures forall i, j :: 0 <= i < j < |errs| ==> Rank(errs[i]) < Rank(errs[j])
      ensures Log.Validate() != None ==> LogSection(Log.Validate().value) in errs
      ensures Peer.Validate(stat) != None ==> PeerSection(Peer.Validate(stat).value) in errs
      ensures Frontend.Validate(stat) != None ==> FrontendSection(Frontend.Validate(stat).value) in errs
      ensures Backend.Validate(stat) != None ==> BackendSection(Backend.Validate(stat).value) in errs
    {
      errs := [];
      var logErr := Log.Validate();
      if logErr != None {
        errs := errs + [LogSection(logErr.value)];
      }
      var peerErr := Peer.Validate(stat);
      if peerErr != None {
        errs := errs + [PeerSection(peerErr.value)];
      }
      var frontendErr := Frontend.Validate(stat);
      if frontendErr != None {
        errs := errs + [FrontendSection(frontendErr.value)];
      }
      var backendErr := Backend.Validate(stat);
      if backendErr != None {
        errs := errs + [BackendSection(backendErr.value)];
      }
    }
  }
}
