/**
 * The settings object that tells the vulnerability scanner where its gost
 * dictionary lives (config/gostconf.go): how the three fields are resolved
 * from a baseline, the environment and defaults, and how the HTTP health
 * check decides whether to probe and how to judge the answer.
 *
 * The process environment, the working directory and the outcome of the
 * HTTP request are inputs of the model.
 */
module GostConfig {

  datatype Option<T> = None | Some(value: T)

  // ---------------------------------------------------------------------
  // Constants

  /** Environment variables bound to the three fields. */
  const GostDBType := "GOSTDB_TYPE"
  const GostDBURL := "GOSTDB_URL"
  const GostDBPath := "GOSTDB_SQLITE3_PATH"

  /** Defaults filled in by setDefault. */
  const DefaultType := "sqlite3"
  const DefaultFileName := "gost.sqlite3"

  /** The one mode in which the dictionary is fetched over HTTP. */
  const HTTPType := "http"
  const HealthPath := "/health"

  /** The fixed text around the URL and the errors in a failed health check. */
  const ErrorLead := "Failed to connect to gost server. url: "
  const ErrsLead := ", errs: "

  // ---------------------------------------------------------------------
  // Values

  /** The three fields of a GostConf at one moment. */
  datatype Settings = Settings(dbType: string, url: string, sqlite3Path: string)

  /** The process environment; a variable that is not set reads as "". */
  type Env = map<string, string>

  function Getenv(env: Env, key: string): string
  {
    if key in env then env[key] else ""
  }

  // ---------------------------------------------------------------------
  // Strings

  /** `t` occurs somewhere inside `s`. */
  ghost predicate Contains(s: string, t: string)
  {
    exists p, q :: s == p + t + q
  }

  lemma ContainsSelf(t: string)
    ensures Contains(t, t)
  {
    assert t == [] + t + [];
  }

  lemma ContainsWithin(s: string, m: string, t: string)
    requires Contains(s, m) && Contains(m, t)
    ensures Contains(s, t)
  {
    var p, q :| s == p + m + q;
    var p', q' :| m == p' + t + q';
    assert s == (p + p') + t + (q' + q);
  }

  /**
   * filepath.Join of a directory and a file name. An empty directory
   * (a failed working-directory lookup) leaves the bare name; otherwise
   * exactly one separator lies between the two. Go's cleaning of a
   * directory that is not already clean is not modelled.
   */
  function JoinPath(dir: string, name: string): (r: string)
    ensures dir == "" ==> r == name
    ensures dir != "" ==> |r| >= |dir| && r[..|dir|] == dir
                          && (dir[|dir| - 1] == '/' || (|r| > |dir| && r[|dir|] == '/'))
    ensures dir != "" ==> |r| == |dir| + |name| + (if dir[|dir| - 1] == '/' then 0 else 1)
    ensures |r| >= |name| && r[|r| - |name|..] == name
    ensures name != "" ==> r != ""
  {
    if dir == "" then name
    else if dir[|dir| - 1] == '/' then dir + name
    else dir + "/" + name
  }

  // ---------------------------------------------------------------------
  // Resolution (Init and setDefault)

  /**
   * The first three steps of Init: every bound environment variable that is
   * non-empty overwrites its field; an empty or absent one leaves it alone.
   */
  function ApplyEnv(s: Settings, env: Env): (r: Settings)
    ensures Getenv(env, GostDBType) != "" ==> r.dbType == Getenv(env, GostDBType)
    ensures Getenv(env, GostDBURL) != "" ==> r.url == Getenv(env, GostDBURL)
    ensures Getenv(env, GostDBPath) != "" ==> r.sqlite3Path == Getenv(env, GostDBPath)
    ensures Getenv(env, GostDBType) == "" ==> r.dbType == s.dbType
    ensures Getenv(env, GostDBURL) == "" ==> r.url == s.url
    ensures Getenv(env, GostDBPath) == "" ==> r.sqlite3Path == s.sqlite3Path
  {
    var t := Getenv(env, GostDBType);
    var u := Getenv(env, GostDBURL);
    var p := Getenv(env, GostDBPath);
    Settings(if t != "" then t else s.dbType,
             if u != "" then u else s.url,
             if p != "" then p else s.sqlite3Path)
  }

  /**
   * setDefault: an empty type becomes "sqlite3"; when neither a URL nor a
   * path is given, the path becomes gost.sqlite3 in the working directory
   * `wd` ("" when the lookup failed). Nothing else changes.
   */
  function WithDefaults(s: Settings, wd: string): (r: Settings)
    ensures r.dbType != "" && (r.url != "" || r.sqlite3Path != "")
    ensures r.url == s.url
    ensures s.dbType != "" ==> r.dbType == s.dbType
    ensures s.dbType == "" ==> r.dbType == DefaultType
    ensures s.sqlite3Path != "" ==> r.sqlite3Path == s.sqlite3Path
    ensures s.url != "" ==> r.sqlite3Path == s.sqlite3Path
    ensures s.url == "" && s.sqlite3Path == "" ==> r.sqlite3Path == JoinPath(wd, DefaultFileName)
  {
    var t := if s.dbType == "" then DefaultType else s.dbType;
    var p := if s.url == "" && s.sqlite3Path == "" then JoinPath(wd, DefaultFileName) else s.sqlite3Path;
    Settings(t, s.url, p)
  }

  /** What Init leaves in a config whose fields were `baseline`. */
  function Resolve(baseline: Settings, env: Env, wd: string): (r: Settings)
    // the environment wins over the baseline, and defaulting never undoes it
    ensures Getenv(env, GostDBType) != "" ==> r.dbType == Getenv(env, GostDBType)
    ensures Getenv(env, GostDBURL) != "" ==> r.url == Getenv(env, GostDBURL)
    ensures Getenv(env, GostDBPath) != "" ==> r.sqlite3Path == Getenv(env, GostDBPath)
    // an empty or absent variable never overwrites a non-empty baseline field
    ensures Getenv(env, GostDBType) == "" && baseline.dbType != "" ==> r.dbType == baseline.dbType
    ensures Getenv(env, GostDBURL) == "" ==> r.url == baseline.url
    ensures Getenv(env, GostDBPath) == "" && (baseline.sqlite3Path != "" || r.url != "") ==> r.sqlite3Path == baseline.sqlite3Path
    // the defaults
    ensures r.dbType != ""
    ensures Getenv(env, GostDBType) == "" && baseline.dbType == "" ==> r.dbType == DefaultType
    ensures r.url != "" || r.sqlite3Path != ""
    ensures Getenv(env, GostDBURL) == "" && baseline.url == "" && Getenv(env, GostDBPath) == "" && baseline.sqlite3Path == ""
            ==> r.url == "" && r.sqlite3Path == JoinPath(wd, DefaultFileName)
  {
    WithDefaults(ApplyEnv(baseline, env), wd)
  }

  /**
   * Supplying both a URL and a path leaves both populated: nothing enforces
   * that only one of them is used.
   */
  lemma BothLocationsKept(baseline: Settings, env: Env, wd: string)
    requires baseline.url != "" && baseline.sqlite3Path != ""
    ensures Resolve(baseline, env, wd).url != "" && Resolve(baseline, env, wd).sqlite3Path != ""
  {
  }

  /**
   * The type is "sqlite3" by default exactly when the defaulting branch ran;
   * that branch runs exactly when both the variable and the baseline were
   * empty, and otherwise the type is the variable's or the baseline's value.
   */
  lemma ResolvedType(baseline: Settings, env: Env, wd: string)
    ensures ApplyEnv(baseline, env).dbType == "" <==> Getenv(env, GostDBType) == "" && baseline.dbType == ""
    ensures Resolve(baseline, env, wd).dbType ==
            if Getenv(env, GostDBType) != "" then Getenv(env, GostDBType)
            else if baseline.dbType != "" then baseline.dbType
            else DefaultType
  {
  }

  /** setDefault on a config it has already filled in changes nothing. */
  lemma WithDefaultsIdempotent(s: Settings, wd: string)
    ensures WithDefaults(WithDefaults(s, wd), wd) == WithDefaults(s, wd)
  {
  }

  /** Init run a second time with the same environment and directory is a no-op. */
  lemma ResolveIdempotent(baseline: Settings, env: Env, wd: string)
    ensures Resolve(Resolve(baseline, env, wd), env, wd) == Resolve(baseline, env, wd)
  {
  }

  /** Only the three bound variables influence the result. */
  lemma OnlyBoundVariablesMatter(baseline: Settings, env1: Env, env2: Env, wd: string)
    requires Getenv(env1, GostDBType) == Getenv(env2, GostDBType)
    requires Getenv(env1, GostDBURL) == Getenv(env2, GostDBURL)
    requires Getenv(env1, GostDBPath) == Getenv(env2, GostDBPath)
    ensures Resolve(baseline, env1, wd) == Resolve(baseline, env2, wd)
  {
  }

  /** An empty baseline with no variables set, run in /srv/app. */
  lemma EmptyBaselineResolution()
    ensures Resolve(Settings("", "", ""), map[], "/srv/app") == Settings("sqlite3", "", "/srv/app/gost.sqlite3")
  {
  }

  /** A file-configured sqlite3 setup switched to HTTP through the environment. */
  lemma EnvironmentSwitchesToHTTP()
    ensures Resolve(Settings("sqlite3", "", "/custom/path.db"),
                    map[GostDBType := "http", GostDBURL := "https://gost.example.com:1324"], "/srv/app")
            == Settings("http", "https://gost.example.com:1324", "/custom/path.db")
  {
  }

  // ---------------------------------------------------------------------
  // Health check

  /** What the GET request of the health check came back with. */
  datatype HttpOutcome = HttpOutcome(errs: seq<string>, hasResponse: bool, statusCode: int)

  /**
   * Whether a health check sent a request, and if so to which URL and with
   * which error (None for the nil error).
   */
  datatype HealthCheck = Skipped | Probed(target: string, err: Option<string>)

  /** The error value the caller receives. */
  function ReturnedError(h: HealthCheck): Option<string>
  {
    match h
    case Skipped => None
    case Probed(_, e) => e
  }

  /** fmt's %s rendering of the error texts, joined by single spaces. */
  function SpaceJoined(parts: seq<string>): string
  {
    if |parts| == 0 then ""
    else if |parts| == 1 then parts[0]
    else parts[0] + " " + SpaceJoined(parts[1..])
  }

  /** Every error text of the list appears in its space-joined rendering. */
  lemma {:induction false} SpaceJoinedContainsEach(parts: seq<string>, i: nat)
    requires i < |parts|
    ensures Contains(SpaceJoined(parts), parts[i])
    decreases |parts|
  {
    if |parts| == 1 {
      ContainsSelf(parts[0]);
    } else if i == 0 {
      assert SpaceJoined(parts) == [] + parts[0] + (" " + SpaceJoined(parts[1..]));
    } else {
      var rest := SpaceJoined(parts[1..]);
      SpaceJoinedContainsEach(parts[1..], i - 1);
      assert parts[1..][i - 1] == parts[i];
      assert SpaceJoined(parts) == (parts[0] + " ") + rest + [];
      ContainsWithin(SpaceJoined(parts), rest, parts[i]);
    }
  }

  /** Brackets around the space-joined texts keep every text visible. */
  lemma BracketedContainsEach(errs: seq<string>)
    ensures forall i :: 0 <= i < |errs| ==> Contains("[" + SpaceJoined(errs) + "]", errs[i])
  {
    var joined := SpaceJoined(errs);
    forall i | 0 <= i < |errs|
      ensures Contains("[" + joined + "]", errs[i])
    {
      SpaceJoinedContainsEach(errs, i);
      ContainsWithin("[" + joined + "]", joined, errs[i]);
    }
  }

  /**
   * The error list as `%s` prints it: bracketed, `[]` when the list is
   * empty, with every error text inside.
   */
  function RenderErrs(errs: seq<string>): (r: string)
    ensures |r| >= 2 && r[0] == '[' && r[|r| - 1] == ']'
    ensures errs == [] ==> r == "[]"
    ensures forall i :: 0 <= i < |errs| ==> Contains(r, errs[i])
  {
    BracketedContainsEach(errs);
    "[" + SpaceJoined(errs) + "]"
  }

  /** The failure text built from the probed URL and the rendered errors names both. */
  lemma FailureTextNames(target: string, errs: seq<string>)
    ensures var msg := ErrorLead + target + ErrsLead + RenderErrs(errs);
            Contains(msg, target) && forall i :: 0 <= i < |errs| ==> Contains(msg, errs[i])
  {
    var rendered := RenderErrs(errs);
    var msg := ErrorLead + target + ErrsLead + rendered;
    assert msg == ErrorLead + target + (ErrsLead + rendered);
    assert msg == (ErrorLead + target + ErrsLead) + rendered + [];
    forall i | 0 <= i < |errs|
      ensures Contains(msg, errs[i])
    {
      ContainsWithin(msg, rendered, errs[i]);
    }
  }

  /** The text of the error returned when the probe fails: it names the URL and every cause. */
  function FailureMessage(target: string, errs: seq<string>): (r: string)
    ensures Contains(r, target)
    ensures forall i :: 0 <= i < |errs| ==> Contains(r, errs[i])
  {
    FailureTextNames(target, errs);
    ErrorLead + target + ErrsLead + RenderErrs(errs)
  }

  /** The response is a success: no transport error, a response, status 200. */
  predicate ProbeSucceeded(o: HttpOutcome)
  {
    |o.errs| == 0 && o.hasResponse && o.statusCode == 200
  }

  /**
   * The decision rule of CheckHTTPHealth. `mode` is the type the check
   * consults and `baseURL` the receiver's URL; `outcome` is what the GET of
   * the target returns and is ignored when nothing is sent.
   */
  function CheckHealth(mode: string, baseURL: string, outcome: HttpOutcome): (r: HealthCheck)
    ensures r.Skipped? <==> mode != HTTPType
    ensures r.Probed? ==> r.target == baseURL + HealthPath
    ensures r.Probed? ==> (r.err.None? <==> ProbeSucceeded(outcome))
  {
    if mode != HTTPType then Skipped
    else
      var target := baseURL + HealthPath;
      if 0 < |outcome.errs| || !outcome.hasResponse || outcome.statusCode != 200 then
        Probed(target, Some(FailureMessage(target, outcome.errs)))
      else
        Probed(target, None)
  }

  /** Outside HTTP mode the check is a success whatever the fields and the network hold. */
  lemma SkippedOutsideHTTP(mode: string, baseURL: string, o1: HttpOutcome, o2: HttpOutcome)
    requires mode != HTTPType
    ensures CheckHealth(mode, baseURL, o1) == CheckHealth(mode, baseURL, o2) == Skipped
    ensures ReturnedError(CheckHealth(mode, baseURL, o1)).None?
  {
  }

  /** In HTTP mode the nil error comes back exactly on a successful probe. */
  lemma HTTPModeVerdict(baseURL: string, o: HttpOutcome)
    ensures CheckHealth(HTTPType, baseURL, o).Probed?
    ensures ReturnedError(CheckHealth(HTTPType, baseURL, o)).None? <==> ProbeSucceeded(o)
  {
  }

  /**
   * A failed check reports the probed URL, hence the configured base URL,
   * and every transport error.
   */
  lemma {:induction false} FailureNamesTargetAndCauses(mode: string, baseURL: string, o: HttpOutcome)
    requires ReturnedError(CheckHealth(mode, baseURL, o)).Some?
    ensures var msg := ReturnedError(CheckHealth(mode, baseURL, o)).value;
            Contains(msg, baseURL + HealthPath) && Contains(msg, baseURL)
            && forall i :: 0 <= i < |o.errs| ==> Contains(msg, o.errs[i])
  {
    var target := baseURL + HealthPath;
    var msg := FailureMessage(target, o.errs);
    assert ReturnedError(CheckHealth(mode, baseURL, o)).value == msg;
    assert target == [] + baseURL + HealthPath;
    ContainsWithin(msg, target, baseURL);
  }

  /** A server whose /health answers 200. */
  lemma HealthyServer()
    ensures CheckHealth("http", "https://gost.example.com", HttpOutcome([], true, 200))
            == Probed("https://gost.example.com/health", None)
  {
  }

  // ---------------------------------------------------------------------
  // The settings object

  /** GostConf: the three fields that Init updates through its receiver. */
  class GostConf {
    var dbType: string
    var url: string
    var sqlite3Path: string

    constructor (dbType: string, url: string, sqlite3Path: string)
      ensures Value() == Settings(dbType, url, sqlite3Path)
    {
      this.dbType := dbType;
      this.url := url;
      this.sqlite3Path := sqlite3Path;
    }

    /** The current fields as a value. */
    function Value(): Settings
      reads this
    {
      Settings(dbType, url, sqlite3Path)
    }

    /** setDefault, with `wd` what the working-directory lookup gave ("" on failure). */
    method SetDefault(wd: string)
      modifies this
      ensures Value() == WithDefaults(old(Value()), wd)
    {
      if dbType == "" {
        dbType := DefaultType;
      }
      if url == "" && sqlite3Path == "" {
        sqlite3Path := JoinPath(wd, DefaultFileName);
      }
    }

    /** Init: the environment overrides the current fields, then the defaults apply. */
    method Init(env: Env, wd: string)
      modifies this
      ensures Value() == Resolve(old(Value()), env, wd)
    {
      if Getenv(env, GostDBType) != "" {
        dbType := Getenv(env, GostDBType);
      }
      if Getenv(env, GostDBURL) != "" {
        url := Getenv(env, GostDBURL);
      }
      if Getenv(env, GostDBPath) != "" {
        sqlite3Path := Getenv(env, GostDBPath);
      }
      SetDefault(wd);
    }

    /**
     * IsFetchViaHTTP consults the process-wide config `global`, not the
     * receiver.
     */
    predicate IsFetchViaHTTP(global: GostConf)
      reads global
    {
      global.dbType == HTTPType
    }

    /** On the global config itself the test is about the receiver's own type. */
    lemma FetchViaHTTPOnGlobal(global: GostConf)
      requires this == global
      ensures IsFetchViaHTTP(global) <==> dbType == HTTPType
    {
    }

    /**
     * CheckHTTPHealth: `outcome` stands for the result of the GET request,
     * sent only when the global config is in HTTP mode.
     */
    method CheckHTTPHealth(global: GostConf, outcome: HttpOutcome) returns (h: HealthCheck)
      ensures h == CheckHealth(global.dbType, url, outcome)
      ensures !IsFetchViaHTTP(global) ==> h == Skipped
      ensures IsFetchViaHTTP(global) ==> h.Probed? && h.target == url + HealthPath
                                          && (h.err.None? <==> ProbeSucceeded(outcome))
    {
      if !IsFetchViaHTTP(global) {
        return Skipped;
      }
      h := CheckHealth(global.dbType, url, outcome);
    }
  }

}
