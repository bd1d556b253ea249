/**
 * `config.py`: loading a configuration file into a `ConfigurationManager`. Loading validates
 * the structure, fills missing settings with defaults in place, checks the dataset paths and
 * the Google service settings, and creates the LLM and strategy objects. Every failure surfaces
 * as a `ValidationError` or a `ConfigurationError`.
 */
module Config {
  import opened Wrappers
  import opened Json
  import Dicts
  import Strings
  import opened Validators

  // ---------------------------------------------------------------------------------------
  // Defaults

  /** `llm_api` defaults; `type` is filled first, then the rest in order. */
  const ApiDefaults: Dicts.Dict<Value> := [
    ("type", Str("openai")), ("max_retries", Int(3)), ("timeout", Int(600)),
    ("api_rate_limit", Int(-1)), ("disable_ssl_verify", Bool(false))]

  const ModelDefaults: Dicts.Dict<Value> := [
    ("temperature", Float(0.0)), ("top_p", Float(0.9)), ("max_tokens", Int(4096)),
    ("frequency_penalty", Float(0.0)), ("presence_penalty", Float(0.0)), ("extra_body", Object([]))]

  const EvaluationDefaults: Dicts.Dict<Value> := [
    ("repeat_runs", Int(1)), ("shuffle_options", Bool(false)), ("datasets_prompt_map", Object([])),
    ("strategy_config", Object([])), ("thinking_start_tag", Null), ("thinking_end_tag", Null)]

  const EnvironmentDefaults: Dicts.Dict<Value> := [
    ("gpu_info", Object([
      ("model", Str("Unknown")), ("count", Int(1)), ("memory_gb", Int(0)),
      ("cuda_version", Str("Unknown")), ("driver_version", Str("Unknown"))])),
    ("parallel_config", Object([("tp_size", Int(1)), ("pp_size", Int(1))])),
    ("system_info", Object([
      ("framework", Str("Unknown")), ("python_version", Str("Unknown")),
      ("torch_version", Str("Unknown")), ("node_count", Int(1))]))]

  /** The shallow fill: each default is stored, in order, only when its key is still absent. */
  function Filled(d: Dicts.Dict<Value>, defaults: Dicts.Dict<Value>): Dicts.Dict<Value>
  {
    if defaults == [] then d
    else
      var before := Filled(d, defaults[..|defaults| - 1]);
      var last := defaults[|defaults| - 1];
      if Dicts.Get(before, last.0).Some? then before else Dicts.Put(before, last.0, last.1)
  }

  /** What key `k` reads after the fill: its own value when present, else its default. */
  function Default(d: Dicts.Dict<Value>, defaults: Dicts.Dict<Value>, k: string): Option<Value>
  {
    if Dicts.Get(d, k).Some? then Dicts.Get(d, k) else Dicts.Get(defaults, k)
  }

  /** Present keys keep their value, however partial; absent keys get their default. */
  lemma {:induction false} FilledGet(d: Dicts.Dict<Value>, defaults: Dicts.Dict<Value>, k: string)
    ensures Dicts.Get(Filled(d, defaults), k) == Default(d, defaults, k)
  {
    if defaults != [] {
      var init := defaults[..|defaults| - 1];
      var last := defaults[|defaults| - 1];
      FilledGet(d, init, k);
      assert defaults == init + [last];
      Dicts.GetAppend(init, last.0, last.1, k);
      var before := Filled(d, init);
      if Dicts.Get(before, last.0).None? {
        Dicts.GetPut(before, last.0, last.1, k);
      }
    }
  }

  /** The original pairs stay where they were, in order; new pairs are appended after them. */
  lemma {:induction false} FilledPrefix(d: Dicts.Dict<Value>, defaults: Dicts.Dict<Value>)
    ensures |d| <= |Filled(d, defaults)| && Filled(d, defaults)[..|d|] == d
  {
    if defaults != [] {
      var init := defaults[..|defaults| - 1];
      var last := defaults[|defaults| - 1];
      FilledPrefix(d, init);
      var before := Filled(d, init);
      if Dicts.Get(before, last.0).None? {
        Dicts.GetKeys(before, last.0);
        Dicts.PutShape(before, last.0, last.1);
        assert Filled(d, defaults) == before + [(last.0, last.1)];
      }
    }
  }

  /** A dict that already holds every default key is left as it is. */
  lemma {:induction false} FilledNoop(d: Dicts.Dict<Value>, defaults: Dicts.Dict<Value>)
    requires forall i :: 0 <= i < |defaults| ==> Dicts.Get(d, defaults[i].0).Some?
    ensures Filled(d, defaults) == d
  {
    if defaults != [] {
      FilledNoop(d, defaults[..|defaults| - 1]);
    }
  }

  /** Filling twice is filling once. */
  lemma FilledIdempotent(d: Dicts.Dict<Value>, defaults: Dicts.Dict<Value>)
    ensures Filled(Filled(d, defaults), defaults) == Filled(d, defaults)
  {
    forall i | 0 <= i < |defaults|
      ensures Dicts.Get(Filled(d, defaults), defaults[i].0).Some?
    {
      FilledGet(d, defaults, defaults[i].0);
      assert Dicts.Keys(defaults)[i] == defaults[i].0;
      Dicts.GetKeys(defaults, defaults[i].0);
    }
    FilledNoop(Filled(d, defaults), defaults);
  }

  /** The fill keeps a dict's keys distinct. */
  lemma {:induction false} FilledDistinct(d: Dicts.Dict<Value>, defaults: Dicts.Dict<Value>)
    requires Dicts.DistinctKeys(d)
    ensures Dicts.DistinctKeys(Filled(d, defaults))
  {
    if defaults != [] {
      var init := defaults[..|defaults| - 1];
      var last := defaults[|defaults| - 1];
      FilledDistinct(d, init);
      Dicts.PutDistinct(Filled(d, init), last.0, last.1);
    }
  }

  // ---------------------------------------------------------------------------------------
  // Sections of the configuration

  /** The dict held in section `name`. */
  function SectionOf(c: Value, name: string): Dicts.Dict<Value>
    requires SectionIsDict(c, name)
  {
    Dicts.Get(c.fields, name).value.fields
  }

  /** `c[name] = Object(s)` */
  function WithSection(c: Value, name: string, s: Dicts.Dict<Value>): (r: Value)
    requires c.Object?
    ensures r.Object?
  {
    Object(Dicts.Put(c.fields, name, Object(s)))
  }

  lemma WithSectionGet(c: Value, name: string, s: Dicts.Dict<Value>, k: string)
    requires c.Object?
    ensures Dicts.Get(WithSection(c, name, s).fields, k) == if k == name then Some(Object(s)) else Dicts.Get(c.fields, k)
  {
    Dicts.GetPut(c.fields, name, Object(s), k);
  }

  /** Section `name` filled with `defaults`, everything else as it was. */
  function FillOf(c: Value, name: string, defaults: Dicts.Dict<Value>): (r: Value)
    requires SectionIsDict(c, name)
    ensures SectionIsDict(r, name) && SectionOf(r, name) == Filled(SectionOf(c, name), defaults)
    ensures forall n :: n != name ==> Dicts.Get(r.fields, n) == Dicts.Get(c.fields, n)
  {
    var r := WithSection(c, name, Filled(SectionOf(c, name), defaults));
    forall n {
      WithSectionGet(c, name, Filled(SectionOf(c, name), defaults), n);
    }
    r
  }

  /** The three required sections filled with their defaults, in the source's order. */
  function SectionsFilled(c: Value): (r: Value)
    requires HasRequiredSections(c)
    ensures HasRequiredSections(r)
    ensures SectionOf(r, "llm_api") == Filled(SectionOf(c, "llm_api"), ApiDefaults)
    ensures SectionOf(r, "model") == Filled(SectionOf(c, "model"), ModelDefaults)
    ensures SectionOf(r, "evaluation") == Filled(SectionOf(c, "evaluation"), EvaluationDefaults)
    ensures forall n :: n !in {"llm_api", "model", "evaluation"} ==> Dicts.Get(r.fields, n) == Dicts.Get(c.fields, n)
  {
    hide FillOf, Filled;
    var c1 := FillOf(c, "llm_api", ApiDefaults);
    var c2 := FillOf(c1, "model", ModelDefaults);
    FillOf(c2, "evaluation", EvaluationDefaults)
  }

  /** A non-dict `environment`: each default key must already be `in` it, or storing it raises. */
  function UnfillableEnvironment(env: Value, defaults: Dicts.Dict<Value>): (r: Checked<()>)
    ensures r.Raise? ==> r.exception.OtherError?
  {
    if defaults == [] then Ok(())
    else match PyIn(defaults[0].0, env)
      case Raise(e) => Raise(e)
      case Ok(found) =>
        if found then UnfillableEnvironment(env, defaults[1..])
        else Raise(OtherError("TypeError: object does not support item assignment"))
  }

  /** The configuration with an `environment` dict created when there is none. */
  function WithEnvironment(c: Value): (r: Value)
    requires c.Object?
    ensures r.Object? && Dicts.Get(r.fields, "environment") ==
      if Dicts.Get(c.fields, "environment").Some? then Dicts.Get(c.fields, "environment") else Some(Object([]))
    ensures forall n :: n != "environment" ==> Dicts.Get(r.fields, n) == Dicts.Get(c.fields, n)
  {
    if Dicts.Get(c.fields, "environment").Some? then c
    else
      var r := WithSection(c, "environment", []);
      forall n {
        WithSectionGet(c, "environment", [], n);
      }
      r
  }

  /** `_apply_defaults`: its outcome and the configuration afterwards. */
  function Defaulted(c: Value): (r: (Checked<()>, Value))
    requires HasRequiredSections(c)
    ensures HasRequiredSections(r.1)
  {
    hide FillOf, SectionsFilled, WithEnvironment, UnfillableEnvironment;
    var c4 := WithEnvironment(SectionsFilled(c));
    var env := Dicts.Get(c4.fields, "environment").value;
    if env.Object? then (Ok(()), FillOf(c4, "environment", EnvironmentDefaults))
    else (UnfillableEnvironment(env, EnvironmentDefaults), c4)
  }

  /**
   * Filling defaults raises only for an `environment` that is present and not a dict; the
   * three sections are filled all the same.
   */
  lemma DefaultedOutcome(c: Value)
    requires HasRequiredSections(c)
    ensures var env := Dicts.Get(c.fields, "environment");
      Defaulted(c).0.Raise? <==>
        env.Some? && !env.value.Object? && UnfillableEnvironment(env.value, EnvironmentDefaults).Raise?
    ensures Defaulted(c).0.Raise? ==> Defaulted(c).0.exception.OtherError? && Defaulted(c).1 == SectionsFilled(c)
  {
    var c3 := SectionsFilled(c);
    assert "environment" !in {"llm_api", "model", "evaluation"};
    assert Dicts.Get(c3.fields, "environment") == Dicts.Get(c.fields, "environment");
  }

  /** The sections `Defaulted` leaves as `SectionsFilled` made them. */
  lemma DefaultedKeepsSections(c: Value, n: string)
    requires HasRequiredSections(c) && n != "environment"
    ensures Dicts.Get(Defaulted(c).1.fields, n) == Dicts.Get(SectionsFilled(c).fields, n)
  {
  }

  /**
   * The three required sections after the fill: every key reads its own value when it had one
   * and its default otherwise.
   */
  lemma DefaultedSections(c: Value, k: string)
    requires HasRequiredSections(c)
    ensures var after := Defaulted(c).1;
      Dicts.Get(SectionOf(after, "llm_api"), k) == Default(SectionOf(c, "llm_api"), ApiDefaults, k) &&
      Dicts.Get(SectionOf(after, "model"), k) == Default(SectionOf(c, "model"), ModelDefaults, k) &&
      Dicts.Get(SectionOf(after, "evaluation"), k) == Default(SectionOf(c, "evaluation"), EvaluationDefaults, k)
  {
    DefaultedKeepsSections(c, "llm_api");
    DefaultedKeepsSections(c, "model");
    DefaultedKeepsSections(c, "evaluation");
    FilledGet(SectionOf(c, "llm_api"), ApiDefaults, k);
    FilledGet(SectionOf(c, "model"), ModelDefaults, k);
    FilledGet(SectionOf(c, "evaluation"), EvaluationDefaults, k);
  }

  /**
   * A missing `environment` is created; a dict one is filled like the other sections. Every
   * top-level key other than the four sections is left unchanged.
   */
  lemma DefaultedEnvironment(c: Value, k: string)
    requires HasRequiredSections(c)
    requires Dicts.Get(c.fields, "environment").None? || Dicts.Get(c.fields, "environment").value.Object?
    ensures Defaulted(c).0.Ok?
    ensures var before := if Dicts.Get(c.fields, "environment").None? then [] else SectionOf(c, "environment");
      var after := Defaulted(c).1;
      SectionIsDict(after, "environment") &&
      Dicts.Get(SectionOf(after, "environment"), k) == Default(before, EnvironmentDefaults, k)
    ensures k !in {"llm_api", "model", "evaluation", "environment"} ==>
      Dicts.Get(Defaulted(c).1.fields, k) == Dicts.Get(c.fields, k)
  {
    hide FillOf, SectionsFilled, WithEnvironment, UnfillableEnvironment;
    var c4 := WithEnvironment(SectionsFilled(c));
    FilledGet(SectionOf(c4, "environment"), EnvironmentDefaults, k);
  }

  // ---------------------------------------------------------------------------------------
  // Google service settings

  const NoPermissionText: string := "不存在或 Service Account 無權限存取"
  const ServiceAccountFields: seq<string> := ["type", "project_id", "private_key_id", "private_key", "client_email"]

  /** `v.get(k, fallback)`: only a dict has `get`. */
  function Lookup(v: Value, k: string, fallback: Value): (r: Checked<Value>)
    ensures r.Ok? <==> v.Object?
  {
    if v.Object? then Ok(Dicts.Get(v.fields, k).GetOr(fallback))
    else Raise(OtherError("AttributeError: object has no attribute 'get'"))
  }

  /** `auth_method`, defaulting to a service account. */
  function AuthMethod(cfg: Dicts.Dict<Value>): Value
  {
    Dicts.Get(cfg, "auth_method").GetOr(Str("service_account"))
  }

  predicate IsServiceAccount(cfg: Dicts.Dict<Value>)
  {
    AuthMethod(cfg) == Str("service_account")
  }

  /** `if not x or not x.strip()`: falsy, blank, or not a string (where `strip` raises). */
  function RequiredText(x: Value, message: string): (r: Checked<()>)
    ensures r.Ok? <==> IsNonBlankStr(x)
    ensures r.Raise? && r.exception.OtherError? <==> Truthy(x) && !x.Str?
  {
    if !Truthy(x) then Raise(ConfigurationError(message))
    else if !x.Str? then Raise(OtherError("AttributeError: object has no attribute 'strip'"))
    else if Strings.IsBlank(x.s) then Raise(ConfigurationError(message))
    else Ok(())
  }

  /** The loop over the service-account fields; any value but a dict fails at `get` at the latest. */
  function CredentialFields(service: string, cred: Value, fields: seq<string>): (r: Checked<()>)
    ensures r.Ok? ==> cred.Object?
  {
    if fields == [] then
      if !cred.Object? then Raise(OtherError("AttributeError: object has no attribute 'get'")) else Ok(())
    else match PyIn(fields[0], cred)
      case Raise(e) => Raise(e)
      case Ok(found) =>
        if !found then
          Raise(ConfigurationError(service + " Service Account 憑證檔案格式錯誤: 缺少必要欄位 '" + fields[0] + "'"))
        else CredentialFields(service, cred, fields[1..])
  }

  /** A service-account credential: a dict holding the five fields, of type `service_account`. */
  predicate ServiceAccountSound(cred: Value)
  {
    cred.Object? &&
    (forall i :: 0 <= i < |ServiceAccountFields| ==> Dicts.Get(cred.fields, ServiceAccountFields[i]).Some?) &&
    Dicts.Get(cred.fields, "type") == Some(Str("service_account"))
  }

  lemma {:induction false} CredentialFieldsOk(service: string, cred: Value, fields: seq<string>)
    ensures CredentialFields(service, cred, fields).Ok? <==>
      cred.Object? && forall i :: 0 <= i < |fields| ==> Dicts.Get(cred.fields, fields[i]).Some?
  {
    if fields != [] {
      CredentialFieldsOk(service, cred, fields[1..]);
      assert forall i :: 1 <= i < |fields| ==> fields[i] == fields[1..][i - 1];
    }
  }

  /**
   * The service-account file check. A problem raised inside its `try` reaches the caller
   * re-wrapped by the catch-all handler as a "憑證檔案讀取失敗" error.
   */
  function ServiceAccountChecked(service: string, loaded: Result<Value>): Checked<()>
  {
    match loaded
    case Failure(e) => Raise(ConfigurationError(service + " 憑證檔案格式錯誤: " + e))
    case Success(cred) =>
      var inner :=
        match CredentialFields(service, cred, ServiceAccountFields)
        case Raise(e) => Raise(e)
        case Ok(_) =>
          if Dicts.Get(cred.fields, "type") != Some(Str("service_account")) then
            Raise(ConfigurationError(service + " 憑證檔案格式錯誤: 類型應為 'service_account'"))
          else Ok(());
      match inner
      case Raise(e) => Raise(ConfigurationError(service + " 憑證檔案讀取失敗: " + e.message))
      case Ok(_) => Ok(())
  }

  /** `_validate_google_auth_config`; the file system and the credential loader are given. */
  function ValidateGoogleAuth(cfg: Dicts.Dict<Value>, service: string, present: string -> bool,
                              credentials: string -> Result<Value>): Checked<()>
  {
    var file := Dicts.Get(cfg, "credentials_file").GetOr(Null);
    match RequiredText(file, service + " 配置錯誤: credentials_file 為必填項目")
    case Raise(e) => Raise(e)
    case Ok(_) =>
      if !present(file.s) then Raise(ConfigurationError(service + " 配置錯誤: 憑證檔案不存在 - " + file.s))
      else if !IsServiceAccount(cfg) then Ok(())
      else ServiceAccountChecked(service, credentials(file.s))
  }

  /**
   * Authentication passes exactly when `credentials_file` names an existing file, and for a
   * service account (the default) the file holds a sound service-account credential. Its
   * failures are configuration errors, except a non-string `credentials_file`.
   */
  lemma GoogleAuthOk(cfg: Dicts.Dict<Value>, service: string, present: string -> bool, credentials: string -> Result<Value>)
    ensures var file := Dicts.Get(cfg, "credentials_file").GetOr(Null);
      ValidateGoogleAuth(cfg, service, present, credentials).Ok? <==>
        IsNonBlankStr(file) && present(file.s) &&
        (IsServiceAccount(cfg) ==> credentials(file.s).Success? && ServiceAccountSound(credentials(file.s).value))
    ensures var file := Dicts.Get(cfg, "credentials_file").GetOr(Null);
      var r := ValidateGoogleAuth(cfg, service, present, credentials);
      r.Raise? && !(Truthy(file) && !file.Str?) ==> r.exception.ConfigurationError?
  {
    var file := Dicts.Get(cfg, "credentials_file").GetOr(Null);
    if IsNonBlankStr(file) && credentials(file.s).Success? {
      var cred := credentials(file.s).value;
      CredentialFieldsOk(service, cred, ServiceAccountFields);
    }
  }

  /** `_validate_google_sheets_config`; `reached` is the spreadsheet lookup's error, if any. */
  function ValidateGoogleSheets(cfg: Dicts.Dict<Value>, present: string -> bool, credentials: string -> Result<Value>,
                                reached: Option<string>): Checked<()>
  {
    match RequiredText(Dicts.Get(cfg, "spreadsheet_id").GetOr(Null), "Google Sheets 配置錯誤: spreadsheet_id 為必填項目")
    case Raise(e) => Raise(e)
    case Ok(_) =>
      match ValidateGoogleAuth(cfg, "Google Sheets", present, credentials)
      case Raise(e) => Raise(e)
      case Ok(_) =>
        if reached.Some? then Raise(ConfigurationError("Google Sheets 配置驗證失敗: " + reached.value)) else Ok(())
  }

  lemma GoogleSheetsOk(cfg: Dicts.Dict<Value>, present: string -> bool, credentials: string -> Result<Value>, reached: Option<string>)
    ensures ValidateGoogleSheets(cfg, present, credentials, reached).Ok? <==>
      IsNonBlankStr(Dicts.Get(cfg, "spreadsheet_id").GetOr(Null)) &&
      ValidateGoogleAuth(cfg, "Google Sheets", present, credentials).Ok? && reached.None?
    ensures IsBlankSetting(Dicts.Get(cfg, "spreadsheet_id").GetOr(Null)) ==>
      ValidateGoogleSheets(cfg, present, credentials, reached) == Raise(ConfigurationError("Google Sheets 配置錯誤: spreadsheet_id 為必填項目"))
  {
  }

  /** A setting that is missing, falsy or a whitespace-only string. */
  predicate IsBlankSetting(x: Value)
  {
    !Truthy(x) || (x.Str? && Strings.IsBlank(x.s))
  }

  /**
   * `_validate_google_drive_config`: authentication, then the remote checks, whose error
   * (`reached`, when there is one) is re-raised as a configuration error.
   */
  function ValidateGoogleDrive(cfg: Dicts.Dict<Value>, present: string -> bool, credentials: string -> Result<Value>,
                               reached: Option<string>): Checked<()>
  {
    match ValidateGoogleAuth(cfg, "Google Drive", present, credentials)
    case Raise(e) => Raise(e)
    case Ok(_) =>
      if reached.Some? then Raise(ConfigurationError("Google Drive 配置驗證失敗: " + reached.value)) else Ok(())
  }

  /** The handler around the Drive check: a permission problem under a service account is let go. */
  function DriveHandled(r: Checked<()>, cfg: Dicts.Dict<Value>): (h: Checked<()>)
  {
    match r
    case Raise(ConfigurationError(m)) =>
      if Strings.Contains(m, NoPermissionText) && IsServiceAccount(cfg) then Ok(()) else r
    case _ => r
  }

  /**
   * A Drive configuration error that mentions the permission problem is dropped exactly under
   * service-account authentication; every other outcome passes through unchanged.
   */
  lemma DriveHandledSpec(r: Checked<()>, cfg: Dicts.Dict<Value>)
    ensures DriveHandled(r, cfg) == r || DriveHandled(r, cfg) == Ok(())
    ensures r.Raise? && r.exception.ConfigurationError? && Strings.Contains(r.exception.message, NoPermissionText) ==>
      (DriveHandled(r, cfg).Ok? <==> IsServiceAccount(cfg))
    ensures !(r.Raise? && r.exception.ConfigurationError? && Strings.Contains(r.exception.message, NoPermissionText)) ==>
      DriveHandled(r, cfg) == r
  {
  }

  /** The remote outcomes of the Google checks. */
  datatype GoogleReach = GoogleReach(sheets: Option<string>, drive: Option<string>)

  /** `_validate_google_services` */
  function ValidateGoogleServices(config: Dicts.Dict<Value>, present: string -> bool, credentials: string -> Result<Value>,
                                  reach: GoogleReach): Checked<()>
  {
    var services := Dicts.Get(config, "google_services").GetOr(Null);
    if !Truthy(services) then Ok(())
    else match Lookup(services, "google_sheets", Object([]))
      case Raise(e) => Raise(e)
      case Ok(sheets) =>
        match Lookup(sheets, "enabled", Bool(false))
        case Raise(e) => Raise(e)
        case Ok(enabled) =>
          match (if Truthy(enabled) then ValidateGoogleSheets(sheets.fields, present, credentials, reach.sheets) else Ok(()))
          case Raise(e) => Raise(e)
          case Ok(_) =>
            match Lookup(services, "google_drive", Object([]))
            case Raise(e) => Raise(e)
            case Ok(drive) =>
              match Lookup(drive, "enabled", Bool(false))
              case Raise(e) => Raise(e)
              case Ok(on) =>
                if !Truthy(on) then Ok(())
                else DriveHandled(ValidateGoogleDrive(drive.fields, present, credentials, reach.drive), drive.fields)
  }

  /** Whether sub-service `name` of the `google_services` dict is enabled. */
  predicate Enabled(services: Value, name: string)
    requires services.Object?
  {
    var sub := Dicts.Get(services.fields, name).GetOr(Object([]));
    sub.Object? && Truthy(Dicts.Get(sub.fields, "enabled").GetOr(Bool(false)))
  }

  /**
   * Without `google_services` nothing is checked, and a service that is not enabled is never
   * validated: with both disabled, the outcome depends on nothing remote.
   */
  lemma GoogleServicesSkipped(config: Dicts.Dict<Value>, present: string -> bool, credentials: string -> Result<Value>, reach: GoogleReach)
    ensures !Truthy(Dicts.Get(config, "google_services").GetOr(Null)) ==>
      ValidateGoogleServices(config, present, credentials, reach).Ok?
    ensures var services := Dicts.Get(config, "google_services").GetOr(Null);
      services.Object? && Truthy(services) &&
      Dicts.Get(services.fields, "google_sheets").GetOr(Object([])).Object? &&
      Dicts.Get(services.fields, "google_drive").GetOr(Object([])).Object? &&
      !Enabled(services, "google_sheets") && !Enabled(services, "google_drive") ==>
        ValidateGoogleServices(config, present, credentials, reach).Ok?
  {
  }

  /**
   * With Sheets disabled and Drive enabled, a Drive permission error is accepted exactly under
   * service-account authentication.
   */
  lemma GoogleDrivePermission(config: Dicts.Dict<Value>, present: string -> bool, credentials: string -> Result<Value>, reach: GoogleReach)
    requires var services := Dicts.Get(config, "google_services").GetOr(Null);
      services.Object? && Truthy(services) &&
      Dicts.Get(services.fields, "google_sheets").GetOr(Object([])).Object? &&
      !Enabled(services, "google_sheets") && Enabled(services, "google_drive")
    requires var drive := Dicts.Get(Dicts.Get(config, "google_services").value.fields, "google_drive").value;
      ValidateGoogleAuth(drive.fields, "Google Drive", present, credentials).Ok? &&
      reach.drive.Some? && Strings.Contains(reach.drive.value, NoPermissionText)
    ensures var drive := Dicts.Get(Dicts.Get(config, "google_services").value.fields, "google_drive").value;
      ValidateGoogleServices(config, present, credentials, reach).Ok? <==> IsServiceAccount(drive.fields)
  {
    var drive := Dicts.Get(Dicts.Get(config, "google_services").value.fields, "google_drive").value;
    var head := "Google Drive 配置驗證失敗: ";
    var m := head + reach.drive.value;
    var i := Strings.IndexOf(reach.drive.value, NoPermissionText).value;
    assert m[|head|..] == reach.drive.value;
    Strings.OccursShift(m, NoPermissionText, |head|, i);
    Strings.ContainsAt(m, NoPermissionText, |head| + i);
  }

  // ---------------------------------------------------------------------------------------
  // Loading

  /** What the file system says about the configuration path. */
  datatype FileStatus = NotFound | NotAFile | NotReadable | Readable

  /** `ConfigValidator.validate_config_file` */
  function ConfigFileChecked(path: string, status: FileStatus): (r: Checked<()>)
    ensures r.Ok? <==> status == Readable
  {
    match status
    case NotFound => Raise(ConfigurationError("Configuration file not found: " + path))
    case NotAFile => Raise(ConfigurationError("Configuration path is not a file: " + path))
    case NotReadable => Raise(ConfigurationError("Configuration file is not readable: " + path))
    case Readable => Ok(())
  }

  /** `validate_yaml_syntax` and the load: a parse error becomes a configuration error. */
  function YamlLoaded(path: string, parsed: Result<Value>): (r: Checked<Value>)
    ensures r.Ok? <==> parsed.Success?
    ensures r.Ok? ==> r.value == parsed.value
  {
    match parsed
    case Failure(e) => Raise(ConfigurationError("Invalid YAML syntax in " + path + ": " + e))
    case Success(v) => Ok(v)
  }

  /** What `for path in dataset_paths` visits: a string is wrapped first, a dict gives its keys. */
  function PathsVisited(v: Value): Option<seq<Value>>
  {
    match v
    case Str(_) => Some([v])
    case List(items) => Some(items)
    case Object(fields) => Some(seq(|fields|, i requires 0 <= i < |fields| => Str(fields[i].0)))
    case _ => None
  }

  /** The loop over the dataset paths; `problem(p)` is the validation error the file system gives `p`. */
  function CheckPaths(paths: seq<Value>, problem: string -> Option<string>): Checked<()>
  {
    if paths == [] then Ok(())
    else if !paths[0].Str? then Raise(OtherError("TypeError: dataset path is not a string"))
    else if problem(paths[0].s).Some? then
      Raise(ConfigurationError("無效的資料集路徑 " + paths[0].s + ": " + problem(paths[0].s).value))
    else CheckPaths(paths[1..], problem)
  }

  lemma {:induction false} CheckPathsOk(paths: seq<Value>, problem: string -> Option<string>)
    ensures CheckPaths(paths, problem).Ok? <==>
      forall i :: 0 <= i < |paths| ==> paths[i].Str? && problem(paths[i].s).None?
  {
    if paths != [] {
      CheckPathsOk(paths[1..], problem);
      assert forall i :: 1 <= i < |paths| ==> paths[i] == paths[1..][i - 1];
    }
  }

  /** `_validate_dataset_paths` */
  function DatasetPathsChecked(c: Value, problem: string -> Option<string>): Checked<()>
    requires SectionIsDict(c, "evaluation")
  {
    match Dicts.Get(SectionOf(c, "evaluation"), "dataset_paths")
    case None => Raise(OtherError("KeyError: 'dataset_paths'"))
    case Some(v) =>
      match PathsVisited(v)
      case None => Raise(OtherError("TypeError: dataset_paths is not iterable"))
      case Some(paths) => CheckPaths(paths, problem)
  }

  /** A setting as it is spelled in a message. */
  function Spelled(v: Value): string
  {
    if v.Str? then v.s else "?"
  }

  /** The object factories, given: `(type, config)` for the LLM, `(method, strategy_config)` for the strategy. */
  datatype Factories = Factories(llm: (Value, Value) -> Result<Value>, strategy: (Value, Value) -> Result<Value>)

  /** `_instantiate_components`: its outcome and the configuration afterwards. */
  function Instantiated(c: Value, make: Factories): (r: (Checked<()>, Value))
    requires HasRequiredSections(c)
    ensures r.0.Ok? ==> HasRequiredSections(r.1)
  {
    match Dicts.Get(SectionOf(c, "llm_api"), "type")
    case None => (Raise(OtherError("UnboundLocalError: llm_type")), c)
    case Some(llmType) =>
      match make.llm(llmType, c)
      case Failure(_) => (Raise(ConfigurationError("不支援的 LLM API 類型: " + Spelled(llmType))), c)
      case Success(llm) =>
        var c1 := WithInstance(c, "llm_instance", llm);
        var evaluation := SectionOf(c1, "evaluation");
        match Dicts.Get(evaluation, "evaluation_method")
        case None => (Raise(OtherError("UnboundLocalError: eval_method")), c1)
        case Some(evalMethod) =>
          match make.strategy(evalMethod, Dicts.Get(evaluation, "strategy_config").GetOr(Object([])))
          case Failure(_) => (Raise(ConfigurationError("不支援的評測方法: " + Spelled(evalMethod))), c1)
          case Success(strategy) => (Ok(()), WithInstance(c1, "evaluation_strategy_instance", strategy))
  }

  /** `c[key] = instance`, which leaves the sections alone. */
  function WithInstance(c: Value, key: string, instance: Value): (r: Value)
    requires HasRequiredSections(c) && key !in {"llm_api", "model", "evaluation"}
    ensures HasRequiredSections(r)
    ensures forall n :: n != key ==> Dicts.Get(r.fields, n) == Dicts.Get(c.fields, n)
    ensures Dicts.Get(r.fields, key) == Some(instance)
  {
    var r := Object(Dicts.Put(c.fields, key, instance));
    assert forall n :: Dicts.Get(r.fields, n) == if n == key then Some(instance) else Dicts.Get(c.fields, n) by {
      forall n {
        Dicts.GetPut(c.fields, key, instance, n);
      }
    }
    r
  }

  /** Everything `load_config` is given besides the path. */
  datatype Sources = Sources(
    status: FileStatus,
    parsed: Result<Value>,
    problem: string -> Option<string>,
    present: string -> bool,
    credentials: string -> Result<Value>,
    reach: GoogleReach,
    make: Factories)

  /** The `except` clauses of `load_config`. */
  function Mapped(e: Raised): (m: Raised)
    ensures !m.OtherError?
    ensures !e.OtherError? ==> m == e
  {
    if e.OtherError? then ConfigurationError("配置載入失敗: " + e.message) else e
  }

  /** The steps after the structure check, on a configuration that passed it. */
  function Prepared(valid: Value, src: Sources): (r: (Checked<()>, Value))
    requires HasRequiredSections(valid)
    ensures r.0.Ok? ==> Defaulted(valid).0.Ok? && r == Instantiated(Defaulted(valid).1, src.make)
  {
    var (filled, c) := Defaulted(valid);
    if filled.Raise? then (filled, c)
    else match DatasetPathsChecked(c, src.problem)
      case Raise(e) => (Raise(e), c)
      case Ok(_) =>
        match ValidateGoogleServices(c.fields, src.present, src.credentials, src.reach)
        case Raise(e) => (Raise(e), c)
        case Ok(_) => Instantiated(c, src.make)
  }

  /** `load_config`: what it returns or raises, and the manager's configuration afterwards. */
  function Loaded(before: Value, path: string, src: Sources): (r: (Checked<Value>, Value))
  {
    match ConfigFileChecked(path, src.status)
    case Raise(e) => (Raise(Mapped(e)), before)
    case Ok(_) =>
      match YamlLoaded(path, src.parsed)
      case Raise(e) => (Raise(Mapped(e)), before)
      case Ok(parsed) =>
        match ValidateConfigStructure(parsed)
        case Raise(e) => (Raise(Mapped(e)), parsed)
        case Ok(valid) =>
          var (done, after) := Prepared(valid, src);
          if done.Raise? then (Raise(Mapped(done.exception)), after) else (Ok(after), after)
  }

  /** Whatever goes wrong, `load_config` raises a validation or a configuration error. */
  lemma LoadedRaises(before: Value, path: string, src: Sources)
    ensures Loaded(before, path, src).0.Raise? ==>
      Loaded(before, path, src).0.exception.ValidationError? || Loaded(before, path, src).0.exception.ConfigurationError?
  {
  }

  /**
   * A successful load returns the configuration the manager now holds. The file was readable
   * and parsed to a sound configuration; the result has dict sections, an LLM and a strategy
   * object, and every `llm_api` setting of the file or its default.
   */
  lemma LoadedSucceeds(before: Value, path: string, src: Sources, k: string)
    requires Loaded(before, path, src).0.Ok?
    ensures var (r, after) := Loaded(before, path, src);
      r.value == after && src.status == Readable && src.parsed.Success? && ConfigSound(src.parsed.value) &&
      HasRequiredSections(after) &&
      Dicts.Get(after.fields, "llm_instance").Some? && Dicts.Get(after.fields, "evaluation_strategy_instance").Some? &&
      Dicts.Get(SectionOf(after, "llm_api"), k) ==
        Default(SectionOf(ValidateConfigStructure(src.parsed.value).value, "llm_api"), ApiDefaults, k)
  {
    ConfigStructureOk(src.parsed.value);
    PreparedSucceeds(ValidateConfigStructure(src.parsed.value).value, src, k);
  }

  /** The steps after the structure check, when they succeed. */
  lemma PreparedSucceeds(valid: Value, src: Sources, k: string)
    requires HasRequiredSections(valid) && Prepared(valid, src).0.Ok?
    ensures var after := Prepared(valid, src).1;
      HasRequiredSections(after) &&
      Dicts.Get(after.fields, "llm_instance").Some? && Dicts.Get(after.fields, "evaluation_strategy_instance").Some? &&
      Dicts.Get(SectionOf(after, "llm_api"), k) == Default(SectionOf(valid, "llm_api"), ApiDefaults, k)
  {
    DefaultedSections(valid, k);
    InstantiatedSucceeds(Defaulted(valid).1, src.make);
  }

  /** Creating the objects adds them and leaves the sections unchanged. */
  lemma InstantiatedSucceeds(c: Value, make: Factories)
    requires HasRequiredSections(c) && Instantiated(c, make).0.Ok?
    ensures var after := Instantiated(c, make).1;
      Dicts.Get(after.fields, "llm_instance").Some? && Dicts.Get(after.fields, "evaluation_strategy_instance").Some? &&
      Dicts.Get(after.fields, "llm_api") == Dicts.Get(c.fields, "llm_api")
  {
  }

  // ---------------------------------------------------------------------------------------
  // The manager

  class ConfigurationManager {
    var configPath: string
    var config: Value

    constructor(configPath: string)
      ensures this.configPath == configPath && config == Object([])
    {
      this.configPath := configPath;
      config := Object([]);
    }

    /** The loop `for key, value in defaults: if key not in section: section[key] = value`. */
    method FillSection(name: string, defaults: Dicts.Dict<Value>)
      requires SectionIsDict(config, name)
      modifies this
      ensures config == FillOf(old(config), name, defaults)
      ensures configPath == old(configPath)
    {
      ghost var start := config;
      ghost var section := SectionOf(start, name);
      Dicts.PutSame(start.fields, name, Object(section));
      for i := 0 to |defaults|
        invariant config == WithSection(start, name, Filled(section, defaults[..i]))
        invariant configPath == old(configPath)
      {
        assert defaults[..i + 1][..i] == defaults[..i];
        var key := defaults[i].0;
        WithSectionGet(start, name, Filled(section, defaults[..i]), name);
        var current := SectionOf(config, name);
        if Dicts.Get(current, key).None? {
          config := WithSection(config, name, Dicts.Put(current, key, defaults[i].1));
          Dicts.PutPut(start.fields, name, Object(current), Object(Dicts.Put(current, key, defaults[i].1)));
        }
      }
      assert defaults[..|defaults|] == defaults;
    }

    /** `_apply_defaults` */
    method ApplyDefaults() returns (r: Checked<()>)
      requires HasRequiredSections(config)
      modifies this
      ensures (r, config) == Defaulted(old(config))
      ensures configPath == old(configPath)
    {
      FillSection("llm_api", ApiDefaults);
      FillSection("model", ModelDefaults);
      FillSection("evaluation", EvaluationDefaults);
      config := WithEnvironment(config);
      var env := Dicts.Get(config.fields, "environment").value;
      if env.Object? {
        FillSection("environment", EnvironmentDefaults);
        r := Ok(());
      } else {
        r := UnfillableEnvironment(env, EnvironmentDefaults);
      }
    }

    /** `_instantiate_components` */
    method InstantiateComponents(make: Factories) returns (r: Checked<()>)
      requires HasRequiredSections(config)
      modifies this
      ensures (r, config) == Instantiated(old(config), make)
      ensures configPath == old(configPath)
    {
      var llmType := Dicts.Get(SectionOf(config, "llm_api"), "type");
      if llmType.None? {
        return Raise(OtherError("UnboundLocalError: llm_type"));
      }
      var llm := make.llm(llmType.value, config);
      if llm.Failure? {
        return Raise(ConfigurationError("不支援的 LLM API 類型: " + Spelled(llmType.value)));
      }
      config := WithInstance(config, "llm_instance", llm.value);
      var evaluation := SectionOf(config, "evaluation");
      var evalMethod := Dicts.Get(evaluation, "evaluation_method");
      if evalMethod.None? {
        return Raise(OtherError("UnboundLocalError: eval_method"));
      }
      var strategy := make.strategy(evalMethod.value, Dicts.Get(evaluation, "strategy_config").GetOr(Object([])));
      if strategy.Failure? {
        return Raise(ConfigurationError("不支援的評測方法: " + Spelled(evalMethod.value)));
      }
      config := WithInstance(config, "evaluation_strategy_instance", strategy.value);
      r := Ok(());
    }

    /** The steps after the structure check. */
    method Prepare(src: Sources) returns (r: Checked<()>)
      requires HasRequiredSections(config)
      modifies this
      ensures (r, config) == Prepared(old(config), src)
      ensures configPath == old(configPath)
    {
      r := ApplyDefaults();
      if r.Raise? {
        return;
      }
      r := DatasetPathsChecked(config, src.problem);
      if r.Raise? {
        return;
      }
      r := ValidateGoogleServices(config.fields, src.present, src.credentials, src.reach);
      if r.Raise? {
        return;
      }
      r := InstantiateComponents(src.make);
    }

    /** `load_config` */
    method LoadConfig(src: Sources) returns (r: Checked<Value>)
      modifies this
      ensures (r, config) == Loaded(old(config), configPath, src)
      ensures configPath == old(configPath)
    {
      var file := ConfigFileChecked(configPath, src.status);
      if file.Raise? {
        return Raise(Mapped(file.exception));
      }
      var parsed := YamlLoaded(configPath, src.parsed);
      if parsed.Raise? {
        return Raise(Mapped(parsed.exception));
      }
      config := parsed.value;
      var valid := ValidateConfigStructure(config);
      if valid.Raise? {
        return Raise(Mapped(valid.exception));
      }
      config := valid.value;
      var done := Prepare(src);
      if done.Raise? {
        return Raise(Mapped(done.exception));
      }
      r := Ok(config);
    }
  }

  /** The module-level `load_config`: a fresh manager for the path. */
  method LoadConfigAt(path: string, src: Sources) returns (r: Checked<Value>)
    ensures r == Loaded(Object([]), path, src).0
  {
    var manager := new ConfigurationManager(path);
    r := manager.LoadConfig(src);
  }
}
