/**
 * The library-management section of the extension configuration view: how
 * the stored `libraryCode` settings become form values, how form values are
 * saved back, and which form errors are reported.
 *
 * A library is loaded in one of four ways (`type`): managed by the host,
 * already on the page, from a remote URL, or from custom code. Report suites
 * are kept per environment; the environment names are an enumeration this
 * model takes as a parameter.
 */
module LibraryManagement {
  import opened Wrappers
  import opened Js
  import opened Bridge

  const MANAGED := "managed"
  const PREINSTALLED := "preinstalled"
  const REMOTE := "remote"
  const CUSTOM := "custom"

  const PAGE_TOP := "pageTop"
  const PAGE_BOTTOM := "pageBottom"

  const DEFAULT_TRACKER_VARIABLE_NAME := "s"

  const HTTP_PREFIX := "http://"
  const HTTPS_PREFIX := "https://"

  const PRODUCTION := "production"

  const REPORT_SUITE_REQUIRED := "Please specify a report suite"
  const VARIABLE_NAME_REQUIRED := "Please specify a variable name"
  const HTTP_URL_REQUIRED := "Please specify an HTTP URL"
  const HTTPS_URL_REQUIRED := "Please specify an HTTPS URL"
  const SCRIPT_REQUIRED := "Please provide custom code"

  /** The properties a saved `libraryCode` may hold. */
  const SAVED_KEYS: set<string> := {
    "type", "accounts", "loadPhase", "trackerVariableName",
    "httpUrl", "httpsUrl", "reportSuitesPreconfigured", "script"
  }

  /** `forcePrefix(str, prefix)`: a non-empty string that does not start with the prefix gets it. */
  function ForcePrefix(str: string, prefix: string): (r: string)
    ensures str == "" ==> r == ""
    ensures str != "" ==> StartsWith(r, prefix)
    ensures StartsWith(str, prefix) ==> r == str
    ensures str != "" && !StartsWith(str, prefix) ==> r == prefix + str
  {
    if str == "" || StartsWith(str, prefix) then str else prefix + str
  }

  /** Prefixing twice is prefixing once. */
  lemma ForcePrefixIdempotent(str: string, prefix: string)
    ensures ForcePrefix(ForcePrefix(str, prefix), prefix) == ForcePrefix(str, prefix)
  {
  }

  /** The properties of the form's `libraryCode`. */
  const FORM_KEYS: set<string> := {
    "type", "trackerVariableName", "loadPhase", "showReportSuites",
    "reportSuitesPreconfigured", "accounts", "httpUrl", "httpsUrl", "script"
  }

  /** The rule for one property of the form's `libraryCode`, read from the stored one. */
  function LoadedField(key: string, stored: Option<Value>): Option<Value>
  {
    var libType := Prop(stored, "type");
    if key == "type" then Some(Or(libType, Str(MANAGED)))
    else if key == "trackerVariableName" then Some(Or(Prop(stored, key), Str(DEFAULT_TRACKER_VARIABLE_NAME)))
    else if key == "loadPhase" then Some(Or(Prop(stored, key), Str(PAGE_BOTTOM)))
    else if key == "showReportSuites" then
      Some(Bool(libType != Some(Str(MANAGED)) && Truthy(Prop(stored, "accounts"))))
    else if key in FORM_KEYS then Prop(stored, key)
    else None
  }

  /** The form's `libraryCode`: the stored one with the type, variable name and load phase defaulted. */
  function LoadedLibraryCode(stored: Option<Value>): (form: Object)
    ensures form.Keys <= FORM_KEYS
    ensures forall k :: k in FORM_KEYS ==> Get(form, k) == LoadedField(k, stored)
  {
    map k | k in FORM_KEYS && LoadedField(k, stored).Some? :: LoadedField(k, stored).value
  }

  /** Loading defaults the type to managed, the variable name to "s" and the load phase to page bottom, and passes the rest through. */
  lemma LoadDefaults(stored: Option<Value>)
    ensures var form := LoadedLibraryCode(stored);
            && Get(form, "type") == Some(Or(Prop(stored, "type"), Str(MANAGED)))
            && Get(form, "trackerVariableName") == Some(Or(Prop(stored, "trackerVariableName"), Str(DEFAULT_TRACKER_VARIABLE_NAME)))
            && Get(form, "loadPhase") == Some(Or(Prop(stored, "loadPhase"), Str(PAGE_BOTTOM)))
            && (Get(form, "showReportSuites") == Some(Bool(true)) <==>
                  Prop(stored, "type") != Some(Str(MANAGED)) && Truthy(Prop(stored, "accounts")))
            && Get(form, "reportSuitesPreconfigured") == Prop(stored, "reportSuitesPreconfigured")
            && Get(form, "accounts") == Prop(stored, "accounts")
            && Get(form, "httpUrl") == Prop(stored, "httpUrl")
            && Get(form, "httpsUrl") == Prop(stored, "httpsUrl")
            && Get(form, "script") == Prop(stored, "script")
  {
  }

  /** Loading: the form's `libraryCode` beside the other form values, which are kept. */
  function SettingsToFormValues(values: Object, options: InitOptions): (r: Object)
    ensures r.Keys == values.Keys + {"libraryCode"}
    ensures forall k :: k in values && k != "libraryCode" ==> r[k] == values[k]
    ensures r["libraryCode"] == Obj(LoadedLibraryCode(Get(options.settings, "libraryCode")))
  {
    values["libraryCode" := Obj(LoadedLibraryCode(Get(options.settings, "libraryCode")))]
  }

  /** `accounts && accounts.length > 0`. */
  predicate HasItems(v: Option<Value>)
  {
    Truthy(v) && Length(v).Some? && Length(v).value > 0
  }

  /** The report suites kept on saving: the environments whose list is not empty. */
  function KeptAccounts(accounts: Option<Value>, environments: seq<string>): (r: Object)
    ensures r.Keys <= set e | e in environments
    ensures forall e :: e in environments ==> (e in r <==> HasItems(Prop(accounts, e)))
    ensures forall e :: e in r ==> Some(r[e]) == Prop(accounts, e)
  {
    map e | e in environments && HasItems(Prop(accounts, e)) :: Prop(accounts, e).value
  }

  /** A remote library's URLs, when given, are strings: saving calls `indexOf` on them. */
  predicate UrlsAreStrings(form: Option<Value>)
  {
    Prop(form, "type") == Some(Str(REMOTE)) ==>
      IsStringOrFalsy(Prop(form, "httpUrl")) && IsStringOrFalsy(Prop(form, "httpsUrl"))
  }

  /** What saving demands of the form values. */
  predicate Saveable(values: Object)
  {
    UrlsAreStrings(Get(values, "libraryCode"))
  }

  /** A saved `libraryCode`: a closed set of properties, any of which may be left out. */
  datatype LibraryCodeSettings = LibraryCodeSettings(
    libType: Option<Value>,
    accounts: Option<Object>,
    loadPhase: Option<Value>,
    trackerVariableName: Option<Value>,
    httpUrl: Option<string>,
    httpsUrl: Option<string>,
    reportSuitesPreconfigured: Option<Value>,
    script: Option<Value>)

  /** The property `key` of a saved `libraryCode`, as a JavaScript value. */
  function Property(lc: LibraryCodeSettings, key: string): Option<Value>
  {
    if key == "type" then lc.libType
    else if key == "accounts" then (if lc.accounts.Some? then Some(Obj(lc.accounts.value)) else None)
    else if key == "loadPhase" then lc.loadPhase
    else if key == "trackerVariableName" then lc.trackerVariableName
    else if key == "httpUrl" then (if lc.httpUrl.Some? then Some(Str(lc.httpUrl.value)) else None)
    else if key == "httpsUrl" then (if lc.httpsUrl.Some? then Some(Str(lc.httpsUrl.value)) else None)
    else if key == "reportSuitesPreconfigured" then lc.reportSuitesPreconfigured
    else if key == "script" then lc.script
    else None
  }

  /** The plain object a saved `libraryCode` is persisted as: its defined properties and no others. */
  function ToObject(lc: LibraryCodeSettings): (r: Object)
    ensures r.Keys <= SAVED_KEYS
    ensures forall k :: Get(r, k) == Property(lc, k)
  {
    map k | k in SAVED_KEYS && Property(lc, k).Some? :: Property(lc, k).value
  }

  /** The `libraryCode` saved from the form's: what each property is saved as, by library type. */
  function SavedLibraryCode(form: Option<Value>, environments: seq<string>): (r: LibraryCodeSettings)
    requires UrlsAreStrings(form)
    ensures r.libType == Prop(form, "type")
    ensures r.httpUrl.Some? <==> Prop(form, "type") == Some(Str(REMOTE))
    ensures r.httpsUrl.Some? <==> Prop(form, "type") == Some(Str(REMOTE))
    ensures r.script.Some? ==> Prop(form, "type") == Some(Str(CUSTOM))
    ensures Prop(form, "type") == Some(Str(PREINSTALLED)) ==> r.loadPhase == None
    ensures Prop(form, "type") == Some(Str(MANAGED)) ==> r.trackerVariableName == None
    ensures r.reportSuitesPreconfigured.Some? ==> Prop(form, "type") in {Some(Str(REMOTE)), Some(Str(CUSTOM))}
    ensures r.accounts.Some? ==> r.accounts.value == KeptAccounts(Prop(form, "accounts"), environments)
  {
    var libType := Prop(form, "type");
    var accounts := Prop(form, "accounts");
    var kept := KeptAccounts(accounts, environments);
    var remote := libType == Some(Str(REMOTE));
    var custom := libType == Some(Str(CUSTOM));
    LibraryCodeSettings(
      libType := libType,
      accounts := if Truthy(accounts) && |kept| > 0 then Some(kept) else None,
      loadPhase := if libType != Some(Str(PREINSTALLED)) then Prop(form, "loadPhase") else None,
      trackerVariableName := if libType != Some(Str(MANAGED)) then Prop(form, "trackerVariableName") else None,
      httpUrl := if remote then Some(ForcePrefix(StringOr(Prop(form, "httpUrl")), HTTP_PREFIX)) else None,
      httpsUrl := if remote then Some(ForcePrefix(StringOr(Prop(form, "httpsUrl")), HTTPS_PREFIX)) else None,
      reportSuitesPreconfigured := if remote || custom then Prop(form, "reportSuitesPreconfigured") else None,
      script := if custom then Prop(form, "script") else None)
  }

  /** The settings saved from the form: the previous settings with `libraryCode` replaced wholesale. */
  function SavedSettings(settings: Object, values: Object, environments: seq<string>): (r: Object)
    requires Saveable(values)
    ensures forall k :: k != "libraryCode" ==> Get(r, k) == Get(settings, k)
    ensures Get(r, "libraryCode") == Some(Obj(ToObject(SavedLibraryCode(Get(values, "libraryCode"), environments))))
  {
    settings["libraryCode" := Obj(ToObject(SavedLibraryCode(Get(values, "libraryCode"), environments)))]
  }

  /** Which properties the persisted `libraryCode` holds, by library type. */
  lemma SavedByType(form: Option<Value>, environments: seq<string>)
    requires UrlsAreStrings(form)
    ensures var r := ToObject(SavedLibraryCode(form, environments));
            var libType := Prop(form, "type");
            && r.Keys <= SAVED_KEYS
            && Get(r, "type") == libType
            && ("loadPhase" in r <==> libType != Some(Str(PREINSTALLED)) && Prop(form, "loadPhase").Some?)
            && ("trackerVariableName" in r <==> libType != Some(Str(MANAGED)) && Prop(form, "trackerVariableName").Some?)
            && ("httpUrl" in r <==> libType == Some(Str(REMOTE)))
            && ("httpsUrl" in r <==> libType == Some(Str(REMOTE)))
            && ("script" in r <==> libType == Some(Str(CUSTOM)) && Prop(form, "script").Some?)
            && ("reportSuitesPreconfigured" in r <==>
                  (libType == Some(Str(REMOTE)) || libType == Some(Str(CUSTOM))) && Prop(form, "reportSuitesPreconfigured").Some?)
  {
    var lc := SavedLibraryCode(form, environments);
    var r := ToObject(lc);
    assert Get(r, "type") == Property(lc, "type");
    assert Get(r, "loadPhase") == Property(lc, "loadPhase");
    assert Get(r, "trackerVariableName") == Property(lc, "trackerVariableName");
    assert Get(r, "httpUrl") == Property(lc, "httpUrl");
    assert Get(r, "httpsUrl") == Property(lc, "httpsUrl");
    assert Get(r, "script") == Property(lc, "script");
    assert Get(r, "reportSuitesPreconfigured") == Property(lc, "reportSuitesPreconfigured");
  }

  /** A remote library's URLs are persisted with their scheme, and only missing ones are persisted empty. */
  lemma SavedUrlsHaveScheme(form: Option<Value>, environments: seq<string>)
    requires Prop(form, "type") == Some(Str(REMOTE))
    requires IsStringOrFalsy(Prop(form, "httpUrl")) && IsStringOrFalsy(Prop(form, "httpsUrl"))
    ensures var r := ToObject(SavedLibraryCode(form, environments));
            && "httpUrl" in r && r["httpUrl"].Str? && "httpsUrl" in r && r["httpsUrl"].Str?
            && (r["httpUrl"].s == "" <==> !Truthy(Prop(form, "httpUrl")))
            && (r["httpsUrl"].s == "" <==> !Truthy(Prop(form, "httpsUrl")))
            && (r["httpUrl"].s != "" ==> StartsWith(r["httpUrl"].s, HTTP_PREFIX))
            && (r["httpsUrl"].s != "" ==> StartsWith(r["httpsUrl"].s, HTTPS_PREFIX))
  {
    var lc := SavedLibraryCode(form, environments);
    var r := ToObject(lc);
    assert Get(r, "httpUrl") == Property(lc, "httpUrl");
    assert Get(r, "httpsUrl") == Property(lc, "httpsUrl");
  }

  /** Only non-empty report-suite lists of known environments are persisted, and never an empty `accounts` object. */
  lemma SavedAccounts(form: Option<Value>, environments: seq<string>)
    requires UrlsAreStrings(form)
    ensures var r := ToObject(SavedLibraryCode(form, environments));
            var accounts := Prop(form, "accounts");
            && ("accounts" in r <==> Truthy(accounts) && exists e :: e in environments && HasItems(Prop(accounts, e)))
            && ("accounts" in r ==> r["accounts"] == Obj(KeptAccounts(accounts, environments)))
  {
    var lc := SavedLibraryCode(form, environments);
    var r := ToObject(lc);
    var accounts := Prop(form, "accounts");
    assert Get(r, "accounts") == Property(lc, "accounts");
    var kept := KeptAccounts(accounts, environments);
    if exists e :: e in environments && HasItems(Prop(accounts, e)) {
      var e :| e in environments && HasItems(Prop(accounts, e));
      assert e in kept;
    }
  }

  /** The loop over the environments that keeps each non-empty list of report suites. */
  method KeepAccounts(accountsValue: Option<Value>, environments: seq<string>) returns (accounts: Object)
    ensures accounts == KeptAccounts(accountsValue, environments)
  {
    accounts := map[];
    for i := 0 to |environments|
      invariant accounts == KeptAccounts(accountsValue, environments[..i])
    {
      var environment := environments[i];
      var accountsForEnvironment := Prop(accountsValue, environment);
      if HasItems(accountsForEnvironment) {
        accounts := accounts[environment := accountsForEnvironment.value];
      }
      assert environments[..i + 1] == environments[..i] + [environment];
    }
    assert environments[..|environments|] == environments;
  }

  /**
   * Saving, as the view does it: start from `{type}`, keep the non-empty
   * report-suite lists environment by environment, then add what the library
   * type calls for.
   */
  method FormValuesToSettings(settings: Object, values: Object, environments: seq<string>) returns (r: Object)
    requires "libraryCode" in values
    requires Saveable(values)
    ensures r == SavedSettings(settings, values, environments)
  {
    var form := Get(values, "libraryCode");
    var libType := Prop(form, "type");
    var libraryCodeSettings := LibraryCodeSettings(libType, None, None, None, None, None, None, None);
    var accountsValue := Prop(form, "accounts");
    if Truthy(accountsValue) {
      var accounts := KeepAccounts(accountsValue, environments);
      if |accounts| > 0 {
        libraryCodeSettings := libraryCodeSettings.(accounts := Some(accounts));
      }
    }
    if libType != Some(Str(PREINSTALLED)) {
      libraryCodeSettings := libraryCodeSettings.(loadPhase := Prop(form, "loadPhase"));
    }
    if libType != Some(Str(MANAGED)) {
      libraryCodeSettings := libraryCodeSettings.(trackerVariableName := Prop(form, "trackerVariableName"));
    }
    if libType == Some(Str(REMOTE)) {
      libraryCodeSettings := libraryCodeSettings.(
        httpUrl := Some(ForcePrefix(StringOr(Prop(form, "httpUrl")), HTTP_PREFIX)),
        httpsUrl := Some(ForcePrefix(StringOr(Prop(form, "httpsUrl")), HTTPS_PREFIX)),
        reportSuitesPreconfigured := Prop(form, "reportSuitesPreconfigured"));
    }
    if libType == Some(Str(CUSTOM)) {
      libraryCodeSettings := libraryCodeSettings.(
        script := Prop(form, "script"),
        reportSuitesPreconfigured := Prop(form, "reportSuitesPreconfigured"));
    }
    assert libraryCodeSettings == SavedLibraryCode(form, environments);
    r := settings["libraryCode" := Obj(ToObject(libraryCodeSettings))];
  }

  /** Keeping the non-empty lists of an already kept set of report suites keeps them all. */
  lemma KeptTwice(accounts: Option<Value>, environments: seq<string>)
    ensures var kept := KeptAccounts(accounts, environments);
            KeptAccounts(Some(Obj(kept)), environments) == kept
  {
  }

  /** The form's `libraryCode` loaded from a persisted one. */
  function Reloaded(lc: LibraryCodeSettings): Option<Value>
  {
    Some(Obj(LoadedLibraryCode(Some(Obj(ToObject(lc))))))
  }

  /** A persisted property the form passes through comes back as it was saved. */
  lemma ReloadedPassedThrough(lc: LibraryCodeSettings, k: string)
    requires k == "accounts" || k == "httpUrl" || k == "httpsUrl" || k == "reportSuitesPreconfigured" || k == "script"
    ensures Prop(Reloaded(lc), k) == Property(lc, k)
  {
    assert Prop(Reloaded(lc), k) == LoadedField(k, Some(Obj(ToObject(lc))));
  }

  /** A persisted property the form defaults comes back as saved when it was saved truthy. */
  lemma ReloadedDefaulted(lc: LibraryCodeSettings, k: string)
    requires k == "type" || k == "loadPhase" || k == "trackerVariableName"
    requires Truthy(Property(lc, k))
    ensures Prop(Reloaded(lc), k) == Property(lc, k)
  {
    assert Prop(Reloaded(lc), k) == LoadedField(k, Some(Obj(ToObject(lc))));
  }

  /** A `libraryCode` saved from the form loaded from `stored`. */
  function FirstSave(stored: Option<Value>, environments: seq<string>): LibraryCodeSettings
    requires UrlsAreStrings(Some(Obj(LoadedLibraryCode(stored))))
  {
    SavedLibraryCode(Some(Obj(LoadedLibraryCode(stored))), environments)
  }

  /** The type and URLs of a saved `libraryCode` load back as they were saved. */
  lemma TypeReloads(stored: Option<Value>, environments: seq<string>)
    requires UrlsAreStrings(Some(Obj(LoadedLibraryCode(stored))))
    ensures var lc := FirstSave(stored, environments);
            && Prop(Reloaded(lc), "type") == Prop(Some(Obj(LoadedLibraryCode(stored))), "type")
            && UrlsAreStrings(Reloaded(lc))
  {
    var lc := FirstSave(stored, environments);
    assert Prop(Some(Obj(LoadedLibraryCode(stored))), "type") == LoadedField("type", stored);
    ReloadedDefaulted(lc, "type");
    if lc.libType == Some(Str(REMOTE)) {
      ReloadedPassedThrough(lc, "httpUrl");
      ReloadedPassedThrough(lc, "httpsUrl");
    }
  }

  lemma AccountsSaveAgain(stored: Option<Value>, environments: seq<string>)
    requires UrlsAreStrings(Some(Obj(LoadedLibraryCode(stored))))
    requires UrlsAreStrings(Reloaded(FirstSave(stored, environments)))
    ensures var lc := FirstSave(stored, environments);
            SavedLibraryCode(Reloaded(lc), environments).accounts == lc.accounts
  {
    var lc := FirstSave(stored, environments);
    ReloadedPassedThrough(lc, "accounts");
    KeptTwice(Prop(Some(Obj(LoadedLibraryCode(stored))), "accounts"), environments);
  }

  lemma PhaseAndNameSaveAgain(stored: Option<Value>, environments: seq<string>)
    requires UrlsAreStrings(Some(Obj(LoadedLibraryCode(stored))))
    requires UrlsAreStrings(Reloaded(FirstSave(stored, environments)))
    requires Prop(Reloaded(FirstSave(stored, environments)), "type") == Prop(Some(Obj(LoadedLibraryCode(stored))), "type")
    ensures var lc := FirstSave(stored, environments);
            var lc2 := SavedLibraryCode(Reloaded(lc), environments);
            lc2.loadPhase == lc.loadPhase && lc2.trackerVariableName == lc.trackerVariableName
  {
    var lc := FirstSave(stored, environments);
    var libType := lc.libType;
    if libType != Some(Str(PREINSTALLED)) {
      assert Prop(Some(Obj(LoadedLibraryCode(stored))), "loadPhase") == LoadedField("loadPhase", stored);
      ReloadedDefaulted(lc, "loadPhase");
    }
    if libType != Some(Str(MANAGED)) {
      assert Prop(Some(Obj(LoadedLibraryCode(stored))), "trackerVariableName") == LoadedField("trackerVariableName", stored);
      ReloadedDefaulted(lc, "trackerVariableName");
    }
  }

  lemma RemoteAndCustomSaveAgain(stored: Option<Value>, environments: seq<string>)
    requires UrlsAreStrings(Some(Obj(LoadedLibraryCode(stored))))
    requires UrlsAreStrings(Reloaded(FirstSave(stored, environments)))
    requires Prop(Reloaded(FirstSave(stored, environments)), "type") == Prop(Some(Obj(LoadedLibraryCode(stored))), "type")
    ensures var lc := FirstSave(stored, environments);
            var lc2 := SavedLibraryCode(Reloaded(lc), environments);
            && lc2.httpUrl == lc.httpUrl && lc2.httpsUrl == lc.httpsUrl
            && lc2.reportSuitesPreconfigured == lc.reportSuitesPreconfigured && lc2.script == lc.script
  {
    var lc := FirstSave(stored, environments);
    var form := Some(Obj(LoadedLibraryCode(stored)));
    if lc.libType == Some(Str(REMOTE)) {
      ReloadedPassedThrough(lc, "httpUrl");
      ReloadedPassedThrough(lc, "httpsUrl");
      ForcePrefixIdempotent(StringOr(Prop(form, "httpUrl")), HTTP_PREFIX);
      ForcePrefixIdempotent(StringOr(Prop(form, "httpsUrl")), HTTPS_PREFIX);
    }
    ReloadedPassedThrough(lc, "reportSuitesPreconfigured");
    ReloadedPassedThrough(lc, "script");
  }

  /** Loading a persisted `libraryCode` and saving it again writes it back unchanged. */
  lemma StoredSavesAgain(stored: Option<Value>, environments: seq<string>)
    requires UrlsAreStrings(Some(Obj(LoadedLibraryCode(stored))))
    ensures var lc := SavedLibraryCode(Some(Obj(LoadedLibraryCode(stored))), environments);
            UrlsAreStrings(Reloaded(lc)) && SavedLibraryCode(Reloaded(lc), environments) == lc
  {
    TypeReloads(stored, environments);
    AccountsSaveAgain(stored, environments);
    PhaseAndNameSaveAgain(stored, environments);
    RemoteAndCustomSaveAgain(stored, environments);
  }

  /**
   * Settings saved from a loaded form are a fixed point: loading them and saving
   * again gives the same settings, whatever the other form values are.
   */
  lemma SaveLoadStable(settings: Object, values: Object, values2: Object,
                       configurations: seq<ExtensionConfiguration>, environments: seq<string>)
    requires Saveable(SettingsToFormValues(values, InitOptions(settings, configurations)))
    ensures var saved := SavedSettings(settings, SettingsToFormValues(values, InitOptions(settings, configurations)), environments);
            var form2 := SettingsToFormValues(values2, InitOptions(saved, configurations));
            Saveable(form2) && SavedSettings(saved, form2, environments) == saved
  {
    var stored := Get(settings, "libraryCode");
    var lc := SavedLibraryCode(Some(Obj(LoadedLibraryCode(stored))), environments);
    var saved := SavedSettings(settings, SettingsToFormValues(values, InitOptions(settings, configurations)), environments);
    assert saved == settings["libraryCode" := Obj(ToObject(lc))];
    StoredSavesAgain(stored, environments);
    ResavedUnchanged(saved, lc, values2, configurations, environments);
  }

  /** Settings whose `libraryCode` saves back as it is are saved back unchanged. */
  lemma ResavedUnchanged(saved: Object, lc: LibraryCodeSettings, values2: Object,
                         configurations: seq<ExtensionConfiguration>, environments: seq<string>)
    requires Get(saved, "libraryCode") == Some(Obj(ToObject(lc)))
    requires UrlsAreStrings(Reloaded(lc)) && SavedLibraryCode(Reloaded(lc), environments) == lc
    ensures var form2 := SettingsToFormValues(values2, InitOptions(saved, configurations));
            Saveable(form2) && SavedSettings(saved, form2, environments) == saved
  {
    var form2 := SettingsToFormValues(values2, InitOptions(saved, configurations));
    assert Get(form2, "libraryCode") == Reloaded(lc);
  }

  /** `!accounts.production || accounts.production.length === 0`. */
  predicate ProductionMissing(accounts: Option<Value>)
    ensures Prop(accounts, PRODUCTION).None? ==> ProductionMissing(accounts)
    ensures Prop(accounts, PRODUCTION).Some? && Prop(accounts, PRODUCTION).value.List? ==>
              (ProductionMissing(accounts) <==> Prop(accounts, PRODUCTION).value.items == [])
  {
    var production := Prop(accounts, PRODUCTION);
    !Truthy(production) || Length(production) == Some(0)
  }

  /** Report suites are required for a managed library, and for any other one that shows them. */
  predicate ReportSuitesRequired(form: Option<Value>)
    ensures Prop(form, "type") == Some(Str(MANAGED)) ==> ReportSuitesRequired(form)
    ensures Prop(form, "type") != Some(Str(MANAGED)) ==> (ReportSuitesRequired(form) <==> Truthy(Prop(form, "showReportSuites")))
  {
    var libType := Prop(form, "type");
    (libType != Some(Str(MANAGED)) && Truthy(Prop(form, "showReportSuites"))) || libType == Some(Str(MANAGED))
  }

  /**
   * Validation: the previous errors with `libraryCode` replaced by this
   * section's own errors. `accounts` is read without a guard, so it must be
   * defined.
   */
  method Validate(errors: Object, values: Object) returns (r: Object)
    requires "libraryCode" in values
    requires Prop(Get(values, "libraryCode"), "accounts").Some?
    ensures r.Keys == errors.Keys + {"libraryCode"}
    ensures forall k :: k in errors && k != "libraryCode" ==> r[k] == errors[k]
    ensures r["libraryCode"].Obj?
    ensures var e := r["libraryCode"].fields;
            var form := Get(values, "libraryCode");
            var libType := Prop(form, "type");
            && e.Keys <= {"accounts", "trackerVariableName", "httpUrl", "httpsUrl", "script"}
            && ("accounts" in e <==> ReportSuitesRequired(form) && ProductionMissing(Prop(form, "accounts")))
            && ("accounts" in e ==> e["accounts"] == Obj(map[PRODUCTION := Str(REPORT_SUITE_REQUIRED)]))
            && ("trackerVariableName" in e <==> libType != Some(Str(MANAGED)) && !Truthy(Prop(form, "trackerVariableName")))
            && ("trackerVariableName" in e ==> e["trackerVariableName"] == Str(VARIABLE_NAME_REQUIRED))
            && ("httpUrl" in e <==> libType == Some(Str(REMOTE)) && !Truthy(Prop(form, "httpUrl")))
            && ("httpUrl" in e ==> e["httpUrl"] == Str(HTTP_URL_REQUIRED))
            && ("httpsUrl" in e <==> libType == Some(Str(REMOTE)) && !Truthy(Prop(form, "httpsUrl")))
            && ("httpsUrl" in e ==> e["httpsUrl"] == Str(HTTPS_URL_REQUIRED))
            && ("script" in e <==> libType == Some(Str(CUSTOM)) && !Truthy(Prop(form, "script")))
            && ("script" in e ==> e["script"] == Str(SCRIPT_REQUIRED))
  {
    var form := Get(values, "libraryCode");
    var libType := Prop(form, "type");
    var libraryCodeErrors: Object := map[];
    var reportSuitesAreRequired :=
      (libType != Some(Str(MANAGED)) && Truthy(Prop(form, "showReportSuites"))) || libType == Some(Str(MANAGED));
    var production := Prop(Prop(form, "accounts"), PRODUCTION);
    var productionAccountsAreMissing := !Truthy(production) || Length(production) == Some(0);
    if reportSuitesAreRequired && productionAccountsAreMissing {
      libraryCodeErrors := libraryCodeErrors["accounts" := Obj(map[PRODUCTION := Str(REPORT_SUITE_REQUIRED)])];
    }
    if libType != Some(Str(MANAGED)) && !Truthy(Prop(form, "trackerVariableName")) {
      libraryCodeErrors := libraryCodeErrors["trackerVariableName" := Str(VARIABLE_NAME_REQUIRED)];
    }
    if libType == Some(Str(REMOTE)) {
      if !Truthy(Prop(form, "httpUrl")) {
        libraryCodeErrors := libraryCodeErrors["httpUrl" := Str(HTTP_URL_REQUIRED)];
      }
      if !Truthy(Prop(form, "httpsUrl")) {
        libraryCodeErrors := libraryCodeErrors["httpsUrl" := Str(HTTPS_URL_REQUIRED)];
      }
    }
    if libType == Some(Str(CUSTOM)) && !Truthy(Prop(form, "script")) {
      libraryCodeErrors := libraryCodeErrors["script" := Str(SCRIPT_REQUIRED)];
    }
    r := errors["libraryCode" := Obj(libraryCodeErrors)];
  }
}
