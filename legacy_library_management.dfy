/**
 * The earlier library-management section of the extension configuration
 * view: the same four library types without per-environment report suites,
 * with a `skipSetAccount` flag, lower-case load phases, and a URL prefixer
 * that also prefixes the empty string.
 *
 * The section's three functions are handed to a `createFormConfig` helper,
 * which is not part of this model; they are modelled as written.
 */
module LegacyLibraryManagement {
  import opened Wrappers
  import opened Js
  import opened Bridge

  const MANAGED := "managed"
  const PREINSTALLED := "preinstalled"
  const REMOTE := "remote"
  const CUSTOM := "custom"

  const PAGE_TOP := "pagetop"
  const PAGE_BOTTOM := "pagebottom"

  const DEFAULT_TRACKER_VARIABLE_NAME := "s"

  const HTTP_PREFIX := "http://"
  const HTTPS_PREFIX := "https://"

  const VARIABLE_NAME_REQUIRED := "Please specify a variable name"
  const HTTP_URL_REQUIRED := "Please specify an HTTP URL"
  const HTTPS_URL_REQUIRED := "Please specify an HTTPS URL"
  const SCRIPT_REQUIRED := "Please provide custom code"

  /** `forcePrefix(str, prefix)`: a string that does not start with the prefix gets it, the empty one included. */
  function ForcePrefix(str: string, prefix: string): (r: string)
    ensures StartsWith(r, prefix)
    ensures StartsWith(str, prefix) ==> r == str
    ensures !StartsWith(str, prefix) ==> r == prefix + str
  {
    if StartsWith(str, prefix) then str else prefix + str
  }

  /** Prefixing twice is prefixing once. */
  lemma ForcePrefixIdempotent(str: string, prefix: string)
    ensures ForcePrefix(ForcePrefix(str, prefix), prefix) == ForcePrefix(str, prefix)
  {
  }

  /** An empty URL is saved as the bare scheme. */
  lemma EmptyUrlBecomesScheme(prefix: string)
    requires prefix != ""
    ensures ForcePrefix("", prefix) == prefix
  {
  }

  /** The properties of the form's `libraryCode`. */
  const FORM_KEYS: set<string> := {
    "type", "trackerVariableName", "loadPhase", "skipSetAccount", "httpUrl", "httpsUrl", "script"
  }

  /** The rule for one property of the form's `libraryCode`, read from the stored one. */
  function LoadedField(key: string, stored: Option<Value>): Option<Value>
  {
    if key == "type" then Some(Or(Prop(stored, key), Str(MANAGED)))
    else if key == "trackerVariableName" then Some(Or(Prop(stored, key), Str(DEFAULT_TRACKER_VARIABLE_NAME)))
    else if key == "loadPhase" then Some(Or(Prop(stored, key), Str(PAGE_BOTTOM)))
    else if key in FORM_KEYS then Prop(stored, key)
    else None
  }

  /** The form's `libraryCode`: the stored one with the type, variable name and load phase defaulted. */
  function LoadedLibraryCode(stored: Option<Value>): (form: Object)
    ensures form.Keys <= FORM_KEYS
    ensures forall k :: k in FORM_KEYS ==> Get(form, k) == LoadedField(k, stored)
  {
    map k | k in FORM_KEYS && LoadedField(k, stored).Some? :: LoadedField(k, stored).value
  }

  /** Loading defaults the type to managed, the variable name to "s" and the load phase to page bottom, and passes the rest through. */
  lemma LoadDefaults(stored: Option<Value>)
    ensures var form := LoadedLibraryCode(stored);
            && Get(form, "type") == Some(Or(Prop(stored, "type"), Str(MANAGED)))
            && Get(form, "trackerVariableName") == Some(Or(Prop(stored, "trackerVariableName"), Str(DEFAULT_TRACKER_VARIABLE_NAME)))
            && Get(form, "loadPhase") == Some(Or(Prop(stored, "loadPhase"), Str(PAGE_BOTTOM)))
            && Get(form, "skipSetAccount") == Prop(stored, "skipSetAccount")
            && Get(form, "httpUrl") == Prop(stored, "httpUrl")
            && Get(form, "httpsUrl") == Prop(stored, "httpsUrl")
            && Get(form, "script") == Prop(stored, "script")
  {
  }

  /** Loading: the form's `libraryCode` beside the other form values, which are kept. */
  function SettingsToFormValues(values: Object, options: InitOptions): (r: Object)
    ensures r.Keys == values.Keys + {"libraryCode"}
    ensures forall k :: k in values && k != "libraryCode" ==> r[k] == values[k]
    ensures r["libraryCode"] == Obj(LoadedLibraryCode(Get(options.settings, "libraryCode")))
  {
    values["libraryCode" := Obj(LoadedLibraryCode(Get(options.settings, "libraryCode")))]
  }

  /** A remote library's URLs, when given, are strings: saving calls `indexOf` on them. */
  predicate UrlsAreStrings(form: Option<Value>)
  {
    Prop(form, "type") == Some(Str(REMOTE)) ==>
      IsStringOrFalsy(Prop(form, "httpUrl")) && IsStringOrFalsy(Prop(form, "httpsUrl"))
  }

  /** A saved `libraryCode`: a closed set of properties, any of which may be left out. */
  datatype LibraryCodeSettings = LibraryCodeSettings(
    libType: Option<Value>,
    loadPhase: Option<Value>,
    trackerVariableName: Option<Value>,
    httpUrl: Option<string>,
    httpsUrl: Option<string>,
    skipSetAccount: Option<Value>,
    script: Option<Value>)

  /** The properties a saved `libraryCode` may hold. */
  const SAVED_KEYS: set<string> := {
    "type", "loadPhase", "trackerVariableName", "httpUrl", "httpsUrl", "skipSetAccount", "script"
  }

  /** The property `key` of a saved `libraryCode`, as a JavaScript value. */
  function Property(lc: LibraryCodeSettings, key: string): Option<Value>
  {
    if key == "type" then lc.libType
    else if key == "loadPhase" then lc.loadPhase
    else if key == "trackerVariableName" then lc.trackerVariableName
    else if key == "httpUrl" then (if lc.httpUrl.Some? then Some(Str(lc.httpUrl.value)) else None)
    else if key == "httpsUrl" then (if lc.httpsUrl.Some? then Some(Str(lc.httpsUrl.value)) else None)
    else if key == "skipSetAccount" then lc.skipSetAccount
    else if key == "script" then lc.script
    else None
  }

  /** The plain object a saved `libraryCode` is persisted as: its defined properties and no others. */
  function ToObject(lc: LibraryCodeSettings): (r: Object)
    ensures r.Keys <= SAVED_KEYS
    ensures forall k :: Get(r, k) == Property(lc, k)
  {
    map k | k in SAVED_KEYS && Property(lc, k).Some? :: Property(lc, k).value
  }

  /** The `libraryCode` saved from the form's: what each property is saved as, by library type. */
  function SavedLibraryCode(form: Option<Value>): (r: LibraryCodeSettings)
    requires UrlsAreStrings(form)
    ensures r.libType == Prop(form, "type")
    ensures r.httpUrl.Some? <==> Prop(form, "type") == Some(Str(REMOTE))
    ensures r.httpsUrl.Some? <==> Prop(form, "type") == Some(Str(REMOTE))
    ensures r.script.Some? ==> Prop(form, "type") == Some(Str(CUSTOM))
    ensures Prop(form, "type") == Some(Str(PREINSTALLED)) ==> r.loadPhase == None
    ensures Prop(form, "type") == Some(Str(MANAGED)) ==> r.trackerVariableName == None
    ensures r.skipSetAccount.Some? ==> Prop(form, "type") in {Some(Str(REMOTE)), Some(Str(CUSTOM))}
  {
    var libType := Prop(form, "type");
    var remote := libType == Some(Str(REMOTE));
    var custom := libType == Some(Str(CUSTOM));
    LibraryCodeSettings(
      libType := libType,
      loadPhase := if libType != Some(Str(PREINSTALLED)) then Prop(form, "loadPhase") else None,
      trackerVariableName := if libType != Some(Str(MANAGED)) then Prop(form, "trackerVariableName") else None,
      httpUrl := if remote then Some(ForcePrefix(StringOr(Prop(form, "httpUrl")), HTTP_PREFIX)) else None,
      httpsUrl := if remote then Some(ForcePrefix(StringOr(Prop(form, "httpsUrl")), HTTPS_PREFIX)) else None,
      skipSetAccount := if remote || custom then Prop(form, "skipSetAccount") else None,
      script := if custom then Prop(form, "script") else None)
  }

  /** The settings saved from the form: the previous settings with `libraryCode` replaced wholesale. */
  function SavedSettings(settings: Object, values: Object): (r: Object)
    requires UrlsAreStrings(Get(values, "libraryCode"))
    ensures forall k :: k != "libraryCode" ==> Get(r, k) == Get(settings, k)
    ensures Get(r, "libraryCode") == Some(Obj(ToObject(SavedLibraryCode(Get(values, "libraryCode")))))
  {
    settings["libraryCode" := Obj(ToObject(SavedLibraryCode(Get(values, "libraryCode"))))]
  }

  /** Which properties the persisted `libraryCode` holds, by library type; a remote library's URLs always carry their scheme. */
  lemma SavedByType(form: Option<Value>)
    requires UrlsAreStrings(form)
    ensures var r := ToObject(SavedLibraryCode(form));
            var libType := Prop(form, "type");
            && r.Keys <= SAVED_KEYS
            && Get(r, "type") == libType
            && ("loadPhase" in r <==> libType != Some(Str(PREINSTALLED)) && Prop(form, "loadPhase").Some?)
            && ("trackerVariableName" in r <==> libType != Some(Str(MANAGED)) && Prop(form, "trackerVariableName").Some?)
            && ("httpUrl" in r <==> libType == Some(Str(REMOTE)))
            && ("httpsUrl" in r <==> libType == Some(Str(REMOTE)))
            && ("httpUrl" in r ==> r["httpUrl"].Str? && StartsWith(r["httpUrl"].s, HTTP_PREFIX))
            && ("httpsUrl" in r ==> r["httpsUrl"].Str? && StartsWith(r["httpsUrl"].s, HTTPS_PREFIX))
            && ("script" in r <==> libType == Some(Str(CUSTOM)) && Prop(form, "script").Some?)
            && ("skipSetAccount" in r <==>
                  (libType == Some(Str(REMOTE)) || libType == Some(Str(CUSTOM))) && Prop(form, "skipSetAccount").Some?)
  {
    var lc := SavedLibraryCode(form);
    var r := ToObject(lc);
    assert Get(r, "type") == Property(lc, "type");
    assert Get(r, "loadPhase") == Property(lc, "loadPhase");
    assert Get(r, "trackerVariableName") == Property(lc, "trackerVariableName");
    assert Get(r, "httpUrl") == Property(lc, "httpUrl");
    assert Get(r, "httpsUrl") == Property(lc, "httpsUrl");
    assert Get(r, "script") == Property(lc, "script");
    assert Get(r, "skipSetAccount") == Property(lc, "skipSetAccount");
  }

  /** Saving, as the view does it: start from `{type}`, then add what the library type calls for. */
  method FormValuesToSettings(settings: Object, values: Object) returns (r: Object)
    requires UrlsAreStrings(Get(values, "libraryCode"))
    ensures r == SavedSettings(settings, values)
  {
    var form := Get(values, "libraryCode");
    var libType := Prop(form, "type");
    var libraryCodeSettings := LibraryCodeSettings(libType, None, None, None, None, None, None);
    if libType != Some(Str(PREINSTALLED)) {
      libraryCodeSettings := libraryCodeSettings.(loadPhase := Prop(form, "loadPhase"));
    }
    if libType != Some(Str(MANAGED)) {
      libraryCodeSettings := libraryCodeSettings.(trackerVariableName := Prop(form, "trackerVariableName"));
    }
    if libType == Some(Str(REMOTE)) {
      libraryCodeSettings := libraryCodeSettings.(
        httpUrl := Some(ForcePrefix(StringOr(Prop(form, "httpUrl")), HTTP_PREFIX)),
        httpsUrl := Some(ForcePrefix(StringOr(Prop(form, "httpsUrl")), HTTPS_PREFIX)),
        skipSetAccount := Prop(form, "skipSetAccount"));
    }
    if libType == Some(Str(CUSTOM)) {
      libraryCodeSettings := libraryCodeSettings.(
        script := Prop(form, "script"),
        skipSetAccount := Prop(form, "skipSetAccount"));
    }
    r := settings["libraryCode" := Obj(ToObject(libraryCodeSettings))];
  }

  /** Loading a persisted `libraryCode` and saving it again writes it back unchanged. */
  lemma StoredSavesAgain(stored: Option<Value>)
    requires UrlsAreStrings(Some(Obj(LoadedLibraryCode(stored))))
    ensures var lc := SavedLibraryCode(Some(Obj(LoadedLibraryCode(stored))));
            var form2 := Some(Obj(LoadedLibraryCode(Some(Obj(ToObject(lc))))));
            UrlsAreStrings(form2) && SavedLibraryCode(form2) == lc
  {
    var form := Some(Obj(LoadedLibraryCode(stored)));
    var lc := SavedLibraryCode(form);
    var persisted := Some(Obj(ToObject(lc)));
    var form2 := Some(Obj(LoadedLibraryCode(persisted)));
    var libType := Prop(form, "type");
    assert libType == LoadedField("type", stored);
    assert Prop(form2, "type") == LoadedField("type", persisted);
    assert Prop(persisted, "type") == Property(lc, "type");
    assert Prop(form2, "type") == libType;
    if libType != Some(Str(PREINSTALLED)) {
      assert Prop(form, "loadPhase") == LoadedField("loadPhase", stored);
      assert Prop(form2, "loadPhase") == LoadedField("loadPhase", persisted);
      assert Prop(persisted, "loadPhase") == Property(lc, "loadPhase");
    }
    if libType != Some(Str(MANAGED)) {
      assert Prop(form, "trackerVariableName") == LoadedField("trackerVariableName", stored);
      assert Prop(form2, "trackerVariableName") == LoadedField("trackerVariableName", persisted);
      assert Prop(persisted, "trackerVariableName") == Property(lc, "trackerVariableName");
    }
    if libType == Some(Str(REMOTE)) {
      assert Prop(form2, "httpUrl") == LoadedField("httpUrl", persisted);
      assert Prop(persisted, "httpUrl") == Property(lc, "httpUrl");
      assert Prop(form2, "httpsUrl") == LoadedField("httpsUrl", persisted);
      assert Prop(persisted, "httpsUrl") == Property(lc, "httpsUrl");
      ForcePrefixIdempotent(StringOr(Prop(form, "httpUrl")), HTTP_PREFIX);
      ForcePrefixIdempotent(StringOr(Prop(form, "httpsUrl")), HTTPS_PREFIX);
    }
    if libType == Some(Str(REMOTE)) || libType == Some(Str(CUSTOM)) {
      assert Prop(form2, "skipSetAccount") == LoadedField("skipSetAccount", persisted);
      assert Prop(persisted, "skipSetAccount") == Property(lc, "skipSetAccount");
    }
    if libType == Some(Str(CUSTOM)) {
      assert Prop(form2, "script") == LoadedField("script", persisted);
      assert Prop(persisted, "script") == Property(lc, "script");
    }
  }

  /**
   * Settings saved from a loaded form are a fixed point: loading them and saving
   * again gives the same settings, whatever the other form values are.
   */
  lemma SaveLoadStable(settings: Object, values: Object, values2: Object,
                       configurations: seq<ExtensionConfiguration>)
    requires UrlsAreStrings(Get(SettingsToFormValues(values, InitOptions(settings, configurations)), "libraryCode"))
    ensures var saved := SavedSettings(settings, SettingsToFormValues(values, InitOptions(settings, configurations)));
            var form2 := SettingsToFormValues(values2, InitOptions(saved, configurations));
            UrlsAreStrings(Get(form2, "libraryCode")) && SavedSettings(saved, form2) == saved
  {
    StoredSavesAgain(Get(settings, "libraryCode"));
  }

  /**
   * Validation: the previous errors with `libraryCode` replaced by this
   * section's own errors. The form's `libraryCode` is destructured without a
   * guard, so it must be defined.
   */
  method Validate(errors: Object, values: Object) returns (r: Object)
    requires "libraryCode" in values
    ensures r.Keys == errors.Keys + {"libraryCode"}
    ensures forall k :: k in errors && k != "libraryCode" ==> r[k] == errors[k]
    ensures r["libraryCode"].Obj?
    ensures var e := r["libraryCode"].fields;
            var form := Get(values, "libraryCode");
            var libType := Prop(form, "type");
            && e.Keys <= {"trackerVariableName", "httpUrl", "httpsUrl", "script"}
            && ("trackerVariableName" in e <==> libType != Some(Str(MANAGED)) && !Truthy(Prop(form, "trackerVariableName")))
            && ("trackerVariableName" in e ==> e["trackerVariableName"] == Str(VARIABLE_NAME_REQUIRED))
            && ("httpUrl" in e <==> libType == Some(Str(REMOTE)) && !Truthy(Prop(form, "httpUrl")))
            && ("httpUrl" in e ==> e["httpUrl"] == Str(HTTP_URL_REQUIRED))
            && ("httpsUrl" in e <==> libType == Some(Str(REMOTE)) && !Truthy(Prop(form, "httpsUrl")))
            && ("httpsUrl" in e ==> e["httpsUrl"] == Str(HTTPS_URL_REQUIRED))
            && ("script" in e <==> libType == Some(Str(CUSTOM)) && !Truthy(Prop(form, "script")))
            && ("script" in e ==> e["script"] == Str(SCRIPT_REQUIRED))
  {
    var form := Get(values, "libraryCode");
    var libType := Prop(form, "type");
    var libraryCodeErrors: Object := map[];
    if libType != Some(Str(MANAGED)) && !Truthy(Prop(form, "trackerVariableName")) {
      libraryCodeErrors := libraryCodeErrors["trackerVariableName" := Str(VARIABLE_NAME_REQUIRED)];
    }
    if libType == Some(Str(REMOTE)) {
      if !Truthy(Prop(form, "httpUrl")) {
        libraryCodeErrors := libraryCodeErrors["httpUrl" := Str(HTTP_URL_REQUIRED)];
      }
      if !Truthy(Prop(form, "httpsUrl")) {
        libraryCodeErrors := libraryCodeErrors["httpsUrl" := Str(HTTPS_URL_REQUIRED)];
      }
    }
    if libType == Some(Str(CUSTOM)) && !Truthy(Prop(form, "script")) {
      libraryCodeErrors := libraryCodeErrors["script" := Str(SCRIPT_REQUIRED)];
    }
    r := errors["libraryCode" := Obj(libraryCodeErrors)];
  }
}
