/**
 * The cookies section of the extension configuration view: the visitor
 * identifiers, the cookie-domain periods, the transaction ID and the cookie
 * lifetime of the tracker, as stored under `trackerProperties`.
 *
 * The stored `cookieLifetime` is either a period name or a number of
 * seconds; the form splits the latter into the period `SECONDS` and a
 * separate `cookieLifetimeSeconds` field.
 */
module Cookies {
  import opened Wrappers
  import opened Js
  import opened Bridge

  const DEFAULT := "DEFAULT"
  const NONE := "NONE"
  const SESSION := "SESSION"
  const SECONDS := "SECONDS"

  /** The properties copied between the stored tracker properties and the form as they are. */
  const COPIED: set<string> := {
    "visitorID", "visitorNamespace", "cookieDomainPeriods", "fpCookieDomainPeriods", "transactionID"
  }

  /** A lifetime the switch keeps as a period name. */
  predicate IsNamedPeriod(v: Option<Value>)
  {
    v == Some(Str(NONE)) || v == Some(Str(SESSION))
  }

  /** The rule for one property of the form's tracker properties. */
  function LoadedEntry(k: string, previous: Object, stored: Option<Value>): Option<Value>
  {
    var lifetime := Prop(stored, "cookieLifetime");
    if k in COPIED then Prop(stored, k)
    else if k == "cookieLifetime" && Truthy(lifetime) then
      (if IsNamedPeriod(lifetime) then lifetime else Some(Str(SECONDS)))
    else if k == "cookieLifetimeSeconds" && Truthy(lifetime) && !IsNamedPeriod(lifetime) then lifetime
    else Get(previous, k)
  }

  /**
   * The form's tracker properties: the previous form values, the copied
   * properties of the stored ones, and a truthy stored lifetime either as a
   * period name or as `SECONDS` with the stored value beside it.
   */
  function LoadedTrackerProperties(previous: Object, stored: Option<Value>): (r: Object)
    ensures forall k :: Get(r, k) == LoadedEntry(k, previous, stored)
  {
    map k | k in previous.Keys + COPIED + {"cookieLifetime", "cookieLifetimeSeconds"} && LoadedEntry(k, previous, stored).Some?
      :: LoadedEntry(k, previous, stored).value
  }

  /** Loading: the form's tracker properties beside the other form values, which are kept. */
  function SettingsToFormValues(values: Object, options: InitOptions): (r: Object)
    ensures r.Keys == values.Keys + {"trackerProperties"}
    ensures forall k :: k in values && k != "trackerProperties" ==> r[k] == values[k]
    ensures r["trackerProperties"] == Obj(LoadedTrackerProperties(
              Fields(Get(values, "trackerProperties")), Get(options.settings, "trackerProperties")))
  {
    values["trackerProperties" := Obj(LoadedTrackerProperties(
      Fields(Get(values, "trackerProperties")), Get(options.settings, "trackerProperties")))]
  }

  /** The lifetime a stored value is shown as: a period name stays, anything else truthy becomes a number of seconds. */
  lemma LoadedLifetime(previous: Object, stored: Option<Value>)
    ensures var lifetime := Prop(stored, "cookieLifetime");
            var form := LoadedTrackerProperties(previous, stored);
            && (IsNamedPeriod(lifetime) ==> Get(form, "cookieLifetime") == lifetime)
            && (Truthy(lifetime) && !IsNamedPeriod(lifetime) ==>
                  Get(form, "cookieLifetime") == Some(Str(SECONDS)) && Get(form, "cookieLifetimeSeconds") == lifetime)
            && (!Truthy(lifetime) ==> Get(form, "cookieLifetime") == Get(previous, "cookieLifetime")
                                      && Get(form, "cookieLifetimeSeconds") == Get(previous, "cookieLifetimeSeconds"))
  {
    var form := LoadedTrackerProperties(previous, stored);
    assert Get(form, "cookieLifetime") == LoadedEntry("cookieLifetime", previous, stored);
    assert Get(form, "cookieLifetimeSeconds") == LoadedEntry("cookieLifetimeSeconds", previous, stored);
  }

  /** What saving demands of the form: seconds, when chosen and given, are text (`trim` is called on them). */
  predicate SecondsAreText(form: Option<Value>)
  {
    Prop(form, "cookieLifetime") == Some(Str(SECONDS)) ==> IsStringOrFalsy(Prop(form, "cookieLifetimeSeconds"))
  }

  /** The lifetime saved from the form, or `None` when the switch writes none. */
  function SavedLifetime(form: Option<Value>): (r: Option<Value>)
    requires SecondsAreText(form)
    ensures r.Some? ==> r.value.Str? && r.value.s != ""
    ensures IsNamedPeriod(Prop(form, "cookieLifetime")) ==> r == Prop(form, "cookieLifetime")
    ensures !IsNamedPeriod(Prop(form, "cookieLifetime")) && Prop(form, "cookieLifetime") != Some(Str(SECONDS)) ==> r == None
  {
    var lifetime := Prop(form, "cookieLifetime");
    var seconds := Prop(form, "cookieLifetimeSeconds");
    if IsNamedPeriod(lifetime) then lifetime
    else if lifetime == Some(Str(SECONDS)) && Truthy(seconds) && |Trim(seconds.value.s)| > 0 then Some(Str(Trim(seconds.value.s)))
    else None
  }

  /** The rule for one saved tracker property: a truthy copied value or a saved lifetime wins over the previous settings. */
  function SavedEntry(k: string, previous: Object, form: Option<Value>): Option<Value>
    requires SecondsAreText(form)
  {
    if k in COPIED && Truthy(Prop(form, k)) then Prop(form, k)
    else if k == "cookieLifetime" && SavedLifetime(form).Some? then SavedLifetime(form)
    else Get(previous, k)
  }

  /** A tracker property once the truthy copied fields of the form are written over `previous`. */
  function CopiedEntry(k: string, previous: Object, form: Option<Value>): Option<Value>
  {
    if k in COPIED && Truthy(Prop(form, k)) then Prop(form, k) else Get(previous, k)
  }

  /** The saved tracker properties. */
  function SavedTrackerProperties(previous: Object, form: Option<Value>): (r: Object)
    requires SecondsAreText(form)
    ensures forall k :: Get(r, k) == SavedEntry(k, previous, form)
  {
    map k | k in previous.Keys + COPIED + {"cookieLifetime"} && SavedEntry(k, previous, form).Some?
      :: SavedEntry(k, previous, form).value
  }

  /** The settings saved from the form: those of the preceding sections with the tracker properties updated. */
  function SavedSettings(settings: Object, values: Object): (r: Object)
    requires SecondsAreText(Get(values, "trackerProperties"))
    ensures forall k :: k != "trackerProperties" ==> Get(r, k) == Get(settings, k)
    ensures Get(r, "trackerProperties") == Some(Obj(SavedTrackerProperties(
              Fields(Get(settings, "trackerProperties")), Get(values, "trackerProperties"))))
  {
    settings["trackerProperties" := Obj(SavedTrackerProperties(
      Fields(Get(settings, "trackerProperties")), Get(values, "trackerProperties")))]
  }

  lemma LifetimeNotCopied()
    ensures "cookieLifetime" !in COPIED
  {
  }

  /** Writing the copied fields and then the lifetime gives the saved tracker properties. */
  lemma SavedInTwoStages(previous: Object, form: Option<Value>, copied: Object, saved: Object)
    requires SecondsAreText(form)
    requires forall k :: Get(copied, k) == CopiedEntry(k, previous, form)
    requires Get(saved, "cookieLifetime") == (if SavedLifetime(form).Some? then SavedLifetime(form) else Get(copied, "cookieLifetime"))
    requires forall k :: k != "cookieLifetime" ==> Get(saved, k) == Get(copied, k)
    ensures saved == SavedTrackerProperties(previous, form)
  {
    assert Get(saved, "cookieLifetime") == SavedEntry("cookieLifetime", previous, form) by {
      LifetimeNotCopied();
      assert Get(copied, "cookieLifetime") == CopiedEntry("cookieLifetime", previous, form);
    }
    forall k ensures Get(saved, k) == SavedEntry(k, previous, form) {
      if k != "cookieLifetime" {
        assert Get(copied, k) == CopiedEntry(k, previous, form);
      }
    }
    SameObject(saved, SavedTrackerProperties(previous, form));
  }

  /** Writes each truthy copied field of the form over the tracker properties, in the order the view does. */
  method WriteCopied(previous: Object, form: Option<Value>) returns (r: Object)
    ensures forall k :: Get(r, k) == CopiedEntry(k, previous, form)
  {
    r := SetIfTruthy(previous, "visitorID", Prop(form, "visitorID"));
    r := SetIfTruthy(r, "visitorNamespace", Prop(form, "visitorNamespace"));
    r := SetIfTruthy(r, "cookieDomainPeriods", Prop(form, "cookieDomainPeriods"));
    r := SetIfTruthy(r, "fpCookieDomainPeriods", Prop(form, "fpCookieDomainPeriods"));
    r := SetIfTruthy(r, "transactionID", Prop(form, "transactionID"));
  }

  /** The switch on the chosen lifetime: a period name is written, a number of seconds is written trimmed unless it is blank. */
  method WriteLifetime(trackerProperties: Object, form: Option<Value>) returns (r: Object)
    requires SecondsAreText(form)
    ensures Get(r, "cookieLifetime") == (if SavedLifetime(form).Some? then SavedLifetime(form) else Get(trackerProperties, "cookieLifetime"))
    ensures forall k :: k != "cookieLifetime" ==> Get(r, k) == Get(trackerProperties, k)
  {
    var cookieLifetime := Prop(form, "cookieLifetime");
    var cookieLifetimeSeconds := Prop(form, "cookieLifetimeSeconds");
    r := trackerProperties;
    if cookieLifetime == Some(Str(NONE)) || cookieLifetime == Some(Str(SESSION)) {
      r := r["cookieLifetime" := cookieLifetime.value];
    } else if cookieLifetime == Some(Str(SECONDS)) {
      if Truthy(cookieLifetimeSeconds) && |Trim(cookieLifetimeSeconds.value.s)| > 0 {
        r := r["cookieLifetime" := Str(Trim(cookieLifetimeSeconds.value.s))];
      }
    }
  }

  /**
   * Saving, as the view does it: copy the tracker properties saved so far,
   * write each truthy field, then the lifetime the switch picks. The form's
   * tracker properties are destructured without a guard, so they must be
   * defined.
   */
  method FormValuesToSettings(settings: Object, values: Object) returns (r: Object)
    requires "trackerProperties" in values
    requires SecondsAreText(Get(values, "trackerProperties"))
    ensures r == SavedSettings(settings, values)
  {
    var form := Get(values, "trackerProperties");
    var previous := Fields(Get(settings, "trackerProperties"));
    var trackerProperties := WriteCopied(previous, form);
    ghost var copied := trackerProperties;
    trackerProperties := WriteLifetime(trackerProperties, form);
    SavedInTwoStages(previous, form, copied, trackerProperties);
    r := settings["trackerProperties" := Obj(trackerProperties)];
  }

  /** A stored period name survives loading and saving. */
  lemma NamedPeriodRoundTrip(values: Object, options: InitOptions, settings: Object)
    requires IsNamedPeriod(Prop(Get(options.settings, "trackerProperties"), "cookieLifetime"))
    ensures var form := SettingsToFormValues(values, options);
            SecondsAreText(Get(form, "trackerProperties")) &&
            Prop(Get(SavedSettings(settings, form), "trackerProperties"), "cookieLifetime")
              == Prop(Get(options.settings, "trackerProperties"), "cookieLifetime")
  {
    var stored := Get(options.settings, "trackerProperties");
    var form := SettingsToFormValues(values, options);
    var previous := Fields(Get(values, "trackerProperties"));
    LoadedLifetime(previous, stored);
    var formTp := LoadedTrackerProperties(previous, stored);
    assert Get(form, "trackerProperties") == Some(Obj(formTp));
    var saved := SavedTrackerProperties(Fields(Get(settings, "trackerProperties")), Some(Obj(formTp)));
    assert Get(saved, "cookieLifetime") == SavedEntry("cookieLifetime", Fields(Get(settings, "trackerProperties")), Some(Obj(formTp)));
  }

  /** A stored number of seconds, written without surrounding white space, survives loading and saving. */
  lemma SecondsRoundTrip(values: Object, options: InitOptions, settings: Object, seconds: string)
    requires Prop(Get(options.settings, "trackerProperties"), "cookieLifetime") == Some(Str(seconds))
    requires seconds != "" && Trim(seconds) == seconds
    requires seconds != NONE && seconds != SESSION
    ensures var form := SettingsToFormValues(values, options);
            SecondsAreText(Get(form, "trackerProperties")) &&
            Prop(Get(SavedSettings(settings, form), "trackerProperties"), "cookieLifetime") == Some(Str(seconds))
  {
    var stored := Get(options.settings, "trackerProperties");
    var form := SettingsToFormValues(values, options);
    var previous := Fields(Get(values, "trackerProperties"));
    LoadedLifetime(previous, stored);
    var formTp := LoadedTrackerProperties(previous, stored);
    assert Get(form, "trackerProperties") == Some(Obj(formTp));
    var saved := SavedTrackerProperties(Fields(Get(settings, "trackerProperties")), Some(Obj(formTp)));
    assert Get(saved, "cookieLifetime") == SavedEntry("cookieLifetime", Fields(Get(settings, "trackerProperties")), Some(Obj(formTp)));
  }

  /** The lifetime a chosen number of seconds saves: none when it is blank, else the seconds trimmed. */
  lemma SecondsLifetime(form: Option<Value>, seconds: string)
    requires Prop(form, "cookieLifetime") == Some(Str(SECONDS))
    requires Prop(form, "cookieLifetimeSeconds") == Some(Str(seconds))
    ensures AllWhiteSpace(seconds) ==> SavedLifetime(form) == None
    ensures !AllWhiteSpace(seconds) ==> SavedLifetime(form) == Some(Str(Trim(seconds)))
  {
  }

  /** A number of seconds is saved without its surrounding white space, and white space alone saves no lifetime. */
  lemma SecondsAreTrimmed(previous: Object, form: Option<Value>, seconds: string)
    requires Prop(form, "cookieLifetime") == Some(Str(SECONDS))
    requires Prop(form, "cookieLifetimeSeconds") == Some(Str(seconds))
    ensures AllWhiteSpace(seconds) ==> Get(SavedTrackerProperties(previous, form), "cookieLifetime") == Get(previous, "cookieLifetime")
    ensures !AllWhiteSpace(seconds) ==> Get(SavedTrackerProperties(previous, form), "cookieLifetime") == Some(Str(Trim(seconds)))
  {
    SecondsLifetime(form, seconds);
    assert Get(SavedTrackerProperties(previous, form), "cookieLifetime") == SavedEntry("cookieLifetime", previous, form);
  }

  /**
   * The lifetime saving leaves, by the chosen mode: NONE and SESSION are saved
   * as themselves, and DEFAULT, no mode or any other mode keeps the lifetime
   * the preceding sections saved.
   */
  lemma LifetimeByMode(previous: Object, form: Option<Value>)
    requires SecondsAreText(form)
    ensures var mode := Prop(form, "cookieLifetime");
            var saved := Get(SavedTrackerProperties(previous, form), "cookieLifetime");
            && (IsNamedPeriod(mode) ==> saved == mode)
            && (!IsNamedPeriod(mode) && mode != Some(Str(SECONDS)) ==> saved == Get(previous, "cookieLifetime"))
  {
    assert Get(SavedTrackerProperties(previous, form), "cookieLifetime") == SavedEntry("cookieLifetime", previous, form);
  }

  /** The default mode saves no lifetime: the one saved before is kept. */
  lemma DefaultKeepsLifetime(previous: Object, form: Option<Value>)
    requires Prop(form, "cookieLifetime") == Some(Str(DEFAULT))
    ensures SecondsAreText(form)
    ensures Get(SavedTrackerProperties(previous, form), "cookieLifetime") == Get(previous, "cookieLifetime")
  {
    LifetimeByMode(previous, form);
  }

  /** Saving writes a truthy copied field of the form and otherwise keeps the previous one. */
  lemma SavedCopied(previous: Object, form: Option<Value>, k: string)
    requires k in COPIED && SecondsAreText(form)
    ensures Get(SavedTrackerProperties(previous, form), k) == if Truthy(Prop(form, k)) then Prop(form, k) else Get(previous, k)
  {
    assert Get(SavedTrackerProperties(previous, form), k) == SavedEntry(k, previous, form);
  }

  /** A truthy stored identifier or period survives loading and saving; a falsy one leaves what the preceding sections saved. */
  lemma CopiedRoundTrip(values: Object, options: InitOptions, settings: Object, k: string)
    requires k in COPIED
    requires SecondsAreText(Get(SettingsToFormValues(values, options), "trackerProperties"))
    ensures var form := SettingsToFormValues(values, options);
            var stored := Get(options.settings, "trackerProperties");
            var saved := Get(SavedSettings(settings, form), "trackerProperties");
            && (Truthy(Prop(stored, k)) ==> Prop(saved, k) == Prop(stored, k))
            && (!Truthy(Prop(stored, k)) ==> Prop(saved, k) == Prop(Get(settings, "trackerProperties"), k))
  {
    var stored := Get(options.settings, "trackerProperties");
    var form := SettingsToFormValues(values, options);
    var formTp := LoadedTrackerProperties(Fields(Get(values, "trackerProperties")), stored);
    assert Get(form, "trackerProperties") == Some(Obj(formTp));
    assert Get(formTp, k) == Prop(stored, k);
    SavedCopied(Fields(Get(settings, "trackerProperties")), Some(Obj(formTp)), k);
  }
}
