/**
 * The custom setup section: code the user provides to configure the tracker
 * further, and whether it runs before or after the other settings are
 * applied. The extension configuration stores the code as `source`; the
 * action views store it as `script`. Both sections are otherwise the same,
 * so the property that holds the code is a parameter here.
 */
module CustomSetup {
  import opened Wrappers
  import opened Js

  const BEFORE_SETTINGS := "beforeSettings"
  const AFTER_SETTINGS := "afterSettings"
  const LOAD_PHASE_DEFAULT := AFTER_SETTINGS

  const LOAD_PHASE := "loadPhase"
  const CUSTOM_SETUP := "customSetup"

  /** The property the extension configuration keeps its code in. */
  const SOURCE := "source"
  /** The property the action views keep their code in. */
  const SCRIPT := "script"

  /** A property that can hold the code: anything but the load phase. */
  predicate CodeKey(codeKey: string)
  {
    codeKey != LOAD_PHASE
  }

  /** The form's custom setup: the stored code, and the stored load phase or by default `afterSettings`. */
  function LoadedCustomSetup(stored: Option<Value>, codeKey: string): (r: Object)
    requires CodeKey(codeKey)
    ensures Get(r, codeKey) == Prop(stored, codeKey)
    ensures Get(r, LOAD_PHASE) == Some(Or(Prop(stored, LOAD_PHASE), Str(LOAD_PHASE_DEFAULT)))
    ensures r.Keys <= {codeKey, LOAD_PHASE}
  {
    Assign(map[LOAD_PHASE := Or(Prop(stored, LOAD_PHASE), Str(LOAD_PHASE_DEFAULT))], codeKey, Prop(stored, codeKey))
  }

  /**
   * Loading: the custom setup read from the stored settings, beside the other
   * form values, which are kept. The extension configuration's section is
   * given the stored settings themselves; the action views' section reads
   * them from `options.settings`, and is applied to those.
   */
  function SettingsToFormValues(values: Object, settings: Object, codeKey: string): (r: Object)
    requires CodeKey(codeKey)
    ensures r.Keys == values.Keys + {CUSTOM_SETUP}
    ensures forall k :: k in values && k != CUSTOM_SETUP ==> r[k] == values[k]
    ensures r[CUSTOM_SETUP] == Obj(LoadedCustomSetup(Get(settings, CUSTOM_SETUP), codeKey))
  {
    values[CUSTOM_SETUP := Obj(LoadedCustomSetup(Get(settings, CUSTOM_SETUP), codeKey))]
  }

  /** A load phase the save writes: given, and not the default. */
  predicate PhaseSaved(loadPhase: Option<Value>)
  {
    Truthy(loadPhase) && loadPhase != Some(Str(LOAD_PHASE_DEFAULT))
  }

  /** The saved custom setup: the code, and the load phase unless it is absent or the default. */
  function SavedCustomSetup(form: Option<Value>, codeKey: string): (r: Object)
    requires CodeKey(codeKey) && Prop(form, codeKey).Some?
    ensures r.Keys <= {codeKey, LOAD_PHASE}
    ensures Get(r, codeKey) == Prop(form, codeKey)
    ensures Get(r, LOAD_PHASE) == if PhaseSaved(Prop(form, LOAD_PHASE)) then Prop(form, LOAD_PHASE) else None
  {
    var code := map[codeKey := Prop(form, codeKey).value];
    if PhaseSaved(Prop(form, LOAD_PHASE)) then code[LOAD_PHASE := Prop(form, LOAD_PHASE).value] else code
  }

  /**
   * The settings saved from the form: with code, the custom setup is
   * replaced and every other setting kept; without code, the settings are
   * returned as they are.
   */
  function SavedSettings(settings: Object, values: Object, codeKey: string): (r: Object)
    requires CodeKey(codeKey)
    ensures !Truthy(Prop(Get(values, CUSTOM_SETUP), codeKey)) ==> r == settings
    ensures Truthy(Prop(Get(values, CUSTOM_SETUP), codeKey)) ==>
              && r.Keys == settings.Keys + {CUSTOM_SETUP}
              && (forall k :: k in settings && k != CUSTOM_SETUP ==> r[k] == settings[k])
              && r[CUSTOM_SETUP] == Obj(SavedCustomSetup(Get(values, CUSTOM_SETUP), codeKey))
  {
    var form := Get(values, CUSTOM_SETUP);
    if Truthy(Prop(form, codeKey)) then settings[CUSTOM_SETUP := Obj(SavedCustomSetup(form, codeKey))] else settings
  }

  /**
   * Saving, as the view does it: with code, build a fresh custom setup,
   * add the load phase when it is not the default, and rebind the settings
   * to a copy holding it. The form's custom setup is destructured without a
   * guard, so it must be defined.
   */
  method FormValuesToSettings(settings: Object, values: Object, codeKey: string) returns (r: Object)
    requires CodeKey(codeKey)
    requires CUSTOM_SETUP in values
    ensures r == SavedSettings(settings, values, codeKey)
  {
    var form := Get(values, CUSTOM_SETUP);
    var code := Prop(form, codeKey);
    var loadPhase := Prop(form, LOAD_PHASE);
    r := settings;
    if Truthy(code) {
      var customSetup := map[codeKey := code.value];
      if Truthy(loadPhase) && loadPhase != Some(Str(LOAD_PHASE_DEFAULT)) {
        customSetup := customSetup[LOAD_PHASE := loadPhase.value];
      }
      r := r[CUSTOM_SETUP := Obj(customSetup)];
    }
  }

  /** The stored custom setup the form saves back unchanged: code, and at most a load phase other than the default. */
  predicate Normal(stored: Object, codeKey: string)
  {
    && stored.Keys <= {codeKey, LOAD_PHASE}
    && Truthy(Get(stored, codeKey))
    && (LOAD_PHASE in stored ==> PhaseSaved(Get(stored, LOAD_PHASE)))
  }

  /**
   * Loading and saving gives back a stored custom setup that has code and
   * whose load phase is absent or `beforeSettings` (or any other non-default
   * phase); a stored `afterSettings` phase is dropped, since it is the default.
   */
  lemma RoundTrip(values: Object, settings: Object, saveTo: Object, stored: Object, codeKey: string)
    requires CodeKey(codeKey)
    requires Get(settings, CUSTOM_SETUP) == Some(Obj(stored))
    requires stored.Keys <= {codeKey, LOAD_PHASE} && Truthy(Get(stored, codeKey))
    ensures var saved := SavedSettings(saveTo, SettingsToFormValues(values, settings, codeKey), codeKey);
            && (Normal(stored, codeKey) ==> Get(saved, CUSTOM_SETUP) == Some(Obj(stored)))
            && (Get(stored, LOAD_PHASE) == Some(Str(LOAD_PHASE_DEFAULT)) ==>
                  Get(saved, CUSTOM_SETUP) == Some(Obj(stored - {LOAD_PHASE})))
  {
    var loaded := LoadedCustomSetup(Some(Obj(stored)), codeKey);
    var form := SettingsToFormValues(values, settings, codeKey);
    assert Get(form, CUSTOM_SETUP) == Some(Obj(loaded));
    var saved := SavedCustomSetup(Some(Obj(loaded)), codeKey);
    if Normal(stored, codeKey) {
      SameObject(saved, stored);
    }
    if Get(stored, LOAD_PHASE) == Some(Str(LOAD_PHASE_DEFAULT)) {
      SameObject(saved, stored - {LOAD_PHASE});
    }
  }
}
