/**
 * The variables section shared by the extension configuration and the
 * set-variables action: the page-level tracker properties (page name, URL,
 * server, channel, referrer, campaign, transaction ID, state, ZIP code and
 * the dynamic variable prefix) as stored under `trackerProperties`, and the
 * error summary that marks the section when its eVar or prop editors have
 * errors.
 *
 * The eVar, prop, event and hierarchy editors this section is merged with
 * are not part of this model; only the section's own transforms are.
 */
module Variables {
  import opened Wrappers
  import opened Js

  const DYNAMIC_VARIABLE_PREFIX_DEFAULT := "D="

  const DYNAMIC_VARIABLE_PREFIX := "dynamicVariablePrefix"
  const CAMPAIGN := "campaign"
  const COMPONENTS_WITH_ERRORS := "componentsWithErrors"

  /** The properties copied as they are on loading and saved when truthy. */
  const PLAIN: set<string> := {
    "pageName", "pageURL", "server", "channel", "referrer", "transactionID", "state", "zip"
  }

  /** The campaign as the form shows it: a type (by default `value`) and a value (by default empty). */
  function LoadedCampaign(campaign: Option<Value>): (r: Object)
    ensures r.Keys == {"type", "value"}
    ensures r["type"] == Or(Prop(campaign, "type"), Str("value"))
    ensures r["value"] == Or(Prop(campaign, "value"), Str(""))
  {
    map["type" := Or(Prop(campaign, "type"), Str("value")), "value" := Or(Prop(campaign, "value"), Str(""))]
  }

  /** The rule for one property of the form's tracker properties. */
  function LoadedEntry(k: string, previous: Object, stored: Option<Value>): Option<Value>
  {
    if k == DYNAMIC_VARIABLE_PREFIX then Some(Or(Prop(stored, k), Str(DYNAMIC_VARIABLE_PREFIX_DEFAULT)))
    else if k == CAMPAIGN then Some(Obj(LoadedCampaign(Prop(stored, k))))
    else if k in PLAIN then Prop(stored, k)
    else Get(previous, k)
  }

  /**
   * The form's tracker properties: the previous form values, then the
   * stored properties, with the prefix and the campaign defaulted.
   */
  function LoadedTrackerProperties(previous: Object, stored: Option<Value>): (r: Object)
    ensures forall k :: Get(r, k) == LoadedEntry(k, previous, stored)
  {
    map k | k in previous.Keys + PLAIN + {DYNAMIC_VARIABLE_PREFIX, CAMPAIGN} && LoadedEntry(k, previous, stored).Some?
      :: LoadedEntry(k, previous, stored).value
  }

  /**
   * Loading. This section reads `trackerProperties` from its second argument
   * itself (not from an `options.settings` inside it); the other form values
   * are kept.
   */
  function SettingsToFormValues(values: Object, settings: Object): (r: Object)
    ensures r.Keys == values.Keys + {"trackerProperties"}
    ensures forall k :: k in values && k != "trackerProperties" ==> r[k] == values[k]
    ensures r["trackerProperties"] == Obj(LoadedTrackerProperties(
              Fields(Get(values, "trackerProperties")), Get(settings, "trackerProperties")))
  {
    values["trackerProperties" := Obj(LoadedTrackerProperties(
      Fields(Get(values, "trackerProperties")), Get(settings, "trackerProperties")))]
  }

  /** An absent or empty prefix loads as the default, and a missing campaign as an empty `value` campaign. */
  lemma LoadDefaults(previous: Object, stored: Option<Value>)
    ensures var form := LoadedTrackerProperties(previous, stored);
            && (!Truthy(Prop(stored, DYNAMIC_VARIABLE_PREFIX)) ==>
                  Get(form, DYNAMIC_VARIABLE_PREFIX) == Some(Str(DYNAMIC_VARIABLE_PREFIX_DEFAULT)))
            && (!Truthy(Prop(stored, CAMPAIGN)) ==>
                  Get(form, CAMPAIGN) == Some(Obj(map["type" := Str("value"), "value" := Str("")])))
  {
    var form := LoadedTrackerProperties(previous, stored);
    assert Get(form, DYNAMIC_VARIABLE_PREFIX) == LoadedEntry(DYNAMIC_VARIABLE_PREFIX, previous, stored);
    assert Get(form, CAMPAIGN) == LoadedEntry(CAMPAIGN, previous, stored);
    if !Truthy(Prop(stored, CAMPAIGN)) {
      assert Prop(Prop(stored, CAMPAIGN), "type") == None;
      assert LoadedCampaign(Prop(stored, CAMPAIGN)) == map["type" := Str("value"), "value" := Str("")];
    }
  }

  /** A prefix the switch writes: given, and not the default. */
  predicate PrefixSaved(prefix: Option<Value>)
  {
    Truthy(prefix) && prefix != Some(Str(DYNAMIC_VARIABLE_PREFIX_DEFAULT))
  }

  /** The campaign saved from the form: its type (when it has one) and its value. */
  function SavedCampaign(campaign: Option<Value>): (r: Object)
    ensures Get(r, "value") == Prop(campaign, "value")
    ensures Get(r, "type") == Prop(campaign, "type")
    ensures r.Keys <= {"type", "value"}
  {
    Assign(Assign(map[], "type", Prop(campaign, "type")), "value", Prop(campaign, "value"))
  }

  /** The rule for one saved tracker property: a truthy field of the form wins over the previous settings. */
  function SavedEntry(k: string, previous: Object, form: Option<Value>): Option<Value>
  {
    var campaign := Prop(form, CAMPAIGN);
    if k in PLAIN && Truthy(Prop(form, k)) then Prop(form, k)
    else if k == DYNAMIC_VARIABLE_PREFIX && PrefixSaved(Prop(form, k)) then Prop(form, k)
    else if k == CAMPAIGN && Truthy(Prop(campaign, "value")) then Some(Obj(SavedCampaign(campaign)))
    else Get(previous, k)
  }

  /** The saved tracker properties. */
  function SavedTrackerProperties(previous: Object, form: Option<Value>): (r: Object)
    ensures forall k :: Get(r, k) == SavedEntry(k, previous, form)
  {
    map k | k in previous.Keys + PLAIN + {DYNAMIC_VARIABLE_PREFIX, CAMPAIGN} && SavedEntry(k, previous, form).Some?
      :: SavedEntry(k, previous, form).value
  }

  /** The settings saved from the form: those of the preceding sections with the tracker properties updated. */
  function SavedSettings(settings: Object, values: Object): (r: Object)
    ensures forall k :: k != "trackerProperties" ==> Get(r, k) == Get(settings, k)
    ensures Get(r, "trackerProperties") == Some(Obj(SavedTrackerProperties(
              Fields(Get(settings, "trackerProperties")), Get(values, "trackerProperties"))))
  {
    settings["trackerProperties" := Obj(SavedTrackerProperties(
      Fields(Get(settings, "trackerProperties")), Get(values, "trackerProperties")))]
  }

  /** A tracker property once the fields among `keys` are saved over `previous`. */
  function SavedSoFar(k: string, previous: Object, form: Option<Value>, keys: set<string>): Option<Value>
  {
    if k in keys then SavedEntry(k, previous, form) else Get(previous, k)
  }

  /** Writing a truthy plain field saves that field. */
  lemma PlainWritten(o: Object, previous: Object, form: Option<Value>, keys: set<string>, key: string)
    requires forall k :: Get(o, k) == SavedSoFar(k, previous, form, keys)
    requires key in PLAIN
    ensures forall k :: Get(SetIfTruthy(o, key, Prop(form, key)), k) == SavedSoFar(k, previous, form, keys + {key})
  {
  }

  /** `if (prefix && prefix !== 'D=') o.dynamicVariablePrefix = prefix`. */
  function WritePrefix(o: Object, prefix: Option<Value>): (r: Object)
    ensures forall k :: Get(r, k) == if k == DYNAMIC_VARIABLE_PREFIX && PrefixSaved(prefix) then prefix else Get(o, k)
  {
    if Truthy(prefix) && prefix != Some(Str(DYNAMIC_VARIABLE_PREFIX_DEFAULT)) then o[DYNAMIC_VARIABLE_PREFIX := prefix.value] else o
  }

  /** `if (campaign && campaign.value) o.campaign = {type: campaign.type, value: campaign.value}`. */
  function WriteCampaign(o: Object, campaign: Option<Value>): (r: Object)
    ensures forall k :: Get(r, k) ==
              if k == CAMPAIGN && Truthy(Prop(campaign, "value")) then Some(Obj(SavedCampaign(campaign))) else Get(o, k)
  {
    if Truthy(campaign) && Truthy(Prop(campaign, "value")) then o[CAMPAIGN := Obj(SavedCampaign(campaign))] else o
  }

  /** Writing the prefix saves it. */
  lemma PrefixWritten(o: Object, previous: Object, form: Option<Value>, keys: set<string>)
    requires forall k :: Get(o, k) == SavedSoFar(k, previous, form, keys)
    ensures forall k :: Get(WritePrefix(o, Prop(form, DYNAMIC_VARIABLE_PREFIX)), k)
              == SavedSoFar(k, previous, form, keys + {DYNAMIC_VARIABLE_PREFIX})
  {
  }

  /** Writing the campaign saves it. */
  lemma CampaignWritten(o: Object, previous: Object, form: Option<Value>, keys: set<string>)
    requires forall k :: Get(o, k) == SavedSoFar(k, previous, form, keys)
    ensures forall k :: Get(WriteCampaign(o, Prop(form, CAMPAIGN)), k) == SavedSoFar(k, previous, form, keys + {CAMPAIGN})
  {
  }

  /** Once every field is written, the result is the saved tracker properties. */
  lemma AllWritten(o: Object, previous: Object, form: Option<Value>, keys: set<string>)
    requires forall k :: Get(o, k) == SavedSoFar(k, previous, form, keys)
    requires PLAIN + {DYNAMIC_VARIABLE_PREFIX, CAMPAIGN} <= keys
    ensures o == SavedTrackerProperties(previous, form)
  {
    forall k ensures Get(o, k) == SavedEntry(k, previous, form) {
      assert Get(o, k) == SavedSoFar(k, previous, form, keys);
    }
    SameObject(o, SavedTrackerProperties(previous, form));
  }

  /**
   * Saving, as the view does it: copy the tracker properties saved so far and
   * write each field the form gives, in the order the view writes them. The
   * form's tracker properties are destructured without a guard, so they must
   * be defined.
   */
  method FormValuesToSettings(settings: Object, values: Object) returns (r: Object)
    requires "trackerProperties" in values
    ensures r == SavedSettings(settings, values)
  {
    var form := Get(values, "trackerProperties");
    var previous := Fields(Get(settings, "trackerProperties"));
    var trackerProperties := previous;
    ghost var keys: set<string> := {};
    PlainWritten(trackerProperties, previous, form, keys, "pageName");
    trackerProperties := SetIfTruthy(trackerProperties, "pageName", Prop(form, "pageName"));
    keys := keys + {"pageName"};
    PlainWritten(trackerProperties, previous, form, keys, "pageURL");
    trackerProperties := SetIfTruthy(trackerProperties, "pageURL", Prop(form, "pageURL"));
    keys := keys + {"pageURL"};
    PlainWritten(trackerProperties, previous, form, keys, "channel");
    trackerProperties := SetIfTruthy(trackerProperties, "channel", Prop(form, "channel"));
    keys := keys + {"channel"};
    PlainWritten(trackerProperties, previous, form, keys, "server");
    trackerProperties := SetIfTruthy(trackerProperties, "server", Prop(form, "server"));
    keys := keys + {"server"};
    PrefixWritten(trackerProperties, previous, form, keys);
    trackerProperties := WritePrefix(trackerProperties, Prop(form, DYNAMIC_VARIABLE_PREFIX));
    keys := keys + {DYNAMIC_VARIABLE_PREFIX};
    PlainWritten(trackerProperties, previous, form, keys, "referrer");
    trackerProperties := SetIfTruthy(trackerProperties, "referrer", Prop(form, "referrer"));
    keys := keys + {"referrer"};
    CampaignWritten(trackerProperties, previous, form, keys);
    trackerProperties := WriteCampaign(trackerProperties, Prop(form, CAMPAIGN));
    keys := keys + {CAMPAIGN};
    PlainWritten(trackerProperties, previous, form, keys, "transactionID");
    trackerProperties := SetIfTruthy(trackerProperties, "transactionID", Prop(form, "transactionID"));
    keys := keys + {"transactionID"};
    PlainWritten(trackerProperties, previous, form, keys, "state");
    trackerProperties := SetIfTruthy(trackerProperties, "state", Prop(form, "state"));
    keys := keys + {"state"};
    PlainWritten(trackerProperties, previous, form, keys, "zip");
    trackerProperties := SetIfTruthy(trackerProperties, "zip", Prop(form, "zip"));
    keys := keys + {"zip"};
    AllWritten(trackerProperties, previous, form, keys);
    r := settings["trackerProperties" := Obj(trackerProperties)];
  }

  /** A plain field loads as it is stored. */
  lemma LoadedPlain(previous: Object, stored: Option<Value>, k: string)
    requires k in PLAIN
    ensures Get(LoadedTrackerProperties(previous, stored), k) == Prop(stored, k)
  {
    assert Get(LoadedTrackerProperties(previous, stored), k) == LoadedEntry(k, previous, stored);
  }

  /** A plain field is saved when truthy and otherwise left as the previous settings have it. */
  lemma SavedPlain(previous: Object, form: Option<Value>, k: string)
    requires k in PLAIN
    ensures Get(SavedTrackerProperties(previous, form), k) == if Truthy(Prop(form, k)) then Prop(form, k) else Get(previous, k)
  {
    assert Get(SavedTrackerProperties(previous, form), k) == SavedEntry(k, previous, form);
  }

  /** The form's tracker properties, as loading builds them. */
  lemma LoadedForm(values: Object, settings: Object)
    ensures Get(SettingsToFormValues(values, settings), "trackerProperties")
              == Some(Obj(LoadedTrackerProperties(Fields(Get(values, "trackerProperties")), Get(settings, "trackerProperties"))))
  {
  }

  /** A truthy stored field survives loading and saving; a falsy one leaves what the preceding sections saved. */
  lemma PlainRoundTrip(values: Object, settings: Object, saveTo: Object, k: string)
    requires k in PLAIN
    ensures var stored := Get(settings, "trackerProperties");
            var saved := Get(SavedSettings(saveTo, SettingsToFormValues(values, settings)), "trackerProperties");
            && (Truthy(Prop(stored, k)) ==> Prop(saved, k) == Prop(stored, k))
            && (!Truthy(Prop(stored, k)) ==> Prop(saved, k) == Prop(Get(saveTo, "trackerProperties"), k))
  {
    var stored := Get(settings, "trackerProperties");
    var formTp := LoadedTrackerProperties(Fields(Get(values, "trackerProperties")), stored);
    LoadedForm(values, settings);
    LoadedPlain(Fields(Get(values, "trackerProperties")), stored, k);
    SavedPlain(Fields(Get(saveTo, "trackerProperties")), Some(Obj(formTp)), k);
  }

  /**
   * A prefix other than the default survives loading and saving; an absent
   * one, or the default itself, is not saved, so the default is never stored.
   */
  lemma PrefixRoundTrip(values: Object, settings: Object, saveTo: Object)
    ensures var stored := Prop(Get(settings, "trackerProperties"), DYNAMIC_VARIABLE_PREFIX);
            var saved := Get(SavedSettings(saveTo, SettingsToFormValues(values, settings)), "trackerProperties");
            && (PrefixSaved(stored) ==> Prop(saved, DYNAMIC_VARIABLE_PREFIX) == stored)
            && (!PrefixSaved(stored) ==>
                  Prop(saved, DYNAMIC_VARIABLE_PREFIX) == Prop(Get(saveTo, "trackerProperties"), DYNAMIC_VARIABLE_PREFIX))
  {
    var stored := Get(settings, "trackerProperties");
    var formTp := LoadedTrackerProperties(Fields(Get(values, "trackerProperties")), stored);
    LoadedForm(values, settings);
    assert Get(formTp, DYNAMIC_VARIABLE_PREFIX) == Some(Or(Prop(stored, DYNAMIC_VARIABLE_PREFIX), Str(DYNAMIC_VARIABLE_PREFIX_DEFAULT))) by {
      assert Get(formTp, DYNAMIC_VARIABLE_PREFIX) == LoadedEntry(DYNAMIC_VARIABLE_PREFIX, Fields(Get(values, "trackerProperties")), stored);
    }
    SavedPrefix(Fields(Get(saveTo, "trackerProperties")), Some(Obj(formTp)));
  }

  /** The prefix is saved when it is not the default and otherwise left as the previous settings have it. */
  lemma SavedPrefix(previous: Object, form: Option<Value>)
    ensures Get(SavedTrackerProperties(previous, form), DYNAMIC_VARIABLE_PREFIX)
              == if PrefixSaved(Prop(form, DYNAMIC_VARIABLE_PREFIX)) then Prop(form, DYNAMIC_VARIABLE_PREFIX) else Get(previous, DYNAMIC_VARIABLE_PREFIX)
  {
    assert Get(SavedTrackerProperties(previous, form), DYNAMIC_VARIABLE_PREFIX)
      == SavedEntry(DYNAMIC_VARIABLE_PREFIX, previous, form);
  }

  /** Saving the campaign the form shows gives that campaign back. */
  lemma LoadedCampaignSaves(campaign: Option<Value>)
    ensures SavedCampaign(Some(Obj(LoadedCampaign(campaign)))) == LoadedCampaign(campaign)
  {
    SameObject(SavedCampaign(Some(Obj(LoadedCampaign(campaign)))), LoadedCampaign(campaign));
  }

  /** The campaign is saved when it has a value and otherwise left as the previous settings have it. */
  lemma SavedCampaignEntry(previous: Object, form: Option<Value>)
    ensures var campaign := Prop(form, CAMPAIGN);
            Get(SavedTrackerProperties(previous, form), CAMPAIGN)
              == if Truthy(Prop(campaign, "value")) then Some(Obj(SavedCampaign(campaign))) else Get(previous, CAMPAIGN)
  {
    assert Get(SavedTrackerProperties(previous, form), CAMPAIGN) == SavedEntry(CAMPAIGN, previous, form);
  }

  /**
   * A campaign with a value survives loading and saving, its type defaulted
   * to `value`; one without a value leaves what the preceding sections saved.
   */
  lemma CampaignRoundTrip(values: Object, settings: Object, saveTo: Object)
    ensures var stored := Prop(Get(settings, "trackerProperties"), CAMPAIGN);
            var saved := Get(SavedSettings(saveTo, SettingsToFormValues(values, settings)), "trackerProperties");
            && (Truthy(Prop(stored, "value")) ==> Prop(saved, CAMPAIGN) == Some(Obj(LoadedCampaign(stored))))
            && (!Truthy(Prop(stored, "value")) ==> Prop(saved, CAMPAIGN) == Prop(Get(saveTo, "trackerProperties"), CAMPAIGN))
  {
    var stored := Get(settings, "trackerProperties");
    var previous := Fields(Get(values, "trackerProperties"));
    var formTp := LoadedTrackerProperties(previous, stored);
    LoadedForm(values, settings);
    assert Get(formTp, CAMPAIGN) == LoadedEntry(CAMPAIGN, previous, stored);
    LoadedCampaignSaves(Prop(stored, CAMPAIGN));
    SavedCampaignEntry(Fields(Get(saveTo, "trackerProperties")), Some(Obj(formTp)));
  }

  /** Stored tracker properties that give every field of this section, in the shape the form saves, and nothing else. */
  predicate FullyPopulated(stored: Object)
  {
    && stored.Keys == PLAIN + {DYNAMIC_VARIABLE_PREFIX, CAMPAIGN}
    && (forall k :: k in PLAIN ==> Truthy(Get(stored, k)))
    && PrefixSaved(Get(stored, DYNAMIC_VARIABLE_PREFIX))
    && stored[CAMPAIGN].Obj?
    && stored[CAMPAIGN].fields.Keys == {"type", "value"}
    && Truthy(Get(stored[CAMPAIGN].fields, "type"))
    && Truthy(Get(stored[CAMPAIGN].fields, "value"))
  }

  /** The tracker properties saved from the form loaded from `settings`. */
  function SavedFromLoaded(values: Object, settings: Object, saveTo: Object): Object
  {
    Fields(Get(SavedSettings(saveTo, SettingsToFormValues(values, settings)), "trackerProperties"))
  }

  /** Tracker properties with every field given load into the form and save back as they were. */
  lemma FullRoundTrip(values: Object, settings: Object, saveTo: Object, stored: Object)
    requires Get(settings, "trackerProperties") == Some(Obj(stored))
    requires FullyPopulated(stored)
    requires "trackerProperties" !in saveTo
    ensures Get(SavedSettings(saveTo, SettingsToFormValues(values, settings)), "trackerProperties") == Some(Obj(stored))
  {
    var saved := SavedFromLoaded(values, settings, saveTo);
    forall k ensures Get(saved, k) == Get(stored, k) {
      FullFieldRoundTrip(values, settings, saveTo, stored, k);
    }
    SameObject(saved, stored);
  }

  lemma FullFieldRoundTrip(values: Object, settings: Object, saveTo: Object, stored: Object, k: string)
    requires Get(settings, "trackerProperties") == Some(Obj(stored))
    requires FullyPopulated(stored)
    requires "trackerProperties" !in saveTo
    ensures Get(SavedFromLoaded(values, settings, saveTo), k) == Get(stored, k)
  {
    if k in PLAIN {
      PlainRoundTrip(values, settings, saveTo, k);
    } else if k == DYNAMIC_VARIABLE_PREFIX {
      PrefixRoundTrip(values, settings, saveTo);
    } else if k == CAMPAIGN {
      FullCampaignRoundTrip(values, settings, saveTo, stored);
    } else {
      OtherFieldNotSaved(values, settings, saveTo, k);
    }
  }

  lemma FullCampaignRoundTrip(values: Object, settings: Object, saveTo: Object, stored: Object)
    requires Get(settings, "trackerProperties") == Some(Obj(stored))
    requires FullyPopulated(stored)
    ensures Get(SavedFromLoaded(values, settings, saveTo), CAMPAIGN) == Get(stored, CAMPAIGN)
  {
    CampaignRoundTrip(values, settings, saveTo);
    var campaign := stored[CAMPAIGN];
    assert campaign.Obj? && campaign.fields.Keys == {"type", "value"};
    assert Truthy(Get(campaign.fields, "value")) && Truthy(Get(campaign.fields, "type"));
    SameObject(campaign.fields, LoadedCampaign(Some(campaign)));
  }

  /** No field outside this section is saved into fresh settings. */
  lemma OtherFieldNotSaved(values: Object, settings: Object, saveTo: Object, k: string)
    requires "trackerProperties" !in saveTo
    requires k !in PLAIN && k != DYNAMIC_VARIABLE_PREFIX && k != CAMPAIGN
    ensures Get(SavedFromLoaded(values, settings, saveTo), k) == None
  {
    var form := Get(SettingsToFormValues(values, settings), "trackerProperties");
    assert Get(SavedTrackerProperties(map[], form), k) == SavedEntry(k, map[], form);
  }

  /** The names of the editors whose errors mark this section; an enumeration not part of this model. */
  datatype ComponentNames = ComponentNames(evars: string, props: string, variables: string)

  /** The components marked as having errors, as the error object lists them. */
  function ListedComponents(v: Option<Value>): (r: seq<Value>)
    ensures Truthy(v) && v.value.List? ==> r == v.value.items
    ensures !Truthy(v) ==> r == []
  {
    if Truthy(v) && v.value.List? then v.value.items else []
  }

  /**
   * Validation: a copy of the listed components, with this section appended
   * when the eVar or the prop editor is listed, beside the other errors. A
   * listing that is there is taken to be an array.
   */
  method Validate(errors: Object, names: ComponentNames) returns (r: Object)
    requires Truthy(Get(errors, COMPONENTS_WITH_ERRORS)) ==> errors[COMPONENTS_WITH_ERRORS].List?
    ensures r.Keys == errors.Keys + {COMPONENTS_WITH_ERRORS}
    ensures forall k :: k in errors && k != COMPONENTS_WITH_ERRORS ==> r[k] == errors[k]
    ensures r[COMPONENTS_WITH_ERRORS].List?
    ensures var before := ListedComponents(Get(errors, COMPONENTS_WITH_ERRORS));
            var after := r[COMPONENTS_WITH_ERRORS].items;
            && |before| <= |after| <= |before| + 1
            && after[..|before|] == before
            && (|after| == |before| + 1 <==> Str(names.evars) in before || Str(names.props) in before)
            && (|after| == |before| + 1 ==> after[|before|] == Str(names.variables))
  {
    var componentsWithErrors := if Truthy(Get(errors, COMPONENTS_WITH_ERRORS)) then errors[COMPONENTS_WITH_ERRORS].items else [];
    if Str(names.evars) in componentsWithErrors || Str(names.props) in componentsWithErrors {
      componentsWithErrors := componentsWithErrors + [Str(names.variables)];
    }
    r := errors[COMPONENTS_WITH_ERRORS := List(componentsWithErrors)];
  }

  /** After validation this section is listed iff it was listed already or its eVar or prop editor is. */
  lemma VariablesListedIff(before: seq<Value>, after: seq<Value>, names: ComponentNames)
    requires |before| <= |after| <= |before| + 1 && after[..|before|] == before
    requires |after| == |before| + 1 <==> Str(names.evars) in before || Str(names.props) in before
    requires |after| == |before| + 1 ==> after[|before|] == Str(names.variables)
    ensures Str(names.variables) in after <==>
              Str(names.variables) in before || Str(names.evars) in before || Str(names.props) in before
  {
    if |after| == |before| + 1 {
      assert after == before + [Str(names.variables)];
    } else {
      assert after == before;
    }
  }
}
