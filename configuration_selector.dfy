/**
 * The configuration selector of the action views: an action applies either
 * to all configurations of the extension or to a chosen subset of them,
 * identified by their IDs under `extensionConfigurationIds`.
 */
module ConfigurationSelector {
  import opened Wrappers
  import opened Js
  import opened Bridge

  const ALL := "all"
  const SUBSET := "subset"

  const SELECTION_TYPE := "extensionConfigurationSelectionType"
  const IDS := "extensionConfigurationIds"

  const NO_CONFIGURATION_SELECTED := "Please select at least one configuration"

  /** What the selector shows for the configurations available. */
  datatype Display =
    | Warning                                           // no configuration yet: setting variables has no effect
    | Nothing                                           // a single configuration: there is nothing to choose
    | Selector(options: seq<ExtensionConfiguration>)    // a choice between all and a subset of these

  /** The selector's display: a warning for none, nothing for one, and the choice for two or more, offering each in order. */
  function Shown(available: seq<ExtensionConfiguration>): (d: Display)
    ensures d == Warning <==> |available| == 0
    ensures d == Nothing <==> |available| == 1
    ensures d.Selector? <==> |available| >= 2
    ensures d.Selector? ==> d.options == available
  {
    if |available| == 0 then Warning
    else if |available| == 1 then Nothing
    else Selector(available)
  }

  /** Whether some available configuration has this ID. */
  predicate IsAvailable(id: Value, available: seq<ExtensionConfiguration>)
  {
    exists c :: c in available && Str(c.id) == id
  }

  /** `ids.filter(id => available.some(c => c.id === id))`. */
  function KeptIds(ids: seq<Value>, available: seq<ExtensionConfiguration>): (r: seq<Value>)
    ensures |r| <= |ids|
    ensures forall id :: id in r <==> id in ids && IsAvailable(id, available)
  {
    if ids == [] then []
    else if IsAvailable(ids[0], available) then [ids[0]] + KeptIds(ids[1..], available)
    else KeptIds(ids[1..], available)
  }

  /** `a` is `b` with some elements left out, the rest in their order. */
  ghost predicate Subsequence(a: seq<Value>, b: seq<Value>)
    decreases |b|
  {
    if a == [] then true
    else if b == [] then false
    else (a[0] == b[0] && Subsequence(a[1..], b[1..])) || Subsequence(a, b[1..])
  }

  /** The kept IDs keep the stored order. */
  lemma {:induction false} KeptIdsSubsequence(ids: seq<Value>, available: seq<ExtensionConfiguration>)
    ensures Subsequence(KeptIds(ids, available), ids)
    decreases |ids|
  {
    if ids != [] {
      KeptIdsSubsequence(ids[1..], available);
      var rest := KeptIds(ids[1..], available);
      if IsAvailable(ids[0], available) {
        assert ([ids[0]] + rest)[1..] == rest;
      }
    }
  }

  /** The filter keeps every copy of an available ID and none of the others, so duplicates are not collapsed. */
  lemma {:induction false} KeptIdsCount(ids: seq<Value>, available: seq<ExtensionConfiguration>, id: Value)
    ensures multiset(KeptIds(ids, available))[id] == if IsAvailable(id, available) then multiset(ids)[id] else 0
    decreases |ids|
  {
    if ids != [] {
      KeptIdsCount(ids[1..], available, id);
      assert ids == [ids[0]] + ids[1..];
    }
  }

  /** Stored IDs: an array when given, and `[]` when undefined. */
  predicate IdsAreList(settings: Object)
  {
    IDS in settings ==> settings[IDS].List?
  }

  function StoredIds(settings: Object): seq<Value>
    requires IdsAreList(settings)
  {
    if IDS in settings then settings[IDS].items else []
  }

  /**
   * Loading: the stored IDs of configurations still available, in their
   * order, and the selection type: a subset iff any remain, else all. The
   * other form values are kept.
   */
  function SettingsToFormValues(values: Object, options: InitOptions): (r: Object)
    requires IdsAreList(options.settings)
    ensures r.Keys == values.Keys + {SELECTION_TYPE, IDS}
    ensures forall k :: k in values && k != SELECTION_TYPE && k != IDS ==> r[k] == values[k]
    ensures r[IDS] == List(KeptIds(StoredIds(options.settings), options.extensionConfigurations))
    ensures r[SELECTION_TYPE] == Str(SUBSET) <==> KeptIds(StoredIds(options.settings), options.extensionConfigurations) != []
    ensures r[SELECTION_TYPE] == Str(SUBSET) || r[SELECTION_TYPE] == Str(ALL)
  {
    var ids := KeptIds(StoredIds(options.settings), options.extensionConfigurations);
    values[SELECTION_TYPE := Str(if |ids| > 0 then SUBSET else ALL)][IDS := List(ids)]
  }

  /** Saving: for a subset the IDs are written over the settings (undefined IDs leave none); for all the settings are returned as they are. */
  function FormValuesToSettings(settings: Object, values: Object): (r: Object)
    ensures Get(values, SELECTION_TYPE) != Some(Str(SUBSET)) ==> r == settings
    ensures Get(values, SELECTION_TYPE) == Some(Str(SUBSET)) ==>
              Get(r, IDS) == Get(values, IDS) && forall k :: k != IDS ==> Get(r, k) == Get(settings, k)
  {
    if Get(values, SELECTION_TYPE) == Some(Str(SUBSET)) then Assign(settings, IDS, Get(values, IDS)) else settings
  }

  /** Validation reads the IDs' length for a subset, so they must be defined then. */
  predicate IdsDefinedForSubset(values: Object)
  {
    Get(values, SELECTION_TYPE) == Some(Str(SUBSET)) ==> IDS in values
  }

  /** Validation: an error on the IDs iff a subset is chosen with none; the other errors are kept. */
  function Validate(errors: Object, values: Object): (r: Object)
    requires IdsDefinedForSubset(values)
    ensures var missing := Get(values, SELECTION_TYPE) == Some(Str(SUBSET)) && LengthFalsy(values[IDS]);
            && (missing ==> r == errors[IDS := Str(NO_CONFIGURATION_SELECTED)])
            && (!missing ==> r == errors)
  {
    if Get(values, SELECTION_TYPE) == Some(Str(SUBSET)) && LengthFalsy(values[IDS]) then
      errors[IDS := Str(NO_CONFIGURATION_SELECTED)]
    else errors
  }

  /** A freshly loaded form passes validation: a subset is only chosen when some IDs remain. */
  lemma LoadedFormValid(errors: Object, values: Object, options: InitOptions)
    requires IdsAreList(options.settings)
    ensures IdsDefinedForSubset(SettingsToFormValues(values, options))
    ensures Validate(errors, SettingsToFormValues(values, options)) == errors
  {
  }

  /**
   * Loading and saving keeps the stored IDs of available configurations in
   * their order; when none is available any more the settings are saved as
   * they were, unavailable IDs included.
   */
  lemma RoundTrip(values: Object, options: InitOptions, saveTo: Object)
    requires IdsAreList(options.settings)
    ensures var kept := KeptIds(StoredIds(options.settings), options.extensionConfigurations);
            var saved := FormValuesToSettings(saveTo, SettingsToFormValues(values, options));
            && (kept != [] ==> Get(saved, IDS) == Some(List(kept)))
            && (kept == [] ==> saved == saveTo)
  {
  }

  /** Stored IDs that are all available load and save back unchanged. */
  lemma AvailableIdsRoundTrip(values: Object, options: InitOptions)
    requires IdsAreList(options.settings) && IDS in options.settings
    requires StoredIds(options.settings) != []
    requires forall id :: id in StoredIds(options.settings) ==> IsAvailable(id, options.extensionConfigurations)
    ensures Get(FormValuesToSettings(options.settings, SettingsToFormValues(values, options)), IDS) == Get(options.settings, IDS)
  {
    AllKept(StoredIds(options.settings), options.extensionConfigurations);
  }

  /** Filtering IDs that are all available keeps them all. */
  lemma {:induction false} AllKept(ids: seq<Value>, available: seq<ExtensionConfiguration>)
    requires forall id :: id in ids ==> IsAvailable(id, available)
    ensures KeptIds(ids, available) == ids
    decreases |ids|
  {
    if ids != [] {
      assert IsAvailable(ids[0], available) by {
        assert ids[0] in ids;
      }
      assert forall id :: id in ids[1..] ==> IsAvailable(id, available) by {
        forall id | id in ids[1..] ensures IsAvailable(id, available) {
          assert id in ids;
        }
      }
      AllKept(ids[1..], available);
      assert KeptIds(ids, available) == [ids[0]] + ids[1..];
    }
  }
}
