/**
 * The send-beacon action: whether the beacon counts as a page view
 * (`s.t()`) or not (`s.tl()`), and for the latter the kind of link and its
 * name. The action's settings are flat: `type`, `linkType` and `linkName`.
 */
module SendBeacon {
  import opened Wrappers
  import opened Js

  const PAGE := "page"
  const LINK := "link"

  const CUSTOM_LINK := "o"
  const DOWNLOAD_LINK := "d"
  const EXIT_LINK := "e"

  const TYPE := "type"
  const LINK_TYPE := "linkType"
  const LINK_NAME := "linkName"

  /** The label of the link name field: it names a file for downloads and a destination for exits. */
  method LinkNameLabel(linkType: Option<Value>) returns (linkNameLabel: string)
    ensures linkType == Some(Str(DOWNLOAD_LINK)) ==> linkNameLabel == "File Name"
    ensures linkType == Some(Str(EXIT_LINK)) ==> linkNameLabel == "Destination URL"
    ensures linkType != Some(Str(DOWNLOAD_LINK)) && linkType != Some(Str(EXIT_LINK)) ==> linkNameLabel == "Link Name"
  {
    if linkType == Some(Str(DOWNLOAD_LINK)) {
      linkNameLabel := "File Name";
    } else if linkType == Some(Str(EXIT_LINK)) {
      linkNameLabel := "Destination URL";
    } else {
      linkNameLabel := "Link Name";
    }
  }

  /** Loading: the type (by default a page view), the link type (by default a custom link) and the link name, over the other form values. */
  function SettingsToFormValues(values: Object, settings: Object): (r: Object)
    ensures forall k :: k !in {TYPE, LINK_TYPE, LINK_NAME} ==> Get(r, k) == Get(values, k)
    ensures Get(r, TYPE) == Some(Or(Get(settings, TYPE), Str(PAGE)))
    ensures Get(r, LINK_TYPE) == Some(Or(Get(settings, LINK_TYPE), Str(CUSTOM_LINK)))
    ensures Get(r, LINK_NAME) == Get(settings, LINK_NAME)
  {
    var r := values[TYPE := Or(Get(settings, TYPE), Str(PAGE))][LINK_TYPE := Or(Get(settings, LINK_TYPE), Str(CUSTOM_LINK))];
    Assign(r, LINK_NAME, Get(settings, LINK_NAME))
  }

  /** The rule for one saved setting. */
  function SavedEntry(k: string, settings: Object, values: Object): Option<Value>
  {
    var isLink := Get(values, TYPE) == Some(Str(LINK));
    if k == TYPE then Get(values, TYPE)
    else if k == LINK_TYPE && isLink then Get(values, LINK_TYPE)
    else if k == LINK_NAME && isLink && Truthy(Get(values, LINK_NAME)) then Get(values, LINK_NAME)
    else Get(settings, k)
  }

  /**
   * The saved settings: the type always, the link type for a link, the link
   * name for a link that has one, and every other setting as it was.
   */
  function SavedSettings(settings: Object, values: Object): (r: Object)
    ensures forall k :: Get(r, k) == SavedEntry(k, settings, values)
  {
    map k | k in settings.Keys + {TYPE, LINK_TYPE, LINK_NAME} && SavedEntry(k, settings, values).Some?
      :: SavedEntry(k, settings, values).value
  }

  /**
   * Saving, as the view does it: rebind the settings to a copy with the
   * type, then for a link assign the link type, and the link name when it
   * is given. An undefined type or link type leaves no property.
   */
  method FormValuesToSettings(settings: Object, values: Object) returns (r: Object)
    ensures r == SavedSettings(settings, values)
  {
    var beaconType := Get(values, TYPE);
    var linkType := Get(values, LINK_TYPE);
    var linkName := Get(values, LINK_NAME);
    r := Assign(settings, TYPE, beaconType);
    if beaconType == Some(Str(LINK)) {
      r := Assign(r, LINK_TYPE, linkType);
      if Truthy(linkName) {
        r := r[LINK_NAME := linkName.value];
      }
    }
    forall k ensures Get(r, k) == SavedEntry(k, settings, values) {
    }
    SameObject(r, SavedSettings(settings, values));
  }

  /** Without stored settings the form shows a custom-link page view with no link name. */
  lemma LoadDefaults(values: Object)
    ensures var form := SettingsToFormValues(values, map[]);
            Get(form, TYPE) == Some(Str(PAGE)) && Get(form, LINK_TYPE) == Some(Str(CUSTOM_LINK))
            && Get(form, LINK_NAME) == None
  {
  }

  /** A stored link beacon, with its link type and name, loads into the form and saves back as it was. */
  lemma LinkRoundTrip(values: Object, linkType: string, linkName: string)
    requires linkType != "" && linkName != ""
    ensures var stored := map[TYPE := Str(LINK), LINK_TYPE := Str(linkType), LINK_NAME := Str(linkName)];
            SavedSettings(map[], SettingsToFormValues(values, stored)) == stored
  {
    var stored := map[TYPE := Str(LINK), LINK_TYPE := Str(linkType), LINK_NAME := Str(linkName)];
    var saved := SavedSettings(map[], SettingsToFormValues(values, stored));
    forall k ensures Get(saved, k) == Get(stored, k) {
      assert Get(saved, k) == SavedEntry(k, map[], SettingsToFormValues(values, stored));
    }
    SameObject(saved, stored);
  }

  /** A stored page beacon saves back as a page beacon alone: the link fields the form defaulted are not saved. */
  lemma PageRoundTrip(values: Object)
    ensures var stored := map[TYPE := Str(PAGE)];
            SavedSettings(map[], SettingsToFormValues(values, stored)) == stored
  {
    var stored := map[TYPE := Str(PAGE)];
    var saved := SavedSettings(map[], SettingsToFormValues(values, stored));
    forall k ensures Get(saved, k) == Get(stored, k) {
      assert Get(saved, k) == SavedEntry(k, map[], SettingsToFormValues(values, stored));
    }
    SameObject(saved, stored);
  }
}
