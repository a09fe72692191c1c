/**
 * Tracker bootstrap: the EU-consent gate, then loading the tracking library,
 * linking the shared visitor-ID instance, stamping the tag-container version
 * and applying the configured tracker properties around the optional custom
 * setup script.
 *
 * The promise chain becomes a sequence of calls that stops at the first
 * failure: the loader's rejection, or a value thrown by the custom setup
 * script or `applyTrackerVariables`, which rejects the chain. The library
 * loader, `applyTrackerVariables` and the custom setup script are outside
 * this model and are passed in as functions; the cookie
 * jar, the consent cookie's name and the shared visitor-ID instance are
 * passed in as an `Environment`.
 */
module GetTracker {
  import opened Wrappers
  import opened Js
  import GenerateVersion

  const BEFORE_SETTINGS_LOAD_PHASE := "beforeSettings"
  const EU_REJECTION := "EU compliance was not acknowledged by the user."

  /** The tracker's properties this module reads or writes, with every other property in `properties`. */
  datatype TrackerState = TrackerState(
    visitor: Option<Value>,
    tagContainerMarker: Option<Value>,
    version: Option<Value>,
    properties: Object)

  /** A custom setup script, run with the tracker as its argument: the tracker it leaves, or the value it throws. */
  type Script = TrackerState -> Result<TrackerState, Value>

  /** `applyTrackerVariables(tracker, trackerProperties)`: the tracker it leaves, or the value it throws. */
  type ApplyVariables = (TrackerState, Value) -> Result<TrackerState, Value>

  /** `configuration.customSetup` at run time, where `source` has become a function. */
  datatype CustomSetup = CustomSetup(loadPhase: Option<Value>, source: Option<Script>)

  /** The extension configuration; `other` holds the properties only the library loader reads. */
  datatype Configuration = Configuration(
    euComplianceEnabled: Option<Value>,
    trackerProperties: Option<Value>,
    customSetup: Option<CustomSetup>,
    other: Object)

  /** `loadLibrary(configuration)`: the loaded tracker, or the reason its promise rejects. */
  type LoadLibrary = Configuration -> Result<TrackerState, Value>

  /** What the module reads from the page and the host: parsed cookies, the consent cookie's name, the shared MCID instance. */
  datatype Environment = Environment(cookies: map<string, string>, euCookieName: string, mcidInstance: Option<Value>)

  /** The stages of the chain, in the order they run. */
  datatype Stage = LoadLibraryStage | LinkVisitorIdStage | UpdateTrackerVersionStage | UpdateTrackerVariablesStage

  /** The EU-consent gate: it passes when consent is not required, or when the consent cookie reads exactly "true". */
  function CheckEuCompliance(euComplianceRequired: bool, cookies: map<string, string>, euCookieName: string): (ok: bool)
    ensures !euComplianceRequired ==> ok
    ensures euComplianceRequired ==> (ok <==> euCookieName in cookies && cookies[euCookieName] == "true")
  {
    if !euComplianceRequired then true
    else euCookieName in cookies && cookies[euCookieName] == "true"
  }

  /** `linkVisitorId`: the shared MCID instance, when there is one, becomes the tracker's visitor. */
  function Linked(t: TrackerState, mcidInstance: Option<Value>): (r: TrackerState)
    ensures Truthy(mcidInstance) ==> r == t.(visitor := mcidInstance)
    ensures !Truthy(mcidInstance) ==> r == t
  {
    if Truthy(mcidInstance) then t.(visitor := mcidInstance) else t
  }

  /** Whether a `version` string already ends in the five characters "-" and the stamp would make. */
  predicate AlreadyStamped(s: string, version: string)
    ensures |version| == 4 ==> (AlreadyStamped(s, version) <==> |s| >= 5 && s[|s| - 5..] == "-" + version)
    ensures |version| != 4 && |s| >= 5 ==> !AlreadyStamped(s, version)
  {
    SubstringFrom(s, |s| - 5) == "-" + version
  }

  /** `updateTrackerVersion`: overwrite the tag-container marker if the tracker has one, else suffix a string `version` once. */
  function Stamped(t: TrackerState, version: string): (r: TrackerState)
    ensures r.visitor == t.visitor && r.properties == t.properties
    ensures t.tagContainerMarker.Some? ==> r.tagContainerMarker == Some(Str(version)) && r.version == t.version
    ensures t.tagContainerMarker.None? ==> r.tagContainerMarker == None
    ensures t.tagContainerMarker.None? && t.version.Some? && t.version.value.Str?
            && !AlreadyStamped(t.version.value.s, version)
            ==> r.version == Some(Str(t.version.value.s + "-" + version))
    ensures t.tagContainerMarker.None? && !(t.version.Some? && t.version.value.Str? && !AlreadyStamped(t.version.value.s, version))
            ==> r == t
  {
    if t.tagContainerMarker.Some? then
      t.(tagContainerMarker := Some(Str(version)))
    else if t.version.Some? && t.version.value.Str? && !AlreadyStamped(t.version.value.s, version) then
      t.(version := Some(Str(t.version.value.s + "-" + version)))
    else
      t
  }

  /** A four-character stamp is applied at most once: stamping twice is stamping once. */
  lemma StampIdempotent(t: TrackerState, version: string)
    requires |version| == 4
    ensures Stamped(Stamped(t, version), version) == Stamped(t, version)
  {
    var once := Stamped(t, version);
    if t.tagContainerMarker.None? && t.version.Some? && t.version.value.Str? && !AlreadyStamped(t.version.value.s, version) {
      var s := t.version.value.s + "-" + version;
      assert SubstringFrom(s, |s| - 5) == "-" + version by {
        assert s[|s| - 5..] == "-" + version;
      }
    }
  }

  /** The duplicate check looks at five characters, so a five-character stamp would be appended again on every call. */
  lemma LongerStampIsAppendedAgain()
    ensures var t := TrackerState(None, None, Some(Str("1.5.2")), map[]);
      Stamped(Stamped(t, "D10AB"), "D10AB").version == Some(Str("1.5.2-D10AB-D10AB"))
  {
    var s := "1.5.2-D10AB";
    assert !AlreadyStamped("1.5.2", "D10AB") by {
      assert |SubstringFrom("1.5.2", 0)| != |"-" + "D10AB"|;
    }
    assert "1.5.2" + "-" + "D10AB" == s;
    assert !AlreadyStamped(s, "D10AB") by {
      assert |SubstringFrom(s, |s| - 5)| != |"-" + "D10AB"|;
    }
    assert s + "-" + "D10AB" == "1.5.2-D10AB-D10AB";
  }

  /**
   * `updateTrackerVariables`: a "beforeSettings" script runs before the
   * properties are applied, any other script after; the first value thrown
   * rejects the stage and the later calls do not run.
   */
  function Configured(t: TrackerState, trackerProperties: Option<Value>, customSetup: CustomSetup, apply: ApplyVariables): (r: Result<TrackerState, Value>)
    ensures var props := Or(trackerProperties, Obj(map[]));
      match customSetup.source
        case None => r == apply(t, props)
        case Some(script) =>
          if customSetup.loadPhase == Some(Str(BEFORE_SETTINGS_LOAD_PHASE)) then
            (script(t).Failure? ==> r == Failure(script(t).error))
            && (script(t).Success? ==> r == apply(script(t).value, props))
          else
            (apply(t, props).Failure? ==> r == Failure(apply(t, props).error))
            && (apply(t, props).Success? ==> r == script(apply(t, props).value))
  {
    var isBefore := customSetup.loadPhase == Some(Str(BEFORE_SETTINGS_LOAD_PHASE));
    var r1 := if isBefore && customSetup.source.Some? then customSetup.source.value(t) else Success(t);
    if r1.Failure? then r1 else
    var r2 := apply(r1.value, Or(trackerProperties, Obj(map[])));
    if r2.Failure? then r2 else
    if !isBefore && customSetup.source.Some? then customSetup.source.value(r2.value) else r2
  }

  /**
   * The tracker `updateTrackerVariables` leaves in place: the state after the
   * last call that returned; a call that throws leaves the tracker as it found it.
   */
  function Reached(t: TrackerState, trackerProperties: Option<Value>, customSetup: CustomSetup, apply: ApplyVariables): (r: TrackerState)
    ensures var props := Or(trackerProperties, Obj(map[]));
      match customSetup.source
        case None => r == (if apply(t, props).Success? then apply(t, props).value else t)
        case Some(script) =>
          if customSetup.loadPhase == Some(Str(BEFORE_SETTINGS_LOAD_PHASE)) then
            (script(t).Failure? ==> r == t)
            && (script(t).Success? && apply(script(t).value, props).Failure? ==> r == script(t).value)
            && (script(t).Success? && apply(script(t).value, props).Success? ==> r == apply(script(t).value, props).value)
          else
            (apply(t, props).Failure? ==> r == t)
            && (apply(t, props).Success? && script(apply(t, props).value).Failure? ==> r == apply(t, props).value)
            && (apply(t, props).Success? && script(apply(t, props).value).Success? ==> r == script(apply(t, props).value).value)
  {
    var isBefore := customSetup.loadPhase == Some(Str(BEFORE_SETTINGS_LOAD_PHASE));
    var r1 := if isBefore && customSetup.source.Some? then customSetup.source.value(t) else Success(t);
    if r1.Failure? then t else
    var r2 := apply(r1.value, Or(trackerProperties, Obj(map[])));
    if r2.Failure? then r1.value else
    var r3 := if !isBefore && customSetup.source.Some? then customSetup.source.value(r2.value) else r2;
    if r3.Failure? then r2.value else r3.value
  }

  /** When the stage resolves, the tracker it resolves with is the one left in place. */
  lemma ConfiguredIsReached(t: TrackerState, trackerProperties: Option<Value>, customSetup: CustomSetup, apply: ApplyVariables)
    ensures Configured(t, trackerProperties, customSetup, apply).Success? ==>
              Configured(t, trackerProperties, customSetup, apply).value == Reached(t, trackerProperties, customSetup, apply)
  {
  }

  /** `configuration.customSetup || {}`. */
  function CustomSetupOf(config: Configuration): CustomSetup
  {
    if config.customSetup.Some? then config.customSetup.value else CustomSetup(None, None)
  }

  /** The whole chain as a value: what `initialize` resolves or rejects with. */
  function Bootstrap(config: Configuration, env: Environment, version: string, loadLibrary: LoadLibrary, apply: ApplyVariables): (r: Result<TrackerState, Value>)
    ensures !CheckEuCompliance(Truthy(config.euComplianceEnabled), env.cookies, env.euCookieName)
            ==> r == Failure(Str(EU_REJECTION))
    ensures CheckEuCompliance(Truthy(config.euComplianceEnabled), env.cookies, env.euCookieName) && loadLibrary(config).Failure?
            ==> r == Failure(loadLibrary(config).error)
    ensures CheckEuCompliance(Truthy(config.euComplianceEnabled), env.cookies, env.euCookieName) && loadLibrary(config).Success?
            ==> r == Configured(Stamped(Linked(loadLibrary(config).value, env.mcidInstance), version),
                                config.trackerProperties, CustomSetupOf(config), apply)
    ensures r.Success? ==> loadLibrary(config).Success?
  {
    if !CheckEuCompliance(Truthy(config.euComplianceEnabled), env.cookies, env.euCookieName) then
      Failure(Str(EU_REJECTION))
    else
      match loadLibrary(config)
      case Failure(e) => Failure(e)
      case Success(t) =>
        Configured(Stamped(Linked(t, env.mcidInstance), version), config.trackerProperties, CustomSetupOf(config), apply)
  }

  /** A value thrown by a "beforeSettings" script rejects the chain with that value, and the properties are never applied. */
  lemma ThrowingScriptRejects(config: Configuration, env: Environment, version: string, loadLibrary: LoadLibrary,
                              apply: ApplyVariables, thrown: Value)
    requires CheckEuCompliance(Truthy(config.euComplianceEnabled), env.cookies, env.euCookieName)
    requires loadLibrary(config).Success?
    requires CustomSetupOf(config).loadPhase == Some(Str(BEFORE_SETTINGS_LOAD_PHASE)) && CustomSetupOf(config).source.Some?
    requires CustomSetupOf(config).source.value(Stamped(Linked(loadLibrary(config).value, env.mcidInstance), version)) == Failure(thrown)
    ensures Bootstrap(config, env, version, loadLibrary, apply) == Failure(thrown)
  {
  }

  /** A value thrown by `applyTrackerVariables` rejects the chain with that value, and an after-settings script never runs. */
  lemma ThrowingApplyRejects(config: Configuration, env: Environment, version: string, loadLibrary: LoadLibrary,
                             apply: ApplyVariables, thrown: Value)
    requires CheckEuCompliance(Truthy(config.euComplianceEnabled), env.cookies, env.euCookieName)
    requires loadLibrary(config).Success?
    requires CustomSetupOf(config).loadPhase != Some(Str(BEFORE_SETTINGS_LOAD_PHASE))
    requires apply(Stamped(Linked(loadLibrary(config).value, env.mcidInstance), version),
                   Or(config.trackerProperties, Obj(map[]))) == Failure(thrown)
    ensures Bootstrap(config, env, version, loadLibrary, apply) == Failure(thrown)
  {
  }

  /** The tracker object the chain passes from stage to stage and changes in place. */
  class Tracker {
    var visitor: Option<Value>
    var tagContainerMarker: Option<Value>
    var version: Option<Value>
    var properties: Object

    function State(): TrackerState
      reads this
    {
      TrackerState(visitor, tagContainerMarker, version, properties)
    }

    /** The tracker as the library loader resolves it. */
    constructor (loaded: TrackerState)
      ensures State() == loaded
    {
      visitor := loaded.visitor;
      tagContainerMarker := loaded.tagContainerMarker;
      version := loaded.version;
      properties := loaded.properties;
    }

    /**
     * Hands the tracker to outside code (a setup script, `applyTrackerVariables`),
     * which may change any of its properties or throw, leaving it as it was.
     */
    method Run(f: Script) returns (thrown: Option<Value>)
      modifies this
      ensures f(old(State())).Success? ==> thrown == None && State() == f(old(State())).value
      ensures f(old(State())).Failure? ==> thrown == Some(f(old(State())).error) && State() == old(State())
    {
      var r := f(State());
      if r.Failure? {
        return Some(r.error);
      }
      var s := r.value;
      visitor, tagContainerMarker, version, properties := s.visitor, s.tagContainerMarker, s.version, s.properties;
      thrown := None;
    }

    method LinkVisitorId(mcidInstance: Option<Value>)
      modifies this
      ensures State() == Linked(old(State()), mcidInstance)
    {
      if Truthy(mcidInstance) {
        visitor := mcidInstance;
      }
    }

    method UpdateTrackerVersion(stamp: string)
      modifies this
      ensures State() == Stamped(old(State()), stamp)
    {
      if tagContainerMarker.Some? {
        tagContainerMarker := Some(Str(stamp));
      } else if version.Some? && version.value.Str? && SubstringFrom(version.value.s, |version.value.s| - 5) != "-" + stamp {
        version := Some(Str(version.value.s + "-" + stamp));
      }
    }

    /** Returns the value thrown, if any, which ends the stage. */
    method UpdateTrackerVariables(trackerProperties: Option<Value>, customSetup: CustomSetup, apply: ApplyVariables)
      returns (thrown: Option<Value>)
      modifies this
      ensures var expected := Configured(old(State()), trackerProperties, customSetup, apply);
        && (expected.Success? ==> thrown == None)
        && (expected.Failure? ==> thrown == Some(expected.error))
      ensures State() == Reached(old(State()), trackerProperties, customSetup, apply)
    {
      if customSetup.loadPhase == Some(Str(BEFORE_SETTINGS_LOAD_PHASE)) && customSetup.source.Some? {
        thrown := Run(customSetup.source.value);
        if thrown.Some? {
          return;
        }
      }
      var props := Or(trackerProperties, Obj(map[]));
      thrown := Run(t => apply(t, props));
      if thrown.Some? {
        return;
      }
      if customSetup.loadPhase != Some(Str(BEFORE_SETTINGS_LOAD_PHASE)) && customSetup.source.Some? {
        thrown := Run(customSetup.source.value);
      }
    }
  }

  /**
   * `initialize(configuration)`: the chain run on a fresh tracker. `trace` lists
   * the stages that ran: none when consent is missing, only the load when
   * the library fails to load, all four in order otherwise (the last one
   * may end in a thrown value). The trace only records the order of the
   * calls below; that the stages compose in this order is what the first
   * ensures states, by tying the result to `Bootstrap`.
   */
  method Initialize(config: Configuration, env: Environment, version: string, loadLibrary: LoadLibrary, apply: ApplyVariables)
    returns (r: Result<Tracker, Value>, ghost trace: seq<Stage>)
    ensures var expected := Bootstrap(config, env, version, loadLibrary, apply);
      && (r.Success? <==> expected.Success?)
      && (r.Failure? ==> r.error == expected.error)
      && (r.Success? ==> fresh(r.value) && r.value.State() == expected.value)
    ensures !CheckEuCompliance(Truthy(config.euComplianceEnabled), env.cookies, env.euCookieName) ==> trace == []
    ensures CheckEuCompliance(Truthy(config.euComplianceEnabled), env.cookies, env.euCookieName) && loadLibrary(config).Failure?
            ==> trace == [LoadLibraryStage]
    ensures CheckEuCompliance(Truthy(config.euComplianceEnabled), env.cookies, env.euCookieName) && loadLibrary(config).Success?
            ==> trace == [LoadLibraryStage, LinkVisitorIdStage, UpdateTrackerVersionStage, UpdateTrackerVariablesStage]
  {
    if !CheckEuCompliance(Truthy(config.euComplianceEnabled), env.cookies, env.euCookieName) {
      return Failure(Str(EU_REJECTION)), [];
    }
    trace := [LoadLibraryStage];
    var loaded := loadLibrary(config);
    if loaded.Failure? {
      return Failure(loaded.error), trace;
    }
    var tracker := new Tracker(loaded.value);
    tracker.LinkVisitorId(env.mcidInstance);
    trace := trace + [LinkVisitorIdStage];
    tracker.UpdateTrackerVersion(version);
    trace := trace + [UpdateTrackerVersionStage];
    ConfiguredIsReached(tracker.State(), config.trackerProperties, CustomSetupOf(config), apply);
    var thrown := tracker.UpdateTrackerVariables(config.trackerProperties, CustomSetupOf(config), apply);
    trace := trace + [UpdateTrackerVariablesStage];
    if thrown.Some? {
      return Failure(thrown.value), trace;
    }
    r := Success(tracker);
  }

  /** Evaluating the module: the version is computed first and an unparseable build date throws before any promise exists. */
  method LoadModule(buildDate: Option<GenerateVersion.DateFields>, config: Configuration, env: Environment,
                    loadLibrary: LoadLibrary, apply: ApplyVariables)
    returns (r: Result<Result<Tracker, Value>, string>)
    ensures buildDate.None? ==> r == Failure(GenerateVersion.INVALID_DATE)
    ensures buildDate.Some? ==> (r.Success? &&
      var expected := Bootstrap(config, env, GenerateVersion.Generate(buildDate).value, loadLibrary, apply);
      && (r.value.Success? <==> expected.Success?)
      && (r.value.Failure? ==> r.value.error == expected.error)
      && (r.value.Success? ==> fresh(r.value.value) && r.value.value.State() == expected.value))
  {
    var version := GenerateVersion.Generate(buildDate);
    if version.Failure? {
      return Failure(version.error);
    }
    var promise, _ := Initialize(config, env, version.value, loadLibrary, apply);
    r := Success(promise);
  }

  /** Stands in for the library's own property setter: every tracker property is copied onto the tracker. */
  function CopyProperties(t: TrackerState, props: Value): Result<TrackerState, Value>
  {
    Success(t.(properties := t.properties + (if props.Obj? then props.fields else map[])))
  }

  /** Without consent the chain rejects with the fixed message, whatever the loader would have done. */
  lemma RejectedWithoutConsent(config: Configuration, env: Environment, version: string, loadLibrary: LoadLibrary, apply: ApplyVariables)
    requires Truthy(config.euComplianceEnabled)
    requires !(env.euCookieName in env.cookies && env.cookies[env.euCookieName] == "true")
    ensures Bootstrap(config, env, version, loadLibrary, apply) == Failure(Str(EU_REJECTION))
  {
  }

  /** A loaded tracker with a `version` of "1.5.2" ends up with "1.5.2-DEBA". */
  lemma VersionSuffixed()
    ensures Stamped(TrackerState(None, None, Some(Str("1.5.2")), map[]), "DEBA").version == Some(Str("1.5.2-DEBA"))
  {
    assert !AlreadyStamped("1.5.2", "DEBA") by {
      assert SubstringFrom("1.5.2", 0)[0] != ("-" + "DEBA")[0];
    }
    assert "1.5.2" + "-" + "DEBA" == "1.5.2-DEBA";
  }

  /** A loaded tracker with a tag-container marker ends up with the marker set to the stamp. */
  lemma MarkerOverwritten()
    ensures Stamped(TrackerState(None, Some(Str("marker")), None, map[]), "DEBA").tagContainerMarker == Some(Str("DEBA"))
  {
  }

  /** The test configuration: property prop1 = "a", and a script setting prop1 = "b" at the given load phase. */
  function PropOneConfig(loadPhase: Option<Value>): Configuration
  {
    Configuration(None, Some(Obj(map["prop1" := Str("a")])),
      Some(CustomSetup(loadPhase, Some((t: TrackerState) => Success(t.(properties := t.properties["prop1" := Str("b")]))))),
      map[])
  }

  /** With load phase "beforeSettings" the script runs first, so the configured property wins. */
  lemma PropertiesWinBeforeSettings(env: Environment, version: string, loaded: TrackerState)
    ensures var r := Bootstrap(PropOneConfig(Some(Str(BEFORE_SETTINGS_LOAD_PHASE))), env, version, _ => Success(loaded), CopyProperties);
      r.Success? && r.value.properties["prop1"] == Str("a")
  {
  }

  /** With no load phase the script runs after the properties, so the script wins. */
  lemma ScriptWinsAfterSettings(env: Environment, version: string, loaded: TrackerState)
    ensures var r := Bootstrap(PropOneConfig(None), env, version, _ => Success(loaded), CopyProperties);
      r.Success? && r.value.properties["prop1"] == Str("b")
  {
  }
}
