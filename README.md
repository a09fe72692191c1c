# Adobe Analytics extension for Launch: a verified model of its core

This project models the core of the Adobe Analytics extension for the Launch tag manager. It is written in Dafny and proves properties of that model.

On the runtime side, it models:
- **Tracker bootstrap** (`GetTracker`). First, the EU-consent gate. Then the chain of promise stages:
  - load the library;
  - link the shared visitor-ID instance;
  - stamp the tag-container version;
  - apply the configured tracker properties around the optional custom setup script.
- **The version stamp** (`GenerateVersion`). This is "D" followed by year, month/revision and day codes in base 36.

The views turn stored settings into form values (`settingsToFormValues`), turn form values back into settings (`formValuesToSettings`), and report form errors (`validate`). On that side, the model covers:
- the two library-management sections: the current one (`LibraryManagement`) and the earlier one (`LegacyLibraryManagement`);
- the cookies section (`Cookies`);
- the variables section (`Variables`);
- the custom setup sections (`CustomSetup`);
- the send-beacon action (`SendBeacon`);
- the configuration selector of the actions (`ConfigurationSelector`);
- the two tree-population helpers of the XDM object data element (`XdmTree`, `XdmArray`, `XdmObject`).

Module `Js` models the part of JavaScript these sources rely on:
- plain values;
- truthiness and `||` defaults;
- property access on possibly undefined values;
- object spread and assignment;
- the builtins `trim`, `substring`, `indexOf`, `toString(radix)`, `toUpperCase` and the default string `sort`.

An `undefined` value is a missing key, or `None`. Settings are persisted as JSON, and an undefined property does not survive that.

How each part is modelled:
- The runtime tracker is a `Tracker` class whose stage methods change its fields in place. Each method is proved against a pure function of the previous state.
- The saving and validation code of the views builds an object step by step. It is modelled as methods, each proved equal to a declarative function. The round-trip and "fixed point" properties of load-then-save are lemmas about those functions.
- The XDM helpers assign `treeNode.children`, modelled as a field of a `TreeNode` class.

## Model

| member | source | states |
|---|---|---|
| Js.Truthy | src/view/extensionConfiguration/components/cookies.jsx:156-158 | a value is truthy iff it is defined and is not "", 0 or false |
| Js.Prop | src/view/extensionConfiguration/components/libraryManagement.jsx:293 | a property read gives the object's property when it has one, and undefined otherwise, undefined and non-objects included |
| Js.Fields | src/view/extensionConfiguration/components/cookies.jsx:152-154 | spreading an object copies its properties; spreading anything else copies none, as Left out admits |
| Js.StartsWith | src/view/extensionConfiguration/components/libraryManagement.jsx:228 | `s.indexOf(p) === 0` holds iff `p` is no longer than `s` and matches it character by character from the start |
| Js.Length | src/view/extensionConfiguration/components/libraryManagement.jsx:294 | the `length` of an array is its number of items, and of a string its number of characters |
| Js.Or | src/view/extensionConfiguration/components/libraryManagement.jsx:262-264 | the `or` default gives `v` exactly when `v` is truthy, and the default otherwise |
| Js.SetIfTruthy | src/view/extensionConfiguration/components/cookies.jsx:156-174 | `if (v) o.k = v` changes property `k` to `v` for a truthy `v`, and no property otherwise |
| Js.Assign | src/view/actions/sendBeacon/sendBeacon.jsx:155-158 | after `o.k = v`, `k` reads `v` (undefined leaves no key) and every other property reads as before |
| Js.Trim | src/view/extensionConfiguration/components/cookies.jsx:182-183 | the trimmed string is no longer than the input, neither starts nor ends with white space, and is empty iff the input is all white space |
| Js.SubstringFrom | src/lib/helpers/getTracker.js:47 | `substring(start)` is the suffix from `start`; from a start at or below zero it is the whole string |
| Js.NatToString | src/lib/helpers/generateVersion.js:28 | `n.toString(radix)` is non-empty and made of lower-case base-36 digits, and a number below the radix is its single digit |
| Js.IntToString | src/lib/helpers/generateVersion.js:34 | a negative number is written as a minus sign and the digits of its magnitude |
| Js.NatToStringInjective | src/view/dataElements/xdmObject/helpers/array/populateTreeNode.js:37 | distinct numbers have distinct representations in any radix, so item numbers written in decimal never clash |
| Js.Index | src/view/dataElements/xdmObject/helpers/array/populateTreeNode.js:43-44 | indexing an array gives its element, and undefined past the end; indexing undefined gives undefined |
| Js.ToUpperCase | src/lib/helpers/generateVersion.js:44 | upper-casing keeps the length and upper-cases each character in place |
| Js.SortedKeys | src/view/dataElements/xdmObject/helpers/object/populateTreeNode.js:27-29 | `Object.keys(o).sort()` lists every property name exactly once, strictly ascending in string order |
| Js.SortedKeysUnique | src/view/dataElements/xdmObject/helpers/object/populateTreeNode.js:29 | any strictly ascending listing of exactly these names is the sorted one, so the sort is fully determined |
| GenerateVersion.LastChar | src/lib/helpers/generateVersion.js:14-16 | `substr(length - 1)` is the last character, and "" for the empty string |
| GenerateVersion.DayField | src/lib/helpers/generateVersion.js:10-12 | any day of the month, 1 to 31, is written as a single base-36 digit |
| GenerateVersion.Revision | src/lib/helpers/generateVersion.js:18-22 | the revision is the eight-hour band of the UTC day holding the hour: 0, 1 or 2 |
| GenerateVersion.MonthCode | src/lib/helpers/generateVersion.js:24-28 | month number plus twelve times the revision lies between 1 and 36 for a real date |
| GenerateVersion.MonthField | src/lib/helpers/generateVersion.js:24-31 | the month field is at most one character, and exactly one base-36 digit for a real date; which digit is stated by `MonthFieldDigit` |
| GenerateVersion.YearField | src/lib/helpers/generateVersion.js:33-35 | from 2010 to 2045 the year field is the single base-36 digit of the years since 2010; before 2010 it is a minus sign and digits. `Fields` puts the three fields together |
| GenerateVersion.Generate | src/lib/helpers/generateVersion.js:37-45 | an unparseable date fails with "Invalid date provided"; any other yields a stamp of at least four characters starting with "D" |
| GenerateVersion.LastBandOfDecember | src/lib/helpers/generateVersion.js:24-31 | December in the last band gives code 36, written "10", so the month field is "0" |
| GenerateVersion.MonthFieldDigit | src/lib/helpers/generateVersion.js:24-31 | the month field is always one character: the base-36 digit of the month code modulo 36 |
| GenerateVersion.MonthFieldInjective | src/lib/helpers/generateVersion.js:24-31 | the month character determines both the month and the revision band |
| GenerateVersion.MonthCodeDetermines | src/lib/helpers/generateVersion.js:25-28 | the month code modulo 36 determines the month and the revision band |
| GenerateVersion.Fields | src/lib/helpers/generateVersion.js:10-44 | from 2010 to 2045 each field is one digit, and the stamp is "D" and the three upper-cased digits |
| GenerateVersion.FourCharacters | src/lib/helpers/generateVersion.js:1-2 | from 2010 to 2045 the stamp is exactly four characters, as the header comment promises |
| GenerateVersion.Alphabet | src/lib/helpers/generateVersion.js:44 | from 2010 on the stamp starts with "D" and holds only digits and capital letters |
| GenerateVersion.Injective | src/lib/helpers/generateVersion.js:1-3 | from 2010 to 2045 the stamp determines the year, month, day and revision band of the release |
| GenerateVersion.WorkedExample | src/lib/helpers/generateVersion.js:3 | 24 March 2015 in the first revision band is stamped "D53O" |
| GetTracker.CheckEuCompliance | src/lib/helpers/getTracker.js:22-30 | without a consent requirement the gate passes; with one, it passes iff the consent cookie reads exactly "true" |
| GetTracker.Linked | src/lib/helpers/getTracker.js:32-39 | a truthy shared MCID instance becomes the visitor, and the tracker is otherwise unchanged |
| GetTracker.Stamped | src/lib/helpers/getTracker.js:41-52 | a present marker is overwritten with the stamp; otherwise a string version gets "-stamp" unless it already ends with it; nothing else changes |
| GetTracker.AlreadyStamped | src/lib/helpers/getTracker.js:47 | for a four-character stamp, the check holds iff the version ends with "-" and the stamp; a stamp of any other length is never detected in a version of five or more characters. `StampIdempotent` and `LongerStampIsAppendedAgain` draw the consequences |
| GetTracker.StampIdempotent | src/lib/helpers/getTracker.js:46-48 | with a four-character stamp, stamping twice is stamping once |
| GetTracker.LongerStampIsAppendedAgain | src/lib/helpers/getTracker.js:47 | the suffix check compares exactly five characters, so a five-character stamp would be appended a second time |
| GetTracker.Configured | src/lib/helpers/getTracker.js:54-68 | a "beforeSettings" script runs before the properties are applied, and any other script after; properties default to `{}`; the first value thrown rejects the stage, and the later calls do not run |
| GetTracker.Reached | src/lib/helpers/getTracker.js:54-68 | the tracker left in place is the one after the last call that returned: unchanged when the first call throws, and the earlier call's result when a later one throws. `ConfiguredIsReached` ties it to a resolved stage |
| GetTracker.ConfiguredIsReached | src/lib/helpers/getTracker.js:54-68 | when the stage resolves, it resolves with the tracker left in place |
| GetTracker.Bootstrap | src/lib/helpers/getTracker.js:70-83 | rejects with the EU message without consent, and with the loader's reason when loading fails; once the library loads, the result is that of the configuration stage on the linked and stamped tracker, a thrown value included |
| GetTracker.ThrowingScriptRejects | src/lib/helpers/getTracker.js:55-79 | a value thrown by a "beforeSettings" script rejects the chain with that value |
| GetTracker.ThrowingApplyRejects | src/lib/helpers/getTracker.js:60-79 | a value thrown by `applyTrackerVariables` rejects the chain with that value |
| GetTracker.Tracker.constructor | src/lib/helpers/getTracker.js:72 | the tracker starts in the state the library loader resolved |
| GetTracker.Tracker.Run | src/lib/helpers/getTracker.js:57 | outside code that returns leaves the tracker in the state it computes; code that throws reports the thrown value |
| GetTracker.Tracker.LinkVisitorId | src/lib/helpers/getTracker.js:32-39 | the in-place stage leaves the tracker in the state `Linked` gives |
| GetTracker.Tracker.UpdateTrackerVersion | src/lib/helpers/getTracker.js:41-52 | the in-place stage leaves the tracker in the state `Stamped` gives |
| GetTracker.Tracker.UpdateTrackerVariables | src/lib/helpers/getTracker.js:54-68 | the in-place stage reports the value `Configured` throws, if any, and leaves the tracker as the last call that returned left it |
| GetTracker.Initialize | src/lib/helpers/getTracker.js:70-83 | the chain agrees with `Bootstrap` on a fresh tracker, thrown values included; no stage runs without consent, only the load when it fails, and all four in order otherwise |
| GetTracker.LoadModule | src/lib/helpers/getTracker.js:17-88 | an unparseable build date throws before any promise exists; otherwise the module's promise is `initialize` with the generated stamp |
| GetTracker.RejectedWithoutConsent | src/lib/helpers/getTracker.js:80-82 | when consent is required and missing, the chain rejects with the fixed message whatever the loader would do |
| GetTracker.VersionSuffixed | src/lib/helpers/__tests__/getTracker.test.js:117-134 | a tracker `version` "1.5.2" with stamp "DEBA" becomes "1.5.2-DEBA" |
| GetTracker.MarkerOverwritten | src/lib/helpers/__tests__/getTracker.test.js:139-156 | a tag-container marker is set to the stamp |
| GetTracker.PropertiesWinBeforeSettings | src/lib/helpers/__tests__/getTracker.test.js:184-207 | with load phase "beforeSettings", the configured prop1 "a" overrides the script's "b" |
| GetTracker.ScriptWinsAfterSettings | src/lib/helpers/__tests__/getTracker.test.js:213-235 | without a load phase, the script's prop1 "b" overrides the configured "a" |
| LibraryManagement.ForcePrefix | src/view/extensionConfiguration/components/libraryManagement.jsx:227-229 | an empty URL stays empty; any other starts with the prefix: unchanged if it had it, else prefixed |
| LibraryManagement.ForcePrefixIdempotent | src/view/extensionConfiguration/components/libraryManagement.jsx:227-229 | prefixing twice is prefixing once |
| LibraryManagement.LoadedLibraryCode | src/view/extensionConfiguration/components/libraryManagement.jsx:246-271 | the reference definition of loading; what the form shows is stated by `LoadDefaults` |
| LibraryManagement.LoadDefaults | src/view/extensionConfiguration/components/libraryManagement.jsx:257-272 | type defaults to managed, variable name to "s", load phase to page bottom; report suites show iff the library is not managed and has accounts; the rest is passed through |
| LibraryManagement.SettingsToFormValues | src/view/extensionConfiguration/components/libraryManagement.jsx:245-273 | only `libraryCode` is set, to the loaded one; other form values are kept |
| LibraryManagement.KeptAccounts | src/view/extensionConfiguration/components/libraryManagement.jsx:289-302 | a known environment's report suites are kept iff its list is non-empty, unchanged; no other environment is kept |
| LibraryManagement.ToObject | src/view/extensionConfiguration/components/libraryManagement.jsx:285-326 | the reference definition of the persisted `libraryCode`, which `FormValuesToSettings` is proved equal to; what it holds is stated by `SavedByType`, `SavedUrlsHaveScheme` and `SavedAccounts` |
| LibraryManagement.SavedLibraryCode | src/view/extensionConfiguration/components/libraryManagement.jsx:285-321 | the type is always saved; URLs are there iff the library is remote; the script only for custom code; the load phase never for a preinstalled library and the variable name never for a managed one; saved report suites are exactly the kept ones. Which properties are persisted is stated by `SavedByType`, `SavedUrlsHaveScheme` and `SavedAccounts` |
| LibraryManagement.SavedSettings | src/view/extensionConfiguration/components/libraryManagement.jsx:323-326 | `libraryCode` is replaced by the persisted form of `SavedLibraryCode`, and every other setting reads as before |
| LibraryManagement.SavedByType | src/view/extensionConfiguration/components/libraryManagement.jsx:304-321 | which properties are persisted for each library type, both directions of each condition |
| LibraryManagement.SavedUrlsHaveScheme | src/view/extensionConfiguration/components/libraryManagement.jsx:312-316 | a remote library's URLs are strings, empty iff not given, and otherwise start with http:// (https://) |
| LibraryManagement.SavedAccounts | src/view/extensionConfiguration/components/libraryManagement.jsx:289-302 | `accounts` is persisted iff some known environment has a non-empty list, and then holds exactly the kept lists |
| LibraryManagement.KeepAccounts | src/view/extensionConfiguration/components/libraryManagement.jsx:292-297 | the loop over the environments computes `KeptAccounts` |
| LibraryManagement.FormValuesToSettings | src/view/extensionConfiguration/components/libraryManagement.jsx:274-327 | the step-by-step save equals `SavedSettings`: the previous settings with `libraryCode` replaced |
| LibraryManagement.KeptTwice | src/view/extensionConfiguration/components/libraryManagement.jsx:294 | filtering already-kept report suites keeps them all |
| LibraryManagement.ReloadedPassedThrough | src/view/extensionConfiguration/components/libraryManagement.jsx:265-270 | accounts, URLs, the preconfigured flag and the script load back as persisted |
| LibraryManagement.ReloadedDefaulted | src/view/extensionConfiguration/components/libraryManagement.jsx:262-264 | type, variable name and load phase load back as persisted when they were persisted truthy |
| LibraryManagement.TypeReloads | src/view/extensionConfiguration/components/libraryManagement.jsx:262 | a saved type loads back as it was saved, and a remote library's URLs stay strings |
| LibraryManagement.AccountsSaveAgain | src/view/extensionConfiguration/components/libraryManagement.jsx:289-302 | saved report suites save again unchanged |
| LibraryManagement.PhaseAndNameSaveAgain | src/view/extensionConfiguration/components/libraryManagement.jsx:304-310 | a saved load phase and variable name save again unchanged |
| LibraryManagement.RemoteAndCustomSaveAgain | src/view/extensionConfiguration/components/libraryManagement.jsx:312-321 | saved URLs, preconfigured flag and script save again unchanged |
| LibraryManagement.StoredSavesAgain | src/view/extensionConfiguration/components/libraryManagement.jsx:245-327 | a `libraryCode` saved from a loaded form loads and saves back identical |
| LibraryManagement.SaveLoadStable | src/view/extensionConfiguration/components/libraryManagement.jsx:245-327 | settings saved from a loaded form are a fixed point of load-then-save, whatever the other form values |
| LibraryManagement.ResavedUnchanged | src/view/extensionConfiguration/components/libraryManagement.jsx:323-326 | settings whose `libraryCode` saves back as it is are saved back unchanged |
| LibraryManagement.ProductionMissing | src/view/extensionConfiguration/components/libraryManagement.jsx:343 | production report suites are missing when undefined, and for an array iff it is empty |
| LibraryManagement.ReportSuitesRequired | src/view/extensionConfiguration/components/libraryManagement.jsx:341-342 | report suites are required for a managed library, and for any other iff it shows report suites; `Validate` reports the error when both predicates hold |
| LibraryManagement.Validate | src/view/extensionConfiguration/components/libraryManagement.jsx:328-372 | each of the five errors appears iff its condition holds, with its fixed message; other errors are kept and nothing else is reported |
| LegacyLibraryManagement.ForcePrefix | src/view/extensionConfiguration/libraryManagement.jsx:183-185 | the result always starts with the prefix: unchanged if it had it, else prefixed, the empty string included |
| LegacyLibraryManagement.ForcePrefixIdempotent | src/view/extensionConfiguration/libraryManagement.jsx:183-185 | prefixing twice is prefixing once |
| LegacyLibraryManagement.EmptyUrlBecomesScheme | src/view/extensionConfiguration/libraryManagement.jsx:245-246 | a missing URL is saved as the bare scheme |
| LegacyLibraryManagement.LoadedLibraryCode | src/view/extensionConfiguration/libraryManagement.jsx:198-219 | the reference definition of loading; what the form shows is stated by `LoadDefaults` |
| LegacyLibraryManagement.LoadDefaults | src/view/extensionConfiguration/libraryManagement.jsx:208-219 | type defaults to managed, variable name to "s", load phase to "pagebottom"; the rest is passed through |
| LegacyLibraryManagement.SettingsToFormValues | src/view/extensionConfiguration/libraryManagement.jsx:197-220 | only `libraryCode` is set, to the loaded one; other form values are kept |
| LegacyLibraryManagement.ToObject | src/view/extensionConfiguration/libraryManagement.jsx:232-258 | the reference definition of the persisted `libraryCode`, which `FormValuesToSettings` is proved equal to; what it holds is stated by `SavedByType` |
| LegacyLibraryManagement.SavedLibraryCode | src/view/extensionConfiguration/libraryManagement.jsx:232-253 | the type is always saved; URLs are there iff the library is remote; the script only for custom code; `skipSetAccount` only for remote or custom code; no load phase for a preinstalled library and no variable name for a managed one. Which properties are persisted is stated by `SavedByType` |
| LegacyLibraryManagement.SavedSettings | src/view/extensionConfiguration/libraryManagement.jsx:255-258 | `libraryCode` is replaced by the persisted form of `SavedLibraryCode`, and every other setting reads as before |
| LegacyLibraryManagement.SavedByType | src/view/extensionConfiguration/libraryManagement.jsx:236-253 | which properties are persisted for each library type, both directions; remote URLs always carry their scheme |
| LegacyLibraryManagement.FormValuesToSettings | src/view/extensionConfiguration/libraryManagement.jsx:221-259 | the step-by-step save equals `SavedSettings`: the previous settings with `libraryCode` replaced |
| LegacyLibraryManagement.StoredSavesAgain | src/view/extensionConfiguration/libraryManagement.jsx:197-259 | a `libraryCode` saved from a loaded form loads and saves back identical |
| LegacyLibraryManagement.SaveLoadStable | src/view/extensionConfiguration/libraryManagement.jsx:197-259 | settings saved from a loaded form are a fixed point of load-then-save |
| LegacyLibraryManagement.Validate | src/view/extensionConfiguration/libraryManagement.jsx:260-293 | each of the four errors appears iff its condition holds, with its fixed message; other errors are kept |
| Cookies.LoadedTrackerProperties | src/view/extensionConfiguration/components/cookies.jsx:115-134 | the reference definition of loading; what the form shows is stated by `LoadedLifetime` and, for the copied fields, `CopiedRoundTrip` |
| Cookies.SettingsToFormValues | src/view/extensionConfiguration/components/cookies.jsx:105-140 | only `trackerProperties` is set, to the loaded ones; other form values are kept |
| Cookies.LoadedLifetime | src/view/extensionConfiguration/components/cookies.jsx:124-134 | NONE and SESSION load as themselves; any other truthy lifetime loads as SECONDS with the value beside it; a falsy one changes nothing |
| Cookies.SavedLifetime | src/view/extensionConfiguration/components/cookies.jsx:176-186 | NONE and SESSION are saved as themselves, a chosen number of seconds as a non-empty string, and DEFAULT, no mode or any other mode saves no lifetime |
| Cookies.LifetimeByMode | src/view/extensionConfiguration/components/cookies.jsx:176-186 | after saving, `cookieLifetime` is NONE or SESSION when that mode is chosen, and the previously saved lifetime for DEFAULT, no mode or any other mode |
| Cookies.DefaultKeepsLifetime | src/view/extensionConfiguration/components/cookies.jsx:176-186 | the default mode keeps the previously saved lifetime |
| Cookies.SavedTrackerProperties | src/view/extensionConfiguration/components/cookies.jsx:152-186 | the reference definition of saving, which `FormValuesToSettings` is proved equal to; what it saves is stated by `SavedCopied`, `LifetimeByMode` and `SecondsAreTrimmed` |
| Cookies.SavedSettings | src/view/extensionConfiguration/components/cookies.jsx:152-192 | `trackerProperties` is replaced by `SavedTrackerProperties` over the previously saved ones, and every other setting reads as before |
| Cookies.SavedInTwoStages | src/view/extensionConfiguration/components/cookies.jsx:152-186 | writing the copied fields and then the lifetime yields the saved tracker properties |
| Cookies.WriteCopied | src/view/extensionConfiguration/components/cookies.jsx:156-174 | the five conditional writes give each copied property its truthy form value, and leave the rest as previously saved |
| Cookies.WriteLifetime | src/view/extensionConfiguration/components/cookies.jsx:176-186 | the switch writes only `cookieLifetime`, and only when a lifetime is saved |
| Cookies.FormValuesToSettings | src/view/extensionConfiguration/components/cookies.jsx:141-192 | the step-by-step save equals `SavedSettings` |
| Cookies.NamedPeriodRoundTrip | src/view/extensionConfiguration/components/cookies.jsx:105-192 | a stored NONE or SESSION survives loading and saving |
| Cookies.SecondsRoundTrip | src/view/extensionConfiguration/components/cookies.jsx:105-192 | a stored number of seconds without surrounding white space survives loading and saving |
| Cookies.SecondsLifetime | src/view/extensionConfiguration/components/cookies.jsx:181-185 | chosen seconds that are blank save no lifetime; otherwise they save the trimmed text |
| Cookies.SecondsAreTrimmed | src/view/extensionConfiguration/components/cookies.jsx:181-185 | blank seconds leave the previous lifetime; others are saved trimmed |
| Cookies.SavedCopied | src/view/extensionConfiguration/components/cookies.jsx:156-174 | a copied field is saved when truthy, and otherwise left as previously saved |
| Cookies.CopiedRoundTrip | src/view/extensionConfiguration/components/cookies.jsx:105-192 | a truthy stored identifier or period survives loading and saving; a falsy one leaves what the previous sections saved |
| Variables.LoadedCampaign | src/view/components/variables.jsx:237-240 | the form's campaign has exactly a type (default "value") and a value (default "") |
| Variables.LoadedTrackerProperties | src/view/components/variables.jsx:227-245 | the reference definition of loading; what the form shows is stated by `LoadDefaults`, `LoadedCampaign` and `LoadedPlain` |
| Variables.SettingsToFormValues | src/view/components/variables.jsx:213-246 | only `trackerProperties` is set, to the loaded ones; other form values are kept |
| Variables.LoadDefaults | src/view/components/variables.jsx:231-240 | a falsy prefix loads as "D=", and a missing campaign as `{type: "value", value: ""}` |
| Variables.SavedCampaign | src/view/components/variables.jsx:289-294 | the saved campaign holds the form's type and value and nothing else |
| Variables.SavedTrackerProperties | src/view/components/variables.jsx:261-311 | the reference definition of saving, which `FormValuesToSettings` is proved equal to; what it saves is stated by `SavedPlain`, `SavedPrefix` and `SavedCampaignEntry` |
| Variables.SavedSettings | src/view/components/variables.jsx:261-311 | `trackerProperties` is replaced by `SavedTrackerProperties` over the previously saved ones, and every other setting reads as before |
| Variables.WritePrefix | src/view/components/variables.jsx:281-283 | the prefix is written only when given and not the default, and nothing else changes |
| Variables.WriteCampaign | src/view/components/variables.jsx:289-294 | the campaign is written only when it has a value, and nothing else changes |
| Variables.FormValuesToSettings | src/view/components/variables.jsx:247-312 | the ten conditional writes, in the view's order, equal `SavedSettings` |
| Variables.LoadedPlain | src/view/components/variables.jsx:232-243 | a plain field loads as stored |
| Variables.SavedPlain | src/view/components/variables.jsx:265-306 | a plain field is saved when truthy, and otherwise left as previously saved |
| Variables.PlainRoundTrip | src/view/components/variables.jsx:213-312 | a truthy stored plain field survives loading and saving; a falsy one leaves the previous value |
| Variables.PrefixRoundTrip | src/view/components/variables.jsx:213-312 | a prefix other than the default survives loading and saving; the default is never stored |
| Variables.SavedPrefix | src/view/components/variables.jsx:281-283 | the prefix is saved iff it is truthy and not the default |
| Variables.LoadedCampaignSaves | src/view/components/variables.jsx:289-294 | saving the campaign the form shows gives that campaign back |
| Variables.SavedCampaignEntry | src/view/components/variables.jsx:289-294 | the campaign is saved iff it has a value |
| Variables.CampaignRoundTrip | src/view/components/variables.jsx:213-312 | a stored campaign with a value survives loading and saving, its type defaulted to "value"; one without a value leaves the previous one |
| Variables.FullRoundTrip | src/view/components/variables.jsx:213-312 | tracker properties giving every field, in saved shape, load and save back identical |
| Variables.OtherFieldNotSaved | src/view/components/variables.jsx:261-263 | no property outside this section is saved into settings that had no tracker properties |
| Variables.ListedComponents | src/view/components/variables.jsx:314-315 | the listed components are the error object's array, or none |
| Variables.Validate | src/view/components/variables.jsx:313-326 | the listing is kept as a prefix, and "variables" is appended once iff eVars or props is listed; other errors are kept |
| Variables.VariablesListedIff | src/view/components/variables.jsx:317-320 | after validation this section is listed iff it was listed already or eVars or props is |
| CustomSetup.LoadedCustomSetup | src/view/components/customSetup.jsx:66-79 | the form's custom setup holds the stored code and the stored load phase, defaulted to afterSettings, and nothing else |
| CustomSetup.SettingsToFormValues | src/view/extensionConfiguration/components/customSetup.jsx:82-95 | only `customSetup` is set, to the loaded one; other form values are kept |
| CustomSetup.SavedCustomSetup | src/view/components/customSetup.jsx:86-94 | the saved custom setup holds the code, and the load phase iff it is truthy and not afterSettings |
| CustomSetup.SavedSettings | src/view/extensionConfiguration/components/customSetup.jsx:96-118 | without code the settings are unchanged; with code only `customSetup` is replaced |
| CustomSetup.FormValuesToSettings | src/view/components/customSetup.jsx:80-102 | the step-by-step save equals `SavedSettings` |
| CustomSetup.RoundTrip | src/view/extensionConfiguration/components/customSetup.jsx:82-118 | stored code with a non-default phase, or none, survives loading and saving; a stored afterSettings phase is dropped |
| SendBeacon.LinkNameLabel | src/view/actions/sendBeacon/sendBeacon.jsx:52-64 | the label is "File Name" for downloads, "Destination URL" for exits and "Link Name" otherwise |
| SendBeacon.SettingsToFormValues | src/view/actions/sendBeacon/sendBeacon.jsx:134-147 | type defaults to page, link type to custom, the link name is passed through, and other form values are kept |
| SendBeacon.SavedSettings | src/view/actions/sendBeacon/sendBeacon.jsx:148-168 | the reference definition of saving, which `FormValuesToSettings` is proved equal to; what it saves is stated by `LinkRoundTrip` and `PageRoundTrip` |
| SendBeacon.FormValuesToSettings | src/view/actions/sendBeacon/sendBeacon.jsx:148-168 | the step-by-step save equals `SavedSettings` |
| SendBeacon.LoadDefaults | src/view/actions/sendBeacon/sendBeacon.jsx:141-146 | without stored settings the form shows a custom-link page view without a name |
| SendBeacon.LinkRoundTrip | src/view/actions/sendBeacon/sendBeacon.jsx:133-168 | a stored link beacon with its type and name loads and saves back identical |
| SendBeacon.PageRoundTrip | src/view/actions/sendBeacon/sendBeacon.jsx:155-165 | a stored page beacon saves back as a page beacon alone; the defaulted link fields are not saved |
| ConfigurationSelector.Shown | src/view/actions/components/configurationSelector.jsx:22-40 | a warning for no configuration, nothing for one, and a choice offering each of two or more in order |
| ConfigurationSelector.KeptIds | src/view/actions/components/configurationSelector.jsx:104-108 | an ID is kept iff it is stored and some available configuration has it |
| ConfigurationSelector.KeptIdsSubsequence | src/view/actions/components/configurationSelector.jsx:104-108 | the kept IDs keep the stored order |
| ConfigurationSelector.KeptIdsCount | src/view/actions/components/configurationSelector.jsx:104-108 | every copy of an available stored ID is kept and none of the others, so duplicates are not collapsed |
| ConfigurationSelector.SettingsToFormValues | src/view/actions/components/configurationSelector.jsx:96-116 | the kept IDs are loaded, with selection type subset iff any remain and all otherwise |
| ConfigurationSelector.FormValuesToSettings | src/view/actions/components/configurationSelector.jsx:117-131 | for a subset the given IDs are written and nothing else changes; otherwise the settings are unchanged |
| ConfigurationSelector.Validate | src/view/actions/components/configurationSelector.jsx:132-148 | an error on the IDs iff a subset is chosen with none, and the other errors are unchanged |
| ConfigurationSelector.LoadedFormValid | src/view/actions/components/configurationSelector.jsx:96-148 | a freshly loaded form always passes validation |
| ConfigurationSelector.RoundTrip | src/view/actions/components/configurationSelector.jsx:96-131 | available stored IDs load and save back in order; when none remain, the settings are saved as they were |
| ConfigurationSelector.AvailableIdsRoundTrip | src/view/actions/components/configurationSelector.jsx:96-131 | stored IDs that are all available save back unchanged |
| ConfigurationSelector.AllKept | src/view/actions/components/configurationSelector.jsx:104-108 | filtering IDs that are all available keeps them all, in order |
| XdmTree.Scoped | src/view/dataElements/xdmObject/helpers/array/populateTreeNode.js:43-44 | the errors or touched state handed down is the named part when truthy, and undefined otherwise |
| XdmArray.ItemLabel | src/view/dataElements/xdmObject/helpers/array/populateTreeNode.js:37 | a label is "Item " followed by the one-based decimal index |
| XdmArray.ItemRequest | src/view/dataElements/xdmObject/helpers/array/populateTreeNode.js:35-45 | a child is asked for with its item, its "Item N" label, the OR of the two flags and the parent's two callbacks; its errors and touched state are stated by `ItemErrorsScoped`, and the flag of a shown child by `ShownChildrenNotWhole` |
| XdmArray.PopulateTreeNode | src/view/dataElements/xdmObject/helpers/array/populateTreeNode.js:13-49 | with no items, or when the whole population strategy applies, the children are untouched; otherwise there is one child per item, in order, each built from its item's request |
| XdmArray.ItemLabelsDistinct | src/view/dataElements/xdmObject/helpers/array/populateTreeNode.js:37 | no two items share a label |
| XdmArray.FirstAndTenthLabels | src/view/dataElements/xdmObject/helpers/array/populateTreeNode.js:37 | the first item is "Item 1" and the tenth "Item 10" |
| XdmArray.ShownChildrenNotWhole | src/view/dataElements/xdmObject/helpers/array/populateTreeNode.js:26-40 | children that are shown are never told an ancestor is populated as a whole |
| XdmArray.ItemErrorsScoped | src/view/dataElements/xdmObject/helpers/array/populateTreeNode.js:43-44 | a child's errors are its entry in `errors.items` (undefined past the end), and undefined without items |
| XdmObject.PropertyNames | src/view/dataElements/xdmObject/helpers/object/populateTreeNode.js:27 | an object yields its property names, and a value without keys yields none |
| XdmObject.PropertyRequest | src/view/dataElements/xdmObject/helpers/object/populateTreeNode.js:31-47 | a child is asked for with its property's form state, its name as label, the OR of the two flags and the parent's two callbacks; its errors and touched state are stated by `PropertyErrorsScoped`, and the flag by `WholePopulationHandedDown` |
| XdmObject.PopulateTreeNode | src/view/dataElements/xdmObject/helpers/object/populateTreeNode.js:13-52 | with no properties the children are untouched; otherwise there is one child per property, in sorted name order, each built from its property's request |
| XdmObject.ChildPerProperty | src/view/dataElements/xdmObject/helpers/object/populateTreeNode.js:27-29 | every property has a child, and no name is listed twice |
| XdmObject.WholePopulationHandedDown | src/view/dataElements/xdmObject/helpers/object/populateTreeNode.js:34-36 | a child is told an ancestor is populated as a whole iff this node or an ancestor is |
| XdmObject.PropertyErrorsScoped | src/view/dataElements/xdmObject/helpers/object/populateTreeNode.js:39-46 | a child's errors and touched state are the entry under its name in `properties`, and undefined without properties |

## Left out

- Rendering and event handling (React components, Coral widgets, code-editor buttons and data-element selectors) are not modelled. Only the forms' `settingsToFormValues`, `formValuesToSettings` and `validate` are.
- Logging (`logger.info`) is not modelled. It has no effect on the state.
- The cookie jar, the consent cookie's name and the shared MCID instance come from the page and the host. They are given as an `Environment` parameter.
- The library loader, `applyTrackerVariables` and the custom setup script are functions passed in as parameters. `loadLibrary.js` and `applyTrackerVariables.js` are not part of this model.
- Promises are not modelled. The chain becomes sequential calls, and the module's cached promise is the result of one call. Two kinds of failure end the chain: the loader's rejection, and a value thrown by the custom setup script or `applyTrackerVariables`. The linking and stamping stages cannot fail.
- GetTracker.Tracker.Run: outside code that throws is taken to leave the tracker as it found it. Changes it made before throwing are not modelled.
- GenerateVersion.Generate: the parsing of the build-date string by `new Date` is not modelled. Its input is the four fields of the parsed date, or `None` for a string that does not parse. Local-time `getDate` and time zones are taken as given.
- `null` and floating-point numbers are not modelled. Numbers are integers, and a numeric `length` is read only for arrays, strings and objects storing one.
- A property assigned `undefined` is the same as a missing one. The persisted JSON settings do not keep the difference, but the in-memory form state does.
- Js.ToUpperCase: only ASCII letters change case. The sources only upper-case base-36 digits.
- Js.Less: strings compare by Unicode code point. JavaScript's default sort compares UTF-16 code units, which differ only for characters outside the Basic Multilingual Plane.
- Variables.Validate: a truthy `componentsWithErrors` that is not an array is excluded by the precondition. Only in some of these cases would the code throw. For a string listing, `slice` and `indexOf` succeed, and `indexOf` searches for a substring. Only `push` throws, and only when "eVars" or "props" occurs in the string. Otherwise the code returns the string unchanged.
- Js.Fields: spreading a value that is not an object copies nothing. JavaScript's `{..."ab"}` would copy the index keys "0" and "1" of a string, or of an array. This matters only for `...values.trackerProperties` and `...settings.trackerProperties` in the cookies and variables sections, which only ever store an object there.
- XdmObject.PopulateTreeNode: the index keys of a string or non-empty array held in `properties` are not modelled. Such values are excluded by the `requires`.
- XdmObject.PropertyRequest: an `errors.properties` or `touched.properties` that is truthy but not an object gives the child no state. JavaScript would index the value.
- What `getTreeNode` builds, and the other fields of a tree node, are not modelled. `getTreeNode` is a function parameter.
- TypeErrors the sources would throw are preconditions of the member that would throw:
  - destructuring an undefined `values.libraryCode`, `values.trackerProperties` or `values.customSetup`;
  - reading `values.libraryCode.accounts` in the current library-management save when `values.libraryCode` is undefined (that save's destructuring is guarded by `|| {}`);
  - `accounts.production` on undefined accounts;
  - `trim` on a non-string, and `indexOf` on a value that is neither a string nor an array. URLs that are arrays are excluded as well, although `indexOf` would not throw on them; the URL text fields never hold one;
  - `.length` of undefined IDs;
  - `.filter` on stored `extensionConfigurationIds` that are not an array (the `IdsAreList` precondition);
  - `map` over items that are not an array.
- The environment names (`ENVIRONMENTS`) and component names (`COMPONENT_NAMES`) are enumerations from files that are not part of this model. They are parameters.
- The eVar, prop, event and hierarchy editors merged into the variables section, `mergeConfigs` and `createFormConfig` are not part of this model.
- The extension bridge is not modelled. `options` is the `InitOptions` datatype of settings and available configurations.
- In the variables, send-beacon and extension-configuration custom setup sections, `settingsToFormValues` reads its second argument as the settings object itself. The model follows the code as written.
- In the current library-management section, the library tests expect custom code under `source`, but the code reads and writes `script`. The model follows the code.
- In the cookies section, a test expects a validation error for blank seconds, but the section has no `validate`; blank seconds simply save no lifetime. The model follows the code.
