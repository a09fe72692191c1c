/** What the host's extension bridge hands a view when it initialises it. */
module Bridge {
  import opened Js

  /** One configuration of the extension that an action may apply to. */
  datatype ExtensionConfiguration = ExtensionConfiguration(id: string, name: string)

  /** The `options` object of `settingsToFormValues(values, options)`. */
  datatype InitOptions = InitOptions(settings: Object, extensionConfigurations: seq<ExtensionConfiguration>)
}
