/**
 * The handler's configuration array and the routing decision it encodes.
 */
module Configuration {
  import opened Php

  /** `$this->configuration` of the handler: the selected storage type, the
      entity type or table name, the YAML field mapping text and the debug flag
      (stored as whatever value the settings form produced). */
  datatype Config = Config(
    storageType: string,
    storageKey: string,
    storageFieldsMapping: string,
    debug: Value)

  /** Where `postSave` sends a submission, read off the configuration alone. */
  datatype Route =
    | Unconfigured   // `storage_type` is empty: only the error log
    | EntityStore    // `storage_type` is "entity" and `storage_key` is non-empty
    | TableStore     // `storage_type` is "table" and `storage_key` is non-empty
    | Nowhere        // configured, but neither backend's guard holds

  function RouteOf(c: Config): Route
  {
    if EmptyString(c.storageType) then Unconfigured
    else if !EmptyString(c.storageKey) && c.storageType == "entity" then EntityStore
    else if !EmptyString(c.storageKey) && c.storageType == "table" then TableStore
    else Nowhere
  }

  /** Whether a field mapping is configured (`!empty(storage_fields_mapping)`). */
  predicate MappingGiven(c: Config)
  {
    !EmptyString(c.storageFieldsMapping)
  }

  /** The handler's default configuration: nothing is configured, debugging is
      off, so a submission is routed nowhere and no mapping is decoded. */
  function DefaultConfiguration(): (c: Config)
    ensures RouteOf(c) == Unconfigured
    ensures !MappingGiven(c)
    ensures c.debug == VBool(false) && !Truthy(c.debug)
  {
    Config("", "", "", VBool(false))
  }
}
