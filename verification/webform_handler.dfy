/**
 * SubmissionStorageHandler: after a webform submission is saved, substitute
 * tokens into the configured field mapping, decode it as YAML and hand the
 * decoded record to one storage backend.
 */
module WebformHandler {
  import opened Php
  import opened Configuration
  import opened Trace
  import opened StorageService

  /** The collaborators `postSave` reaches for the submission at hand:
      token substitution against it, the YAML decoder (which may throw), the
      submission's own data, and the persistence oracles of the storage service. */
  datatype Host = Host(
    replaceTokens: string -> string,
    decode: string -> Completion<Value>,
    submissionData: map<string, Value>,
    save: Saver,
    insert: Inserter)

  /** What the mapping decodes to, or None when no mapping is configured and
      `$data_replace_decode` is therefore never assigned. */
  function Decoding(config: Config, host: Host): Option<Completion<Value>>
  {
    if MappingGiven(config) then Some(host.decode(host.replaceTokens(config.storageFieldsMapping)))
    else None
  }

  /** The field->value record that can reach a backend: the decoded mapping,
      when it decoded to an array. */
  function Record(config: Config, host: Host): Option<map<string, Value>>
  {
    match Decoding(config, host)
    case Some(Normal(VArray(m))) => Some(m)
    case _ => None
  }

  /** The debug echo of the decoded mapping and the raw submission data. */
  function PreDispatchLog(config: Config, host: Host): seq<Event>
  {
    match Decoding(config, host)
    case Some(Normal(v)) =>
      if Truthy(config.debug) then [Log(Info, ConfigData(v, host.submissionData))] else []
    case _ => []
  }

  /** How `postSave` ends once the storage method it called has ended: the
      method's return value is dropped, whatever it throws propagates. */
  function Propagate(c: Completion<Value>): Completion<()>
  {
    match c
    case Normal(_) => Normal(())
    case Abrupt(t) => Abrupt(t)
  }

  /** How `postSave` ends and what it causes. */
  datatype HandlerRun = HandlerRun(outcome: Completion<()>, trace: seq<Event>)

  /** The behaviour of `postSave` as a decision table over the route the
      configuration selects and what the mapping decodes to. */
  function ExpectedPostSave(config: Config, host: Host): HandlerRun
  {
    var route := RouteOf(config);
    if route == Unconfigured then
      HandlerRun(Normal(()), [Log(Error, StorageTypeNotConfigured)])
    else if route == Nowhere then
      match Decoding(config, host)
      case Some(Abrupt(t)) => HandlerRun(Abrupt(t), [])
      case _ => HandlerRun(Normal(()), PreDispatchLog(config, host))
    else
      match Decoding(config, host)
      case None => HandlerRun(Abrupt(ArrayArgumentTypeError), [UndefinedVariable("data_replace_decode")])
      case Some(Abrupt(t)) => HandlerRun(Abrupt(t), [])
      case Some(Normal(VArray(m))) =>
        if route == EntityStore then
          var run := EntitySubmission(config, m, host.save);
          HandlerRun(Propagate(run.result), PreDispatchLog(config, host) + [SubmitEntity(config, m)] + run.trace)
        else
          var run := TableSubmission(config, m, host.insert);
          HandlerRun(Propagate(run.result), PreDispatchLog(config, host) + [SubmitTable(config, m)] + run.trace)
      case Some(Normal(_)) => HandlerRun(Abrupt(ArrayArgumentTypeError), PreDispatchLog(config, host))
  }

  /** `postSave`: the events it causes, in order, and how it ends. */
  method PostSave(config: Config, host: Host) returns (outcome: Completion<()>, trace: seq<Event>)
    ensures HandlerRun(outcome, trace) == ExpectedPostSave(config, host)
  {
    trace := [];
    if EmptyString(config.storageType) {
      trace := [Log(Error, StorageTypeNotConfigured)];
      return Normal(()), trace;
    }

    var dataMapping := if !EmptyString(config.storageFieldsMapping) then config.storageFieldsMapping else "";
    var dataReplaceDecode: Option<Value> := None;  // unassigned until the mapping is decoded
    if !EmptyString(dataMapping) {
      var dataReplace := host.replaceTokens(dataMapping);
      var decoded := host.decode(dataReplace);
      if decoded.Abrupt? {
        return Abrupt(decoded.thrown), trace;
      }
      dataReplaceDecode := Some(decoded.value);
      var data := host.submissionData;
      if Truthy(config.debug) {
        trace := trace + [Log(Info, ConfigData(decoded.value, data))];
      }
    }
    assert trace == PreDispatchLog(config, host);

    if !EmptyString(config.storageType) && !EmptyString(config.storageKey) && config.storageType == "entity" {
      if dataReplaceDecode.None? {
        trace := trace + [UndefinedVariable("data_replace_decode")];
      }
      var argument := if dataReplaceDecode.Some? then dataReplaceDecode.value else VNull;
      if !argument.VArray? {
        return Abrupt(ArrayArgumentTypeError), trace;
      }
      trace := trace + [SubmitEntity(config, argument.entries)];
      var result, serviceTrace := StorageSubmitEntity(config, argument.entries, host.save);
      trace := trace + serviceTrace;
      if result.Abrupt? {
        return Abrupt(result.thrown), trace;
      }
    }

    if !EmptyString(config.storageType) && !EmptyString(config.storageKey) && config.storageType == "table" {
      if dataReplaceDecode.None? {
        trace := trace + [UndefinedVariable("data_replace_decode")];
      }
      var argument := if dataReplaceDecode.Some? then dataReplaceDecode.value else VNull;
      if !argument.VArray? {
        return Abrupt(ArrayArgumentTypeError), trace;
      }
      trace := trace + [SubmitTable(config, argument.entries)];
      var result, serviceTrace := StorageSubmitTable(config, argument.entries, host.insert);
      trace := trace + serviceTrace;
      if result.Abrupt? {
        return Abrupt(result.thrown), trace;
      }
    }
    outcome := Normal(());
  }

  /** The part of the handler plugin whose state the settings form updates. */
  class SubmissionStorageHandler {
    var configuration: Config

    /** `submitConfigurationForm`: the submitted settings replace the
        configuration, and `debug` is cast to a boolean. */
    method SubmitConfigurationForm(submitted: Config)
      modifies this
      ensures configuration.debug.VBool?
      ensures Truthy(configuration.debug) == Truthy(submitted.debug)
      ensures configuration == submitted.(debug := configuration.debug)
      ensures RouteOf(configuration) == RouteOf(submitted)
    {
      configuration := submitted;
      configuration := configuration.(debug := VBool(Truthy(configuration.debug)));
    }
  }
}
