/**
 * What `postSave` guarantees, proved about its reference behaviour
 * `ExpectedPostSave` (which `PostSave` is proved to follow).
 */
module PostSaveProperties {
  import opened Php
  import opened Configuration
  import opened Trace
  import opened StorageService
  import opened WebformHandler

  lemma CountAround(pre: seq<Event>, e: Event, post: seq<Event>, p: Event -> bool)
    ensures Count(pre + [e] + post, p) == Count(pre, p) + (if p(e) then 1 else 0) + Count(post, p)
  {
    CountAppend(pre, [e], p);
    CountAppend(pre + [e], post, p);
    assert [e][..0] == [];
  }

  /** The debug echo holds at most one entry, the decoded mapping beside the raw
      submission data. */
  lemma PreDispatchLogShape(config: Config, host: Host)
    ensures var pre := PreDispatchLog(config, host);
      |pre| <= 1 &&
      (|pre| == 1 <==> Truthy(config.debug) && Decoding(config, host).Some? && Decoding(config, host).value.Normal?) &&
      forall e :: e in pre ==>
        e == Log(Info, ConfigData(Decoding(config, host).value.value, host.submissionData))
  {
  }

  /** The "not configured" error is logged once when `storage_type` is empty and
      never otherwise. */
  lemma NotConfiguredLoggedOnce(config: Config, host: Host)
    ensures Count(ExpectedPostSave(config, host).trace, IsNotConfiguredLog) ==
      (if RouteOf(config) == Unconfigured then 1 else 0)
  {
    PreDispatchLogShape(config, host);
    if RouteOf(config) in {EntityStore, TableStore} && Record(config, host).Some? {
      CallCount(config, host, IsNotConfiguredLog);
    }
  }

  /** When a backend is called, the trace is the debug echo, the call, and what
      the storage method did. */
  lemma DispatchTrace(config: Config, host: Host, p: Event -> bool)
    requires RouteOf(config) in {EntityStore, TableStore} && Record(config, host).Some?
    ensures var m := Record(config, host).value;
      var call := if RouteOf(config) == EntityStore then SubmitEntity(config, m) else SubmitTable(config, m);
      var post := if RouteOf(config) == EntityStore then EntitySubmission(config, m, host.save).trace
                  else TableSubmission(config, m, host.insert).trace;
      Count(ExpectedPostSave(config, host).trace, p) ==
        Count(PreDispatchLog(config, host), p) + (if p(call) then 1 else 0) + Count(post, p)
  {
    var m := Record(config, host).value;
    if RouteOf(config) == EntityStore {
      CountAround(PreDispatchLog(config, host), SubmitEntity(config, m), EntitySubmission(config, m, host.save).trace, p);
    } else {
      CountAround(PreDispatchLog(config, host), SubmitTable(config, m), TableSubmission(config, m, host.insert).trace, p);
    }
  }

  /** At most one backend is called; the entity backend exactly when the route
      is the entity store and the mapping decoded to an array, and likewise for
      the table backend. */
  lemma AtMostOneDispatch(config: Config, host: Host)
    ensures var trace := ExpectedPostSave(config, host).trace;
      && Count(trace, IsDispatch) <= 1
      && Count(trace, IsEntityDispatch) == (if RouteOf(config) == EntityStore && Record(config, host).Some? then 1 else 0)
      && Count(trace, IsTableDispatch) == (if RouteOf(config) == TableStore && Record(config, host).Some? then 1 else 0)
  {
    if RouteOf(config) in {EntityStore, TableStore} && Record(config, host).Some? {
      DispatchCountsWithRecord(config, host);
    } else {
      NoDispatchWithoutRecord(config, host);
    }
  }

  lemma DispatchCountsWithRecord(config: Config, host: Host)
    requires RouteOf(config) in {EntityStore, TableStore} && Record(config, host).Some?
    ensures var trace := ExpectedPostSave(config, host).trace;
      && Count(trace, IsDispatch) == 1
      && Count(trace, IsEntityDispatch) == (if RouteOf(config) == EntityStore then 1 else 0)
      && Count(trace, IsTableDispatch) == (if RouteOf(config) == TableStore then 1 else 0)
  {
    PreDispatchLogShape(config, host);
    CallCount(config, host, IsDispatch);
    CallCount(config, host, IsEntityDispatch);
    CallCount(config, host, IsTableDispatch);
  }

  /** An event kind that no storage method emits occurs in a dispatching trace
      as often as in the debug echo, plus the backend call itself. */
  lemma CallCount(config: Config, host: Host, p: Event -> bool)
    requires RouteOf(config) in {EntityStore, TableStore} && Record(config, host).Some?
    requires forall e: Event :: e.EntitySave? || e.TableInsert? || (e.Log? && ServiceMessage(e.message)) ==> !p(e)
    ensures var m := Record(config, host).value;
      var call := if RouteOf(config) == EntityStore then SubmitEntity(config, m) else SubmitTable(config, m);
      Count(ExpectedPostSave(config, host).trace, p) ==
        Count(PreDispatchLog(config, host), p) + (if p(call) then 1 else 0)
  {
    DispatchTrace(config, host, p);
  }

  predicate ServiceMessage(m: Message)
  {
    m.EntityCreationError? || m.RowInserted? || m.TableInsertError?
  }

  /** Without a route or without a decoded array, the trace holds no backend call. */
  lemma NoDispatchWithoutRecord(config: Config, host: Host)
    requires !(RouteOf(config) in {EntityStore, TableStore} && Record(config, host).Some?)
    ensures forall e :: e in ExpectedPostSave(config, host).trace ==> !IsDispatch(e)
    ensures var trace := ExpectedPostSave(config, host).trace;
      Count(trace, IsDispatch) == 0 && Count(trace, IsEntityDispatch) == 0 && Count(trace, IsTableDispatch) == 0
  {
  }

  /** A backend call carries the handler's configuration and the decoded
      mapping, and goes to the backend its route names; the raw submission data
      only reaches the debug echo. */
  lemma DispatchCarriesDecodedMapping(config: Config, host: Host)
    ensures forall e :: e in ExpectedPostSave(config, host).trace && IsDispatch(e) ==>
      e.config == config && Record(config, host) == Some(e.record) &&
      (e.SubmitEntity? ==> RouteOf(config) == EntityStore) &&
      (e.SubmitTable? ==> RouteOf(config) == TableStore)
  {
  }

  /** The pre-dispatch echo is logged once exactly when the handler is
      configured, debugging is on and the mapping decodes; it shows the decoded
      mapping and the raw submission data. */
  lemma DebugEchoLoggedOnce(config: Config, host: Host)
    ensures var trace := ExpectedPostSave(config, host).trace;
      && Count(trace, IsConfigDataLog) ==
         (if RouteOf(config) != Unconfigured && Truthy(config.debug) && Decoding(config, host).Some?
             && Decoding(config, host).value.Normal? then 1 else 0)
      && forall e :: e in trace && IsConfigDataLog(e) ==>
           e.message.data == host.submissionData &&
           Decoding(config, host) == Some(Normal(e.message.configData))
  {
    PreDispatchLogShape(config, host);
    if RouteOf(config) in {EntityStore, TableStore} && Record(config, host).Some? {
      CallCount(config, host, IsConfigDataLog);
    }
  }

  /** The record handed to a backend is the very value echoed as the config data. */
  lemma EchoedMappingIsDispatched(config: Config, host: Host)
    ensures var trace := ExpectedPostSave(config, host).trace;
      forall d, l :: d in trace && l in trace && IsDispatch(d) && IsConfigDataLog(l) ==>
        l.message.configData == VArray(d.record)
  {
  }

  /** Without a route nothing is written and no error is logged beyond the
      "not configured" one; the debug echo may still appear. */
  lemma NoRouteNoWrite(config: Config, host: Host)
    requires RouteOf(config) in {Unconfigured, Nowhere}
    ensures var r := ExpectedPostSave(config, host);
      && Count(r.trace, IsDispatch) == 0
      && Count(r.trace, IsEntitySave) == 0
      && Count(r.trace, IsTableInsert) == 0
      && Count(r.trace, IsErrorLog) == (if RouteOf(config) == Unconfigured then 1 else 0)
      && (RouteOf(config) == Nowhere ==> r.trace == PreDispatchLog(config, host))
  {
  }

  /** On the entity route with debugging on, a save that yields a truthy id
      stores the entity and then throws out of `postSave`: the success message
      is never logged. */
  lemma DebugEntitySuccessThrows(config: Config, host: Host, m: map<string, Value>, id: Value)
    requires RouteOf(config) == EntityStore && Record(config, host) == Some(m)
    requires host.save(config.storageKey, m) == Normal(id) && Truthy(id) && Truthy(config.debug)
    ensures var r := ExpectedPostSave(config, host);
      && r.outcome == Abrupt(UndefinedInfoCall)
      && Count(r.trace, IsEntitySave) == 1
      && Count(r.trace, IsInfoLog) == 1
      && r.trace[0] == Log(Info, ConfigData(VArray(m), host.submissionData))
  {
    PreDispatchLogShape(config, host);
    CountAround(PreDispatchLog(config, host), SubmitEntity(config, m), EntitySubmission(config, m, host.save).trace, IsInfoLog);
  }

  /** On the entity route an EntityStorageException from saving is logged once
      and does not escape `postSave`. */
  lemma EntityStorageExceptionContained(config: Config, host: Host, m: map<string, Value>, t: Throwable)
    requires RouteOf(config) == EntityStore && Record(config, host) == Some(m)
    requires host.save(config.storageKey, m) == Abrupt(t) && InstanceOf(t, EntityStorageExceptionClass)
    ensures var r := ExpectedPostSave(config, host);
      r.outcome == Normal(()) && Count(r.trace, IsErrorLog) == 1 &&
      Log(Error, EntityCreationError(t.message)) in r.trace
  {
  }

  /** On the table route an exception from the insert that is not of the
      module's own (undeclared) Exception class — any real database exception —
      escapes `postSave` without being logged. */
  lemma DatabaseExceptionEscapes(config: Config, host: Host, m: map<string, Value>, t: Throwable)
    requires RouteOf(config) == TableStore && Record(config, host) == Some(m)
    requires host.insert(config.storageKey, m) == Abrupt(t) && !InstanceOf(t, ModuleExceptionClass)
    ensures var r := ExpectedPostSave(config, host);
      r.outcome == Abrupt(t) && Count(r.trace, IsErrorLog) == 0 && Count(r.trace, IsTableInsert) == 1
  {
  }

  /** On the table route a truthy insert id is returned normally; with
      debugging on, the echo and the success message are logged, and without it
      nothing is logged. */
  lemma TableSuccessLogging(config: Config, host: Host, m: map<string, Value>, id: Value)
    requires RouteOf(config) == TableStore && Record(config, host) == Some(m)
    requires host.insert(config.storageKey, m) == Normal(id) && Truthy(id)
    ensures var r := ExpectedPostSave(config, host);
      && r.outcome == Normal(())
      && Count(r.trace, IsInfoLog) == (if Truthy(config.debug) then 2 else 0)
      && Count(r.trace, IsErrorLog) == 0
  {
    var pre := PreDispatchLog(config, host);
    PreDispatchLogShape(config, host);
    var post := TableSubmission(config, m, host.insert).trace;
    CountAround(pre, SubmitTable(config, m), post, IsInfoLog);
    CountAround(pre, SubmitTable(config, m), post, IsErrorLog);
  }
}
