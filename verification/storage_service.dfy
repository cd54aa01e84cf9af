/**
 * StorageService: writes one resolved field->value record to the entity store
 * or to a database table. The persistence layer is an oracle parameter: `save`
 * tells how saving an entity with the given type and fields ends (the id its
 * `id()` then reports, or what it throws), `insert` how the insert of a row ends
 * (the id `execute()` returns, or what it throws).
 */
module StorageService {
  import opened Php
  import opened Configuration
  import opened Trace

  type Saver = (string, map<string, Value>) -> Completion<Value>
  type Inserter = (string, map<string, Value>) -> Completion<Value>

  /** The value PHP code returns as `FALSE`. */
  const False := VBool(false)

  /** How one call of a storage method ends, and what it did. */
  datatype Run = Run(result: Completion<Value>, trace: seq<Event>)

  /** An entity created by `entity_create`, whose fields the service assigns one
      by one. `fields` holds the values assigned since creation. */
  class Entity {
    const entityType: string
    var fields: map<string, Value>

    constructor (entityType: string)
      ensures this.entityType == entityType && fields == map[]
    {
      this.entityType := entityType;
      fields := map[];
    }

    /** `$entity->$name = $value`. */
    method SetField(name: string, value: Value)
      modifies this
      ensures fields == old(fields)[name := value]
    {
      fields := fields[name := value];
    }
  }

  /** What `storageSubmitEntity($config, $data)` does, given how the save ends. */
  function EntitySubmission(config: Config, data: map<string, Value>, save: Saver): (run: Run)
    // exactly one entity is saved, of the type `storage_key`, holding exactly `data`
    ensures |run.trace| >= 1 && run.trace[0] == EntitySave(config.storageKey, data)
    ensures Count(run.trace, IsEntitySave) == 1
    // the success message is never logged: the debug branch throws instead
    ensures Count(run.trace, IsInfoLog) == 0
    // one error log, exactly when saving threw an EntityStorageException
    ensures var s := save(config.storageKey, data);
      Count(run.trace, IsErrorLog) ==
        (if s.Abrupt? && InstanceOf(s.thrown, EntityStorageExceptionClass) then 1 else 0)
    ensures var s := save(config.storageKey, data);
      s.Abrupt? && InstanceOf(s.thrown, EntityStorageExceptionClass) ==>
        run.trace == [EntitySave(config.storageKey, data), Log(Error, EntityCreationError(s.thrown.message))]
    // a returned value is FALSE or the truthy id the saved entity reports
    ensures run.result.Normal? ==>
      run.result.value == False ||
      (Truthy(run.result.value) && save(config.storageKey, data) == Normal(run.result.value))
    ensures var s := save(config.storageKey, data);
      s.Normal? && Truthy(s.value) && !Truthy(config.debug) ==> run.result == Normal(s.value)
    ensures var s := save(config.storageKey, data);
      s.Normal? && !Truthy(s.value) ==> run.result == Normal(False) && run.trace == [run.trace[0]]
    // what escapes: an undefined-function Error on the debug success path, or
    // any exception from saving that is not an EntityStorageException
    ensures var s := save(config.storageKey, data);
      run.result.Abrupt? <==>
        (s.Normal? && Truthy(s.value) && Truthy(config.debug)) ||
        (s.Abrupt? && !InstanceOf(s.thrown, EntityStorageExceptionClass))
    ensures var s := save(config.storageKey, data);
      run.result.Abrupt? ==> run.result.thrown == (if s.Normal? then UndefinedInfoCall else s.thrown)
    ensures forall e :: e in run.trace ==> e.EntitySave? || (e.Log? && e.message.EntityCreationError?)
  {
    var saved := EntitySave(config.storageKey, data);
    match save(config.storageKey, data)
    case Normal(id) =>
      if !Truthy(id) then Run(Normal(False), [saved])
      else if Truthy(config.debug) then Run(Abrupt(UndefinedInfoCall), [saved])
      else Run(Normal(id), [saved])
    case Abrupt(t) =>
      if InstanceOf(t, EntityStorageExceptionClass) then
        Run(Normal(False), [saved, Log(Error, EntityCreationError(t.message))])
      else Run(Abrupt(t), [saved])
  }

  /** What `storageSubmitTable($config, $data)` does, given how the insert ends. */
  function TableSubmission(config: Config, data: map<string, Value>, insert: Inserter): (run: Run)
    // exactly one insert into the table `storage_key`, with `data` as its columns
    ensures |run.trace| >= 1 && run.trace[0] == TableInsert(config.storageKey, data)
    ensures Count(run.trace, IsTableInsert) == 1
    // the success message is logged once when debugging and the id is truthy
    ensures var s := insert(config.storageKey, data);
      Count(run.trace, IsInfoLog) == (if s.Normal? && Truthy(s.value) && Truthy(config.debug) then 1 else 0)
    ensures forall e :: e in run.trace && IsInfoLog(e) ==>
      e.message == RowInserted(config.storageKey, insert(config.storageKey, data).value)
    // a returned value is FALSE or the truthy id the insert produced
    ensures run.result.Normal? ==>
      run.result.value == False ||
      (Truthy(run.result.value) && insert(config.storageKey, data) == Normal(run.result.value))
    ensures var s := insert(config.storageKey, data);
      s.Normal? ==> run.result == Normal(if Truthy(s.value) then s.value else False)
    // one error log, exactly when the insert threw the module's own Exception class,
    // naming the table and the exception's message
    ensures var s := insert(config.storageKey, data);
      Count(run.trace, IsErrorLog) == (if s.Abrupt? && InstanceOf(s.thrown, ModuleExceptionClass) then 1 else 0)
    ensures var s := insert(config.storageKey, data);
      s.Abrupt? && InstanceOf(s.thrown, ModuleExceptionClass) ==>
        run.trace == [TableInsert(config.storageKey, data), Log(Error, TableInsertError(config.storageKey, s.thrown.message))]
    // only a throwable of the module's own Exception class is caught and logged
    ensures var s := insert(config.storageKey, data);
      s.Abrupt? ==>
        if InstanceOf(s.thrown, ModuleExceptionClass) then
          run.result == Normal(False) && Count(run.trace, IsErrorLog) == 1
        else
          run.result == Abrupt(s.thrown) && Count(run.trace, IsErrorLog) == 0
    ensures forall e :: e in run.trace ==>
      e.TableInsert? || (e.Log? && (e.message.RowInserted? || e.message.TableInsertError?))
  {
    var inserted := TableInsert(config.storageKey, data);
    match insert(config.storageKey, data)
    case Normal(id) =>
      if !Truthy(id) then Run(Normal(False), [inserted])
      else if Truthy(config.debug) then
        Run(Normal(id), [inserted, Log(Info, RowInserted(config.storageKey, id))])
      else Run(Normal(id), [inserted])
    case Abrupt(t) =>
      if InstanceOf(t, ModuleExceptionClass) then
        Run(Normal(False), [inserted, Log(Error, TableInsertError(config.storageKey, t.message))])
      else Run(Abrupt(t), [inserted])
  }

  /** `storageSubmitEntity`: create an entity of type `storage_key`, copy every
      entry of `data` onto it, save it, and report the id or FALSE. */
  method StorageSubmitEntity(config: Config, data: map<string, Value>, save: Saver)
    returns (result: Completion<Value>, trace: seq<Event>)
    ensures Run(result, trace) == EntitySubmission(config, data, save)
  {
    var entity := new Entity(config.storageKey);
    var pending := data.Keys;
    while pending != {}
      invariant pending <= data.Keys
      invariant entity.entityType == config.storageKey
      invariant entity.fields == map k | k in data.Keys - pending :: data[k]
      decreases pending
    {
      var key :| key in pending;
      entity.SetField(key, data[key]);
      pending := pending - {key};
    }
    assert entity.fields == data;

    trace := [EntitySave(entity.entityType, entity.fields)];
    match save(entity.entityType, entity.fields)
    case Normal(id) =>
      if Truthy(id) {
        if Truthy(config.debug) {
          result := Abrupt(UndefinedInfoCall);
        } else {
          result := Normal(id);
        }
      } else {
        result := Normal(False);
      }
    case Abrupt(t) =>
      if InstanceOf(t, EntityStorageExceptionClass) {
        trace := trace + [Log(Error, EntityCreationError(t.message))];
        result := Normal(False);
      } else {
        result := Abrupt(t);
      }
  }

  /** `storageSubmitTable`: insert `data` as one row of the table `storage_key`
      and report the id or FALSE. */
  method StorageSubmitTable(config: Config, data: map<string, Value>, insert: Inserter)
    returns (result: Completion<Value>, trace: seq<Event>)
    ensures Run(result, trace) == TableSubmission(config, data, insert)
  {
    trace := [TableInsert(config.storageKey, data)];
    match insert(config.storageKey, data)
    case Normal(id) =>
      if Truthy(id) {
        if Truthy(config.debug) {
          trace := trace + [Log(Info, RowInserted(config.storageKey, id))];
        }
        result := Normal(id);
      } else {
        result := Normal(False);
      }
    case Abrupt(t) =>
      if InstanceOf(t, ModuleExceptionClass) {
        trace := trace + [Log(Error, TableInsertError(config.storageKey, t.message))];
        result := Normal(False);
      } else {
        result := Abrupt(t);
      }
  }
}
