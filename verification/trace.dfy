/**
 * The observable effects of handling one submission, in order: log entries, the
 * handler's calls into the storage service, and the writes the service issues.
 */
module Trace {
  import opened Php
  import opened Configuration

  datatype Level = Info | Error

  /** Log messages, with the placeholders they substitute. */
  datatype Message =
    | StorageTypeNotConfigured
    | ConfigData(configData: Value, data: map<string, Value>)
    | EntityCreationError(message: string)
    | RowInserted(table: string, id: Value)
    | TableInsertError(table: string, message: string)

  datatype Event =
    | Log(level: Level, message: Message)
    | UndefinedVariable(name: string)
    | SubmitEntity(config: Config, record: map<string, Value>)
    | SubmitTable(config: Config, record: map<string, Value>)
    | EntitySave(entityType: string, fields: map<string, Value>)
    | TableInsert(table: string, fields: map<string, Value>)

  predicate IsDispatch(e: Event) { e.SubmitEntity? || e.SubmitTable? }
  predicate IsEntityDispatch(e: Event) { e.SubmitEntity? }
  predicate IsTableDispatch(e: Event) { e.SubmitTable? }
  predicate IsEntitySave(e: Event) { e.EntitySave? }
  predicate IsTableInsert(e: Event) { e.TableInsert? }
  predicate IsInfoLog(e: Event) { e.Log? && e.level == Info }
  predicate IsErrorLog(e: Event) { e.Log? && e.level == Error }
  predicate IsNotConfiguredLog(e: Event) { e == Log(Error, StorageTypeNotConfigured) }
  predicate IsConfigDataLog(e: Event) { e.Log? && e.message.ConfigData? }

  /** The number of events in `trace` that satisfy `p`. */
  function Count(trace: seq<Event>, p: Event -> bool): (n: nat)
    ensures n <= |trace|
    ensures n == 0 <==> forall i :: 0 <= i < |trace| ==> !p(trace[i])
  {
    if trace == [] then 0
    else Count(trace[..|trace| - 1], p) + (if p(trace[|trace| - 1]) then 1 else 0)
  }

  lemma {:induction false} CountAppend(a: seq<Event>, b: seq<Event>, p: Event -> bool)
    ensures Count(a + b, p) == Count(a, p) + Count(b, p)
  {
    if b != [] {
      var b' := b[..|b| - 1];
      assert (a + b)[..|a + b| - 1] == a + b';
      CountAppend(a, b', p);
    } else {
      assert a + b == a;
    }
  }
}
