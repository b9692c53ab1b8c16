/** The store: histories by entity, in a cache in front of one file per entity. */
module DiagnosticsStore {
  import opened Options
  import opened Diagnostics

  type Entity = string

  /** The cached history, or else the file's, or else an empty one. */
  function HistoryFor(cache: map<Entity, History>, files: map<Entity, History>, entity: Entity): History {
    if entity in cache then cache[entity] else if entity in files then files[entity] else NOTHING
  }

  function LogOf(logs: map<Entity, seq<Record>>, entity: Entity): seq<Record> {
    if entity in logs then logs[entity] else []
  }

  class Store {
    const entryCapacity: nat
    const errorCapacity: nat
    var cache: map<Entity, History>
    var files: map<Entity, History>
    /** Everything ever recorded, by entity. */
    ghost var logs: map<Entity, seq<Record>>

    ghost predicate Valid()
      reads this
    {
      && (forall entity :: entity in cache ==> cache[entity] == HistoryFor(map[], files, entity))
      && (forall entity ::
            Represents(HistoryFor(map[], files, entity), LogOf(logs, entity), entryCapacity, errorCapacity))
    }

    constructor (entryCapacity: nat, errorCapacity: nat)
      ensures Valid() && logs == map[]
      ensures this.entryCapacity == entryCapacity && this.errorCapacity == errorCapacity
    {
      this.entryCapacity, this.errorCapacity := entryCapacity, errorCapacity;
      cache, files, logs := map[], map[], map[];
    }

    /** A store of a later process, over the files of an earlier one: every log goes on. */
    constructor Reopen(before: Store)
      requires before.Valid()
      ensures Valid() && logs == before.logs
      ensures entryCapacity == before.entryCapacity && errorCapacity == before.errorCapacity
    {
      entryCapacity, errorCapacity := before.entryCapacity, before.errorCapacity;
      cache, files, logs := map[], before.files, before.logs;
    }

    method Find(entity: Entity) returns (h: History)
      requires Valid()
      modifies this`cache
      ensures Valid() && Represents(h, LogOf(logs, entity), entryCapacity, errorCapacity)
    {
      h := HistoryFor(cache, files, entity);
      cache := cache[entity := h];
    }

    /** One record more in the log of its entity, numbered next; every other log as it was. */
    method Add(entity: Entity, level: Level, timestamp: int, message: string)
      requires Valid()
      modifies this
      ensures Valid()
      ensures var log := LogOf(old(logs), entity);
        logs == old(logs)[entity := log + [Record(level, timestamp, message, |log| + 1)]]
    {
      hide Represents;
      var h := Find(entity);
      ghost var log, before := LogOf(logs, entity), files;
      ghost var record := Record(level, timestamp, message, |log| + 1);
      assert forall e :: Represents(HistoryFor(map[], before, e), LogOf(old(logs), e), entryCapacity, errorCapacity);
      RecordedRepresents(h, log, level, timestamp, message, entryCapacity, errorCapacity);
      h := RecordIn(h, level, timestamp, message, entryCapacity, errorCapacity);
      cache, files := cache[entity := h], files[entity := h];
      logs := logs[entity := log + [record]];
      forall e ensures Represents(HistoryFor(map[], files, e), LogOf(logs, e), entryCapacity, errorCapacity) {
        if e != entity {
          assert HistoryFor(map[], files, e) == HistoryFor(map[], before, e);
        }
      }
    }

    /** A query shows what it asks for of the ends of the log and of its errors, with exact counts of the rest. */
    method Query(entity: Entity, q: Query)
      returns (entries: seq<Record>, errors: seq<Record>, droppedEntries: nat, droppedErrors: nat)
      requires Valid()
      modifies this`cache
      ensures Valid()
      ensures var log := LogOf(logs, entity);
        && entries == Limited(Last(log, entryCapacity), q, q.limit, entryCapacity)
        && errors == Limited(Last(Errors(log), errorCapacity), q.(level := None), q.errorLimit, errorCapacity)
        && droppedEntries == |log| - |Last(log, entryCapacity)|
        && droppedErrors == |Errors(log)| - |Last(Errors(log), errorCapacity)|
        && Ascending(entries) && (forall record :: record in entries ==> record in log && Shown(record, q))
        && Ascending(errors)
        && (forall record :: record in errors ==> record in log && record.level == Error && AfterCursor(record, q))
    {
      hide Limited, Shown, AfterCursor, Errors;
      var h := Find(entity);
      QueryReturns(h, LogOf(logs, entity), entryCapacity, errorCapacity, q);
      ErrorQueryReturns(h, LogOf(logs, entity), entryCapacity, errorCapacity, q);
      entries, errors := Entries(h, q, entryCapacity), ErrorEntries(h, q, errorCapacity);
      droppedEntries, droppedErrors := h.droppedEntries, h.droppedErrors;
    }
  }
}
