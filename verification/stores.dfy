/**
  The in-memory backends of the store abstraction of package `store`: one
  table of tasks and one of task events, each a map from a string key to a
  pointer to the record. Both implement the same four operations: Put,
  which upserts after checking the dynamic type of its argument; Get,
  which fails on a missing key; List, which walks the map in no particular
  order; and Count.
 */
module Stores {

  import opened Wrappers
  import opened Tasks
  import opened Tables

  /** A Go pointer: nil, or the record it points to. */
  datatype Ptr<T> = Nil | Ref(target: T)

  /** A Go `interface{}` value, told apart by its dynamic type. */
  datatype Value =
    | NilInterface                   // an untyped nil
    | TaskPtr(task: Ptr<Task>)       // a *task.Task, possibly nil
    | EventPtr(event: Ptr<TaskEvent>) // a *task.TaskEvent, possibly nil
    | TaskValue(t: Task)             // a task.Task passed by value
    | EventValue(e: TaskEvent)       // a task.TaskEvent passed by value
    | OtherValue(typeName: string)   // a value of any other type

  /** The errors the in-memory stores return. */
  datatype StoreError =
    | NotATask(value: Value)       // Put on the task table with a value that is not a *task.Task
    | NotATaskEvent(value: Value)  // Put on the event table with a value that is not a *task.TaskEvent
    | KeyNotFound(key: string)     // Get of a key the table does not hold

  /** The in-memory table of tasks. */
  class InMemoryTaskStore {

    var db: map<string, Ptr<Task>>

    /** A new, empty table. */
    constructor ()
      ensures db == map[]
    {
      db := map[];
    }

    /**
      Stores the task pointer `value` under `key`, replacing any entry already
      there; a value that is not a *task.Task is refused and nothing changes.
     */
    method Put(key: string, value: Value) returns (err: Option<StoreError>)
      modifies this
      ensures err == None <==> value.TaskPtr?
      ensures value.TaskPtr? ==> db == old(db)[key := value.task]
      ensures !value.TaskPtr? ==> err == Some(NotATask(value)) && db == old(db)
      ensures |db| == if value.TaskPtr? && key !in old(db) then |old(db)| + 1 else |old(db)|
    {
      if !value.TaskPtr? {
        return Some(NotATask(value));
      }
      UpsertEffect(db, key, value.task);
      db := db[key := value.task];
      err := None;
    }

    /** The pointer stored under `key`, or an untyped nil and an error when there is none. */
    method Get(key: string) returns (value: Value, err: Option<StoreError>)
      ensures key in db ==> value == TaskPtr(db[key]) && err == None
      ensures key !in db ==> value == NilInterface && err == Some(KeyNotFound(key))
    {
      if key !in db {
        return NilInterface, Some(KeyNotFound(key));
      }
      value, err := TaskPtr(db[key]), None;
    }

    /**
      Every stored pointer, one per key, in the (unspecified) order in which
      the walk over the map visits the keys; that order is `order`.
     */
    method List() returns (tasks: seq<Ptr<Task>>, err: Option<StoreError>, ghost order: seq<string>)
      ensures err == None
      ensures IsListing(db, order, tasks)
      ensures |tasks| == |db|
      ensures forall v :: multiset(tasks)[v] == |KeysHolding(db, v)|
    {
      tasks, order := [], [];
      var unvisited := db.Keys;
      while unvisited != {}
        invariant PartialListing(db, order, tasks, unvisited)
        decreases |unvisited|
      {
        var k :| k in unvisited;
        VisitKey(db, order, tasks, unvisited, k);
        tasks, order := tasks + [db[k]], order + [k];
        unvisited := unvisited - {k};
      }
      WalkDone(db, order, tasks);
      forall v ensures multiset(tasks)[v] == |KeysHolding(db, v)| {
        ListingOccurrences(db, order, tasks, v);
      }
      err := None;
    }

    /** The number of stored entries; never fails. */
    method Count() returns (n: int, err: Option<StoreError>)
      ensures err == None && n == |db|
    {
      n, err := |db|, None;
    }
  }

  /** The in-memory table of task events. */
  class InMemoryTaskEventStore {

    var db: map<string, Ptr<TaskEvent>>

    /** A new, empty table. */
    constructor ()
      ensures db == map[]
    {
      db := map[];
    }

    /**
      Stores the event pointer `value` under `key`, replacing any entry already
      there; a value that is not a *task.TaskEvent is refused and nothing changes.
     */
    method Put(key: string, value: Value) returns (err: Option<StoreError>)
      modifies this
      ensures err == None <==> value.EventPtr?
      ensures value.EventPtr? ==> db == old(db)[key := value.event]
      ensures !value.EventPtr? ==> err == Some(NotATaskEvent(value)) && db == old(db)
      ensures |db| == if value.EventPtr? && key !in old(db) then |old(db)| + 1 else |old(db)|
    {
      if !value.EventPtr? {
        return Some(NotATaskEvent(value));
      }
      UpsertEffect(db, key, value.event);
      db := db[key := value.event];
      err := None;
    }

    /** The pointer stored under `key`, or an untyped nil and an error when there is none. */
    method Get(key: string) returns (value: Value, err: Option<StoreError>)
      ensures key in db ==> value == EventPtr(db[key]) && err == None
      ensures key !in db ==> value == NilInterface && err == Some(KeyNotFound(key))
    {
      if key !in db {
        return NilInterface, Some(KeyNotFound(key));
      }
      value, err := EventPtr(db[key]), None;
    }

    /**
      Every stored pointer, one per key, in the (unspecified) order in which
      the walk over the map visits the keys; that order is `order`.
     */
    method List() returns (events: seq<Ptr<TaskEvent>>, err: Option<StoreError>, ghost order: seq<string>)
      ensures err == None
      ensures IsListing(db, order, events)
      ensures |events| == |db|
      ensures forall v :: multiset(events)[v] == |KeysHolding(db, v)|
    {
      events, order := [], [];
      var unvisited := db.Keys;
      while unvisited != {}
        invariant PartialListing(db, order, events, unvisited)
        decreases |unvisited|
      {
        var k :| k in unvisited;
        VisitKey(db, order, events, unvisited, k);
        events, order := events + [db[k]], order + [k];
        unvisited := unvisited - {k};
      }
      WalkDone(db, order, events);
      forall v ensures multiset(events)[v] == |KeysHolding(db, v)| {
        ListingOccurrences(db, order, events, v);
      }
      err := None;
    }

    /** The number of stored entries; never fails. */
    method Count() returns (n: int, err: Option<StoreError>)
      ensures err == None && n == |db|
    {
      n, err := |db|, None;
    }
  }
}
