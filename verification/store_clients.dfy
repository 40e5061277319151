/**
  What a caller of the in-memory stores can rely on when it combines their
  operations, proved from the operations' contracts alone.
 */
module StoreClients {

  import opened Wrappers
  import opened Tasks
  import opened Stores
  import Tables

  /** A task pointer that Put accepted is what Get returns for the same key. */
  method TaskPutThenGet(s: InMemoryTaskStore, key: string, p: Ptr<Task>) returns (got: Value, err: Option<StoreError>)
    modifies s
    ensures got == TaskPtr(p) && err == None
    ensures s.db == old(s.db)[key := p]
  {
    var putErr := s.Put(key, TaskPtr(p));
    got, err := s.Get(key);
  }

  /** An event pointer that Put accepted is what Get returns for the same key. */
  method EventPutThenGet(s: InMemoryTaskEventStore, key: string, p: Ptr<TaskEvent>) returns (got: Value, err: Option<StoreError>)
    modifies s
    ensures got == EventPtr(p) && err == None
    ensures s.db == old(s.db)[key := p]
  {
    var putErr := s.Put(key, EventPtr(p));
    got, err := s.Get(key);
  }

  /** Freshly constructed stores are empty. */
  method NewStoresAreEmpty() returns (taskCount: int, eventCount: int)
    ensures taskCount == 0 && eventCount == 0
  {
    var tasks := new InMemoryTaskStore();
    var events := new InMemoryTaskEventStore();
    var err;
    taskCount, err := tasks.Count();
    eventCount, err := events.Count();
  }

  /** List and Count, called on the same store, agree on its size. */
  method ListAgreesWithCount(s: InMemoryTaskStore) returns (tasks: seq<Ptr<Task>>, n: int)
    ensures |tasks| == n
    ensures forall p :: p in tasks ==> p in s.db.Values
  {
    var err;
    ghost var order;
    tasks, err, order := s.List();
    n, err := s.Count();
    forall p | p in tasks ensures p in s.db.Values {
      Tables.ListingMembership(s.db, order, tasks, p);
    }
  }

  /**
    Putting a task in the task table leaves a stored event, and the task it
    carries, as they were.
   */
  method EventKeepsTaskSnapshot(tasks: InMemoryTaskStore, events: InMemoryTaskEventStore,
                                eventKey: string, taskKey: string, e: TaskEvent, updated: Task)
    returns (stored: Value)
    modifies tasks, events
    ensures stored == EventPtr(Ref(e))
    ensures tasks.db == old(tasks.db)[taskKey := Ref(updated)]
  {
    var err := events.Put(eventKey, EventPtr(Ref(e)));
    err := tasks.Put(taskKey, TaskPtr(Ref(updated)));
    var getErr;
    stored, getErr := events.Get(eventKey);
  }
}
