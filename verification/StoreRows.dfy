/** The rows of the PostgreSQL store, and what creates and updates that arrive in any order leave in them. */
module StoreRows {
  import opened Wrappers
  import opened Tasks

  /**
   A task record with the metadata that only the store looks at; it is absent when the task has no metadata. An
   empty consumer group is not set.
   */
  datatype Record = Record(task: Task, createdAt: Option<int>, completedAt: Option<int>, consumerGroup: string)
  {
    /** The state column: a state that is not set counts as pending. */
    function State(): TaskState
    {
      if task.Meta().state.Unspecified? then Pending else task.Meta().state
    }

    function Reported(): Progress
    {
      var meta := task.Meta();
      var completed := if task.metadata.Some? then completedAt else None;
      Progress.Progress(meta.retryCount, meta.startedAt, completed, Set(meta.lastError), Set(meta.workerID))
    }

    function Group(): Option<string>
    {
      if task.metadata.Some? then Set(consumerGroup) else None
    }
  }

  /** The columns that an update replaces, apart from the state. */
  datatype Progress = Progress(
    retryCount: int, startedAt: Option<int>, completedAt: Option<int>, error: Option<string>, workerID: Option<string>)

  /** The defaults of those columns. */
  const NO_PROGRESS := Progress.Progress(0, None, None, None, None)

  /** The columns that only an insert sets. */
  datatype Fixed = Fixed(
    kind: string, queue: string, payload: string, maxRetry: int, priority: int, createdAt: int,
    scheduledAt: Option<int>, uniqueKey: Option<string>, labels: string)

  datatype TaskRow = TaskRow(fixed: Fixed, state: TaskState, progress: Progress, consumerGroup: Option<string>)

  type Table = map<string, TaskRow>

  /** An empty string becomes NULL. */
  function Set(s: string): Option<string>
  {
    if s == "" then None else Some(s)
  }

  function FixedColumns(r: Record, now: int): Fixed
  {
    var options := r.task.options;
    Fixed.Fixed(
      r.task.kind, r.task.Queue(), if r.task.payload == "" then "{}" else r.task.payload, r.task.RetryLimit(),
      if options.None? then 0 else options.value.priority,
      if r.task.metadata.Some? && r.createdAt.Some? then r.createdAt.value else now,
      if options.None? then None else if options.value.processAt.Some? then options.value.processAt else Some(now),
      if options.None? then None else Set(options.value.uniqueKey),
      if options.Some? && options.value.labels.Some? then options.value.labels.value else "{}")
  }

  /** INSERT ... ON CONFLICT (id) DO NOTHING. */
  function Inserted(table: Table, r: Record, now: int): Table
  {
    if r.task.id in table then table else
      table[r.task.id := TaskRow.TaskRow(FixedColumns(r, now), r.State(), NO_PROGRESS, r.Group())]
  }

  /** UPDATE ... WHERE id = $1. */
  function Updated(table: Table, r: Record): Table
  {
    if r.task.id !in table then table else
      var row := table[r.task.id];
      var group := if r.Group().Some? then r.Group() else row.consumerGroup;
      table[r.task.id := TaskRow.TaskRow(row.fixed, r.State(), r.Reported(), group)]
  }

  /** UpdateTask, when nothing comes between its two statements. */
  function UpdatedOrCreated(table: Table, r: Record, now: int): Table
  {
    if r.task.id in table then Updated(table, r) else Inserted(table, r, now)
  }

  /** The state of the task, and pending if it has none. */
  predicate StateColumn(task: Task, column: TaskState)
  {
    match task.metadata
    case None => column.Pending?
    case Some(meta) => if meta.state.Unspecified? then column.Pending? else column == meta.state
  }

  /** The columns hold what the task's metadata say, with NULL for empty strings and for what is not there. */
  predicate ProgressColumns(r: Record, columns: Progress)
  {
    match r.task.metadata
    case None =>
      columns.retryCount == 0 && columns.startedAt.None? && columns.completedAt.None? && columns.error.None?
      && columns.workerID.None?
    case Some(meta) =>
      && columns.retryCount == meta.retryCount && columns.startedAt == meta.startedAt
      && columns.completedAt == r.completedAt
      && (if meta.lastError == "" then columns.error.None? else columns.error == Some(meta.lastError))
      && (if meta.workerID == "" then columns.workerID.None? else columns.workerID == Some(meta.workerID))
  }

  /** The columns that only an insert sets, from the options or else with their defaults. */
  predicate InsertColumns(r: Record, now: int, columns: Fixed)
  {
    && columns.kind == r.task.kind && columns.payload == (if r.task.payload == "" then "{}" else r.task.payload)
    && (if r.task.metadata.Some? && r.createdAt.Some? then columns.createdAt == r.createdAt.value
        else columns.createdAt == now)
    && match r.task.options
       case None =>
         && columns.queue == "default" && columns.maxRetry == 3 && columns.priority == 0
         && columns.scheduledAt.None? && columns.uniqueKey.None? && columns.labels == "{}"
       case Some(options) =>
         && columns.queue == (if options.queue == "" then "default" else options.queue)
         && columns.maxRetry == (if options.maxRetry <= 0 then 3 else options.maxRetry)
         && columns.priority == options.priority
         && columns.scheduledAt == (if options.processAt.None? then Some(now) else options.processAt)
         && columns.uniqueKey == (if options.uniqueKey == "" then None else Some(options.uniqueKey))
         && columns.labels == (if options.labels.None? then "{}" else options.labels.value)
  }

  class Store {
    var rows: Table

    constructor ()
      ensures rows == map[]
    {
      rows := map[];
    }

    method CreateTask(r: Record, now: int)
      modifies this
      ensures rows == Inserted(old(rows), r, now)
      ensures var task, id := r.task, r.task.id;
              && (id in old(rows) ==> rows == old(rows))
              && (id !in old(rows) ==>
                    && id in rows && rows - {id} == old(rows)
                    && InsertColumns(r, now, rows[id].fixed)
                    && rows[id].progress == Progress.Progress(0, None, None, None, None)
                    && StateColumn(task, rows[id].state)
                    && rows[id].consumerGroup
                       == if task.metadata.None? || r.consumerGroup == "" then None else Some(r.consumerGroup))
    {
      var state := Pending;
      if r.task.metadata.Some? && r.task.metadata.value.state != Unspecified { state := r.task.metadata.value.state; }
      var fixed := BuildFixed(r, now);
      var group: Option<string> := None;
      if r.task.metadata.Some? && r.consumerGroup != "" { group := Some(r.consumerGroup); }
      if r.task.id !in rows {
        rows := rows[r.task.id := TaskRow.TaskRow(fixed, state, NO_PROGRESS, group)];
      }
    }

    static method BuildFixed(r: Record, now: int) returns (fixed: Fixed)
      ensures fixed == FixedColumns(r, now)
    {
      var queue, maxRetry, priority: int, labels := DEFAULT_QUEUE, DEFAULT_MAX_RETRY, 0, "{}";
      var scheduledAt: Option<int>, uniqueKey: Option<string> := None, None;
      if r.task.options.Some? {
        var options := r.task.options.value;
        if options.queue != "" { queue := options.queue; }
        if options.maxRetry > 0 { maxRetry := options.maxRetry; }
        priority := options.priority;
        if options.uniqueKey != "" { uniqueKey := Some(options.uniqueKey); }
        scheduledAt := if options.processAt.Some? then options.processAt else Some(now);
        if options.labels.Some? { labels := options.labels.value; }
      }
      assert queue == r.task.Queue() && maxRetry == r.task.RetryLimit();
      var payload := "{}";
      if |r.task.payload| > 0 { payload := r.task.payload; }
      var createdAt := now;
      if r.task.metadata.Some? && r.createdAt.Some? { createdAt := r.createdAt.value; }
      fixed := Fixed.Fixed(r.task.kind, queue, payload, maxRetry, priority, createdAt, scheduledAt, uniqueKey,
                           labels);
    }

    method UpdateTask(r: Record, now: int)
      modifies this
      ensures rows == UpdatedOrCreated(old(rows), r, now)
      ensures var id := r.task.id;
              id in old(rows) ==>
                && id in rows && rows - {id} == old(rows) - {id} && rows[id].fixed == old(rows)[id].fixed
                && StateColumn(r.task, rows[id].state)
                && rows[id].consumerGroup == (if r.task.metadata.None? || r.consumerGroup == ""
                                              then old(rows)[id].consumerGroup else Some(r.consumerGroup))
                && ProgressColumns(r, rows[id].progress)
    {
      var state, retryCount: int := Pending, 0;
      var startedAt: Option<int>, completedAt: Option<int> := None, None;
      var lastError: Option<string>, workerID: Option<string>, group: Option<string> := None, None, None;
      if r.task.metadata.Some? {
        var meta := r.task.metadata.value;
        if meta.state != Unspecified { state := meta.state; }
        retryCount, startedAt, completedAt := meta.retryCount, meta.startedAt, r.completedAt;
        if meta.lastError != "" { lastError := Some(meta.lastError); }
        if meta.workerID != "" { workerID := Some(meta.workerID); }
        if r.consumerGroup != "" { group := Some(r.consumerGroup); }
      }
      var affected := 0;
      if r.task.id in rows {
        var row := rows[r.task.id];
        var progress := Progress.Progress(retryCount, startedAt, completedAt, lastError, workerID);
        group := if group.Some? then group else row.consumerGroup;
        rows := rows[r.task.id := TaskRow.TaskRow(row.fixed, state, progress, group)];
        affected := 1;
      }
      if affected == 0 {
        CreateTask(r, now);
      }
    }
  }

  datatype Call = Create(record: Record, now: int) | Update(record: Record, now: int)
  {
    function Id(): string
    {
      record.task.id
    }
  }

  /** The table after these calls, one after the other. */
  function TableAfter(calls: seq<Call>): Table
  {
    if calls == [] then map[] else
      var before := TableAfter(calls[..|calls| - 1]);
      match calls[|calls| - 1]
      case Create(r, now) => Inserted(before, r, now)
      case Update(r, now) => UpdatedOrCreated(before, r, now)
  }

  /** The first call about a task. */
  predicate IsFirstCall(calls: seq<Call>, id: string, i: nat)
  {
    i < |calls| && calls[i].Id() == id && forall j :: 0 <= j < i ==> calls[j].Id() != id
  }

  predicate IsLastUpdate(calls: seq<Call>, id: string, i: nat)
  {
    i < |calls| && calls[i].Update? && calls[i].Id() == id
    && forall j :: i < j < |calls| ==> !(calls[j].Update? && calls[j].Id() == id)
  }

  predicate Concerned(calls: seq<Call>, id: string)
  {
    exists i :: 0 <= i < |calls| && calls[i].Id() == id
  }

  lemma ConcernedLater(calls: seq<Call>, id: string)
    requires calls != []
    ensures Concerned(calls, id) <==> Concerned(calls[..|calls| - 1], id) || calls[|calls| - 1].Id() == id
  {
    var before := calls[..|calls| - 1];
    if Concerned(before, id) {
      var i :| 0 <= i < |before| && before[i].Id() == id;
      assert calls[i].Id() == id;
    }
    if Concerned(calls, id) && calls[|calls| - 1].Id() != id {
      var i :| 0 <= i < |calls| && calls[i].Id() == id;
      assert before[i].Id() == id;
    }
  }

  /** Any call creates the row, and none removes it. */
  lemma {:induction false} RowIffConcerned(calls: seq<Call>, id: string)
    ensures id in TableAfter(calls) <==> Concerned(calls, id)
  {
    if calls != [] {
      RowIffConcerned(calls[..|calls| - 1], id);
      ConcernedLater(calls, id);
    }
  }

  /** What only an insert sets comes from the first call about the task, whichever it was. */
  lemma {:induction false} FirstCallStays(calls: seq<Call>, id: string, i: nat)
    requires IsFirstCall(calls, id, i)
    ensures id in TableAfter(calls) && TableAfter(calls)[id].fixed == FixedColumns(calls[i].record, calls[i].now)
  {
    var before := calls[..|calls| - 1];
    RowIffConcerned(before, id);
    if i < |before| {
      FirstCallStays(before, id, i);
    }
  }

  /**
   The last update decides the state: a create that comes late changes nothing. Without updates it is the first
   create.
   */
  lemma {:induction false} LastUpdateWins(calls: seq<Call>, id: string, i: nat)
    requires IsLastUpdate(calls, id, i)
             || (IsFirstCall(calls, id, i) && forall j :: 0 <= j < |calls| && calls[j].Update? ==> calls[j].Id() != id)
    ensures id in TableAfter(calls) && TableAfter(calls)[id].state == calls[i].record.State()
  {
    var before := calls[..|calls| - 1];
    RowIffConcerned(before, id);
    if i < |before| {
      LastUpdateWins(before, id, i);
    }
  }

  /**
   The rest of what the last update reports is kept exactly when it was not the first call about the task: an
   update that has to create the row drops the retry count, the times, the error and the worker.
   */
  lemma {:induction false} ProgressKeptIff(calls: seq<Call>, id: string, i: nat)
    requires IsLastUpdate(calls, id, i)
    ensures id in TableAfter(calls)
    ensures TableAfter(calls)[id].progress
            == if Concerned(calls[..i], id) then calls[i].record.Reported() else NO_PROGRESS
  {
    var before := calls[..|calls| - 1];
    RowIffConcerned(before, id);
    if i < |before| {
      ProgressKeptIff(before, id, i);
      assert before[..i] == calls[..i];
    } else {
      assert calls[..i] == before;
    }
  }

  /** A single statement; UpdateTask needs two when its update finds no row. */
  datatype Statement = InsertRow(record: Record, now: int) | UpdateRow(record: Record)

  function Executed(table: Table, statements: seq<Statement>): Table
  {
    if statements == [] then table else
      var before := Executed(table, statements[..|statements| - 1]);
      match statements[|statements| - 1]
      case InsertRow(r, now) => Inserted(before, r, now)
      case UpdateRow(r) => Updated(before, r)
  }

  predicate Inserts(statements: seq<Statement>, id: string)
  {
    exists i :: 0 <= i < |statements| && statements[i].InsertRow? && statements[i].record.task.id == id
  }

  lemma {:induction false} OnlyInsertsAddRows(table: Table, statements: seq<Statement>, id: string)
    ensures id in Executed(table, statements) <==> id in table || Inserts(statements, id)
  {
    if statements != [] {
      var before, last := statements[..|statements| - 1], statements[|statements| - 1];
      OnlyInsertsAddRows(table, before, id);
      assert Inserts(statements, id) <==> Inserts(before, id) || (last.InsertRow? && last.record.task.id == id) by {
        if i :| 0 <= i < |before| && before[i].InsertRow? && before[i].record.task.id == id {
          assert statements[i].InsertRow?;
        }
        if i :| 0 <= i < |statements| && statements[i].InsertRow? && statements[i].record.task.id == id {
          assert i < |before| ==> before[i].InsertRow?;
        }
        assert statements[|statements| - 1] == last;
      }
    }
  }

  /** The statement inserts the row of a task, or updates a row that is there. */
  predicate Effective(statements: seq<Statement>, id: string, i: nat)
  {
    i < |statements| && statements[i].record.task.id == id
    && (statements[i].InsertRow? <==> !Inserts(statements[..i], id))
  }

  lemma EffectiveEarlier(statements: seq<Statement>, id: string, i: nat)
    requires i < |statements| - 1
    ensures Effective(statements[..|statements| - 1], id, i) <==> Effective(statements, id, i)
  {
    assert statements[..|statements| - 1][..i] == statements[..i];
  }

  lemma LastIsEffective(statements: seq<Statement>, id: string)
    requires statements != [] && statements[|statements| - 1].record.task.id == id
    ensures var (before, last) := (statements[..|statements| - 1], statements[|statements| - 1]);
            Effective(statements, id, |statements| - 1) <==> (last.InsertRow? <==> id !in Executed(map[], before))
  {
    OnlyInsertsAddRows(map[], statements[..|statements| - 1], id);
  }

  /**
   However the statements of creates and updates interleave: the last effective one decides the state, and the
   progress is what it reports if it is an update.
   */
  lemma {:induction false} LastEffectiveWins(statements: seq<Statement>, id: string, i: nat)
    requires Effective(statements, id, i) && forall j :: i < j < |statements| ==> !Effective(statements, id, j)
    ensures var (table, last) := (Executed(map[], statements), statements[i]);
            && id in table && table[id].state == last.record.State()
            && table[id].progress == if last.UpdateRow? then last.record.Reported() else NO_PROGRESS
    decreases |statements|
  {
    var before := statements[..|statements| - 1];
    if i < |before| {
      forall j | i <= j < |before|
        ensures Effective(before, id, j) <==> Effective(statements, id, j)
      {
        EffectiveEarlier(statements, id, j);
      }
      LastEffectiveWins(before, id, i);
    }
    if statements[|before|].record.task.id == id { LastIsEffective(statements, id); }
  }

  /** The consumer group is that of the last effective statement that has one. */
  lemma {:induction false} LastGroupWins(statements: seq<Statement>, id: string, i: nat)
    requires Effective(statements, id, i) && (statements[i].InsertRow? || statements[i].record.Group().Some?)
    requires forall j :: i < j < |statements| && Effective(statements, id, j) ==> statements[j].record.Group().None?
    ensures id in Executed(map[], statements)
    ensures Executed(map[], statements)[id].consumerGroup == statements[i].record.Group()
    decreases |statements|
  {
    var before := statements[..|statements| - 1];
    if i < |before| {
      forall j | i <= j < |before|
        ensures Effective(before, id, j) <==> Effective(statements, id, j)
      {
        EffectiveEarlier(statements, id, j);
      }
      LastGroupWins(before, id, i);
    }
    if statements[|before|].record.task.id == id { LastIsEffective(statements, id); }
  }

  /** The other columns are those of the first insert. */
  lemma {:induction false} FirstInsertStays(statements: seq<Statement>, id: string, i: nat)
    requires Effective(statements, id, i) && statements[i].InsertRow?
    ensures id in Executed(map[], statements)
    ensures Executed(map[], statements)[id].fixed == FixedColumns(statements[i].record, statements[i].now)
    decreases |statements|
  {
    var before := statements[..|statements| - 1];
    if i < |before| {
      EffectiveEarlier(statements, id, i);
      FirstInsertStays(before, id, i);
    }
    if statements[|before|].record.task.id == id { LastIsEffective(statements, id); }
  }

  /** UpdateTask with the statements of others between its update and the insert it falls back to. */
  function UpdateAround(table: Table, r: Record, between: seq<Statement>, now: int): Table
  {
    var after := Executed(Updated(table, r), between);
    if r.task.id in table then after else Inserted(after, r, now)
  }

  /**
   An UpdateTask whose update finds no row leaves no trace, as if it had never been called, exactly when somebody
   inserts the row before its own insert. Otherwise it creates the row as if it had run after the others.
   */
  lemma {:induction false} UpdateLostIff(table: Table, r: Record, between: seq<Statement>, now: int)
    requires r.task.id !in table
    ensures UpdateAround(table, r, between, now) == Executed(table, between) <==> Inserts(between, r.task.id)
    ensures !Inserts(between, r.task.id)
            ==> UpdateAround(table, r, between, now) == UpdatedOrCreated(Executed(table, between), r, now)
  {
    OnlyInsertsAddRows(table, between, r.task.id);
  }

  /** It happens to a worker that starts a task before the client that enqueued it has stored it. */
  lemma StartIsLost(task: Task, now: int, worker: string)
    requires task.metadata.Some?
    ensures var queued := Record(task.WithState(Pending), None, None, "");
            var started := Record(task.Started(now, worker), None, None, "");
            var table := UpdateAround(map[], started, [InsertRow(queued, now)], now);
            task.id in table && table[task.id].state == Pending && started.State() == Active
  {
    var queued := Record(task.WithState(Pending), None, None, "");
    var started := Record(task.Started(now, worker), None, None, "");
    assert Executed(Updated(map[], started), []) == map[];
    assert Executed(Updated(map[], started), [InsertRow(queued, now)]) == Inserted(map[], queued, now);
  }
}
