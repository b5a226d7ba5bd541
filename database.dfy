/** The task helpers of src/data/database.py over in-memory tables: the
    `tasks` table is a map from row id to row, `agent_interactions` a
    sequence in insertion order. Row ids come from SQLite's AUTOINCREMENT,
    so an id is never handed out twice. Timestamps come from a clock value
    the caller passes in. */
module Database {
  import opened Values

  /** One row of `tasks`. The values written from a caller's dictionary keep
      their dynamic type; `JNull` stands for SQL NULL. */
  datatype TaskRow = TaskRow(
    id: int,
    projectId: Json,
    agentId: Json,
    title: Json,
    inputUsuario: Json,
    outputGerado: Json,
    status: string,
    createdAt: int,
    completedAt: Option<int>,
    userId: Json)

  /** One row of `agent_interactions`. */
  datatype Interaction = Interaction(taskId: int, agentName: string, message: string, timestamp: int)

  const StatusProcessing := "processing"

  /** The row `create_task` inserts. */
  function NewRow(id: int, title: Json, description: Json, userId: Json, projectId: Json, agentId: Json, now: int): (r: TaskRow)
    ensures r.id == id && r.status == StatusProcessing && r.inputUsuario == description
    ensures r.title == title && r.userId == userId && r.projectId == projectId && r.agentId == agentId
    ensures r.outputGerado == JNull && r.completedAt.None? && r.createdAt == now
  {
    TaskRow(id, projectId, agentId, title, description, JNull, StatusProcessing, now, None, userId)
  }

  /** The row after `update_task_status`: the status always; the output and
      the completion time only when an output is given. */
  function WithStatus(row: TaskRow, status: string, output: Option<string>, now: int): (r: TaskRow)
    ensures r.status == status
    ensures output.Some? ==> r.outputGerado == JStr(output.value) && r.completedAt == Some(now)
    ensures output.None? ==> r.outputGerado == row.outputGerado && r.completedAt == row.completedAt
    ensures r.id == row.id && r.projectId == row.projectId && r.agentId == row.agentId
    ensures r.title == row.title && r.inputUsuario == row.inputUsuario
    ensures r.createdAt == row.createdAt && r.userId == row.userId
  {
    match output
    case Some(o) => row.(status := status, outputGerado := JStr(o), completedAt := Some(now))
    case None => row.(status := status)
  }

  /** The table after an UPDATE ... WHERE id = ?: the matching row changes,
      an id with no row changes nothing. */
  function UpdatedTasks(tasks: map<int, TaskRow>, id: int, status: string, output: Option<string>, now: int): (r: map<int, TaskRow>)
    ensures r.Keys == tasks.Keys
    ensures id in tasks ==> r[id] == WithStatus(tasks[id], status, output, now)
    ensures forall other :: other in tasks && other != id ==> r[other] == tasks[other]
  {
    if id in tasks then tasks[id := WithStatus(tasks[id], status, output, now)] else tasks
  }

  /** The two tables and the AUTOINCREMENT counter. */
  class Db {
    var tasks: map<int, TaskRow>
    var interactions: seq<Interaction>
    var lastId: int

    /** Every row sits under its own id, and no id exceeds the counter. */
    ghost predicate Valid()
      reads this
    {
      && lastId >= 0
      && forall id :: id in tasks ==> 1 <= id <= lastId && tasks[id].id == id
    }

    /** The tables as `init_db` leaves a fresh database. */
    constructor()
      ensures Valid()
      ensures tasks == map[] && interactions == [] && lastId == 0
    {
      tasks := map[];
      interactions := [];
      lastId := 0;
    }

    /** `create_task`: inserts a "processing" row under an id no row had,
        and returns that id. */
    method CreateTask(title: Json, description: Json, userId: Json, projectId: Json, agentId: Json, now: int)
      returns (id: int)
      requires Valid()
      modifies this
      ensures Valid()
      ensures id !in old(tasks) && id == old(lastId) + 1 && lastId == id
      ensures tasks == old(tasks)[id := NewRow(id, title, description, userId, projectId, agentId, now)]
      ensures interactions == old(interactions)
    {
      lastId := lastId + 1;
      id := lastId;
      tasks := tasks[id := NewRow(id, title, description, userId, projectId, agentId, now)];
    }

    /** `get_task`: the stored row, or None when no row has that id. */
    function GetTask(id: int): (r: Option<TaskRow>)
      reads this
      ensures r.Some? <==> id in tasks
      ensures r.Some? ==> r.value == tasks[id]
    {
      if id in tasks then Some(tasks[id]) else None
    }

    /** `update_task_status` */
    method UpdateTaskStatus(id: int, status: string, output: Option<string>, now: int)
      requires Valid()
      modifies this
      ensures Valid()
      ensures tasks == UpdatedTasks(old(tasks), id, status, output, now)
      ensures interactions == old(interactions) && lastId == old(lastId)
    {
      tasks := UpdatedTasks(tasks, id, status, output, now);
    }

    /** `log_interaction`: one entry at the end; earlier entries stay. */
    method LogInteraction(taskId: int, agentName: string, message: string, now: int)
      modifies this
      ensures interactions == old(interactions) + [Interaction(taskId, agentName, message, now)]
      ensures tasks == old(tasks) && lastId == old(lastId)
    {
      interactions := interactions + [Interaction(taskId, agentName, message, now)];
    }
  }
}
