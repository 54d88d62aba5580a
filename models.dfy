/** The `tasks` table (models.py): one row per task, keyed by its unique `task_id`. */
module Models {
  import opened Wrappers

  /** Times are abstract instants; `datetime.utcnow()` becomes a parameter. */
  type Timestamp = nat

  /** The four values the code ever writes into the `status` column. */
  datatype Status = PENDING | RUNNING | COMPLETED | FAILED {

    /** The text stored in the column and returned by the API. */
    function Name(): string {
      match this
      case PENDING => "PENDING"
      case RUNNING => "RUNNING"
      case COMPLETED => "COMPLETED"
      case FAILED => "FAILED"
    }

    predicate IsTerminal() {
      this == COMPLETED || this == FAILED
    }
  }

  /** One row. `error_message`, `completed_at` and `report_path` are nullable columns
      without defaults; the integer surrogate key `id` is left out. */
  datatype Task = Task(
    taskId: string,
    description: string,
    filename: string,
    status: Status,
    errorMessage: Option<string>,
    createdAt: Timestamp,
    completedAt: Option<Timestamp>,
    reportPath: Option<string>)

  /** The lifecycle invariant: the completion stamp is there exactly on terminal rows,
      a report location exactly on completed rows and an error text exactly on failed rows. */
  predicate WellFormed(t: Task) {
    && (t.status.IsTerminal() <==> t.completedAt.Some?)
    && (t.status == COMPLETED <==> t.reportPath.Some?)
    && (t.status == FAILED <==> t.errorMessage.Some?)
  }

  /** A row as the ORM builds it from the given columns: `status` defaults to PENDING,
      `created_at` is stamped at insert time and the nullable columns stay empty. */
  function NewTask(taskId: string, description: string, filename: string, now: Timestamp): (t: Task)
    ensures WellFormed(t) && t.status == PENDING && !t.status.IsTerminal()
    ensures t.taskId == taskId && t.description == description && t.filename == filename
    ensures t.createdAt == now
  {
    Task(taskId, description, filename, PENDING, None, now, None, None)
  }

  /** `task_id` is unique, so the table is a map from `task_id` to the row that carries it. */
  predicate KeyedById(tasks: map<string, Task>) {
    forall id :: id in tasks ==> tasks[id].taskId == id
  }

  predicate AllWellFormed(tasks: map<string, Task>) {
    forall id :: id in tasks ==> WellFormed(tasks[id])
  }

  /** The shared task store. Every commit replaces whole rows. */
  class TaskStore {
    var tasks: map<string, Task>

    ghost predicate Valid()
      reads this
    {
      KeyedById(tasks)
    }

    constructor ()
      ensures Valid() && tasks == map[]
    {
      tasks := map[];
    }
  }
}
