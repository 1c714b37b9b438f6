/**
 * The task list panel: the user's tasks, the new-task form, the id picked for
 * deletion and the fetching flag. Each handler is one atomic step; the server's
 * answer to each request is a parameter.
 */
module TaskManager {
  import opened Common
  import opened Session

  /** The three values both status selects offer. */
  datatype Status = Ongoing | Done | Delayed

  datatype Task = Task(id: int, title: string, description: string, dueDate: string, status: Status)

  /** The new-task form; `dueDate` is the text of the date input. */
  datatype TaskDraft = TaskDraft(title: string, description: string, dueDate: string, status: Status)

  const EmptyTaskDraft: TaskDraft := TaskDraft("", "", "", Ongoing)

  /** The `map` after a confirmed status change: every task with id `id` gets `status`. */
  function WithStatus(tasks: seq<Task>, id: int, status: Status): (r: seq<Task>)
    ensures |r| == |tasks|
    ensures forall i :: 0 <= i < |tasks| ==>
      r[i] == if tasks[i].id == id then tasks[i].(status := status) else tasks[i]
  {
    if tasks == [] then []
    else [if tasks[0].id == id then tasks[0].(status := status) else tasks[0]] + WithStatus(tasks[1..], id, status)
  }

  /** The id a delete compares: the task's `id` field. */
  function TaskId(t: Task): int
  {
    t.id
  }

  /**
   * Every status can follow every status: a confirmed change to `target` gives
   * each matching task exactly that status, whatever it had before, and changing
   * back restores the list when the ids are unique.
   */
  lemma StatusChangeReverts(tasks: seq<Task>, k: int, target: Status)
    requires 0 <= k < |tasks|
    requires forall i :: 0 <= i < |tasks| && i != k ==> tasks[i].id != tasks[k].id
    ensures WithStatus(tasks, tasks[k].id, target)[k].status == target
    ensures WithStatus(WithStatus(tasks, tasks[k].id, target), tasks[k].id, tasks[k].status) == tasks
  {
    var once := WithStatus(tasks, tasks[k].id, target);
    var twice := WithStatus(once, tasks[k].id, tasks[k].status);
    assert forall i :: 0 <= i < |tasks| ==> twice[i] == tasks[i];
  }

  class TaskManagerPanel {
    var tasks: seq<Task>
    var newTask: TaskDraft
    var deleteId: Option<int>
    var isFetching: bool
    const session: SessionStorage

    constructor (session: SessionStorage)
      ensures tasks == [] && newTask == EmptyTaskDraft && deleteId == None && !isFetching
      ensures this.session == session
    {
      tasks := [];
      newTask := EmptyTaskDraft;
      deleteId := None;
      isFetching := false;
      this.session := session;
    }

    /** `fetchTasks`: a success replaces the list with the response as it is; a failure keeps it. */
    method FetchTasks(reply: Reply<seq<Task>>)
      modifies this`tasks, this`isFetching
      ensures tasks == (if reply.Ok? then reply.data else old(tasks))
      ensures !isFetching
    {
      isFetching := true;
      match reply {
        case Ok(data) => tasks := data;
        case Failed(_) =>
      }
      isFetching := false;
    }

    /**
     * `handleAddTask`: an empty title, description or due date sends nothing; a
     * created task goes in front and the form resets; a failure changes nothing.
     */
    method AddTask(reply: Reply<Task>) returns (requested: bool)
      modifies this`tasks, this`newTask
      ensures requested <==> old(newTask).title != "" && old(newTask).description != "" && old(newTask).dueDate != ""
      ensures requested && reply.Ok? ==> tasks == [reply.data] + old(tasks) && newTask == EmptyTaskDraft
      ensures !(requested && reply.Ok?) ==> tasks == old(tasks) && newTask == old(newTask)
    {
      if newTask.title == "" || newTask.description == "" || newTask.dueDate == "" {
        return false;
      }
      requested := true;
      match reply {
        case Ok(created) =>
          tasks := [created] + tasks;
          newTask := EmptyTaskDraft;
        case Failed(_) =>
      }
    }

    /**
     * `handleStatusChange`: without a stored token it fails before any request;
     * a confirmed change rewrites the status of the tasks with id `taskId` and
     * nothing else; a failed one changes nothing.
     */
    method ChangeStatus(taskId: int, newStatus: Status, reply: Reply<()>) returns (requested: bool)
      modifies this`tasks
      ensures requested <==> session.HasToken()
      ensures requested && reply.Ok? ==> tasks == WithStatus(old(tasks), taskId, newStatus)
      ensures !(requested && reply.Ok?) ==> tasks == old(tasks)
    {
      if !session.HasToken() {
        return false;
      }
      requested := true;
      match reply {
        case Ok(_) => tasks := WithStatus(tasks, taskId, newStatus);
        case Failed(_) =>
      }
    }

    /**
     * `handleDeleteTask`: nothing happens without a chosen id; a confirmed delete
     * drops the tasks with that id, keeps the order and clears the choice; a
     * failed one changes nothing.
     */
    method DeleteTask(reply: Reply<()>) returns (requested: bool)
      modifies this`tasks, this`deleteId
      ensures requested <==> old(deleteId).Some?
      ensures requested && reply.Ok? ==>
        && tasks == RemoveById(old(tasks), old(deleteId).value, TaskId)
        && SubsequenceOf(tasks, old(tasks))
        && deleteId == None
      ensures !(requested && reply.Ok?) ==> tasks == old(tasks) && deleteId == old(deleteId)
    {
      if deleteId.None? {
        return false;
      }
      requested := true;
      match reply {
        case Ok(_) =>
          tasks := RemoveById(tasks, deleteId.value, TaskId);
          RemoveByIdIsSubsequence(old(tasks), old(deleteId).value, TaskId);
          deleteId := None;
        case Failed(_) =>
      }
    }

    /** The trash button of one task picks it for deletion. */
    method ChooseForDeletion(id: int)
      modifies this`deleteId
      ensures deleteId == Some(id)
    {
      deleteId := Some(id);
    }

    /** The four inputs of the add form each replace one field of the draft. */
    method EditTitle(value: string)
      modifies this`newTask
      ensures newTask == old(newTask).(title := value)
    {
      newTask := newTask.(title := value);
    }

    method EditDescription(value: string)
      modifies this`newTask
      ensures newTask == old(newTask).(description := value)
    {
      newTask := newTask.(description := value);
    }

    method EditDueDate(value: string)
      modifies this`newTask
      ensures newTask == old(newTask).(dueDate := value)
    {
      newTask := newTask.(dueDate := value);
    }

    method EditStatus(value: Status)
      modifies this`newTask
      ensures newTask == old(newTask).(status := value)
    {
      newTask := newTask.(status := value);
    }
  }
}
