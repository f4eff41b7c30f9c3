/** The task board: three status columns over the task list, an all / my /
    team filter, the create-task dialog, and the detail dialog where a
    comment is posted, a subtask is ticked or the status is changed. Every
    change goes to the store through `UpdateTask`, and the dialog keeps its
    own copy of the selected task in step with what it sent. */
module TaskBoard {
  import opened Wrappers
  import opened Text
  import opened Seqs
  import opened Types
  import opened Store

  /** The board treats user "1" as the signed-in user. */
  const CurrentUserId := "1"

  // ---------------------------------------------------------------------
  // Columns
  // ---------------------------------------------------------------------

  /** The filter buttons: "all", "my" (assigned to user "1") and "team"
      (assigned to anyone else). Any other value matches nothing. */
  predicate MatchesFilter(t: Task, filterType: string) {
    filterType == "all"
    || (filterType == "my" && t.assigneeId == CurrentUserId)
    || (filterType == "team" && t.assigneeId != CurrentUserId)
  }

  predicate InColumn(t: Task, status: TaskStatus, filterType: string) {
    t.status == status && MatchesFilter(t, filterType)
  }

  /** `getTasksByStatus`: the tasks of one column, in list order. */
  function TasksByStatus(tasks: seq<Task>, status: TaskStatus, filterType: string): (r: seq<Task>)
    ensures forall i :: 0 <= i < |r| ==> r[i].status == status
    ensures forall t :: t in r <==> t in tasks && InColumn(t, status, filterType)
    ensures forall t :: multiset(r)[t] == if InColumn(t, status, filterType) then multiset(tasks)[t] else 0
    ensures Subsequence(r, tasks)
  {
    var keep := (t: Task) => InColumn(t, status, filterType);
    FilterMembers(tasks, keep);
    FilterMultiset(tasks, keep);
    FilterSubsequence(tasks, keep);
    Filter(tasks, keep)
  }

  /** Within a column, "my" and "team" share no task and together hold
      exactly what "all" holds, with the same multiplicities. */
  lemma MyAndTeamSplitAll(tasks: seq<Task>, status: TaskStatus)
    ensures multiset(TasksByStatus(tasks, status, "all"))
         == multiset(TasksByStatus(tasks, status, "my")) + multiset(TasksByStatus(tasks, status, "team"))
    ensures multiset(TasksByStatus(tasks, status, "my")) !! multiset(TasksByStatus(tasks, status, "team"))
  {
    var all := multiset(TasksByStatus(tasks, status, "all"));
    var my := multiset(TasksByStatus(tasks, status, "my"));
    var team := multiset(TasksByStatus(tasks, status, "team"));
    forall t ensures all[t] == my[t] + team[t] {
      ButtonsSplit(t);
    }
    forall t | t in my ensures t !in team {
      ButtonsSplit(t);
    }
  }

  /** "all" keeps every task; "my" and "team" split them by assignee. */
  lemma ButtonsSplit(t: Task)
    ensures MatchesFilter(t, "all")
    ensures MatchesFilter(t, "my") <==> t.assigneeId == CurrentUserId
    ensures MatchesFilter(t, "team") <==> t.assigneeId != CurrentUserId
  {
    assert "my"[0] != "all"[0] && "team"[0] != "all"[0] && "team"[0] != "my"[0];
  }

  /** With the "all" filter, the three columns together hold every task,
      each exactly as often as it occurs in the list. */
  lemma ColumnsPartitionTasks(tasks: seq<Task>)
    ensures multiset(tasks)
         == multiset(TasksByStatus(tasks, Todo, "all"))
          + multiset(TasksByStatus(tasks, InProgress, "all"))
          + multiset(TasksByStatus(tasks, Completed, "all"))
    ensures |tasks|
         == |TasksByStatus(tasks, Todo, "all")|
          + |TasksByStatus(tasks, InProgress, "all")|
          + |TasksByStatus(tasks, Completed, "all")|
  {
    var todo := multiset(TasksByStatus(tasks, Todo, "all"));
    var doing := multiset(TasksByStatus(tasks, InProgress, "all"));
    var done := multiset(TasksByStatus(tasks, Completed, "all"));
    forall t ensures multiset(tasks)[t] == todo[t] + doing[t] + done[t] {
    }
    assert multiset(tasks) == todo + doing + done;
  }

  // ---------------------------------------------------------------------
  // Card badges
  // ---------------------------------------------------------------------

  /** The card's overdue flag. `parse` stands for `new Date(...)`; `None` is an
      invalid date, for which `<` is false. */
  predicate IsOverdue(t: Task, parse: string -> Option<int>, now: int)
    ensures IsOverdue(t, parse, now) <==>
              parse(t.dueDate).Some? && parse(t.dueDate).value < now && t.status != Completed
  {
    match parse(t.dueDate)
    case None => false
    case Some(due) => due < now && t.status != Completed
  }

  /** A completed task is never overdue, whatever its date. */
  lemma CompletedNeverOverdue(t: Task, parse: string -> Option<int>, now: int)
    requires t.status == Completed
    ensures !IsOverdue(t, parse, now)
  {
  }

  /** The "done/total" subtask badge: its numerator never exceeds its
      denominator. */
  function CompletedSubtasks(subtasks: seq<SubTask>): (n: nat)
    ensures n <= |subtasks|
    ensures n == |subtasks| <==> forall i :: 0 <= i < |subtasks| ==> subtasks[i].completed
  {
    var done := (st: SubTask) => st.completed;
    CountFullIff(subtasks, done);
    Count(subtasks, done)
  }

  // ---------------------------------------------------------------------
  // Detail-dialog edits
  // ---------------------------------------------------------------------

  /** `handleToggleSubtask`'s list: the matching subtask's flag is flipped. */
  function ToggleSubtask(subtasks: seq<SubTask>, id: string): (r: seq<SubTask>)
    ensures |r| == |subtasks|
    ensures forall i :: 0 <= i < |subtasks| && subtasks[i].id == id ==>
              r[i] == subtasks[i].(completed := !subtasks[i].completed)
    ensures forall i :: 0 <= i < |subtasks| && subtasks[i].id != id ==> r[i] == subtasks[i]
    decreases |subtasks|
  {
    if subtasks == [] then []
    else
      var head := subtasks[0];
      [if head.id == id then head.(completed := !head.completed) else head]
      + ToggleSubtask(subtasks[1..], id)
  }

  /** Toggling the same subtask twice restores the list. */
  lemma ToggleTwiceRestores(subtasks: seq<SubTask>, id: string)
    ensures ToggleSubtask(ToggleSubtask(subtasks, id), id) == subtasks
  {
    var twice := ToggleSubtask(ToggleSubtask(subtasks, id), id);
    assert |twice| == |subtasks|;
    forall i | 0 <= i < |subtasks| ensures twice[i] == subtasks[i] {
    }
  }

  /** The comment a post appends: id `c<millis>`, by user "1". */
  function NewComment(text: string, millis: nat, nowIso: string): (c: Comment)
    ensures c.userId == CurrentUserId && c.text == text && c.timestamp == nowIso
    ensures |c.id| >= 2 && c.id[0] == 'c' && c.id[1..] == NatToString(millis)
  {
    Comment("c" + NatToString(millis), CurrentUserId, text, nowIso)
  }

  /** Comments posted at different milliseconds get different ids. */
  lemma NewCommentIdsDistinct(a: nat, b: nat, text: string, nowIso: string)
    ensures NewComment(text, a, nowIso).id == NewComment(text, b, nowIso).id <==> a == b
  {
    if NewComment(text, a, nowIso).id == NewComment(text, b, nowIso).id {
      assert NatToString(a) == NewComment(text, a, nowIso).id[1..];
      NatToStringInjective(a, b);
    }
  }

  /** `handleAddComment`'s list: nothing when the box is empty or no task is
      open, otherwise the open task's comments with one more at the end. */
  function CommentsAfterPost(selected: Option<Task>, text: string, millis: nat, nowIso: string)
    : (r: Option<seq<Comment>>)
    ensures r.Some? <==> text != "" && selected.Some?
    ensures r.Some? ==> |r.value| == |selected.value.comments| + 1
    ensures r.Some? ==> r.value[..|selected.value.comments|] == selected.value.comments
    ensures r.Some? ==> var c := r.value[|r.value| - 1];
                        c.text == text && c.userId == CurrentUserId && c.timestamp == nowIso
  {
    if text != "" && selected.Some? then
      Some(selected.value.comments + [NewComment(text, millis, nowIso)])
    else None
  }

  function CommentsPatch(comments: seq<Comment>): TaskPatch {
    EmptyTaskPatch.(comments := Some(comments))
  }

  function SubtasksPatch(subtasks: seq<SubTask>): TaskPatch {
    EmptyTaskPatch.(subtasks := Some(subtasks))
  }

  /** The status dropdown sends only `{ status }`. */
  function StatusPatch(s: TaskStatus): TaskPatch {
    EmptyTaskPatch.(status := Some(s))
  }

  /** Changing the status keeps every other field of the task, subtasks,
      comments and attachments included; in particular it cannot make a
      completed task overdue, and moving a task to completed clears the flag. */
  lemma StatusChangeKeepsOtherFields(t: Task, s: TaskStatus, parse: string -> Option<int>, now: int)
    ensures MergeTask(t, StatusPatch(s)) == t.(status := s)
    ensures !IsOverdue(MergeTask(t, StatusPatch(Completed)), parse, now)
  {
    CompletedNeverOverdue(t.(status := Completed), parse, now);
  }

  /** The copy the dialog keeps after an edit is what the store now holds at
      the positions where the open task was. */
  lemma SelectedCopyMatchesStore(tasks: seq<Task>, selected: Task, u: TaskPatch)
    requires selected in tasks
    ensures MergeTask(selected, u) in UpdateTasks(tasks, selected.id, u)
  {
    var i :| 0 <= i < |tasks| && tasks[i] == selected;
    assert UpdateTasks(tasks, selected.id, u)[i] == MergeTask(selected, u);
  }

  // ---------------------------------------------------------------------
  // The create dialog
  // ---------------------------------------------------------------------

  datatype TaskDraft = TaskDraft(
    title: string,
    description: string,
    priority: Priority,
    assigneeId: string,
    dueDate: string)

  const EmptyTaskDraft := TaskDraft("", "", Medium, "", "")

  /** What `handleCreateTask` passes to the store, if anything. */
  function SubmittedTask(d: TaskDraft): (r: Option<TaskInput>)
    ensures r.Some? <==> d.title != "" && d.assigneeId != "" && d.dueDate != ""
    ensures r.Some? ==> (r.value.title == d.title && r.value.assigneeId == d.assigneeId
                         && r.value.priority == d.priority && r.value.dueDate == d.dueDate
                         && r.value.description == Some(d.description))
    ensures r.Some? ==> (r.value.status == Some(Todo) && r.value.projectId == Some("1")
                         && r.value.subtasks == Some([]) && r.value.comments == Some([])
                         && r.value.attachments == Some([]))
  {
    if d.title != "" && d.assigneeId != "" && d.dueDate != "" then
      Some(TaskInput(d.title, d.assigneeId, d.priority, d.dueDate, Some(d.description),
                     Some("1"), Some(Todo), Some([]), Some([]), Some([])))
    else None
  }

  /** A submitted draft becomes a "todo" task of project "1" with empty lists. */
  lemma SubmittedTaskStored(d: TaskDraft, count: nat)
    requires SubmittedTask(d).Some?
    ensures var t := NewTask(count, SubmittedTask(d).value);
            t.status == Todo && t.projectId == "1" && t.description == d.description
            && t.subtasks == [] && t.comments == [] && t.attachments == []
  {
  }

  /** The board's own state. */
  class TaskBoardView {
    var filterType: string
    var isCreateModalOpen: bool
    var selectedTask: Option<Task>
    var newTask: TaskDraft
    var newComment: string

    constructor ()
      ensures filterType == "all" && !isCreateModalOpen && selectedTask == None
      ensures newTask == EmptyTaskDraft && newComment == ""
    {
      filterType := "all";
      isCreateModalOpen := false;
      selectedTask := None;
      newTask := EmptyTaskDraft;
      newComment := "";
    }

    function Column(store: EntityStore, status: TaskStatus): seq<Task>
      reads this, store
    {
      TasksByStatus(store.tasks, status, filterType)
    }

    method CreateTask(store: EntityStore)
      modifies this, store
      ensures SubmittedTask(old(newTask)).None? ==>
                store.State() == old(store.State()) && newTask == old(newTask)
                && isCreateModalOpen == old(isCreateModalOpen)
      ensures SubmittedTask(old(newTask)).Some? ==>
                store.State() == old(store.State()).(tasks := old(store.tasks)
                                   + [NewTask(|old(store.tasks)|, SubmittedTask(old(newTask)).value)])
                && newTask == EmptyTaskDraft && !isCreateModalOpen
      ensures filterType == old(filterType) && selectedTask == old(selectedTask)
      ensures newComment == old(newComment)
    {
      var submitted := SubmittedTask(newTask);
      if submitted.Some? {
        store.CreateTask(submitted.value);
        isCreateModalOpen := false;
        newTask := EmptyTaskDraft;
      }
    }

    method AddComment(store: EntityStore, millis: nat, nowIso: string)
      modifies this, store
      ensures var r := CommentsAfterPost(old(selectedTask), old(newComment), millis, nowIso);
              (r.None? ==> store.State() == old(store.State()) && selectedTask == old(selectedTask)
                           && newComment == old(newComment))
              && (r.Some? ==>
                    store.State() == old(store.State()).(tasks :=
                      UpdateTasks(old(store.tasks), old(selectedTask).value.id, CommentsPatch(r.value)))
                    && selectedTask == Some(old(selectedTask).value.(comments := r.value))
                    && newComment == "")
      ensures filterType == old(filterType) && newTask == old(newTask)
      ensures isCreateModalOpen == old(isCreateModalOpen)
    {
      var r := CommentsAfterPost(selectedTask, newComment, millis, nowIso);
      if r.Some? {
        var sel := selectedTask.value;
        store.UpdateTask(sel.id, CommentsPatch(r.value));
        selectedTask := Some(sel.(comments := r.value));
        newComment := "";
      }
    }

    method ToggleSubtaskOf(store: EntityStore, subtaskId: string)
      modifies this, store
      ensures old(selectedTask).None? ==> store.State() == old(store.State()) && selectedTask == None
      ensures old(selectedTask).Some? ==>
                var sel := old(selectedTask).value;
                var subs := ToggleSubtask(sel.subtasks, subtaskId);
                store.State() == old(store.State()).(tasks :=
                  UpdateTasks(old(store.tasks), sel.id, SubtasksPatch(subs)))
                && selectedTask == Some(sel.(subtasks := subs))
      ensures filterType == old(filterType) && newTask == old(newTask)
      ensures newComment == old(newComment) && isCreateModalOpen == old(isCreateModalOpen)
    {
      if selectedTask.Some? {
        var sel := selectedTask.value;
        var subs := ToggleSubtask(sel.subtasks, subtaskId);
        store.UpdateTask(sel.id, SubtasksPatch(subs));
        selectedTask := Some(sel.(subtasks := subs));
      }
    }

    /** The status dropdown; it is shown only while a task is open. */
    method ChangeStatus(store: EntityStore, s: TaskStatus)
      requires selectedTask.Some?
      modifies this, store
      ensures store.State() == old(store.State()).(tasks :=
                UpdateTasks(old(store.tasks), old(selectedTask).value.id, StatusPatch(s)))
      ensures selectedTask == Some(old(selectedTask).value.(status := s))
      ensures filterType == old(filterType) && newTask == old(newTask)
      ensures newComment == old(newComment) && isCreateModalOpen == old(isCreateModalOpen)
    {
      var sel := selectedTask.value;
      store.UpdateTask(sel.id, StatusPatch(s));
      selectedTask := Some(sel.(status := s));
    }

    /** Clicking a card opens its detail dialog on a copy of the task. */
    method SelectTask(t: Task)
      modifies this
      ensures selectedTask == Some(t)
      ensures filterType == old(filterType) && newTask == old(newTask)
      ensures newComment == old(newComment) && isCreateModalOpen == old(isCreateModalOpen)
    {
      selectedTask := Some(t);
    }

    /** The create dialog's open-state callback: the trigger opens it, dismissing closes it. */
    method SetDialogOpen(open: bool)
      modifies this
      ensures isCreateModalOpen == open
      ensures filterType == old(filterType) && newTask == old(newTask)
      ensures newComment == old(newComment) && selectedTask == old(selectedTask)
    {
      isCreateModalOpen := open;
    }

    /** Closing the detail dialog forgets the open task. */
    method CloseTask()
      modifies this
      ensures selectedTask == None
      ensures filterType == old(filterType) && newTask == old(newTask)
      ensures newComment == old(newComment) && isCreateModalOpen == old(isCreateModalOpen)
    {
      selectedTask := None;
    }
  }
}
