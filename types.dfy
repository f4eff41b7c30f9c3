/** The records the dashboard keeps, one datatype per interface of
    `src/types/index.ts`. Each closed string union becomes an enumeration,
    with the string the views compare against and its inverse. */
module Types {
  import opened Wrappers

  datatype User = User(
    id: string,
    name: string,
    email: string,
    role: string,
    phone: string,
    university: string,
    avatar: string,
    online: bool)

  datatype ProjectStatus = Ongoing | ProjectCompleted | Archived

  datatype Project = Project(
    id: string,
    title: string,
    description: string,
    progress: int,
    deadline: string,
    team: seq<string>,
    status: ProjectStatus,
    createdAt: string)

  datatype Priority = Low | Medium | High

  datatype TaskStatus = Todo | InProgress | Completed

  datatype SubTask = SubTask(id: string, title: string, completed: bool)

  datatype Comment = Comment(id: string, userId: string, text: string, timestamp: string)

  datatype Task = Task(
    id: string,
    title: string,
    description: string,
    projectId: string,
    assigneeId: string,
    priority: Priority,
    status: TaskStatus,
    dueDate: string,
    subtasks: seq<SubTask>,
    comments: seq<Comment>,
    attachments: seq<string>)

  datatype File = File(
    id: string,
    name: string,
    fileType: string,
    size: string,
    uploaderId: string,
    uploadDate: string,
    projectId: string,
    version: int,
    url: string)

  datatype Reaction = Reaction(emoji: string, userIds: seq<string>)

  /** The four trailing fields are optional in the interface; `None` is an
      absent key. */
  datatype Message = Message(
    id: string,
    userId: string,
    text: string,
    timestamp: string,
    attachments: Option<seq<string>>,
    reactions: Option<seq<Reaction>>,
    threadId: Option<string>,
    pinned: Option<bool>)

  datatype NotificationType = TaskNotice | FileNotice | MessageNotice | DeadlineNotice

  datatype Notification = Notification(
    id: string,
    kind: NotificationType,
    title: string,
    description: string,
    timestamp: string,
    read: bool,
    link: string)

  datatype MilestoneStatus = MilestoneCompleted | MilestoneInProgress | Pending | Overdue

  datatype Milestone = Milestone(
    id: string,
    title: string,
    week: int,
    status: MilestoneStatus,
    projectId: string)

  // ---------------------------------------------------------------------
  // The string literals of each union
  // ---------------------------------------------------------------------

  function ProjectStatusName(s: ProjectStatus): string {
    match s
    case Ongoing => "ongoing"
    case ProjectCompleted => "completed"
    case Archived => "archived"
  }

  function ParseProjectStatus(s: string): (r: Option<ProjectStatus>)
    ensures r.Some? ==> ProjectStatusName(r.value) == s
  {
    if s == "ongoing" then Some(Ongoing)
    else if s == "completed" then Some(ProjectCompleted)
    else if s == "archived" then Some(Archived)
    else None
  }

  function PriorityName(p: Priority): string {
    match p
    case Low => "low"
    case Medium => "medium"
    case High => "high"
  }

  function ParsePriority(s: string): (r: Option<Priority>)
    ensures r.Some? ==> PriorityName(r.value) == s
  {
    if s == "low" then Some(Low)
    else if s == "medium" then Some(Medium)
    else if s == "high" then Some(High)
    else None
  }

  function TaskStatusName(s: TaskStatus): string {
    match s
    case Todo => "todo"
    case InProgress => "inprogress"
    case Completed => "completed"
  }

  function ParseTaskStatus(s: string): (r: Option<TaskStatus>)
    ensures r.Some? ==> TaskStatusName(r.value) == s
  {
    if s == "todo" then Some(Todo)
    else if s == "inprogress" then Some(InProgress)
    else if s == "completed" then Some(Completed)
    else None
  }

  function NotificationTypeName(t: NotificationType): string {
    match t
    case TaskNotice => "task"
    case FileNotice => "file"
    case MessageNotice => "message"
    case DeadlineNotice => "deadline"
  }

  function ParseNotificationType(s: string): (r: Option<NotificationType>)
    ensures r.Some? ==> NotificationTypeName(r.value) == s
  {
    if s == "task" then Some(TaskNotice)
    else if s == "file" then Some(FileNotice)
    else if s == "message" then Some(MessageNotice)
    else if s == "deadline" then Some(DeadlineNotice)
    else None
  }

  function MilestoneStatusName(s: MilestoneStatus): string {
    match s
    case MilestoneCompleted => "completed"
    case MilestoneInProgress => "inprogress"
    case Pending => "pending"
    case Overdue => "overdue"
  }

  function ParseMilestoneStatus(s: string): (r: Option<MilestoneStatus>)
    ensures r.Some? ==> MilestoneStatusName(r.value) == s
  {
    if s == "completed" then Some(MilestoneCompleted)
    else if s == "inprogress" then Some(MilestoneInProgress)
    else if s == "pending" then Some(Pending)
    else if s == "overdue" then Some(Overdue)
    else None
  }

  /** Each union's literals are pairwise distinct, so a record's field takes
      exactly one of the admitted values, and reading back the literal gives
      that value. */
  lemma UnionsRoundTrip(ps: ProjectStatus, pr: Priority, ts: TaskStatus,
                        nt: NotificationType, ms: MilestoneStatus)
    ensures ParseProjectStatus(ProjectStatusName(ps)) == Some(ps)
    ensures ParsePriority(PriorityName(pr)) == Some(pr)
    ensures ParseTaskStatus(TaskStatusName(ts)) == Some(ts)
    ensures ParseNotificationType(NotificationTypeName(nt)) == Some(nt)
    ensures ParseMilestoneStatus(MilestoneStatusName(ms)) == Some(ms)
  {
  }

  /** No literal of a union is "all", "my", "team" or "unread": the views'
      filter sentinels never coincide with a real value. */
  lemma SentinelsAreNotLiterals(ps: ProjectStatus, ts: TaskStatus, nt: NotificationType)
    ensures ProjectStatusName(ps) != "all"
    ensures NotificationTypeName(nt) != "all" && NotificationTypeName(nt) != "unread"
    ensures TaskStatusName(ts) != "all"
  {
  }
}
