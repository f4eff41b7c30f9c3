/** The entity store that `App` keeps as component state: seven collections
    replaced wholesale by the handlers it passes down to the views. Each
    handler's new collection is a function of the old one (spread-append,
    `map` with a shallow merge, or `filter` by id); the `Store` class holds
    the collections and applies one handler per method call. */
module Store {
  import opened Wrappers
  import opened Text
  import opened Seqs
  import opened Types

  // ---------------------------------------------------------------------
  // JavaScript's `x || d` on the optional fields of a `Partial<T>`
  // ---------------------------------------------------------------------

  /** `s || d` for an optional string: an absent key and the empty string
      both fall back to `d`. */
  function StrOr(s: Option<string>, d: string): (r: string)
    ensures s.Some? && s.value != "" ==> r == s.value
    ensures (s.None? || s.value == "") ==> r == d
  {
    if s.Some? && s.value != "" then s.value else d
  }

  /** `n || d` for an optional number: an absent key and 0 both fall back to `d`. */
  function NumOr(n: Option<int>, d: int): (r: int)
    ensures n.Some? && n.value != 0 ==> r == n.value
    ensures (n.None? || n.value == 0) ==> r == d
  {
    if n.Some? && n.value != 0 then n.value else d
  }

  /** The id every create handler gives the new record: `String(length + 1)`. */
  function NextId(count: nat): (r: string)
    ensures r != [] && forall i :: 0 <= i < |r| ==> '0' <= r[i] <= '9'
    ensures ParseDigits(r) == count + 1
  {
    ParseDigitsOfNatToString(count + 1);
    NatToString(count + 1)
  }

  /** Different collection lengths give different ids. */
  lemma NextIdInjective(a: nat, b: nat)
    ensures NextId(a) == NextId(b) <==> a == b
  {
    NatToStringInjective(a + 1, b + 1);
  }

  // ---------------------------------------------------------------------
  // Creation inputs: the keys a handler reads with `!` are mandatory, the
  // keys it defaults with `||` are optional.
  // ---------------------------------------------------------------------

  datatype ProjectInput = ProjectInput(
    title: string,
    description: string,
    deadline: string,
    progress: Option<int>,
    team: Option<seq<string>>,
    status: Option<ProjectStatus>,
    createdAt: Option<string>)

  datatype TaskInput = TaskInput(
    title: string,
    assigneeId: string,
    priority: Priority,
    dueDate: string,
    description: Option<string>,
    projectId: Option<string>,
    status: Option<TaskStatus>,
    subtasks: Option<seq<SubTask>>,
    comments: Option<seq<Comment>>,
    attachments: Option<seq<string>>)

  datatype FileInput = FileInput(
    name: string,
    fileType: string,
    size: string,
    uploaderId: string,
    uploadDate: string,
    projectId: Option<string>,
    version: Option<int>,
    url: Option<string>)

  datatype MilestoneInput = MilestoneInput(
    title: string,
    week: int,
    status: MilestoneStatus,
    projectId: Option<string>)

  datatype MessageInput = MessageInput(
    userId: string,
    text: string,
    timestamp: string,
    attachments: Option<seq<string>>,
    reactions: Option<seq<Reaction>>,
    threadId: Option<string>,
    pinned: Option<bool>)

  // ---------------------------------------------------------------------
  // The record each create handler builds
  // ---------------------------------------------------------------------

  /** `handleCreateProject`'s record; `nowIso` is `new Date().toISOString()`. */
  function NewProject(count: nat, p: ProjectInput, nowIso: string): (r: Project)
    ensures r.id == NatToString(count + 1)
    ensures r.title == p.title && r.description == p.description && r.deadline == p.deadline
    ensures p.progress.None? ==> r.progress == 0
    ensures p.progress.Some? ==> r.progress == p.progress.value
    ensures p.team.None? ==> r.team == []
    ensures p.team.Some? ==> r.team == p.team.value
    ensures p.status.None? ==> r.status == Ongoing
    ensures p.status.Some? ==> r.status == p.status.value
    ensures r.createdAt == StrOr(p.createdAt, nowIso)
  {
    Project(NextId(count), p.title, p.description, NumOr(p.progress, 0), p.deadline,
            p.team.GetOr([]), p.status.GetOr(Ongoing), StrOr(p.createdAt, nowIso))
  }

  /** `handleCreateTask`'s record. */
  function NewTask(count: nat, t: TaskInput): (r: Task)
    ensures r.id == NatToString(count + 1)
    ensures r.title == t.title && r.assigneeId == t.assigneeId
    ensures r.priority == t.priority && r.dueDate == t.dueDate
    ensures r.description == StrOr(t.description, "")
    ensures r.projectId == StrOr(t.projectId, "1")
    ensures t.status.None? ==> r.status == Todo
    ensures t.status.Some? ==> r.status == t.status.value
    ensures t.subtasks.None? ==> r.subtasks == []
    ensures t.subtasks.Some? ==> r.subtasks == t.subtasks.value
    ensures t.comments.None? ==> r.comments == []
    ensures t.comments.Some? ==> r.comments == t.comments.value
    ensures t.attachments.None? ==> r.attachments == []
    ensures t.attachments.Some? ==> r.attachments == t.attachments.value
  {
    Task(NextId(count), t.title, StrOr(t.description, ""), StrOr(t.projectId, "1"),
         t.assigneeId, t.priority, t.status.GetOr(Todo), t.dueDate,
         t.subtasks.GetOr([]), t.comments.GetOr([]), t.attachments.GetOr([]))
  }

  /** `handleUploadFile`'s record. */
  function NewFile(count: nat, f: FileInput): (r: File)
    ensures r.id == NatToString(count + 1)
    ensures r.name == f.name && r.fileType == f.fileType && r.size == f.size
    ensures r.uploaderId == f.uploaderId && r.uploadDate == f.uploadDate
    ensures r.projectId == StrOr(f.projectId, "1")
    ensures r.version == NumOr(f.version, 1) && r.version != 0
    ensures r.url == StrOr(f.url, "#")
  {
    File(NextId(count), f.name, f.fileType, f.size, f.uploaderId, f.uploadDate,
         StrOr(f.projectId, "1"), NumOr(f.version, 1), StrOr(f.url, "#"))
  }

  /** `handleCreateMilestone`'s record. */
  function NewMilestone(count: nat, m: MilestoneInput): (r: Milestone)
    ensures r.id == NatToString(count + 1)
    ensures r.title == m.title && r.week == m.week && r.status == m.status
    ensures r.projectId == StrOr(m.projectId, "1")
  {
    Milestone(NextId(count), m.title, m.week, m.status, StrOr(m.projectId, "1"))
  }

  /** `handleSendMessage`'s record: the optional keys are copied as they are. */
  function NewMessage(count: nat, m: MessageInput): (r: Message)
    ensures r.id == NatToString(count + 1)
    ensures r.userId == m.userId && r.text == m.text && r.timestamp == m.timestamp
    ensures r.attachments == m.attachments && r.reactions == m.reactions
    ensures r.threadId == m.threadId && r.pinned == m.pinned
  {
    Message(NextId(count), m.userId, m.text, m.timestamp,
            m.attachments, m.reactions, m.threadId, m.pinned)
  }

  // ---------------------------------------------------------------------
  // Shallow merge (`{ ...old, ...updates }`) for tasks and the user
  // ---------------------------------------------------------------------

  /** A `Partial<Task>`: every key may be absent. */
  datatype TaskPatch = TaskPatch(
    id: Option<string>,
    title: Option<string>,
    description: Option<string>,
    projectId: Option<string>,
    assigneeId: Option<string>,
    priority: Option<Priority>,
    status: Option<TaskStatus>,
    dueDate: Option<string>,
    subtasks: Option<seq<SubTask>>,
    comments: Option<seq<Comment>>,
    attachments: Option<seq<string>>)

  const EmptyTaskPatch := TaskPatch(None, None, None, None, None, None, None, None, None, None, None)

  function MergeTask(t: Task, u: TaskPatch): (r: Task)
    ensures r.id == u.id.GetOr(t.id)
    ensures r.title == u.title.GetOr(t.title)
    ensures r.description == u.description.GetOr(t.description)
    ensures r.projectId == u.projectId.GetOr(t.projectId)
    ensures r.assigneeId == u.assigneeId.GetOr(t.assigneeId)
    ensures r.priority == u.priority.GetOr(t.priority)
    ensures r.status == u.status.GetOr(t.status)
    ensures r.dueDate == u.dueDate.GetOr(t.dueDate)
    ensures r.subtasks == u.subtasks.GetOr(t.subtasks)
    ensures r.comments == u.comments.GetOr(t.comments)
    ensures r.attachments == u.attachments.GetOr(t.attachments)
  {
    Task(u.id.GetOr(t.id), u.title.GetOr(t.title), u.description.GetOr(t.description),
         u.projectId.GetOr(t.projectId), u.assigneeId.GetOr(t.assigneeId),
         u.priority.GetOr(t.priority), u.status.GetOr(t.status), u.dueDate.GetOr(t.dueDate),
         u.subtasks.GetOr(t.subtasks), u.comments.GetOr(t.comments),
         u.attachments.GetOr(t.attachments))
  }

  /** Merging an empty patch changes nothing, and merging the same patch
      twice is merging it once. */
  lemma MergeTaskLaws(t: Task, u: TaskPatch)
    ensures MergeTask(t, EmptyTaskPatch) == t
    ensures MergeTask(MergeTask(t, u), u) == MergeTask(t, u)
  {
  }

  /** `handleUpdateTask`: `tasks.map(t => t.id === id ? {...t, ...u} : t)`. */
  function UpdateTasks(ts: seq<Task>, id: string, u: TaskPatch): (r: seq<Task>)
    ensures |r| == |ts|
    ensures forall i :: 0 <= i < |ts| && ts[i].id == id ==> r[i] == MergeTask(ts[i], u)
    ensures forall i :: 0 <= i < |ts| && ts[i].id != id ==> r[i] == ts[i]
    decreases |ts|
  {
    if ts == [] then []
    else [if ts[0].id == id then MergeTask(ts[0], u) else ts[0]] + UpdateTasks(ts[1..], id, u)
  }

  /** An update whose id matches no task leaves the collection as it was. */
  lemma UpdateTasksAbsent(ts: seq<Task>, id: string, u: TaskPatch)
    requires forall i :: 0 <= i < |ts| ==> ts[i].id != id
    ensures UpdateTasks(ts, id, u) == ts
  {
  }

  /** A `Partial<User>`. */
  datatype UserPatch = UserPatch(
    id: Option<string>,
    name: Option<string>,
    email: Option<string>,
    role: Option<string>,
    phone: Option<string>,
    university: Option<string>,
    avatar: Option<string>,
    online: Option<bool>)

  /** The patch that carries every field of `u`, as the profile's save sends it. */
  function FullUserPatch(u: User): UserPatch {
    UserPatch(Some(u.id), Some(u.name), Some(u.email), Some(u.role), Some(u.phone),
              Some(u.university), Some(u.avatar), Some(u.online))
  }

  /** `handleUpdateUser`: `{ ...currentUser, ...updates }`. */
  function MergeUser(c: User, u: UserPatch): (r: User)
    ensures r.id == u.id.GetOr(c.id) && r.name == u.name.GetOr(c.name)
    ensures r.email == u.email.GetOr(c.email) && r.role == u.role.GetOr(c.role)
    ensures r.phone == u.phone.GetOr(c.phone) && r.university == u.university.GetOr(c.university)
    ensures r.avatar == u.avatar.GetOr(c.avatar) && r.online == u.online.GetOr(c.online)
  {
    User(u.id.GetOr(c.id), u.name.GetOr(c.name), u.email.GetOr(c.email),
         u.role.GetOr(c.role), u.phone.GetOr(c.phone), u.university.GetOr(c.university),
         u.avatar.GetOr(c.avatar), u.online.GetOr(c.online))
  }

  /** Merging a patch that carries every field replaces the user outright. */
  lemma MergeFullUserPatch(c: User, e: User)
    ensures MergeUser(c, FullUserPatch(e)) == e
  {
  }

  // ---------------------------------------------------------------------
  // Removal by id
  // ---------------------------------------------------------------------

  /** `handleDeleteFile`: `files.filter(f => f.id !== id)`. */
  function WithoutFile(fs: seq<File>, id: string): (r: seq<File>)
    ensures forall f :: f in r <==> f in fs && f.id != id
    ensures forall f :: multiset(r)[f] == if f.id != id then multiset(fs)[f] else 0
    ensures Subsequence(r, fs)
    ensures (forall i :: 0 <= i < |fs| ==> fs[i].id != id) ==> r == fs
  {
    var keep := (f: File) => f.id != id;
    FilterMembers(fs, keep);
    FilterMultiset(fs, keep);
    FilterSubsequence(fs, keep);
    if forall i :: 0 <= i < |fs| ==> fs[i].id != id then
      FilterAll(fs, keep);
      Filter(fs, keep)
    else
      Filter(fs, keep)
  }

  /** `handleDeleteNotification`: `notifications.filter(n => n.id !== id)`. */
  function WithoutNotification(ns: seq<Notification>, id: string): (r: seq<Notification>)
    ensures forall n :: n in r <==> n in ns && n.id != id
    ensures forall n :: multiset(r)[n] == if n.id != id then multiset(ns)[n] else 0
    ensures Subsequence(r, ns)
    ensures (forall i :: 0 <= i < |ns| ==> ns[i].id != id) ==> r == ns
  {
    var keep := (n: Notification) => n.id != id;
    FilterMembers(ns, keep);
    FilterMultiset(ns, keep);
    FilterSubsequence(ns, keep);
    if forall i :: 0 <= i < |ns| ==> ns[i].id != id then
      FilterAll(ns, keep);
      Filter(ns, keep)
    else
      Filter(ns, keep)
  }

  // ---------------------------------------------------------------------
  // Read flags and the unread badge
  // ---------------------------------------------------------------------

  /** `handleMarkAsRead`: `map(n => n.id === id ? {...n, read: true} : n)`. */
  function MarkRead(ns: seq<Notification>, id: string): (r: seq<Notification>)
    ensures |r| == |ns|
    ensures forall i :: 0 <= i < |ns| && ns[i].id == id ==> r[i] == ns[i].(read := true)
    ensures forall i :: 0 <= i < |ns| && ns[i].id != id ==> r[i] == ns[i]
    decreases |ns|
  {
    if ns == [] then []
    else [if ns[0].id == id then ns[0].(read := true) else ns[0]] + MarkRead(ns[1..], id)
  }

  /** `handleMarkAllAsRead`: `map(n => ({...n, read: true}))`. */
  function MarkAllRead(ns: seq<Notification>): (r: seq<Notification>)
    ensures |r| == |ns|
    ensures forall i :: 0 <= i < |ns| ==> r[i] == ns[i].(read := true)
    decreases |ns|
  {
    if ns == [] then [] else [ns[0].(read := true)] + MarkAllRead(ns[1..])
  }

  /** Marking everything read twice is marking it once. */
  lemma MarkAllReadIdempotent(ns: seq<Notification>)
    ensures MarkAllRead(MarkAllRead(ns)) == MarkAllRead(ns)
  {
  }

  /** `notifications.filter(n => !n.read).length`, the badge in the top bar and
      the count in the notifications header. */
  function UnreadCount(ns: seq<Notification>): (n: nat)
    ensures n <= |ns|
  {
    Count(ns, (x: Notification) => !x.read)
  }

  /** Unread entries that carry the given id. */
  function UnreadWithId(ns: seq<Notification>, id: string): (n: nat)
    ensures n <= |ns|
  {
    Count(ns, (x: Notification) => !x.read && x.id == id)
  }

  /** After marking everything read, the badge is 0. */
  lemma {:induction false} UnreadAfterMarkAll(ns: seq<Notification>)
    ensures UnreadCount(MarkAllRead(ns)) == 0
    decreases |ns|
  {
    if ns != [] {
      UnreadAfterMarkAll(ns[1..]);
      assert MarkAllRead(ns)[1..] == MarkAllRead(ns[1..]);
    }
  }

  /** Marking one id read lowers the badge by exactly the number of unread
      entries with that id, hence by at most the number of entries with it. */
  lemma {:induction false} UnreadAfterMarkRead(ns: seq<Notification>, id: string)
    ensures UnreadCount(MarkRead(ns, id)) == UnreadCount(ns) - UnreadWithId(ns, id)
    ensures UnreadWithId(ns, id) <= Count(ns, (x: Notification) => x.id == id)
    decreases |ns|
  {
    if ns != [] {
      UnreadAfterMarkRead(ns[1..], id);
      assert MarkRead(ns, id)[1..] == MarkRead(ns[1..], id);
    }
  }

  // ---------------------------------------------------------------------
  // Ids derived from the length
  // ---------------------------------------------------------------------

  /** Every entry's id is its position plus one: what the create handlers
      produce when nothing has been deleted. */
  ghost predicate SequentialIds(fs: seq<File>) {
    forall i :: 0 <= i < |fs| ==> fs[i].id == NatToString(i + 1)
  }

  /** Uploading keeps sequential ids sequential, and the new id is then not
      carried by any earlier file. */
  lemma UploadKeepsIdsSequential(fs: seq<File>, f: FileInput)
    requires SequentialIds(fs)
    ensures SequentialIds(fs + [NewFile(|fs|, f)])
    ensures forall i :: 0 <= i < |fs| ==> fs[i].id != NewFile(|fs|, f).id
  {
    forall i | 0 <= i < |fs| ensures fs[i].id != NewFile(|fs|, f).id {
      NatToStringInjective(i + 1, |fs| + 1);
    }
  }

  /** Ids are not unique: once a file other than the last has been deleted,
      the next upload gets the id the last file already has. */
  lemma {:induction false} DeleteThenUploadCollides(fs: seq<File>, k: nat, f: FileInput)
    requires SequentialIds(fs)
    requires k + 1 < |fs|
    ensures var rest := WithoutFile(fs, fs[k].id);
            |rest| == |fs| - 1 &&
            rest[|rest| - 1] == fs[|fs| - 1] &&
            NewFile(|rest|, f).id == rest[|rest| - 1].id
  {
    var id := fs[k].id;
    var keep := (x: File) => x.id != id;
    forall i | 0 <= i < |fs| ensures keep(fs[i]) <==> i != k {
      NatToStringInjective(i + 1, k + 1);
    }
    FilterRemovesOne(fs, keep, k);
  }

  // ---------------------------------------------------------------------
  // The store itself
  // ---------------------------------------------------------------------

  /** The seven collections at one instant. */
  datatype Snapshot = Snapshot(
    projects: seq<Project>,
    tasks: seq<Task>,
    files: seq<File>,
    milestones: seq<Milestone>,
    messages: seq<Message>,
    notifications: seq<Notification>,
    currentUser: User)

  class EntityStore {
    var projects: seq<Project>
    var tasks: seq<Task>
    var files: seq<File>
    var milestones: seq<Milestone>
    var messages: seq<Message>
    var notifications: seq<Notification>
    var currentUser: User

    /** The store starts from the seed data, supplied by the caller. */
    constructor (seed: Snapshot)
      ensures State() == seed
    {
      projects := seed.projects;
      tasks := seed.tasks;
      files := seed.files;
      milestones := seed.milestones;
      messages := seed.messages;
      notifications := seed.notifications;
      currentUser := seed.currentUser;
    }

    function State(): Snapshot
      reads this
    {
      Snapshot(projects, tasks, files, milestones, messages, notifications, currentUser)
    }

    /** `unreadNotifications`, derived on every render. */
    function UnreadNotifications(): (n: nat)
      reads this
      ensures n <= |notifications|
    {
      UnreadCount(notifications)
    }

    method CreateProject(p: ProjectInput, nowIso: string)
      modifies this
      ensures State() == old(State()).(projects := old(projects) + [NewProject(|old(projects)|, p, nowIso)])
    {
      projects := projects + [NewProject(|projects|, p, nowIso)];
    }

    method CreateTask(t: TaskInput)
      modifies this
      ensures State() == old(State()).(tasks := old(tasks) + [NewTask(|old(tasks)|, t)])
    {
      tasks := tasks + [NewTask(|tasks|, t)];
    }

    method UpdateTask(id: string, u: TaskPatch)
      modifies this
      ensures State() == old(State()).(tasks := UpdateTasks(old(tasks), id, u))
    {
      tasks := UpdateTasks(tasks, id, u);
    }

    method UploadFile(f: FileInput)
      modifies this
      ensures State() == old(State()).(files := old(files) + [NewFile(|old(files)|, f)])
    {
      files := files + [NewFile(|files|, f)];
    }

    method DeleteFile(id: string)
      modifies this
      ensures State() == old(State()).(files := WithoutFile(old(files), id))
    {
      files := WithoutFile(files, id);
    }

    method CreateMilestone(m: MilestoneInput)
      modifies this
      ensures State() == old(State()).(milestones := old(milestones) + [NewMilestone(|old(milestones)|, m)])
    {
      milestones := milestones + [NewMilestone(|milestones|, m)];
    }

    method SendMessage(m: MessageInput)
      modifies this
      ensures State() == old(State()).(messages := old(messages) + [NewMessage(|old(messages)|, m)])
    {
      messages := messages + [NewMessage(|messages|, m)];
    }

    method MarkAsRead(id: string)
      modifies this
      ensures State() == old(State()).(notifications := MarkRead(old(notifications), id))
      ensures UnreadNotifications() == old(UnreadNotifications()) - UnreadWithId(old(notifications), id)
    {
      UnreadAfterMarkRead(notifications, id);
      notifications := MarkRead(notifications, id);
    }

    method MarkAllAsRead()
      modifies this
      ensures State() == old(State()).(notifications := MarkAllRead(old(notifications)))
      ensures UnreadNotifications() == 0
    {
      UnreadAfterMarkAll(notifications);
      notifications := MarkAllRead(notifications);
    }

    method DeleteNotification(id: string)
      modifies this
      ensures State() == old(State()).(notifications := WithoutNotification(old(notifications), id))
    {
      notifications := WithoutNotification(notifications, id);
    }

    method UpdateUser(u: UserPatch)
      modifies this
      ensures State() == old(State()).(currentUser := MergeUser(old(currentUser), u))
    {
      currentUser := MergeUser(currentUser, u);
    }
  }
}
