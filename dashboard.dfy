/** The project dashboard: search over title and description, a status
    filter, the overdue flag on each card, the team avatars (at most three,
    then a "+n" chip) and the create-project dialog. */
module Dashboard {
  import opened Wrappers
  import opened Text
  import opened Seqs
  import opened Types
  import opened Store

  // ---------------------------------------------------------------------
  // Search and status filter
  // ---------------------------------------------------------------------

  predicate MatchesSearch(p: Project, query: string) {
    Includes(Lower(p.title), Lower(query)) || Includes(Lower(p.description), Lower(query))
  }

  /** The status dropdown holds "all" or one of the status literals. */
  predicate MatchesStatus(p: Project, filterStatus: string) {
    filterStatus == "all" || ProjectStatusName(p.status) == filterStatus
  }

  predicate Shown(p: Project, query: string, filterStatus: string) {
    MatchesSearch(p, query) && MatchesStatus(p, filterStatus)
  }

  /** `filteredProjects`. */
  function FilterProjects(projects: seq<Project>, query: string, filterStatus: string): (r: seq<Project>)
    ensures forall p :: p in r <==> p in projects && Shown(p, query, filterStatus)
    ensures forall p :: multiset(r)[p] == if Shown(p, query, filterStatus) then multiset(projects)[p] else 0
    ensures Subsequence(r, projects)
  {
    var keep := (p: Project) => Shown(p, query, filterStatus);
    FilterMembers(projects, keep);
    FilterMultiset(projects, keep);
    FilterSubsequence(projects, keep);
    Filter(projects, keep)
  }

  /** The initial view, an empty search with "all", lists every project. */
  lemma EmptySearchShowsAll(projects: seq<Project>)
    ensures FilterProjects(projects, "", "all") == projects
  {
    forall i | 0 <= i < |projects| ensures Shown(projects[i], "", "all") {
      IncludesEmpty(Lower(projects[i].title));
      assert Lower("") == "";
    }
    FilterAll(projects, (p: Project) => Shown(p, "", "all"));
  }

  /** Only the status, not the query, decides membership under a status
      filter: a project whose status differs is never shown. */
  lemma StatusFilterExcludes(projects: seq<Project>, query: string, s: ProjectStatus, p: Project)
    requires p.status != s
    ensures p !in FilterProjects(projects, query, ProjectStatusName(s))
  {
    UnionsRoundTrip(s, Low, Todo, TaskNotice, Pending);
    UnionsRoundTrip(p.status, Low, Todo, TaskNotice, Pending);
  }

  /** The search box example: of two projects titled "AI-Powered Healthcare
      App" and "E-Commerce Platform", searching "health" finds only the first. */
  lemma HealthSearchExample(a: Project, b: Project)
    requires a.title == "AI-Powered Healthcare App" && a.description == ""
    requires b.title == "E-Commerce Platform" && b.description == ""
    ensures FilterProjects([a, b], "health", "all") == [a]
  {
    assert Lower("health") == "health";
    HealthInTitle(a.title);
    NoHealthInTitle(b.title);
    NoHealthInTitle("");
    var keep := (p: Project) => Shown(p, "health", "all");
    assert keep(a) && !keep(b);
    assert [a, b][1..] == [b];
    assert Filter([b], keep) == [];
  }

  lemma HealthInTitle(t: string)
    requires t == "AI-Powered Healthcare App"
    ensures Includes(Lower(t), "health")
  {
    var w := Lower(t)[11..17];
    assert t[11..17] == "Health";
    assert w == "health";
    assert OccursAt(Lower(t), "health", 11);
    IncludesIff(Lower(t), "health");
  }

  lemma NoHealthInTitle(t: string)
    requires t == "E-Commerce Platform" || t == ""
    ensures !Includes(Lower(t), "health")
  {
    var l := Lower(t);
    if t != "" {
      forall i | 0 <= i < |l| ensures l[i] != 'h' {
        assert t[i] != 'h' && t[i] != 'H';
      }
    }
    MissingCharExcludes(l, "health", 0);
  }

  // ---------------------------------------------------------------------
  // Cards
  // ---------------------------------------------------------------------

  /** A card's overdue flag; as on the task board, an unparsable date is
      never overdue. */
  predicate IsOverdue(p: Project, parse: string -> Option<int>, now: int)
    ensures IsOverdue(p, parse, now) <==>
              parse(p.deadline).Some? && parse(p.deadline).value < now && p.status != ProjectCompleted
  {
    match parse(p.deadline)
    case None => false
    case Some(deadline) => deadline < now && p.status != ProjectCompleted
  }

  lemma CompletedProjectNeverOverdue(p: Project, parse: string -> Option<int>, now: int)
    requires p.status == ProjectCompleted
    ensures !IsOverdue(p, parse, now)
  {
  }

  /** `users.find(u => u.id === id)`: the first user with that id. */
  function FindUser(users: seq<User>, id: string): (r: Option<User>)
    ensures r.Some? ==> r.value in users && r.value.id == id
    ensures r.Some? ==> exists k :: 0 <= k < |users| && users[k] == r.value
                                    && forall j :: 0 <= j < k ==> users[j].id != id
    ensures r.None? <==> forall i :: 0 <= i < |users| ==> users[i].id != id
    decreases |users|
  {
    if users == [] then None
    else if users[0].id == id then
      assert users[0] == users[0];
      Some(users[0])
    else
      var r := FindUser(users[1..], id);
      assert r.Some? ==> exists k :: 0 <= k < |users| && users[k] == r.value
                                     && forall j :: 0 <= j < k ==> users[j].id != id by {
        if r.Some? {
          var k :| 0 <= k < |users[1..]| && users[1..][k] == r.value
                   && forall j :: 0 <= j < k ==> users[1..][j].id != id;
          assert users[k + 1] == r.value;
          assert forall j :: 0 <= j < k + 1 ==> users[j].id != id by {
            forall j | 0 <= j < k + 1 ensures users[j].id != id {
              if j > 0 {
                assert users[j] == users[1..][j - 1];
              }
            }
          }
        }
      }
      r
  }

  function Ids(us: seq<User>): (r: seq<string>)
    ensures |r| == |us|
    ensures forall i :: 0 <= i < |us| ==> r[i] == us[i].id
  {
    seq(|us|, i requires 0 <= i < |us| => us[i].id)
  }

  /** Whether an id names a known user. */
  function KnownIn(users: seq<User>): string -> bool {
    (id: string) => FindUser(users, id).Some?
  }

  /** `getTeamAvatars`: the users behind the team's ids, in team order, with
      unknown ids dropped; each is the user `find` returns for its id. */
  function TeamAvatars(team: seq<string>, users: seq<User>): (r: seq<User>)
    ensures Ids(r) == Filter(team, KnownIn(users))
    ensures forall j :: 0 <= j < |r| ==> FindUser(users, r[j].id) == Some(r[j])
    decreases |team|
  {
    if team == [] then []
    else
      var rest := TeamAvatars(team[1..], users);
      var known := KnownIn(users);
      match FindUser(users, team[0])
      case None =>
        assert !known(team[0]);
        rest
      case Some(u) =>
        assert known(team[0]);
        assert Ids([u] + rest) == [u.id] + Ids(rest);
        [u] + rest
  }

  /** At most one avatar per team id, each a known user on the team; the ids
      keep team order, and when every id is known they are the team. */
  lemma TeamAvatarsLaws(team: seq<string>, users: seq<User>)
    ensures var r := TeamAvatars(team, users);
            |r| <= |team| && Subsequence(Ids(r), team)
            && (forall u :: u in r ==> u in users && u.id in team)
            && ((forall i :: 0 <= i < |team| ==> FindUser(users, team[i]).Some?) ==> Ids(r) == team)
  {
    var r := TeamAvatars(team, users);
    var known := KnownIn(users);
    FilterSubsequence(team, known);
    FilterMembers(team, known);
    forall u | u in r ensures u in users && u.id in team {
      var j :| 0 <= j < |r| && r[j] == u;
      assert Ids(r)[j] == u.id;
    }
    if forall i :: 0 <= i < |team| ==> FindUser(users, team[i]).Some? {
      FilterAll(team, known);
    }
  }

  /** The avatars drawn on a card: the first three members. */
  function ShownAvatars(members: seq<User>): (r: seq<User>)
    ensures |r| <= 3 && |r| <= |members|
    ensures r == members[..|r|]
    ensures |members| <= 3 ==> r == members
    ensures |members| > 3 ==> r == members[..3]
  {
    if |members| <= 3 then members else members[..3]
  }

  /** The "+n" chip, present only for more than three members. */
  function OverflowChip(members: seq<User>): (r: Option<nat>)
    ensures r.Some? <==> |members| > 3
    ensures r.Some? ==> r.value == |members| - 3
    ensures |ShownAvatars(members)| + r.GetOr(0) == |members|
  {
    if |members| > 3 then Some(|members| - 3) else None
  }

  // ---------------------------------------------------------------------
  // The create dialog
  // ---------------------------------------------------------------------

  datatype ProjectDraft = ProjectDraft(
    title: string,
    description: string,
    deadline: string,
    team: seq<string>)

  const EmptyProjectDraft := ProjectDraft("", "", "", [])

  /** What `handleCreateProject` passes to the store, if anything: title and
      deadline are required, the description may be empty. */
  function SubmittedProject(d: ProjectDraft, nowIso: string): (r: Option<ProjectInput>)
    ensures r.Some? <==> d.title != "" && d.deadline != ""
    ensures r.Some? ==> (r.value.title == d.title && r.value.description == d.description
                         && r.value.deadline == d.deadline && r.value.team == Some(d.team))
    ensures r.Some? ==> (r.value.progress == Some(0) && r.value.status == Some(Ongoing)
                         && r.value.createdAt == Some(nowIso))
  {
    if d.title != "" && d.deadline != "" then
      Some(ProjectInput(d.title, d.description, d.deadline, Some(0), Some(d.team),
                        Some(Ongoing), Some(nowIso)))
    else None
  }

  /** A submitted draft is stored as an ongoing project at 0 % with the
      draft's team. */
  lemma SubmittedProjectStored(d: ProjectDraft, count: nat, nowIso: string)
    requires SubmittedProject(d, nowIso).Some?
    ensures var p := NewProject(count, SubmittedProject(d, nowIso).value, nowIso);
            p.progress == 0 && p.status == Ongoing && p.team == d.team
            && p.title == d.title && p.description == d.description
  {
  }

  class DashboardView {
    var searchQuery: string
    var filterStatus: string
    var isCreateModalOpen: bool
    var newProject: ProjectDraft

    constructor ()
      ensures searchQuery == "" && filterStatus == "all" && !isCreateModalOpen
      ensures newProject == EmptyProjectDraft
    {
      searchQuery := "";
      filterStatus := "all";
      isCreateModalOpen := false;
      newProject := EmptyProjectDraft;
    }

    /** The dialog's open-state callback: the trigger opens it, dismissing closes it. */
    method SetDialogOpen(open: bool)
      modifies this
      ensures isCreateModalOpen == open
      ensures searchQuery == old(searchQuery) && filterStatus == old(filterStatus)
      ensures newProject == old(newProject)
    {
      isCreateModalOpen := open;
    }

    function Visible(store: EntityStore): seq<Project>
      reads this, store
    {
      FilterProjects(store.projects, searchQuery, filterStatus)
    }

    method CreateProject(store: EntityStore, nowIso: string)
      modifies this, store
      ensures var r := SubmittedProject(old(newProject), nowIso);
              (r.None? ==> store.State() == old(store.State()) && newProject == old(newProject)
                           && isCreateModalOpen == old(isCreateModalOpen))
              && (r.Some? ==>
                    store.State() == old(store.State()).(projects := old(store.projects)
                      + [NewProject(|old(store.projects)|, r.value, nowIso)])
                    && newProject == EmptyProjectDraft && !isCreateModalOpen)
      ensures searchQuery == old(searchQuery) && filterStatus == old(filterStatus)
    {
      var r := SubmittedProject(newProject, nowIso);
      if r.Some? {
        store.CreateProject(r.value, nowIso);
        isCreateModalOpen := false;
        newProject := EmptyProjectDraft;
      }
    }
  }
}
