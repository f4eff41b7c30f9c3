/** Team chat: sending a message, the typing indicator, the members-online
    line, and the AI assistant panel whose canned reply is chosen by a
    keyword classifier on the lower-cased query. */
module Chat {
  import opened Wrappers
  import opened Text
  import opened Seqs
  import opened Types
  import opened Store

  // ---------------------------------------------------------------------
  // Sending
  // ---------------------------------------------------------------------

  /** What `handleSendMessage` passes to the store: nothing when the text is
      blank, otherwise the text as typed (not trimmed) under the current
      user's id. */
  function OutgoingMessage(text: string, userId: string, nowIso: string): (r: Option<MessageInput>)
    ensures r.Some? <==> exists i :: 0 <= i < |text| && !IsWhitespace(text[i])
    ensures r.Some? ==> r.value.text == text && r.value.userId == userId && r.value.timestamp == nowIso
    ensures r.Some? ==> (r.value.attachments.None? && r.value.reactions.None?
                         && r.value.threadId.None? && r.value.pinned.None?)
  {
    BlankIff(text);
    if Trim(text) != "" then Some(MessageInput(userId, text, nowIso, None, None, None, None))
    else None
  }

  /** The id the typing indicator shows after a send. */
  const TypingUserId := "2"

  /** `users.filter(u => u.online).length`. */
  function OnlineCount(users: seq<User>): (n: nat)
    ensures n <= |users|
    ensures n == |users| <==> forall i :: 0 <= i < |users| ==> users[i].online
  {
    var online := (u: User) => u.online;
    CountFullIff(users, online);
    Count(users, online)
  }

  // ---------------------------------------------------------------------
  // The assistant's classifier
  // ---------------------------------------------------------------------

  datatype Topic = TasksTopic | StatusTopic | SuggestTopic | HelpTopic

  /** The branch the reply timer takes. The branches are tried in order, so
      an earlier keyword wins over a later one. */
  function Classify(query: string): (r: Topic)
    ensures var q := Lower(query);
            (r == TasksTopic <==> Includes(q, "task") || Includes(q, "due"))
            && (r == StatusTopic <==> !Includes(q, "task") && !Includes(q, "due")
                                      && (Includes(q, "progress") || Includes(q, "status")))
            && (r == SuggestTopic <==> !Includes(q, "task") && !Includes(q, "due")
                                       && !Includes(q, "progress") && !Includes(q, "status")
                                       && (Includes(q, "deadline") || Includes(q, "suggest")))
  {
    var q := Lower(query);
    if Includes(q, "task") || Includes(q, "due") then TasksTopic
    else if Includes(q, "progress") || Includes(q, "status") then StatusTopic
    else if Includes(q, "deadline") || Includes(q, "suggest") then SuggestTopic
    else HelpTopic
  }

  /** The canned replies. */
  const TasksReply: string :=
    "You have 3 tasks due this week:\n"
    + "1. Design User Interface Mockups (Due Nov 15)\n"
    + "2. Conduct User Research (Due Nov 18)\n"
    + "3. Product Catalog Implementation (Due Nov 17)"
  const StatusReply: string :=
    "Project Status Summary:\n"
    + "\U{2022} AI-Powered Healthcare App: 65% complete\n"
    + "\U{2022} E-Commerce Platform: 40% complete\n"
    + "\U{2022} Smart City IoT Project: 85% complete"
  const SuggestReply: string :=
    "Based on your current progress, "
    + "I suggest:\n"
    + "\U{2022} Complete UI mockups by end of week\n"
    + "\U{2022} Schedule user research interviews\n"
    + "\U{2022} Review and test authentication system"
  const HelpReply: string :=
    "I can help you with:\n"
    + "\U{2022} Summarizing project updates\n"
    + "\U{2022} Suggesting deadlines\n"
    + "\U{2022} Showing tasks due this week\n"
    + "\U{2022} Tracking team progress\n"
    + "\n"
    + "Try asking: 'Show tasks due this week' or 'What's the project status?'"

  /** The canned reply of each branch. */
  function Response(t: Topic): (r: string)
    ensures r != ""
  {
    match t
    case TasksTopic => TasksReply
    case StatusTopic => StatusReply
    case SuggestTopic => SuggestReply
    case HelpTopic => HelpReply
  }

  /** Each branch has a reply of its own, so the reply tells which branch
      the classifier took. */
  lemma RepliesDistinct(a: Topic, b: Topic)
    ensures Response(a) == Response(b) <==> a == b
  {
    assert TasksReply[0] == 'Y';
    assert StatusReply[0] == 'P';
    assert SuggestReply[0] == 'B';
    assert HelpReply[0] == 'I';
  }

  /** A query that mentions both a task and the status gets the tasks reply,
      because that branch is tried first. */
  lemma TaskBeatsStatus(query: string)
    requires Includes(Lower(query), "task") && Includes(Lower(query), "status")
    ensures Classify(query) == TasksTopic
  {
  }

  /** The two example questions of the help reply reach the tasks and the
      status branch. */
  lemma HelpExamplesRoute()
    ensures Classify("Show tasks due this week") == TasksTopic
    ensures Classify("What's the project status?") == StatusTopic
  {
    TasksExample("Show tasks due this week");
    StatusExample("What's the project status?");
  }

  lemma TasksExample(a: string)
    requires a == "Show tasks due this week"
    ensures Includes(Lower(a), "task")
  {
    assert a[5..9] == "task";
    assert Lower(a)[5..9] == "task";
    WindowIncludes(Lower(a), "task", 5);
  }

  lemma StatusExample(b: string)
    requires b == "What's the project status?"
    ensures var l := Lower(b);
            !Includes(l, "task") && !Includes(l, "due") && Includes(l, "status")
  {
    StatusAvoidsTaskAndDue(b);
    StatusMentionsStatus(b);
  }

  lemma StatusAvoidsTaskAndDue(b: string)
    requires b == "What's the project status?"
    ensures !Includes(Lower(b), "task") && !Includes(Lower(b), "due")
  {
    StatusAvoidsKD(b);
    LowerAvoidsKD(b);
    assert "task"[3] == 'k' && "due"[0] == 'd';
    MissingCharExcludes(Lower(b), "task", 3);
    MissingCharExcludes(Lower(b), "due", 0);
  }

  /** The status question has no `k` and no `d`, in either case. */
  lemma StatusAvoidsKD(b: string)
    requires b == "What's the project status?"
    ensures AvoidsAll(b, {'k', 'K', 'd', 'D'})
  {
    var cs := {'k', 'K', 'd', 'D'};
    ChunkAvoidsKD("What's ");
    ChunkAvoidsKD("the ");
    ChunkAvoidsKD("project ");
    ChunkAvoidsKD("status?");
    AvoidsAllAppend("What's ", "the ", cs);
    AvoidsAllAppend("What's " + "the ", "project ", cs);
    AvoidsAllAppend("What's " + "the " + "project ", "status?", cs);
    assert b == "What's " + "the " + "project " + "status?";
  }

  lemma ChunkAvoidsKD(s: string)
    requires s in {"What's ", "the ", "project ", "status?"}
    ensures AvoidsAll(s, {'k', 'K', 'd', 'D'})
  {
  }

  lemma LowerAvoidsKD(b: string)
    requires AvoidsAll(b, {'k', 'K', 'd', 'D'})
    ensures forall i :: 0 <= i < |Lower(b)| ==> Lower(b)[i] != 'k'
    ensures forall i :: 0 <= i < |Lower(b)| ==> Lower(b)[i] != 'd'
  {
    forall i | 0 <= i < |b| ensures Lower(b)[i] != 'k' && Lower(b)[i] != 'd' {
      assert b[i] !in {'k', 'K', 'd', 'D'};
    }
  }


  lemma StatusMentionsStatus(b: string)
    requires b == "What's the project status?"
    ensures Includes(Lower(b), "status")
  {
    assert b[19..25] == "status";
    assert Lower(b)[19..25] == "status";
    WindowIncludes(Lower(b), "status", 19);
  }


  // ---------------------------------------------------------------------
  // The view
  // ---------------------------------------------------------------------

  datatype Role = UserRole | AiRole

  datatype AiEntry = AiEntry(role: Role, text: string)

  function RoleCount(es: seq<AiEntry>, role: Role): (n: nat)
    ensures n <= |es|
  {
    Count(es, (e: AiEntry) => e.role == role)
  }

  /** Appending one entry raises the count of its role by one and leaves the
      other role's count alone. */
  lemma RoleCountAppend(es: seq<AiEntry>, e: AiEntry, role: Role)
    ensures RoleCount(es + [e], role) == RoleCount(es, role) + (if e.role == role then 1 else 0)
  {
    var p := (x: AiEntry) => x.role == role;
    FilterAppend(es, [e], p);
    assert [e][1..] == [];
  }

  class ChatView {
    var newMessage: string
    var showAiChat: bool
    var aiInput: string
    var aiMessages: seq<AiEntry>
    var typingUsers: seq<string>
    /** The queries whose reply timer is still running, oldest first; each
        timer closes over the query text it was started with. */
    var pending: seq<string>

    /** Every question has either been answered or is waiting for its timer. */
    predicate Balanced()
      reads this
    {
      RoleCount(aiMessages, UserRole) == RoleCount(aiMessages, AiRole) + |pending|
    }

    constructor ()
      ensures newMessage == "" && !showAiChat && aiInput == ""
      ensures aiMessages == [] && typingUsers == [] && pending == []
      ensures Balanced()
    {
      newMessage := "";
      showAiChat := false;
      aiInput := "";
      aiMessages := [];
      typingUsers := [];
      pending := [];
    }

    /** `handleSendMessage`: a non-blank draft goes to the store under the
        current user, the input clears and user "2" shows as typing. */
    method SendMessage(store: EntityStore, nowIso: string)
      modifies this, store
      ensures var m := OutgoingMessage(old(newMessage), old(store.currentUser.id), nowIso);
              (m.None? ==> store.State() == old(store.State()) && newMessage == old(newMessage)
                           && typingUsers == old(typingUsers))
              && (m.Some? ==> store.State() == old(store.State()).(messages := old(store.messages)
                                 + [NewMessage(|old(store.messages)|, m.value)])
                              && newMessage == "" && typingUsers == [TypingUserId])
      ensures aiInput == old(aiInput) && aiMessages == old(aiMessages) && pending == old(pending)
      ensures showAiChat == old(showAiChat)
    {
      var m := OutgoingMessage(newMessage, store.currentUser.id, nowIso);
      if m.Some? {
        store.SendMessage(m.value);
        newMessage := "";
        typingUsers := [TypingUserId];
      }
    }

    /** The two-second timer after a send clears the indicator. */
    method TypingTimeout()
      modifies this
      ensures typingUsers == []
      ensures newMessage == old(newMessage) && aiInput == old(aiInput)
      ensures aiMessages == old(aiMessages) && pending == old(pending) && showAiChat == old(showAiChat)
    {
      typingUsers := [];
    }

    method ToggleAiChat()
      modifies this
      ensures showAiChat == !old(showAiChat)
      ensures newMessage == old(newMessage) && aiInput == old(aiInput) && typingUsers == old(typingUsers)
      ensures aiMessages == old(aiMessages) && pending == old(pending)
    {
      showAiChat := !showAiChat;
    }

    /** `handleAIQuery`: a non-blank question is shown at once and its reply
        timer starts; a blank one changes nothing. */
    method AskAi()
      requires Balanced()
      modifies this
      ensures Balanced()
      ensures Trim(old(aiInput)) == "" ==>
                aiMessages == old(aiMessages) && pending == old(pending) && aiInput == old(aiInput)
      ensures Trim(old(aiInput)) != "" ==>
                aiMessages == old(aiMessages) + [AiEntry(UserRole, old(aiInput))]
                && pending == old(pending) + [old(aiInput)] && aiInput == ""
      ensures newMessage == old(newMessage) && typingUsers == old(typingUsers) && showAiChat == old(showAiChat)
    {
      if Trim(aiInput) != "" {
        RoleCountAppend(aiMessages, AiEntry(UserRole, aiInput), UserRole);
        RoleCountAppend(aiMessages, AiEntry(UserRole, aiInput), AiRole);
        aiMessages := aiMessages + [AiEntry(UserRole, aiInput)];
        pending := pending + [aiInput];
        aiInput := "";
      }
    }

    /** The oldest reply timer fires: exactly one assistant entry, chosen by
        the question it closed over, is appended after everything so far. */
    method ReplyTimerFires()
      requires Balanced()
      modifies this
      ensures Balanced()
      ensures old(pending) == [] ==> aiMessages == old(aiMessages) && pending == []
      ensures old(pending) != [] ==>
                aiMessages == old(aiMessages) + [AiEntry(AiRole, Response(Classify(old(pending)[0])))]
                && pending == old(pending)[1..]
      ensures newMessage == old(newMessage) && aiInput == old(aiInput)
      ensures typingUsers == old(typingUsers) && showAiChat == old(showAiChat)
    {
      if pending != [] {
        var reply := AiEntry(AiRole, Response(Classify(pending[0])));
        RoleCountAppend(aiMessages, reply, UserRole);
        RoleCountAppend(aiMessages, reply, AiRole);
        aiMessages := aiMessages + [reply];
        pending := pending[1..];
      }
    }
  }

  /** Once every timer has fired, there is one assistant entry per question. */
  lemma AnsweredWhenIdle(v: ChatView)
    requires v.Balanced() && v.pending == []
    ensures RoleCount(v.aiMessages, UserRole) == RoleCount(v.aiMessages, AiRole)
  {
  }
}
