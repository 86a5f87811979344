/** The moderation panel: the admin gate, the ten handlers (each a collection transform followed by at
    most one audit entry), the dashboard counters and the search filters. */
module AdminPage {
  import opened Wrappers
  import opened Types
  import opened Seqs
  import opened Text
  import opened AuthContext

  /** The panel is shown only to a signed-in administrator. */
  predicate IsAdmin(user: Option<User>)
  {
    user.Some? && user.value.role == ADMIN
  }

  /** One click in the panel. `id` is the target's id in every case. */
  datatype AdminAction =
    | ApproveTutorial(id: string)
    | DeleteTutorial(id: string)
    | DeleteComment(tutorialId: string, id: string, content: string)
    | BanUser(id: string)
    | UnbanUser(id: string)
    | PromoteUser(id: string)
    | DemoteUser(id: string)
    | ResolveProblem(id: string)
    | DeleteProblem(id: string)
    | DeleteRequest(id: string)

  /** The fixed action label of each handler's audit entry. */
  function ActionLabel(a: AdminAction): string
  {
    match a
    case ApproveTutorial(_) => "Aprovou tutorial"
    case DeleteTutorial(_) => "Excluiu tutorial"
    case DeleteComment(_, _, _) => "Excluiu comentário"
    case BanUser(_) => "Baniu usuário"
    case UnbanUser(_) => "Desbaniu usuário"
    case PromoteUser(_) => "Promoveu a admin"
    case DemoteUser(_) => "Rebaixou de admin"
    case ResolveProblem(_) => "Marcou problema como resolvido"
    case DeleteProblem(_) => "Excluiu problema"
    case DeleteRequest(_) => "Excluiu requisição"
  }

  function TargetTypeOf(a: AdminAction): TargetType
  {
    match a
    case ApproveTutorial(_) => TutorialTarget
    case DeleteTutorial(_) => TutorialTarget
    case DeleteComment(_, _, _) => CommentTarget
    case ResolveProblem(_) => ProblemTarget
    case DeleteProblem(_) => ProblemTarget
    case DeleteRequest(_) => RequestTarget
    case _ => UserTarget
  }

  predicate IsUserAction(a: AdminAction)
  {
    a.BanUser? || a.UnbanUser? || a.PromoteUser? || a.DemoteUser?
  }

  /** The action's target is present before the handler runs (comments are not looked up). */
  predicate TargetFound(st: StoreState, a: AdminAction)
  {
    match a
    case ApproveTutorial(id) => exists i :: 0 <= i < |st.tutorials| && st.tutorials[i].id == id
    case DeleteTutorial(id) => exists i :: 0 <= i < |st.tutorials| && st.tutorials[i].id == id
    case DeleteComment(_, _, _) => false
    case ResolveProblem(id) => exists i :: 0 <= i < |st.problems| && st.problems[i].id == id
    case DeleteProblem(id) => exists i :: 0 <= i < |st.problems| && st.problems[i].id == id
    case DeleteRequest(id) => exists i :: 0 <= i < |st.requests| && st.requests[i].id == id
    case _ => exists i :: 0 <= i < |st.users| && st.users[i].id == a.id
  }

  // ---------------------------------------------------------------------------------------------
  // Lookups and transforms

  function FindTutorial(ts: seq<Tutorial>, id: string): Option<Tutorial>
  {
    Find(ts, (t: Tutorial) => t.id == id)
  }

  function FindUser(us: seq<User>, id: string): Option<User>
  {
    Find(us, (u: User) => u.id == id)
  }

  function FindProblem(ps: seq<TutorialProblem>, id: string): Option<TutorialProblem>
  {
    Find(ps, (p: TutorialProblem) => p.id == id)
  }

  function FindRequest(rs: seq<TutorialRequest>, id: string): Option<TutorialRequest>
  {
    Find(rs, (r: TutorialRequest) => r.id == id)
  }

  /** Approval's map: only `approved` changes, and only on the tutorials with the id. */
  function ApproveIn(ts: seq<Tutorial>, id: string): (r: seq<Tutorial>)
    ensures |r| == |ts|
    ensures forall i :: 0 <= i < |r| ==> r[i].(approved := ts[i].approved) == ts[i]
    ensures forall i :: 0 <= i < |r| ==> r[i].approved == (ts[i].approved || ts[i].id == id)
  {
    seq(|ts|, i requires 0 <= i < |ts| => if ts[i].id == id then ts[i].(approved := true) else ts[i])
  }

  /** Resolution's map: only `resolved` changes, and only on the problems with the id. */
  function ResolveIn(ps: seq<TutorialProblem>, id: string): (r: seq<TutorialProblem>)
    ensures |r| == |ps|
    ensures forall i :: 0 <= i < |r| ==> r[i].(resolved := ps[i].resolved) == ps[i]
    ensures forall i :: 0 <= i < |r| ==> r[i].resolved == (ps[i].resolved || ps[i].id == id)
  {
    seq(|ps|, i requires 0 <= i < |ps| => if ps[i].id == id then ps[i].(resolved := true) else ps[i])
  }

  function WithoutTutorial(ts: seq<Tutorial>, id: string): seq<Tutorial>
  {
    Filter(ts, (t: Tutorial) => t.id != id)
  }

  function WithoutProblem(ps: seq<TutorialProblem>, id: string): seq<TutorialProblem>
  {
    Filter(ps, (p: TutorialProblem) => p.id != id)
  }

  function WithoutRequest(rs: seq<TutorialRequest>, id: string): seq<TutorialRequest>
  {
    Filter(rs, (r: TutorialRequest) => r.id != id)
  }

  /** The collection transform of each handler. */
  function Effect(st: StoreState, a: AdminAction): StoreState
  {
    match a
    case ApproveTutorial(id) => st.(tutorials := ApproveIn(st.tutorials, id))
    case DeleteTutorial(id) => st.(tutorials := WithoutTutorial(st.tutorials, id))
    case DeleteComment(tid, id, _) => st.(tutorials := DeleteCommentIn(st.tutorials, tid, id))
    case BanUser(id) => st.(users := WithBanned(st.users, id, true))
    case UnbanUser(id) => st.(users := WithBanned(st.users, id, false))
    case PromoteUser(id) => st.(users := WithRole(st.users, id, ADMIN))
    case DemoteUser(id) => st.(users := WithRole(st.users, id, USER))
    case ResolveProblem(id) => st.(problems := ResolveIn(st.problems, id))
    case DeleteProblem(id) => st.(problems := WithoutProblem(st.problems, id))
    case DeleteRequest(id) => st.(requests := WithoutRequest(st.requests, id))
  }

  /** The target name a handler logs, looked up before its transform; `None` when it does not log. */
  function LoggedName(st: StoreState, a: AdminAction): Option<string>
  {
    match a
    case ApproveTutorial(id) => var t := FindTutorial(st.tutorials, id); if t.Some? then Some(t.value.title) else None
    case DeleteTutorial(id) => var t := FindTutorial(st.tutorials, id); if t.Some? then Some(t.value.title) else None
    case DeleteComment(_, _, content) => Some(Snippet(content))
    case ResolveProblem(id) => var p := FindProblem(st.problems, id); if p.Some? then Some(Snippet(p.value.description)) else None
    case DeleteProblem(id) => var p := FindProblem(st.problems, id); if p.Some? then Some(Snippet(p.value.description)) else None
    case DeleteRequest(id) => var r := FindRequest(st.requests, id); if r.Some? then Some(r.value.title) else None
    case _ => var u := FindUser(st.users, a.id); if u.Some? then Some(u.value.name) else None
  }

  function DraftFor(admin: User, a: AdminAction, name: string): LogDraft
  {
    LogDraft(admin.id, admin.name, ActionLabel(a), TargetTypeOf(a), a.id, name)
  }

  /** The store after a handler: its transform, then its audit entry when it logs. The current user never
      changes, at most one entry is prepended, and only the action's own collection can change. */
  function Handle(st: StoreState, a: AdminAction, logId: string, now: string): (r: StoreState)
    requires IsAdmin(st.user)
    ensures r.user == st.user
    ensures r.adminLogs == st.adminLogs || (|r.adminLogs| == |st.adminLogs| + 1 && r.adminLogs[1..] == st.adminLogs)
    ensures r.tutorials != st.tutorials ==> a.ApproveTutorial? || a.DeleteTutorial? || a.DeleteComment?
    ensures r.users != st.users ==> IsUserAction(a)
    ensures r.problems != st.problems ==> a.ResolveProblem? || a.DeleteProblem?
    ensures r.requests != st.requests ==> a.DeleteRequest?
  {
    var after := Effect(st, a);
    match LoggedName(st, a)
    case None => after
    case Some(name) => after.(adminLogs := [Stamp(DraftFor(st.user.value, a, name), logId, now)] + st.adminLogs)
  }

  // ---------------------------------------------------------------------------------------------
  // What the handlers promise

  /** A handler logs exactly when its target was found, except comment deletion, which always logs. */
  lemma LogIffTargetFound(st: StoreState, a: AdminAction, logId: string, now: string)
    requires IsAdmin(st.user)
    ensures var r := Handle(st, a, logId, now);
      && (|r.adminLogs| == |st.adminLogs| + 1 <==> a.DeleteComment? || TargetFound(st, a))
      && (!(a.DeleteComment? || TargetFound(st, a)) ==> r.adminLogs == st.adminLogs)
  {
  }

  /** The log a handler leaves: its entry in front when it logs, the old log otherwise. */
  lemma HandleLogs(st: StoreState, a: AdminAction, logId: string, now: string)
    requires IsAdmin(st.user)
    ensures Handle(st, a, logId, now).adminLogs ==
              if LoggedName(st, a).Some?
              then [Stamp(DraftFor(st.user.value, a, LoggedName(st, a).value), logId, now)] + st.adminLogs
              else st.adminLogs
  {
  }

  /** The entry a handler logs is stamped with the given id and time, and names the acting admin, the
      fixed label and type of the action, and its target's id. */
  lemma LoggedEntry(st: StoreState, a: AdminAction, logId: string, now: string)
    requires IsAdmin(st.user)
    requires a.DeleteComment? || TargetFound(st, a)
    ensures var r := Handle(st, a, logId, now);
      && |r.adminLogs| == |st.adminLogs| + 1
      && var e := r.adminLogs[0];
      && e.id == logId && e.createdAt == now
      && e.adminId == st.user.value.id && e.adminName == st.user.value.name
      && e.action == ActionLabel(a) && e.targetType == TargetTypeOf(a) && e.targetId == a.id
      && (IsUserAction(a) ==> e.targetType == UserTarget)
  {
    HandleLogs(st, a, logId, now);
    LoggedNameFound(st, a);
  }

  /** The name a handler logs is the found target's descriptive text; comment and problem names are
      snippets of at most 53 UTF-16 code units. */
  lemma LoggedNameFound(st: StoreState, a: AdminAction)
    requires a.DeleteComment? || TargetFound(st, a)
    ensures LoggedName(st, a).Some?
    ensures var name := LoggedName(st, a).value;
      && (a.DeleteComment? ==> name == Snippet(a.content))
      && ((a.ApproveTutorial? || a.DeleteTutorial?) ==>
            exists i :: 0 <= i < |st.tutorials| && st.tutorials[i].id == a.id && name == st.tutorials[i].title)
      && ((a.ResolveProblem? || a.DeleteProblem?) ==>
            exists i :: 0 <= i < |st.problems| && st.problems[i].id == a.id && name == Snippet(st.problems[i].description))
      && (a.DeleteRequest? ==>
            exists i :: 0 <= i < |st.requests| && st.requests[i].id == a.id && name == st.requests[i].title)
      && (IsUserAction(a) ==>
            exists i :: 0 <= i < |st.users| && st.users[i].id == a.id && name == st.users[i].name)
      && (a.DeleteComment? || a.ResolveProblem? || a.DeleteProblem? ==> Utf16Length(name) <= 53)
  {
    match a
    case ApproveTutorial(_) =>
    case DeleteTutorial(_) =>
    case DeleteComment(_, _, _) =>
    case BanUser(_) =>
    case UnbanUser(_) =>
    case PromoteUser(_) =>
    case DemoteUser(_) =>
    case ResolveProblem(_) =>
    case DeleteProblem(_) =>
    case DeleteRequest(_) =>
  }

  /** The name a logged entry carries is the target's descriptive text as it was found before the change;
      comment and problem names are snippets of at most 53 UTF-16 code units. */
  lemma LoggedTargetName(st: StoreState, a: AdminAction, logId: string, now: string)
    requires IsAdmin(st.user)
    requires a.DeleteComment? || TargetFound(st, a)
    ensures var r := Handle(st, a, logId, now);
      && |r.adminLogs| == |st.adminLogs| + 1
      && r.adminLogs[0].targetName == LoggedName(st, a).value
      && (a.DeleteComment? ==> r.adminLogs[0].targetName == Snippet(a.content))
      && (a.DeleteComment? || a.ResolveProblem? || a.DeleteProblem? ==> Utf16Length(r.adminLogs[0].targetName) <= 53)
  {
    HandleLogs(st, a, logId, now);
    LoggedNameFound(st, a);
  }

  /** Each deletion removes exactly the elements with the target id and keeps the rest in order. */
  lemma DeletionRemovesExactlyTarget(st: StoreState, a: AdminAction, logId: string, now: string)
    requires IsAdmin(st.user)
    requires a.DeleteTutorial? || a.DeleteProblem? || a.DeleteRequest?
    ensures var r := Handle(st, a, logId, now);
      && (a.DeleteTutorial? ==>
            IsSubsequence(r.tutorials, st.tutorials)
            && (forall i :: 0 <= i < |st.tutorials| ==> (st.tutorials[i] in r.tutorials <==> st.tutorials[i].id != a.id))
            && (forall i :: 0 <= i < |r.tutorials| ==> r.tutorials[i].id != a.id))
      && (a.DeleteProblem? ==>
            IsSubsequence(r.problems, st.problems)
            && (forall i :: 0 <= i < |st.problems| ==> (st.problems[i] in r.problems <==> st.problems[i].id != a.id))
            && (forall i :: 0 <= i < |r.problems| ==> r.problems[i].id != a.id))
      && (a.DeleteRequest? ==>
            IsSubsequence(r.requests, st.requests)
            && (forall i :: 0 <= i < |st.requests| ==> (st.requests[i] in r.requests <==> st.requests[i].id != a.id))
            && (forall i :: 0 <= i < |r.requests| ==> r.requests[i].id != a.id))
  {
  }

  // ---------------------------------------------------------------------------------------------
  // The handlers over the store

  method HandleApproveTutorial(s: ClientStore, id: string, logId: string, now: string)
    requires IsAdmin(s.user)
    modifies s
    ensures s.State() == Handle(old(s.State()), ApproveTutorial(id), logId, now)
  {
    var admin := s.user.value;
    var tutorial := FindTutorial(s.tutorials, id);
    s.tutorials := ApproveIn(s.tutorials, id);
    if tutorial.Some? {
      s.AddAdminLog(DraftFor(admin, ApproveTutorial(id), tutorial.value.title), logId, now);
    }
  }

  method HandleDeleteTutorial(s: ClientStore, id: string, logId: string, now: string)
    requires IsAdmin(s.user)
    modifies s
    ensures s.State() == Handle(old(s.State()), DeleteTutorial(id), logId, now)
  {
    var admin := s.user.value;
    var tutorial := FindTutorial(s.tutorials, id);
    s.tutorials := WithoutTutorial(s.tutorials, id);
    if tutorial.Some? {
      s.AddAdminLog(DraftFor(admin, DeleteTutorial(id), tutorial.value.title), logId, now);
    }
  }

  method HandleDeleteComment(s: ClientStore, tutorialId: string, commentId: string, content: string, logId: string, now: string)
    requires IsAdmin(s.user)
    modifies s
    ensures s.State() == Handle(old(s.State()), DeleteComment(tutorialId, commentId, content), logId, now)
  {
    var admin := s.user.value;
    s.DeleteComment(tutorialId, commentId);
    s.AddAdminLog(DraftFor(admin, DeleteComment(tutorialId, commentId, content), Snippet(content)), logId, now);
  }

  method HandleBanUser(s: ClientStore, userId: string, logId: string, now: string)
    requires IsAdmin(s.user)
    modifies s
    ensures s.State() == Handle(old(s.State()), BanUser(userId), logId, now)
  {
    var admin := s.user.value;
    var target := FindUser(s.users, userId);
    s.BanUser(userId);
    if target.Some? {
      s.AddAdminLog(DraftFor(admin, BanUser(userId), target.value.name), logId, now);
    }
  }

  method HandleUnbanUser(s: ClientStore, userId: string, logId: string, now: string)
    requires IsAdmin(s.user)
    modifies s
    ensures s.State() == Handle(old(s.State()), UnbanUser(userId), logId, now)
  {
    var admin := s.user.value;
    var target := FindUser(s.users, userId);
    s.UnbanUser(userId);
    if target.Some? {
      s.AddAdminLog(DraftFor(admin, UnbanUser(userId), target.value.name), logId, now);
    }
  }

  method HandlePromoteUser(s: ClientStore, userId: string, logId: string, now: string)
    requires IsAdmin(s.user)
    modifies s
    ensures s.State() == Handle(old(s.State()), PromoteUser(userId), logId, now)
  {
    var admin := s.user.value;
    var target := FindUser(s.users, userId);
    s.PromoteToAdmin(userId);
    if target.Some? {
      s.AddAdminLog(DraftFor(admin, PromoteUser(userId), target.value.name), logId, now);
    }
  }

  method HandleDemoteUser(s: ClientStore, userId: string, logId: string, now: string)
    requires IsAdmin(s.user)
    modifies s
    ensures s.State() == Handle(old(s.State()), DemoteUser(userId), logId, now)
  {
    var admin := s.user.value;
    var target := FindUser(s.users, userId);
    s.DemoteFromAdmin(userId);
    if target.Some? {
      s.AddAdminLog(DraftFor(admin, DemoteUser(userId), target.value.name), logId, now);
    }
  }

  method HandleResolveProblem(s: ClientStore, problemId: string, logId: string, now: string)
    requires IsAdmin(s.user)
    modifies s
    ensures s.State() == Handle(old(s.State()), ResolveProblem(problemId), logId, now)
  {
    var admin := s.user.value;
    var problem := FindProblem(s.problems, problemId);
    s.problems := ResolveIn(s.problems, problemId);
    if problem.Some? {
      s.AddAdminLog(DraftFor(admin, ResolveProblem(problemId), Snippet(problem.value.description)), logId, now);
    }
  }

  method HandleDeleteProblem(s: ClientStore, problemId: string, logId: string, now: string)
    requires IsAdmin(s.user)
    modifies s
    ensures s.State() == Handle(old(s.State()), DeleteProblem(problemId), logId, now)
  {
    var admin := s.user.value;
    var problem := FindProblem(s.problems, problemId);
    s.problems := WithoutProblem(s.problems, problemId);
    if problem.Some? {
      s.AddAdminLog(DraftFor(admin, DeleteProblem(problemId), Snippet(problem.value.description)), logId, now);
    }
  }

  method HandleDeleteRequest(s: ClientStore, requestId: string, logId: string, now: string)
    requires IsAdmin(s.user)
    modifies s
    ensures s.State() == Handle(old(s.State()), DeleteRequest(requestId), logId, now)
  {
    var admin := s.user.value;
    var request := FindRequest(s.requests, requestId);
    s.requests := WithoutRequest(s.requests, requestId);
    if request.Some? {
      s.AddAdminLog(DraftFor(admin, DeleteRequest(requestId), request.value.title), logId, now);
    }
  }

  datatype AdminView = Restricted | Panel

  /** The page: without an administrator it shows the restricted view and no handler runs. */
  method Dispatch(s: ClientStore, a: AdminAction, logId: string, now: string) returns (view: AdminView)
    modifies s
    ensures !IsAdmin(old(s.user)) ==> view == Restricted && s.State() == old(s.State())
    ensures IsAdmin(old(s.user)) ==> view == Panel && s.State() == Handle(old(s.State()), a, logId, now)
  {
    if !IsAdmin(s.user) {
      return Restricted;
    }
    view := Panel;
    match a
    case ApproveTutorial(id) => HandleApproveTutorial(s, id, logId, now);
    case DeleteTutorial(id) => HandleDeleteTutorial(s, id, logId, now);
    case DeleteComment(tid, id, content) => HandleDeleteComment(s, tid, id, content, logId, now);
    case BanUser(id) => HandleBanUser(s, id, logId, now);
    case UnbanUser(id) => HandleUnbanUser(s, id, logId, now);
    case PromoteUser(id) => HandlePromoteUser(s, id, logId, now);
    case DemoteUser(id) => HandleDemoteUser(s, id, logId, now);
    case ResolveProblem(id) => HandleResolveProblem(s, id, logId, now);
    case DeleteProblem(id) => HandleDeleteProblem(s, id, logId, now);
    case DeleteRequest(id) => HandleDeleteRequest(s, id, logId, now);
  }
  // ---------------------------------------------------------------------------------------------
  // Dashboard counters

  datatype AdminStats = AdminStats(
    totalTutorials: nat,
    pendingTutorials: nat,
    approvedTutorials: nat,
    totalUsers: nat,
    bannedUsers: nat,
    totalComments: nat,
    totalProblems: nat,
    unresolvedProblems: nat,
    totalRequests: nat,
    unansweredRequests: nat)

  /** The number of comments over all tutorials (the dashboard's `reduce`): every tutorial's comments
      are part of it, and it is zero exactly when no tutorial has a comment. */
  function TotalComments(ts: seq<Tutorial>): (n: nat)
    ensures forall i :: 0 <= i < |ts| ==> |ts[i].comments| <= n
    ensures n == 0 <==> forall i :: 0 <= i < |ts| ==> ts[i].comments == []
  {
    if ts == [] then 0
    else
      var n := |ts[0].comments| + TotalComments(ts[1..]);
      assert forall i :: 1 <= i < |ts| ==> ts[i] == ts[1..][i - 1];
      n
  }

  predicate IsPending(t: Tutorial) { !t.approved }
  predicate IsApprovedTutorial(t: Tutorial) { t.approved }
  predicate IsBanned(u: User) { u.banned }
  predicate IsUnresolved(p: TutorialProblem) { !p.resolved }
  predicate IsUnanswered(r: TutorialRequest) { !r.answered }

  /** The counters: each partial counter is the number of elements in its state (pending, approved,
      banned, unresolved, unanswered); pending and approved add up to the total, and every other partial
      count is bounded by its total. */
  function Stats(st: StoreState): (s: AdminStats)
    ensures s.totalTutorials == |st.tutorials| && s.totalUsers == |st.users|
    ensures s.totalProblems == |st.problems| && s.totalRequests == |st.requests|
    ensures s.pendingTutorials == |Filter(st.tutorials, IsPending)|
    ensures s.approvedTutorials == |Filter(st.tutorials, IsApprovedTutorial)|
    ensures s.bannedUsers == |Filter(st.users, IsBanned)|
    ensures s.unresolvedProblems == |Filter(st.problems, IsUnresolved)|
    ensures s.unansweredRequests == |Filter(st.requests, IsUnanswered)|
    ensures s.pendingTutorials + s.approvedTutorials == s.totalTutorials
    ensures s.bannedUsers <= s.totalUsers
    ensures s.unresolvedProblems <= s.totalProblems
    ensures s.unansweredRequests <= s.totalRequests
    ensures s.totalComments == TotalComments(st.tutorials)
  {
    FilterPartition(st.tutorials, IsPending, IsApprovedTutorial);
    AdminStats(
      |st.tutorials|,
      |Filter(st.tutorials, IsPending)|,
      |Filter(st.tutorials, IsApprovedTutorial)|,
      |st.users|,
      |Filter(st.users, IsBanned)|,
      TotalComments(st.tutorials),
      |st.problems|,
      |Filter(st.problems, IsUnresolved)|,
      |st.requests|,
      |Filter(st.requests, IsUnanswered)|)
  }

  /** A partial counter is zero exactly when no element is in its state. */
  lemma StatsZeroExactlyWhenNone(st: StoreState)
    ensures var s := Stats(st);
      && (s.pendingTutorials == 0 <==> forall i :: 0 <= i < |st.tutorials| ==> st.tutorials[i].approved)
      && (s.approvedTutorials == 0 <==> forall i :: 0 <= i < |st.tutorials| ==> !st.tutorials[i].approved)
      && (s.bannedUsers == 0 <==> forall i :: 0 <= i < |st.users| ==> !st.users[i].banned)
      && (s.unresolvedProblems == 0 <==> forall i :: 0 <= i < |st.problems| ==> st.problems[i].resolved)
      && (s.unansweredRequests == 0 <==> forall i :: 0 <= i < |st.requests| ==> st.requests[i].answered)
  {
    FilterEmptyIff(st.tutorials, IsPending);
    FilterEmptyIff(st.tutorials, IsApprovedTutorial);
    FilterEmptyIff(st.users, IsBanned);
    FilterEmptyIff(st.problems, IsUnresolved);
    FilterEmptyIff(st.requests, IsUnanswered);
  }

  /** Deleting a comment never raises the comment count. */
  lemma {:induction false} DeleteCommentNeverAddsComments(ts: seq<Tutorial>, tutorialId: string, commentId: string)
    ensures TotalComments(DeleteCommentIn(ts, tutorialId, commentId)) <= TotalComments(ts)
  {
    if ts != [] {
      var r := DeleteCommentIn(ts, tutorialId, commentId);
      assert r[1..] == DeleteCommentIn(ts[1..], tutorialId, commentId);
      DeleteCommentNeverAddsComments(ts[1..], tutorialId, commentId);
    }
  }

  // ---------------------------------------------------------------------------------------------
  // Search filters

  datatype StatusFilter = All | Pending | Approved

  predicate MatchesStatus(t: Tutorial, f: StatusFilter)
  {
    f == All || (f == Pending && !t.approved) || (f == Approved && t.approved)
  }

  predicate MatchesTutorialSearch(t: Tutorial, term: string)
  {
    IncludesIgnoringCase(t.title, term) || IncludesIgnoringCase(t.authorName, term)
  }

  /** The tutorials tab: the tutorials matching the search on title or author and the status filter,
      in store order. */
  function FilteredTutorials(ts: seq<Tutorial>, term: string, f: StatusFilter): (r: seq<Tutorial>)
    ensures IsSubsequence(r, ts)
    ensures forall i :: 0 <= i < |r| ==> MatchesTutorialSearch(r[i], term) && MatchesStatus(r[i], f)
    ensures forall i :: 0 <= i < |ts| && MatchesTutorialSearch(ts[i], term) && MatchesStatus(ts[i], f) ==> ts[i] in r
    ensures f == Pending ==> forall i :: 0 <= i < |r| ==> !r[i].approved
    ensures f == Approved ==> forall i :: 0 <= i < |r| ==> r[i].approved
  {
    Filter(ts, (t: Tutorial) => MatchesTutorialSearch(t, term) && MatchesStatus(t, f))
  }

  /** With an empty search and no status filter the tab lists every tutorial. */
  lemma UnfilteredTutorialsTab(ts: seq<Tutorial>)
    ensures FilteredTutorials(ts, "", All) == ts
  {
    forall i | 0 <= i < |ts| ensures MatchesTutorialSearch(ts[i], "") {
      EmptyQueryMatches(ts[i].title);
    }
    FilterKeepsAll(ts, (t: Tutorial) => MatchesTutorialSearch(t, "") && MatchesStatus(t, All));
  }

  predicate MatchesUserSearch(u: User, term: string)
  {
    IncludesIgnoringCase(u.name, term) || IncludesIgnoringCase(u.email, term)
  }

  /** The users tab: the users whose name or email contains the search, in store order. */
  function FilteredUsers(us: seq<User>, term: string): (r: seq<User>)
    ensures IsSubsequence(r, us)
    ensures forall i :: 0 <= i < |r| ==> MatchesUserSearch(r[i], term)
    ensures forall i :: 0 <= i < |us| && MatchesUserSearch(us[i], term) ==> us[i] in r
  {
    Filter(us, (u: User) => MatchesUserSearch(u, term))
  }
}
