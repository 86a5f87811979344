/** The client-side store behind every page: the current user and the in-memory collections,
    with the mutations the provider exposes. Network calls are replaced by their outcomes,
    which the caller supplies as parameters. */
module AuthContext {
  import opened Wrappers
  import opened Types
  import opened Seqs
  import opened Text

  /** A snapshot of every field of the store. */
  datatype StoreState = StoreState(
    user: Option<User>,
    tutorials: seq<Tutorial>,
    problems: seq<TutorialProblem>,
    requests: seq<TutorialRequest>,
    users: seq<User>,
    adminLogs: seq<AdminLog>)

  /** An audit entry before the store stamps it with an id and a time. */
  datatype LogDraft = LogDraft(
    adminId: string,
    adminName: string,
    action: string,
    targetType: TargetType,
    targetId: string,
    targetName: string)

  function Stamp(d: LogDraft, id: string, createdAt: string): AdminLog
  {
    AdminLog(id, d.adminId, d.adminName, d.action, d.targetType, d.targetId, d.targetName, createdAt)
  }

  // ---------------------------------------------------------------------------------------------
  // Saved tutorials

  /** `user.savedTutorials || []` */
  function SavedOrEmpty(saved: Option<seq<string>>): seq<string>
  {
    saved.GetOr([])
  }

  /** `user.savedTutorials?.includes(id)`: an absent list holds nothing. */
  predicate IsSavedIn(saved: Option<seq<string>>, id: string)
  {
    saved.Some? && id in saved.value
  }

  /** The optimistic new list of `toggleSaveTutorial`: remove the id when present, append it otherwise. */
  function ToggledSaved(saved: Option<seq<string>>, tutorialId: string): (r: seq<string>)
    ensures tutorialId in r <==> !IsSavedIn(saved, tutorialId)
    ensures forall x :: x != tutorialId ==> (x in r <==> IsSavedIn(saved, x))
    ensures !IsSavedIn(saved, tutorialId) ==> r == SavedOrEmpty(saved) + [tutorialId]
    ensures IsSavedIn(saved, tutorialId) ==> IsSubsequence(r, saved.value)
  {
    var current := SavedOrEmpty(saved);
    if IsSavedIn(saved, tutorialId) then
      var r := Without(current, tutorialId);
      assert forall x :: x in r <==> x in current && x != tutorialId by {
        forall x ensures x in r <==> x in current && x != tutorialId {
          if x in current {
            var i :| 0 <= i < |current| && current[i] == x;
          }
          if x in r {
            var i :| 0 <= i < |r| && r[i] == x;
          }
        }
      }
      r
    else current + [tutorialId]
  }

  /** The saved list after `n` toggles of the same tutorial whose remote writes all succeed. */
  function Toggled(saved: Option<seq<string>>, tutorialId: string, n: nat): Option<seq<string>>
  {
    if n == 0 then saved else Some(ToggledSaved(Toggled(saved, tutorialId, n - 1), tutorialId))
  }

  lemma ParityStep(n: nat)
    requires n > 0
    ensures (n % 2 == 0) <==> (n - 1) % 2 != 0
  {
  }

  /** After an even number of successful toggles the tutorial's membership is what it was, after an odd
      number it is flipped, and no other tutorial's membership ever changes. */
  lemma {:induction false} ToggleParity(saved: Option<seq<string>>, tutorialId: string, n: nat)
    ensures IsSavedIn(Toggled(saved, tutorialId, n), tutorialId)
            <==> (if n % 2 == 0 then IsSavedIn(saved, tutorialId) else !IsSavedIn(saved, tutorialId))
    ensures forall x :: x != tutorialId ==> (IsSavedIn(Toggled(saved, tutorialId, n), x) <==> IsSavedIn(saved, x))
  {
    if n > 0 {
      var prev := Toggled(saved, tutorialId, n - 1);
      ToggleParity(saved, tutorialId, n - 1);
      var next := ToggledSaved(prev, tutorialId);
      assert Toggled(saved, tutorialId, n) == Some(next);
      ParityStep(n);
      forall x | x != tutorialId ensures IsSavedIn(Some(next), x) <==> IsSavedIn(saved, x) {
        assert x in next <==> IsSavedIn(prev, x);
      }
    }
  }

  /** Toggling a tutorial that was not saved and then toggling it back gives the list the toggle appended to. */
  lemma ToggleTwiceFromUnsaved(saved: Option<seq<string>>, tutorialId: string)
    requires !IsSavedIn(saved, tutorialId)
    ensures ToggledSaved(Some(ToggledSaved(saved, tutorialId)), tutorialId) == SavedOrEmpty(saved)
  {
    WithoutAppended(SavedOrEmpty(saved), tutorialId);
  }

  // ---------------------------------------------------------------------------------------------
  // Per-element transforms used by the moderation operations

  /** `deleteComment`'s map: in every tutorial with the given id, drop the comments with `commentId`. */
  function DeleteCommentIn(tutorials: seq<Tutorial>, tutorialId: string, commentId: string): (r: seq<Tutorial>)
    ensures |r| == |tutorials|
    ensures forall i :: 0 <= i < |r| ==> r[i].(comments := tutorials[i].comments) == tutorials[i]
    ensures forall i :: 0 <= i < |r| && tutorials[i].id != tutorialId ==> r[i] == tutorials[i]
    ensures forall i :: 0 <= i < |r| && tutorials[i].id == tutorialId ==>
              IsSubsequence(r[i].comments, tutorials[i].comments)
              && (forall j :: 0 <= j < |r[i].comments| ==> r[i].comments[j].id != commentId)
              && (forall j :: 0 <= j < |tutorials[i].comments| && tutorials[i].comments[j].id != commentId
                    ==> tutorials[i].comments[j] in r[i].comments)
  {
    seq(|tutorials|, i requires 0 <= i < |tutorials| =>
      if tutorials[i].id == tutorialId
      then tutorials[i].(comments := Filter(tutorials[i].comments, (c: Comment) => c.id != commentId))
      else tutorials[i])
  }

  /** `banUser` / `unbanUser`'s map: set `banned` on the users with the given id. */
  function WithBanned(users: seq<User>, userId: string, banned: bool): (r: seq<User>)
    ensures |r| == |users|
    ensures forall i :: 0 <= i < |r| ==> r[i].(banned := users[i].banned) == users[i]
    ensures forall i :: 0 <= i < |r| ==> r[i].banned == if users[i].id == userId then banned else users[i].banned
  {
    seq(|users|, i requires 0 <= i < |users| => if users[i].id == userId then users[i].(banned := banned) else users[i])
  }

  /** `promoteToAdmin` / `demoteFromAdmin`'s map: set `role` on the users with the given id. */
  function WithRole(users: seq<User>, userId: string, role: Role): (r: seq<User>)
    ensures |r| == |users|
    ensures forall i :: 0 <= i < |r| ==> r[i].(role := users[i].role) == users[i]
    ensures forall i :: 0 <= i < |r| ==> r[i].role == if users[i].id == userId then role else users[i].role
  {
    seq(|users|, i requires 0 <= i < |users| => if users[i].id == userId then users[i].(role := role) else users[i])
  }

  /** Banning and then unbanning leaves the target unbanned with its role, and every other user as it was. */
  lemma BanThenUnban(users: seq<User>, userId: string)
    ensures var r := WithBanned(WithBanned(users, userId, true), userId, false);
      |r| == |users|
      && (forall i :: 0 <= i < |r| ==> r[i].role == users[i].role)
      && (forall i :: 0 <= i < |r| && users[i].id == userId ==> !r[i].banned)
      && (forall i :: 0 <= i < |r| && users[i].id != userId ==> r[i] == users[i])
  {
  }

  /** Setting the same role twice is setting it once. */
  lemma WithRoleIdempotent(users: seq<User>, userId: string, role: Role)
    ensures WithRole(WithRole(users, userId, role), userId, role) == WithRole(users, userId, role)
  {
  }

  /** Setting the same ban flag twice is setting it once. */
  lemma WithBannedIdempotent(users: seq<User>, userId: string, banned: bool)
    ensures WithBanned(WithBanned(users, userId, banned), userId, banned) == WithBanned(users, userId, banned)
  {
  }

  // ---------------------------------------------------------------------------------------------
  // Mapping backend rows and sessions to entities

  /** The fields of an authenticated session the store reads. */
  datatype AuthSession = AuthSession(
    id: string,
    email: string,
    metadataName: Option<string>,
    metadataRole: Option<Role>,
    createdAt: string)

  /** The user record built from a session and the saved-tutorial rows fetched for it. */
  function UserFromSession(s: AuthSession, savedRows: Option<seq<string>>): (u: User)
    ensures u.id == s.id && u.email == s.email && u.createdAt == s.createdAt
    ensures s.metadataName.Some? && s.metadataName.value != [] ==> u.name == s.metadataName.value
    ensures !(s.metadataName.Some? && s.metadataName.value != []) ==> u.name == LocalPart(s.email)
    ensures u.role == (if s.metadataRole.Some? then s.metadataRole.value else USER)
    ensures !u.banned
    ensures u.savedTutorials == Some(if savedRows.Some? then savedRows.value else [])
  {
    User(s.id, s.email, OrIfEmpty(s.metadataName, LocalPart(s.email)), s.metadataRole.GetOr(USER),
         s.createdAt, false, Some(savedRows.GetOr([])))
  }

  /** A `tutorials` row joined with its author's profile name. */
  datatype TutorialRow = TutorialRow(
    id: string, title: string, description: string, steps: seq<string>, authorId: string,
    profileName: Option<string>, category: string, createdAt: string, approved: bool, upvotes: int)

  function TutorialFromRow(row: TutorialRow): (t: Tutorial)
    ensures t.authorName == (if row.profileName.Some? && row.profileName.value != [] then row.profileName.value else "Usuário")
    ensures t.comments == []
    ensures t.id == row.id && t.title == row.title && t.description == row.description && t.steps == row.steps
    ensures t.authorId == row.authorId && t.category == row.category && t.approved == row.approved && t.upvotes == row.upvotes
  {
    Tutorial(row.id, row.title, row.description, row.steps, row.authorId, OrIfEmpty(row.profileName, "Usuário"),
             row.category, row.createdAt, row.approved, row.upvotes, [])
  }

  /** A `tutorial_requests` row joined with its author's profile name. */
  datatype RequestRow = RequestRow(
    id: string, userId: string, profileName: Option<string>, title: string, description: string,
    category: string, createdAt: string, upvotes: int, upvotedBy: Option<seq<string>>, answered: bool,
    answeredTutorialId: Option<string>)

  function RequestFromRow(row: RequestRow): (r: TutorialRequest)
    ensures r.userName == (if row.profileName.Some? && row.profileName.value != [] then row.profileName.value else "Usuário")
    ensures r.upvotedBy == (if row.upvotedBy.Some? then row.upvotedBy.value else [])
    ensures r.id == row.id && r.userId == row.userId && r.title == row.title && r.description == row.description
    ensures r.category == row.category && r.upvotes == row.upvotes && r.answered == row.answered
    ensures r.answeredTutorialId == row.answeredTutorialId
  {
    TutorialRequest(row.id, row.userId, OrIfEmpty(row.profileName, "Usuário"), row.title, row.description,
                    row.category, row.createdAt, row.upvotes, row.upvotedBy.GetOr([]), row.answered,
                    row.answeredTutorialId)
  }

  /** A `profiles` row. The list of saved tutorials is not part of it. */
  datatype ProfileRow = ProfileRow(id: string, email: string, name: string, role: Role, createdAt: string, banned: bool)

  function UserFromRow(row: ProfileRow): (u: User)
    ensures u.id == row.id && u.email == row.email && u.name == row.name && u.role == row.role
    ensures u.banned == row.banned && u.savedTutorials.None?
  {
    User(row.id, row.email, row.name, row.role, row.createdAt, row.banned, None)
  }

  function MapRows<R, E>(rows: seq<R>, f: R -> E): (r: seq<E>)
    ensures |r| == |rows| && forall i :: 0 <= i < |rows| ==> r[i] == f(rows[i])
  {
    seq(|rows|, i requires 0 <= i < |rows| => f(rows[i]))
  }

  // ---------------------------------------------------------------------------------------------
  // The store

  /** The remote write `toggleSaveTutorial` issues on the `saved_tutorials` link table. */
  datatype SavedLinkWrite = InsertLink(userId: string, tutorialId: string) | DeleteLink(userId: string, tutorialId: string)

  /** The notifications `toggleSaveTutorial` shows. */
  datatype SaveNotice = LoginRequired | SavedNotice | RemovedNotice | SaveFailed

  datatype ProfileError = NoUser | ProfileWriteFailed

  class ClientStore {
    var user: Option<User>
    var tutorials: seq<Tutorial>
    var problems: seq<TutorialProblem>
    var requests: seq<TutorialRequest>
    var users: seq<User>
    var adminLogs: seq<AdminLog>

    function State(): StoreState
      reads this
    {
      StoreState(user, tutorials, problems, requests, users, adminLogs)
    }

    /** The provider's initial state: no user and empty collections. */
    constructor ()
      ensures State() == StoreState(None, [], [], [], [], [])
    {
      user, tutorials, problems, requests, users, adminLogs := None, [], [], [], [], [];
    }

    /** Flip whether the current user has saved `tutorialId`: update the user optimistically, issue the
        matching insert or delete, and on failure restore the list captured before the update.
        `writeSucceeds` is the outcome of the remote write. */
    method ToggleSaveTutorial(tutorialId: string, writeSucceeds: bool) returns (write: Option<SavedLinkWrite>, notice: SaveNotice)
      modifies this
      ensures old(user).None? ==> State() == old(State()) && write.None? && notice == LoginRequired
      ensures old(user).Some? ==>
        var u := old(user).value;
        var wasSaved := IsSavedIn(u.savedTutorials, tutorialId);
        && write == Some(if wasSaved then DeleteLink(u.id, tutorialId) else InsertLink(u.id, tutorialId))
        && (writeSucceeds ==>
              && State() == old(State()).(user := Some(u.(savedTutorials := Some(ToggledSaved(u.savedTutorials, tutorialId)))))
              && notice == (if wasSaved then RemovedNotice else SavedNotice))
        && (!writeSucceeds ==> State() == old(State()) && notice == SaveFailed)
    {
      if user.None? {
        return None, LoginRequired;
      }
      var snapshot := user.value;
      var isSaved := IsSavedIn(snapshot.savedTutorials, tutorialId);
      user := Some(snapshot.(savedTutorials := Some(ToggledSaved(snapshot.savedTutorials, tutorialId))));
      write := Some(if isSaved then DeleteLink(snapshot.id, tutorialId) else InsertLink(snapshot.id, tutorialId));
      if writeSucceeds {
        notice := if isSaved then RemovedNotice else SavedNotice;
      } else {
        if user.Some? {
          user := Some(user.value.(savedTutorials := snapshot.savedTutorials));
        }
        notice := SaveFailed;
      }
    }

    /** Prepend one stamped entry; the earlier entries keep their order. */
    method AddAdminLog(draft: LogDraft, id: string, createdAt: string)
      modifies this
      ensures State() == old(State()).(adminLogs := [Stamp(draft, id, createdAt)] + old(adminLogs))
      ensures |adminLogs| == |old(adminLogs)| + 1 && adminLogs[0] == Stamp(draft, id, createdAt) && adminLogs[1..] == old(adminLogs)
    {
      adminLogs := [Stamp(draft, id, createdAt)] + adminLogs;
    }

    method DeleteComment(tutorialId: string, commentId: string)
      modifies this
      ensures State() == old(State()).(tutorials := DeleteCommentIn(old(tutorials), tutorialId, commentId))
    {
      tutorials := DeleteCommentIn(tutorials, tutorialId, commentId);
    }

    method BanUser(userId: string)
      modifies this
      ensures State() == old(State()).(users := WithBanned(old(users), userId, true))
    {
      users := WithBanned(users, userId, true);
    }

    method UnbanUser(userId: string)
      modifies this
      ensures State() == old(State()).(users := WithBanned(old(users), userId, false))
    {
      users := WithBanned(users, userId, false);
    }

    method PromoteToAdmin(userId: string)
      modifies this
      ensures State() == old(State()).(users := WithRole(old(users), userId, ADMIN))
    {
      users := WithRole(users, userId, ADMIN);
    }

    method DemoteFromAdmin(userId: string)
      modifies this
      ensures State() == old(State()).(users := WithRole(old(users), userId, USER))
    {
      users := WithRole(users, userId, USER);
    }

    /** Rename the current user; without one nothing happens. `writeSucceeds` is the outcome of the
        profile update. */
    method UpdateProfile(name: string, writeSucceeds: bool) returns (error: Option<ProfileError>)
      modifies this
      ensures old(user).None? ==> State() == old(State()) && error == Some(NoUser)
      ensures old(user).Some? && writeSucceeds ==>
                State() == old(State()).(user := Some(old(user).value.(name := name))) && error.None?
      ensures old(user).Some? && !writeSucceeds ==> State() == old(State()) && error == Some(ProfileWriteFailed)
    {
      if user.None? {
        return Some(NoUser);
      }
      if writeSucceeds {
        user := Some(user.value.(name := name));
        error := None;
      } else {
        error := Some(ProfileWriteFailed);
      }
    }

    method Logout()
      modifies this
      ensures State() == old(State()).(user := None)
    {
      user := None;
    }

    /** A session change: a session with a user installs the mapped user, no session clears it. */
    method OnAuthStateChange(session: Option<AuthSession>, savedRows: Option<seq<string>>)
      modifies this
      ensures session.Some? ==> State() == old(State()).(user := Some(UserFromSession(session.value, savedRows)))
      ensures session.None? ==> State() == old(State()).(user := None)
    {
      if session.Some? {
        user := Some(UserFromSession(session.value, savedRows));
      } else {
        user := None;
      }
    }

    /** Replace each collection whose fetch returned data with its mapped rows; a failed fetch
        (`None`) leaves that collection as it was. Problems and audit logs are never fetched. */
    method RefreshData(tutorialRows: Option<seq<TutorialRow>>, requestRows: Option<seq<RequestRow>>, profileRows: Option<seq<ProfileRow>>)
      modifies this
      ensures user == old(user) && problems == old(problems) && adminLogs == old(adminLogs)
      ensures tutorials == if tutorialRows.Some? then MapRows(tutorialRows.value, TutorialFromRow) else old(tutorials)
      ensures requests == if requestRows.Some? then MapRows(requestRows.value, RequestFromRow) else old(requests)
      ensures users == if profileRows.Some? then MapRows(profileRows.value, UserFromRow) else old(users)
    {
      if tutorialRows.Some? {
        tutorials := MapRows(tutorialRows.value, TutorialFromRow);
      }
      if requestRows.Some? {
        requests := MapRows(requestRows.value, RequestFromRow);
      }
      if profileRows.Some? {
        users := MapRows(profileRows.value, UserFromRow);
      }
    }
  }
}
