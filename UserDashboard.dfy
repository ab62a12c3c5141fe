/** The signed-in user's dashboard: the per-user fetch of submissions, sorted
    newest first, and the edit dialog around it. */
module UserDashboard {
  import opened Common
  import opened Store
  import opened Ordering

  /** The component's state. The store query is an outcome parameter: `Done`
      when `getDocs` answers, `Failed` when it throws. */
  class Dashboard {
    var user: Option<Uid>
    var submissions: seq<Submission>
    var loading: bool
    var isFetchingSubmissions: bool
    var isEditDialogOpen: bool
    var selectedSubmission: Option<Submission>

    constructor ()
      ensures user == None && submissions == [] && loading && isFetchingSubmissions
      ensures !isEditDialogOpen && selectedSubmission == None
    {
      user, submissions, loading, isFetchingSubmissions := None, [], true, true;
      isEditDialogOpen, selectedSubmission := false, None;
    }

    /** `fetchSubmissions(uid)`: on success the list holds exactly the stored
        submissions owned by `uid`, each once, newest first when all are
        dated; on failure the previous list stays. */
    method FetchSubmissions(uid: Uid, db: Database, query: Outcome)
      requires db.Valid()
      modifies this`submissions, this`isFetchingSubmissions
      ensures !isFetchingSubmissions
      ensures query.Failed? ==> submissions == old(submissions)
      ensures query.Done? ==> multiset(submissions) == multiset(db.QueryByUser(uid))
      ensures query.Done? ==> forall s :: s in submissions <==>
                s.id in db.submissions && db.submissions[s.id] == s.doc && s.doc.userId == Some(uid)
      ensures query.Done? && AllDated(db.QueryByUser(uid)) ==> NewestFirst(submissions)
    {
      isFetchingSubmissions := true;
      if query.Done? {
        var fetched := db.QueryByUser(uid);
        var sorted := SortedCopy(fetched);
        submissions := sorted;
        forall s ensures s in submissions <==> s in fetched {
          assert s in submissions <==> s in multiset(submissions);
          assert s in fetched <==> s in multiset(fetched);
        }
      }
      isFetchingSubmissions := false;
    }

    /** The `onAuthStateChanged` callback: a signed-in user is recorded and
        their submissions fetched; otherwise the page redirects to `/login`. */
    method OnAuthStateChanged(currentUser: Option<Uid>, db: Database, query: Outcome)
      returns (push: Option<Route>)
      requires db.Valid()
      modifies this`user, this`submissions, this`isFetchingSubmissions, this`loading
      ensures !loading
      ensures currentUser.Some? ==> user == currentUser && push == None && !isFetchingSubmissions
      ensures currentUser.Some? && query.Done? ==>
                multiset(submissions) == multiset(db.QueryByUser(currentUser.value))
      ensures currentUser.Some? && query.Done? && AllDated(db.QueryByUser(currentUser.value)) ==>
                NewestFirst(submissions)
      ensures currentUser.None? ==> push == Some(Login) && user == old(user) && submissions == old(submissions)
      ensures currentUser.None? ==> isFetchingSubmissions == old(isFetchingSubmissions)
      ensures query.Failed? ==> submissions == old(submissions)
    {
      push := None;
      if currentUser.Some? {
        user := currentUser;
        FetchSubmissions(currentUser.value, db, query);
      } else {
        push := Some(Login);
      }
      loading := false;
    }

    /** `handleEditClick` */
    method EditClick(s: Submission)
      modifies this`selectedSubmission, this`isEditDialogOpen
      ensures selectedSubmission == Some(s) && isEditDialogOpen
    {
      selectedSubmission := Some(s);
      isEditDialogOpen := true;
    }

    /** `handleEditSuccess`: closes the dialog, clears the selection and, when
        a user is signed in, fetches again. */
    method EditSuccess(db: Database, query: Outcome) returns (refetched: bool)
      requires db.Valid()
      modifies this`selectedSubmission, this`isEditDialogOpen, this`submissions, this`isFetchingSubmissions
      ensures !isEditDialogOpen && selectedSubmission == None
      ensures refetched <==> user.Some?
      ensures user.Some? && query.Done? ==>
                multiset(submissions) == multiset(db.QueryByUser(user.value))
      ensures user.Some? && query.Done? && AllDated(db.QueryByUser(user.value)) ==> NewestFirst(submissions)
      ensures user.None? || query.Failed? ==> submissions == old(submissions)
      ensures user.None? ==> isFetchingSubmissions == old(isFetchingSubmissions)
      ensures user.Some? ==> !isFetchingSubmissions
    {
      isEditDialogOpen := false;
      selectedSubmission := None;
      refetched := user.Some?;
      if user.Some? {
        FetchSubmissions(user.value, db, query);
      }
    }
  }
}
