/** The admin's view of one user: the user's record and their submissions,
    sorted newest first, and the edit dialog around them. */
module UserSubmissions {
  import opened Common
  import opened Store
  import opened Ordering

  /** What one run of `fetchUserDataAndSubmissions` ends with. */
  datatype FetchResult = Fetched | UserReadFailed | UserNotFound | QueryFailed

  /** The component's state for the `userId` prop. The user read and the
      submissions query are outcome parameters: `Done` when the store
      answers, `Failed` when the call throws. */
  class SubmissionsView {
    const userId: Uid
    var user: Option<UserRow>
    var submissions: seq<Submission>
    var loading: bool
    var isEditDialogOpen: bool
    var selectedSubmission: Option<Submission>

    constructor (userId: Uid)
      ensures this.userId == userId
      ensures user == None && submissions == [] && loading
      ensures !isEditDialogOpen && selectedSubmission == None
    {
      this.userId := userId;
      user, submissions, loading := None, [], true;
      isEditDialogOpen, selectedSubmission := false, None;
    }

    /** `fetchUserDataAndSubmissions`: a missing user document throws before
        the query runs; otherwise the list becomes exactly the user's stored
        submissions, newest first when all are dated. `loading` ends false
        on every path. */
    method FetchUserDataAndSubmissions(db: Database, userRead: Outcome, query: Outcome)
      returns (result: FetchResult, queried: bool)
      requires db.Valid()
      modifies this`user, this`submissions, this`loading
      ensures !loading
      ensures queried <==> userRead.Done? && userId in db.users
      ensures userRead.Failed? ==> result == UserReadFailed && user == old(user)
      ensures userRead.Done? && userId !in db.users ==> result == UserNotFound && user == old(user)
      ensures queried ==>
                user == Some(UserRow(userId, db.users[userId].email, db.users[userId].isAdmin))
      ensures queried && query.Failed? ==> result == QueryFailed
      ensures !queried || query.Failed? ==> submissions == old(submissions)
      ensures result == Fetched <==> queried && query.Done?
      ensures result == Fetched ==> multiset(submissions) == multiset(db.QueryByUser(userId))
      ensures result == Fetched ==> forall s :: s in submissions <==>
                s.id in db.submissions && db.submissions[s.id] == s.doc && s.doc.userId == Some(userId)
      ensures result == Fetched && AllDated(db.QueryByUser(userId)) ==> NewestFirst(submissions)
    {
      loading := true;
      queried := false;
      if userRead.Failed? {
        result := UserReadFailed;
      } else if userId !in db.users {
        result := UserNotFound;
      } else {
        var d := db.users[userId];
        user := Some(UserRow(userId, d.email, d.isAdmin));
        queried := true;
        if query.Failed? {
          result := QueryFailed;
        } else {
          var fetched := db.QueryByUser(userId);
          var sorted := SortedCopy(fetched);
          submissions := sorted;
          forall s ensures s in submissions <==> s in fetched {
            assert s in submissions <==> s in multiset(submissions);
            assert s in fetched <==> s in multiset(fetched);
          }
          result := Fetched;
        }
      }
      loading := false;
    }

    /** `handleEditClick` */
    method EditClick(s: Submission)
      modifies this`selectedSubmission, this`isEditDialogOpen
      ensures selectedSubmission == Some(s) && isEditDialogOpen
    {
      selectedSubmission := Some(s);
      isEditDialogOpen := true;
    }

    /** `handleEditSuccess`: closes the dialog, clears the selection and runs
        the whole fetch again. */
    method EditSuccess(db: Database, userRead: Outcome, query: Outcome) returns (result: FetchResult)
      requires db.Valid()
      modifies this`selectedSubmission, this`isEditDialogOpen, this`user, this`submissions, this`loading
      ensures !isEditDialogOpen && selectedSubmission == None && !loading
      ensures result == Fetched <==> userRead.Done? && userId in db.users && query.Done?
      ensures result == Fetched ==> multiset(submissions) == multiset(db.QueryByUser(userId))
      ensures result == Fetched && AllDated(db.QueryByUser(userId)) ==> NewestFirst(submissions)
      ensures result != Fetched ==> submissions == old(submissions)
      ensures userRead.Done? && userId in db.users ==>
                user == Some(UserRow(userId, db.users[userId].email, db.users[userId].isAdmin))
      ensures !(userRead.Done? && userId in db.users) ==> user == old(user)
    {
      isEditDialogOpen := false;
      selectedSubmission := None;
      var queried;
      result, queried := FetchUserDataAndSubmissions(db, userRead, query);
    }
  }
}
