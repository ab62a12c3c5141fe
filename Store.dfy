/** The document database and the authentication session, as the components
    see them: two Firestore collections (`users`, `submissions`) held as maps
    from document ids, and the signed-in user. */
module Store {
  import opened Common

  /** A document of the `users` collection. Documents are schemaless, so
      each field may be missing; `isAdmin` is held as a boolean. */
  datatype UserDoc = UserDoc(email: Option<string>, isAdmin: Option<bool>)

  /** A user as the pages hold it: `{ id: doc.id, ...doc.data() }`. */
  datatype UserRow = UserRow(id: Uid, email: Option<string>, isAdmin: Option<bool>)

  /** A document of the `submissions` collection. The writers in this
      repository always store the five text fields, but a document read back
      may lack any of them. */
  datatype SubmissionDoc = SubmissionDoc(
    firstName: Option<string>,
    surname: Option<string>,
    address: Option<string>,
    postcode: Option<string>,
    email: Option<string>,
    favoriteTimeOfDay: Option<string>,
    createdAt: Option<int>,   // milliseconds since the epoch
    userId: Option<Uid>)

  /** A fetched submission: `{ id: doc.id, ...doc.data() }`. */
  datatype Submission = Submission(id: DocId, doc: SubmissionDoc)

  /** `userDocSnap.exists() && userDocSnap.data().isAdmin` */
  predicate IsAdmin(users: map<Uid, UserDoc>, uid: Uid) {
    uid in users && users[uid].isAdmin == Some(true)
  }

  /** A missing document, or one whose `isAdmin` is missing or `false`,
      fails the test, and only the user's own document decides it. */
  lemma AdminTest(users: map<Uid, UserDoc>, uid: Uid, other: Uid, d: UserDoc)
    ensures uid !in users ==> !IsAdmin(users, uid)
    ensures uid in users && users[uid].isAdmin != Some(true) ==> !IsAdmin(users, uid)
    ensures other != uid ==> IsAdmin(users[other := d], uid) == IsAdmin(users, uid)
    ensures IsAdmin(users[uid := d], uid) <==> d.isAdmin == Some(true)
  {
  }

  predicate NoDuplicates<T(==)>(s: seq<T>) {
    forall i, j :: 0 <= i < j < |s| ==> s[i] != s[j]
  }

  /** `query(collection(db, "submissions"), where("userId", "==", uid))`,
      listing the documents in the order `order` gives them. */
  function Matching(order: seq<DocId>, docs: map<DocId, SubmissionDoc>, uid: Uid): seq<Submission>
  {
    if order == [] then []
    else
      var id := order[0];
      (if id in docs && docs[id].userId == Some(uid) then [Submission(id, docs[id])] else [])
      + Matching(order[1..], docs, uid)
  }

  /** A submission is returned by the query exactly when it is a listed
      document of the collection, with its stored contents, owned by `uid`. */
  lemma {:induction false} MatchingMembers(order: seq<DocId>, docs: map<DocId, SubmissionDoc>, uid: Uid, s: Submission)
    ensures s in Matching(order, docs, uid) <==>
            s.id in order && s.id in docs && docs[s.id] == s.doc && s.doc.userId == Some(uid)
  {
    if order != [] {
      MatchingMembers(order[1..], docs, uid, s);
      assert order == [order[0]] + order[1..];
    }
  }

  /** A listing without repeated ids gives a query result without repeats. */
  lemma {:induction false} MatchingNoDuplicates(order: seq<DocId>, docs: map<DocId, SubmissionDoc>, uid: Uid)
    requires NoDuplicates(order)
    ensures NoDuplicates(Matching(order, docs, uid))
  {
    if order != [] {
      var id := order[0];
      var rest := Matching(order[1..], docs, uid);
      assert NoDuplicates(order[1..]) by {
        forall i, j | 0 <= i < j < |order[1..]| ensures order[1..][i] != order[1..][j] {
          assert order[1..][i] == order[i + 1] && order[1..][j] == order[j + 1];
        }
      }
      MatchingNoDuplicates(order[1..], docs, uid);
      if id in docs && docs[id].userId == Some(uid) {
        var head := Submission(id, docs[id]);
        assert head !in rest by {
          MatchingMembers(order[1..], docs, uid, head);
          forall k | 0 <= k < |order[1..]| ensures order[1..][k] != id {
            assert order[1..][k] == order[k + 1];
          }
        }
        assert Matching(order, docs, uid) == [head] + rest;
      }
    }
  }

  /** The two collections. `order` lists the submission ids in the order the
      store returns them from a query. */
  class Database {
    var users: map<Uid, UserDoc>
    var submissions: map<DocId, SubmissionDoc>
    var order: seq<DocId>

    ghost predicate Valid()
      reads this
    {
      NoDuplicates(order) && forall id :: id in submissions <==> id in order
    }

    constructor ()
      ensures Valid()
      ensures users == map[] && submissions == map[] && order == []
    {
      users, submissions, order := map[], map[], [];
    }

    /** The submissions owned by `uid`. */
    function QueryByUser(uid: Uid): (r: seq<Submission>)
      reads this
      requires Valid()
      ensures NoDuplicates(r)
      ensures forall s :: s in r <==>
                s.id in submissions && submissions[s.id] == s.doc && s.doc.userId == Some(uid)
    {
      var r := Matching(order, submissions, uid);
      MatchingNoDuplicates(order, submissions, uid);
      forall s ensures s in r <==> s.id in submissions && submissions[s.id] == s.doc && s.doc.userId == Some(uid) {
        MatchingMembers(order, submissions, uid, s);
      }
      r
    }

    /** `addDoc`: a new document under a fresh id. */
    method Add(id: DocId, doc: SubmissionDoc)
      requires Valid() && id !in submissions
      modifies this
      ensures Valid()
      ensures submissions == old(submissions)[id := doc]
      ensures order == old(order) + [id]
      ensures users == old(users)
    {
      submissions := submissions[id := doc];
      order := order + [id];
    }

    /** `updateDoc` on an existing document. */
    method Replace(id: DocId, doc: SubmissionDoc)
      requires Valid() && id in submissions
      modifies this
      ensures Valid()
      ensures submissions == old(submissions)[id := doc]
      ensures order == old(order) && users == old(users)
    {
      submissions := submissions[id := doc];
    }

    /** `setDoc(doc(db, "users", uid), doc)` */
    method SetUser(uid: Uid, doc: UserDoc)
      requires Valid()
      modifies this
      ensures Valid()
      ensures users == old(users)[uid := doc]
      ensures submissions == old(submissions) && order == old(order)
    {
      users := users[uid := doc];
    }
  }

  /** The Firebase authentication session. */
  class Auth {
    var currentUser: Option<Uid>

    constructor ()
      ensures currentUser == None
    {
      currentUser := None;
    }

    method SignIn(uid: Uid)
      modifies this
      ensures currentUser == Some(uid)
    {
      currentUser := Some(uid);
    }

    method SignOut()
      modifies this
      ensures currentUser == None
    {
      currentUser := None;
    }
  }
}
