/** The admin dashboard: the gate that admits only admins, and the
    case-insensitive email search over the user list. */
module AdminDashboard {
  import opened Common
  import opened Store

  /** The filter's test: `(u.email?.toLowerCase() || '').includes(term)`,
      with the term already lower-cased. */
  predicate Keeps(u: UserRow, lowerTerm: string) {
    Contains(Lower(OrEmpty(u.email)), lowerTerm)
  }

  /** `users.filter(...)` with the term lower-cased once, as in the effect. */
  function FilterUsers(users: seq<UserRow>, searchTerm: string): (r: seq<UserRow>)
    ensures |r| <= |users|
  {
    KeepMatching(users, Lower(searchTerm))
  }

  function KeepMatching(users: seq<UserRow>, lowerTerm: string): (r: seq<UserRow>)
    ensures |r| <= |users|
  {
    if users == [] then []
    else (if Keeps(users[0], lowerTerm) then [users[0]] else []) + KeepMatching(users[1..], lowerTerm)
  }

  /** `xs` is `ys` with some elements left out, order kept. */
  predicate IsSubsequence<T(==)>(xs: seq<T>, ys: seq<T>)
    decreases |ys|
  {
    xs == [] ||
    (ys != [] && ((xs[0] == ys[0] && IsSubsequence(xs[1..], ys[1..])) || IsSubsequence(xs, ys[1..])))
  }

  /** The filtered list is an order-preserving subsequence of the users. */
  lemma {:induction false} FilterIsSubsequence(users: seq<UserRow>, searchTerm: string)
    ensures IsSubsequence(FilterUsers(users, searchTerm), users)
  {
    KeepMatchingIsSubsequence(users, Lower(searchTerm));
  }

  lemma {:induction false} KeepMatchingIsSubsequence(users: seq<UserRow>, lowerTerm: string)
    ensures IsSubsequence(KeepMatching(users, lowerTerm), users)
  {
    if users != [] {
      KeepMatchingIsSubsequence(users[1..], lowerTerm);
      var rest := KeepMatching(users[1..], lowerTerm);
      var xs := KeepMatching(users, lowerTerm);
      if Keeps(users[0], lowerTerm) {
        assert xs == [users[0]] + rest;
        assert xs[0] == users[0] && xs[1..] == rest;
      } else {
        assert xs == rest;
      }
    }
  }

  /** A user is kept exactly when its lower-cased email, or '' when it has
      none, contains the lower-cased term. */
  lemma {:induction false} FilterMembers(users: seq<UserRow>, searchTerm: string, u: UserRow)
    ensures u in FilterUsers(users, searchTerm) <==>
            u in users && Contains(Lower(OrEmpty(u.email)), Lower(searchTerm))
  {
    KeepMatchingMembers(users, Lower(searchTerm), u);
  }

  lemma {:induction false} KeepMatchingMembers(users: seq<UserRow>, lowerTerm: string, u: UserRow)
    ensures u in KeepMatching(users, lowerTerm) <==> u in users && Keeps(u, lowerTerm)
  {
    if users != [] {
      KeepMatchingMembers(users[1..], lowerTerm, u);
      assert users == [users[0]] + users[1..];
    }
  }

  /** An empty search term keeps every user, those without an email too. */
  lemma {:induction false} EmptyTermKeepsAll(users: seq<UserRow>)
    ensures FilterUsers(users, "") == users
  {
    assert Lower("") == "";
    KeepAllWithEmptyTerm(users);
  }

  lemma {:induction false} KeepAllWithEmptyTerm(users: seq<UserRow>)
    ensures KeepMatching(users, "") == users
  {
    if users != [] {
      KeepAllWithEmptyTerm(users[1..]);
      assert Keeps(users[0], "");
      assert users == [users[0]] + users[1..];
    }
  }

  /** Terms that differ only in letter case filter alike. */
  lemma FilterIgnoresCase(users: seq<UserRow>, term1: string, term2: string)
    requires Lower(term1) == Lower(term2)
    ensures FilterUsers(users, term1) == FilterUsers(users, term2)
  {
  }

  /** The upper-case form of a term filters like the term itself. */
  lemma {:induction false} UpperCaseTerm(users: seq<UserRow>, term: string)
    ensures FilterUsers(users, Upper(term)) == FilterUsers(users, term)
  {
    UpperLower(term);
  }

  function Upper(s: string): (r: string)
    ensures |r| == |s|
  {
    if s == [] then []
    else [if 'a' <= s[0] <= 'z' then (s[0] as int - 32) as char else s[0]] + Upper(s[1..])
  }

  lemma {:induction false} UpperLower(s: string)
    ensures Lower(Upper(s)) == Lower(s)
  {
    if s != [] {
      UpperLower(s[1..]);
      assert Upper(s) == [Upper(s)[0]] + Upper(s[1..]);
      assert Lower(Upper(s)) == [LowerChar(Upper(s)[0])] + Lower(Upper(s[1..]));
      assert Lower(s) == [LowerChar(s[0])] + Lower(s[1..]);
    }
  }

  /** The state the auth effect updates. */
  class AdminGate {
    var user: Option<Uid>
    var loading: bool

    constructor ()
      ensures user == None && loading
    {
      user, loading := None, true;
    }

    /** The `onAuthStateChanged` callback. `lookup` is the outcome of
        `getDoc` on the user's document and `signOut` that of `signOut`; if
        either throws, the callback stops there and `loading` is never
        cleared. The result is the page pushed on the router, if any. */
    method OnAuthStateChanged(currentUser: Option<Uid>, lookup: Outcome, signOut: Outcome, db: Database, auth: Auth)
      returns (push: Option<Route>)
      modifies this, auth
      ensures currentUser.Some? && lookup.Done? && IsAdmin(db.users, currentUser.value) ==>
        user == currentUser && push == None && auth.currentUser == old(auth.currentUser) && !loading
      ensures currentUser.Some? && lookup.Done? && !IsAdmin(db.users, currentUser.value) && signOut.Done? ==>
        user == old(user) && push == Some(AdminLogin) && auth.currentUser == None && !loading
      ensures currentUser.Some? && lookup.Done? && !IsAdmin(db.users, currentUser.value) && signOut.Failed? ==>
        user == old(user) && push == None && loading == old(loading) && auth.currentUser == old(auth.currentUser)
      ensures currentUser.None? ==>
        user == old(user) && push == Some(AdminLogin) && auth.currentUser == old(auth.currentUser) && !loading
      ensures currentUser.Some? && lookup.Failed? ==>
        user == old(user) && push == None && loading == old(loading) && auth.currentUser == old(auth.currentUser)
    {
      push := None;
      if currentUser.Some? {
        if lookup.Failed? {
          return;
        }
        if IsAdmin(db.users, currentUser.value) {
          user := currentUser;
        } else {
          if signOut.Failed? {
            return;
          }
          auth.SignOut();
          push := Some(AdminLogin);
        }
      } else {
        push := Some(AdminLogin);
      }
      loading := false;
    }
  }
}
