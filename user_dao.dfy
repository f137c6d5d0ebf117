/**
 * The queries of `UserDao` and the tables that its flag updates
 * `setLoggedIn` and `logoutAll` leave behind. The inserts and updates of
 * whole rows are methods of `Store.Store`.
 */
module UserDao {
  import opened Wrappers
  import opened Rows
  import opened Entities

  function WithEmail(email: string): User -> bool
  {
    (x: User) => x.email == email
  }

  function WithCredentials(email: string, password: string): User -> bool
  {
    (x: User) => x.email == email && x.password == password
  }

  function WithId(id: int): User -> bool
  {
    (x: User) => x.id == id
  }

  function Flagged(): User -> bool
  {
    (x: User) => x.isLoggedIn
  }

  /** `getUserByEmail` and `getByEmail` (the same query): the first user with this email. */
  function UserByEmail(t: seq<User>, email: string): (r: Option<User>)
    ensures r.Some? ==> r.value in t && r.value.email == email
    ensures r.None? <==> forall x :: x in t ==> x.email != email
  {
    FirstWhere(t, WithEmail(email))
  }

  /** `login`: a user only when both the email and the password match one row. */
  function Login(t: seq<User>, email: string, password: string): (r: Option<User>)
    ensures r.Some? ==> r.value in t && r.value.email == email && r.value.password == password
    ensures r.None? <==> forall x :: x in t ==> !(x.email == email && x.password == password)
  {
    FirstWhere(t, WithCredentials(email, password))
  }

  /** `getUserById`. */
  function UserById(t: seq<User>, id: int): (r: Option<User>)
    ensures r.Some? ==> r.value in t && r.value.id == id
    ensures r.None? <==> forall x :: x in t ==> x.id != id
  {
    FirstWhere(t, WithId(id))
  }

  /** `getLoggedInUser`: some flagged user, or nothing exactly when no user is flagged. */
  function LoggedInUser(t: seq<User>): (r: Option<User>)
    ensures r.Some? ==> r.value in t && r.value.isLoggedIn
    ensures r.None? <==> forall x :: x in t ==> !x.isLoggedIn
  {
    FirstWhere(t, Flagged())
  }

  /**
   * `UPDATE user_table SET isLoggedIn = 1 WHERE id = :userId`: the row with
   * that id is flagged, every other row keeps its flag (other users are
   * not logged out), and no other field changes.
   */
  function SetLoggedIn(t: seq<User>, id: int): (r: seq<User>)
    ensures |r| == |t|
    ensures forall i :: 0 <= i < |t| ==>
      r[i] == t[i].(isLoggedIn := r[i].isLoggedIn) && r[i].isLoggedIn == (t[i].isLoggedIn || t[i].id == id)
  {
    seq(|t|, i requires 0 <= i < |t| => if t[i].id == id then t[i].(isLoggedIn := true) else t[i])
  }

  /** `UPDATE user_table SET isLoggedIn = 0`: every flag cleared, nothing else changed. */
  function LogoutAll(t: seq<User>): (r: seq<User>)
    ensures |r| == |t|
    ensures forall i :: 0 <= i < |t| ==> r[i] == t[i].(isLoggedIn := false)
  {
    seq(|t|, i requires 0 <= i < |t| => t[i].(isLoggedIn := false))
  }

  /** After `logoutAll` nobody is flagged, so `getLoggedInUser` finds nothing. */
  lemma LogoutAllClears(t: seq<User>)
    ensures forall x :: x in LogoutAll(t) ==> !x.isLoggedIn
    ensures LoggedInUser(LogoutAll(t)) == None
  {
    var r := LogoutAll(t);
    forall x | x in r ensures !x.isLoggedIn {
      var i :| 0 <= i < |r| && r[i] == x;
    }
  }

  /**
   * `logoutAll` followed by `setLoggedIn(id)` for a stored id leaves
   * exactly that user flagged, and `getLoggedInUser` returns that user.
   */
  lemma LogoutThenLogin(t: seq<User>, id: int)
    requires UniqueKeys(t, UserKey) && HasKey(t, UserKey, id)
    ensures forall x :: x in SetLoggedIn(LogoutAll(t), id) ==> (x.isLoggedIn <==> x.id == id)
    ensures LoggedInUser(SetLoggedIn(LogoutAll(t), id)).Some?
    ensures LoggedInUser(SetLoggedIn(LogoutAll(t), id)).value.id == id
  {
    var r := SetLoggedIn(LogoutAll(t), id);
    forall x | x in r ensures x.isLoggedIn <==> x.id == id {
      var i :| 0 <= i < |r| && r[i] == x;
    }
    var k :| 0 <= k < |t| && UserKey(t[k]) == id;
    assert r[k].isLoggedIn;
  }

  /** `setLoggedIn` on its own keeps every other flag: a second login does not log the first user out. */
  lemma SetLoggedInKeepsOthers(t: seq<User>, id: int, x: User)
    requires x in t && x.isLoggedIn
    ensures x in SetLoggedIn(t, id)
  {
    var i :| 0 <= i < |t| && t[i] == x;
    assert SetLoggedIn(t, id)[i] == x;
  }
}
