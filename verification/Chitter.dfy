/** The database functions behind sessions and friends (src/shared/chitter/userFuncs.cpp). */
module Chitter {

  /** The Users table, as far as logging in is concerned: the stored password hash of every userID. */
  type Accounts = map<string, string>

  datatype Login = Login(nick: string, hash: string)

  datatype Outcome = Outcome(accounts: Accounts, ok: bool)

  /** handleUser: a new user is inserted, a known one must present the stored hash. */
  function LoginResult(accounts: Accounts, login: Login): Outcome {
    if login.nick in accounts
    then Outcome(accounts, accounts[login.nick] == login.hash)
    else Outcome(accounts[login.nick := login.hash], true)
  }

  class UserTable {
    var accounts: Accounts

    constructor ()
      ensures accounts == map[]
    {
      accounts := map[];
    }

    method CheckUserExists(nick: string) returns (exists_: bool)
      ensures exists_ <==> nick in accounts
    {
      exists_ := nick in accounts;
    }

    /** Only called for users that exist; the source reads row 0 of the result. */
    method VerifyPassword(nick: string, hash: string) returns (ok: bool)
      requires nick in accounts
      ensures ok <==> accounts[nick] == hash
    {
      ok := accounts[nick] == hash;
    }

    method InsertUser(nick: string, hash: string)
      requires nick !in accounts
      modifies this
      ensures accounts == old(accounts)[nick := hash]
    {
      accounts := accounts[nick := hash];
    }

    method HandleUser(nick: string, hash: string) returns (passwordIsCorrect: bool)
      modifies this
      ensures Outcome(accounts, passwordIsCorrect) == LoginResult(old(accounts), Login(nick, hash))
    {
      var userExists := CheckUserExists(nick);
      passwordIsCorrect := true;
      if userExists {
        passwordIsCorrect := VerifyPassword(nick, hash);
      } else {
        InsertUser(nick, hash);
      }
    }
  }

  // ---- What a history of logins amounts to ----

  function After(accounts: Accounts, logins: seq<Login>): Accounts {
    if logins == [] then accounts
    else LoginResult(After(accounts, logins[..|logins| - 1]), logins[|logins| - 1]).accounts
  }

  function Verdict(logins: seq<Login>, i: nat): bool
    requires i < |logins|
  {
    LoginResult(After(map[], logins[..i]), logins[i]).ok
  }

  /** The first login of a nick. */
  ghost predicate FirstOf(logins: seq<Login>, nick: string, i: nat) {
    && i < |logins| && logins[i].nick == nick
    && forall j | 0 <= j < i :: logins[j].nick != nick
  }

  lemma {:induction false} StoredIsFirst(logins: seq<Login>, nick: string)
    ensures nick in After(map[], logins) <==> exists i: nat :: FirstOf(logins, nick, i)
    ensures forall i: nat | FirstOf(logins, nick, i) :: nick in After(map[], logins) && After(map[], logins)[nick] == logins[i].hash
  {
    if logins != [] {
      var n := |logins| - 1;
      var shorter := logins[..n];
      StoredIsFirst(shorter, nick);
      forall i: nat
        ensures FirstOf(shorter, nick, i) ==> FirstOf(logins, nick, i)
        ensures FirstOf(logins, nick, i) && i < n ==> FirstOf(shorter, nick, i)
      {
      }
      if nick !in After(map[], shorter) && logins[n].nick == nick {
        NoneBefore(shorter, nick, |shorter|);
        assert FirstOf(logins, nick, n);
      }
    }
  }

  /** Without a first login of a nick there is no login of it at all. */
  lemma {:induction false} NoneBefore(logins: seq<Login>, nick: string, n: nat)
    requires n <= |logins| && forall i: nat :: !FirstOf(logins, nick, i)
    ensures forall j | 0 <= j < n :: logins[j].nick != nick
  {
    if n > 0 {
      NoneBefore(logins, nick, n - 1);
      assert !FirstOf(logins, nick, n - 1);
    }
  }

  /** In every history the first login of a nick decides: it succeeds and fixes the hash, and any login of
      that nick succeeds exactly when it presents the same hash. */
  lemma FirstLoginDecides(logins: seq<Login>, first: nat, i: nat)
    requires i < |logins| && FirstOf(logins, logins[i].nick, first)
    ensures Verdict(logins, i) <==> logins[i].hash == logins[first].hash
  {
    var shorter := logins[..i];
    StoredIsFirst(shorter, logins[i].nick);
    assert first <= i;
    if first < i {
      assert FirstOf(shorter, logins[i].nick, first);
    } else {
      forall j: nat
        ensures !FirstOf(shorter, logins[i].nick, j)
      {
      }
    }
  }

  // ---- fetchFriends ----

  datatype Row = Row(friend1: string, friend2: string)

  /** SELECT DISTINCT over Friends: the matching rows, each once, in an order the database chooses. */
  ghost predicate IsResult(rows: seq<Row>, friends: set<Row>, user: string) {
    && (forall i, j | 0 <= i < j < |rows| :: rows[i] != rows[j])
    && (forall r :: r in rows <==> r in friends && (r.friend1 == user || r.friend2 == user))
  }

  function Columns(r: Row): seq<string> {
    [r.friend1, r.friend2]
  }

  /** Someone in a row with `user`, in either column. */
  ghost predicate Neighbours(friends: set<Row>, user: string, id: string) {
    id != user && (Row(user, id) in friends || Row(id, user) in friends)
  }

  predicate Listed(ids: seq<string>) {
    forall i, j | 0 <= i < j < |ids| :: ids[i] != ids[j]
  }

  method FetchFriends(user: string, rows: seq<Row>, ghost friends: set<Row>) returns (ids: seq<string>)
    requires IsResult(rows, friends, user)
    ensures Listed(ids)
    ensures forall id :: id in ids <==> Neighbours(friends, user, id)
  {
    ids := [];
    for i := 0 to |rows|
      invariant Listed(ids)
      invariant forall id :: id in ids <==> id != user && exists k | 0 <= k < i :: id in Columns(rows[k])
    {
      ghost var before := ids;
      var cols := Columns(rows[i]);
      for j := 0 to |cols|
        invariant Listed(ids)
        invariant forall id :: id in ids <==> id in before || (id != user && id in cols[..j])
      {
        var id := cols[j];
        var irrelevant := id == user || id in ids;
        assert cols[..j + 1] == cols[..j] + [id];
        if !irrelevant {
          ids := ids + [id];
        }
      }
      assert cols[..|cols|] == cols;
    }
    forall id
      ensures id in ids <==> Neighbours(friends, user, id)
    {
      ResultCovers(rows, friends, user, id);
    }
  }

  lemma ResultCovers(rows: seq<Row>, friends: set<Row>, user: string, id: string)
    requires IsResult(rows, friends, user)
    ensures (id != user && exists k | 0 <= k < |rows| :: id in Columns(rows[k])) <==> Neighbours(friends, user, id)
  {
    if id != user && exists k | 0 <= k < |rows| :: id in Columns(rows[k]) {
      var k :| 0 <= k < |rows| && id in Columns(rows[k]);
      assert rows[k] in rows;
    }
    if Neighbours(friends, user, id) {
      var r := if Row(user, id) in friends then Row(user, id) else Row(id, user);
      assert r in rows;
      var k :| 0 <= k < |rows| && rows[k] == r;
      assert id in Columns(rows[k]);
    }
  }

  /** Friendship is mutual: each of two users is in the other's list or neither is. */
  lemma FriendsAreMutual(friends: set<Row>, u: string, v: string, us: seq<string>, vs: seq<string>)
    requires forall id :: id in us <==> Neighbours(friends, u, id)
    requires forall id :: id in vs <==> Neighbours(friends, v, id)
    ensures v in us <==> u in vs
  {
    assert Neighbours(friends, u, v) <==> Neighbours(friends, v, u);
  }
}
