/**
 * The backend's three tables (users, predictions, history) with the queries
 * run on them, held in memory. The table declarations give the invariants:
 * ids come from SERIAL sequences, `email` and `google_id` are UNIQUE, the
 * `user_id` columns reference `users(id)`, and text columns have VARCHAR
 * limits. A statement that breaks one of them raises an error instead of
 * changing the table. `created_at` comes from the caller's clock, `now`.
 */
module Tables {
  import opened Wrappers

  /** The range of the PostgreSQL INTEGER type. */
  const IntegerMin: int := -0x8000_0000
  const IntegerMax: int := 0x7FFF_FFFF

  predicate FitsInteger(n: int) {
    IntegerMin <= n <= IntegerMax
  }

  /** A value a VARCHAR(n) column accepts; NULL always fits. */
  predicate Fits(s: Option<string>, n: nat) {
    s.None? || |s.value| <= n
  }

  function Min(a: int, b: int): int {
    if a <= b then a else b
  }

  /** What an UPDATE or DELETE produced: the changed row, no matching row, or an error. */
  datatype Outcome<T> = Done(value: T) | NoRow | Failed

  datatype Provider = Local | Google

  /** A row of `users`; the nullable columns are options. */
  datatype User = User(id: int, email: string, name: Option<string>, passwordHash: Option<string>,
                       googleId: Option<string>, picture: Option<string>, provider: Provider,
                       createdAt: int, updatedAt: int)

  /** The columns the user inserts and the update return: no password hash and no google id. */
  datatype Account = Account(id: int, email: string, name: Option<string>, picture: Option<string>,
                             provider: Provider, createdAt: int)

  function AccountOf(u: User): Account {
    Account(u.id, u.email, u.name, u.picture, u.provider, u.createdAt)
  }

  /** A JavaScript number as `parseFloat` produces it. */
  datatype Float = Finite(x: real) | NaN | Infinity(negative: bool)

  /** The values a saved prediction carries. */
  datatype PredictionData = PredictionData(suhu: Float, kelembapan: Float, tekanan: Float,
                                           kecepatanAngin: Float, kualitas: string, score: int,
                                           confidence: Float)

  /** A row of `predictions`. */
  datatype Prediction = Prediction(id: int, userId: int, data: PredictionData, createdAt: int)

  /** A member value of a log's details object; `JUndefined` is a property holding `undefined`. */
  datatype JsonValue = JInt(i: int) | JString(s: string) | JNull | JUndefined

  datatype Member = Member(key: string, value: JsonValue)

  /** A row of `history`; `details` is the stored JSON object. */
  datatype HistoryEntry = HistoryEntry(id: int, userId: int, action: string, details: seq<Member>, createdAt: int)

  /** `JSON.stringify` of an object: members holding `undefined` are dropped, the others kept in order. */
  function Stringify(details: seq<Member>): (stored: seq<Member>)
    ensures |stored| <= |details|
    ensures forall m :: m in stored <==> m in details && m.value != JUndefined
    ensures (forall i :: 0 <= i < |details| ==> details[i].value != JUndefined) ==> stored == details
  {
    if details == [] then []
    else
      var rest := Stringify(details[1..]);
      assert forall m :: m in details ==> m == details[0] || m in details[1..];
      assert forall i :: 1 <= i < |details| ==> details[i] == details[1..][i - 1];
      if details[0].value == JUndefined then rest else [details[0]] + rest
  }

  /** Serialising keeps the members' order: the kept members of a concatenation are those of each part, in turn. */
  lemma {:induction false} StringifyAppend(a: seq<Member>, b: seq<Member>)
    ensures Stringify(a + b) == Stringify(a) + Stringify(b)
    decreases |a|
  {
    if a != [] {
      assert (a + b)[1..] == a[1..] + b;
      StringifyAppend(a[1..], b);
    } else {
      assert a + b == b;
    }
  }

  function OwnerOfPrediction(p: Prediction): int { p.userId }
  function StampOfPrediction(p: Prediction): int { p.createdAt }
  function OwnerOfEntry(e: HistoryEntry): int { e.userId }
  function StampOfEntry(e: HistoryEntry): int { e.createdAt }

  /** The position of the first row `hit` accepts: the row a `WHERE` finds when at most one can match. */
  function FirstWhere<T>(rows: seq<T>, hit: T -> bool): (r: Option<nat>)
    ensures r.Some? ==> r.value < |rows| && hit(rows[r.value])
    ensures r.Some? ==> forall j :: 0 <= j < r.value ==> !hit(rows[j])
    ensures r.None? ==> forall j :: 0 <= j < |rows| ==> !hit(rows[j])
  {
    if rows == [] then None
    else if hit(rows[0]) then Some(0)
    else
      match FirstWhere(rows[1..], hit)
      case None => None
      case Some(k) => Some(k + 1)
  }

  /** The first user with this email. */
  function IndexOfEmail(us: seq<User>, email: string): (r: Option<nat>)
    ensures r.Some? ==> r.value < |us| && us[r.value].email == email
    ensures r.Some? ==> forall j :: 0 <= j < r.value ==> us[j].email != email
    ensures r.None? ==> forall j :: 0 <= j < |us| ==> us[j].email != email
  {
    FirstWhere(us, (u: User) => u.email == email)
  }

  /** The first user linked to this Google account (a NULL google_id matches nothing). */
  function IndexOfGoogleId(us: seq<User>, googleId: string): (r: Option<nat>)
    ensures r.Some? ==> r.value < |us| && us[r.value].googleId == Some(googleId)
    ensures r.Some? ==> forall j :: 0 <= j < r.value ==> us[j].googleId != Some(googleId)
    ensures r.None? ==> forall j :: 0 <= j < |us| ==> us[j].googleId != Some(googleId)
  {
    FirstWhere(us, (u: User) => u.googleId == Some(googleId))
  }

  /** The first prediction with this id. */
  function IndexOfPrediction(ps: seq<Prediction>, id: int): (r: Option<nat>)
    ensures r.Some? ==> r.value < |ps| && ps[r.value].id == id
    ensures r.Some? ==> forall j :: 0 <= j < r.value ==> ps[j].id != id
    ensures r.None? ==> forall j :: 0 <= j < |ps| ==> ps[j].id != id
  {
    FirstWhere(ps, (p: Prediction) => p.id == id)
  }

  // ---------------------------------------------------------------------
  // Listing: WHERE user_id = $1 ORDER BY created_at DESC LIMIT $2
  // ---------------------------------------------------------------------

  predicate NewestFirst<T>(rows: seq<T>, stamp: T -> int) {
    forall i, j :: 0 <= i < j < |rows| ==> stamp(rows[i]) >= stamp(rows[j])
  }

  /** The rows of one user, in table order. */
  function Owned<T(!new)>(rows: seq<T>, owner: T -> int, userId: int): (out: seq<T>)
    ensures multiset(out) <= multiset(rows)
    ensures forall x :: x in out <==> x in rows && owner(x) == userId
    ensures forall x :: multiset(out)[x] == if owner(x) == userId then multiset(rows)[x] else 0
  {
    if rows == [] then []
    else
      var rest := Owned(rows[1..], owner, userId);
      assert rows == [rows[0]] + rows[1..];
      if owner(rows[0]) == userId then [rows[0]] + rest else rest
  }

  /** Places `x` in front of the first row it is not older than. */
  function InsertNewest<T>(x: T, rows: seq<T>, stamp: T -> int): (out: seq<T>)
    requires NewestFirst(rows, stamp)
    ensures NewestFirst(out, stamp)
    ensures multiset(out) == multiset(rows) + multiset{x}
  {
    if rows == [] then [x]
    else if stamp(x) >= stamp(rows[0]) then
      assert forall j :: 0 < j < |rows| ==> stamp(rows[0]) >= stamp(rows[j]);
      [x] + rows
    else
      var rest := InsertNewest(x, rows[1..], stamp);
      InsertNewestCons(x, rows, rest, stamp);
      assert rows == [rows[0]] + rows[1..];
      [rows[0]] + rest
  }

  /** Putting `rows[0]` back in front of `x` inserted into the rest keeps the order. */
  lemma InsertNewestCons<T>(x: T, rows: seq<T>, rest: seq<T>, stamp: T -> int)
    requires rows != [] && NewestFirst(rows, stamp) && stamp(x) < stamp(rows[0])
    requires NewestFirst(rest, stamp) && multiset(rest) == multiset(rows[1..]) + multiset{x}
    ensures NewestFirst([rows[0]] + rest, stamp)
  {
    forall j | 0 <= j < |rest|
      ensures stamp(rows[0]) >= stamp(rest[j])
    {
      assert rest[j] in multiset(rest);
      if rest[j] != x {
        assert rest[j] in multiset(rows[1..]);
        var k :| 0 <= k < |rows[1..]| && rows[1..][k] == rest[j];
        assert rows[k + 1] == rest[j];
      }
    }
    var out := [rows[0]] + rest;
    forall i, j | 0 <= i < j < |out|
      ensures stamp(out[i]) >= stamp(out[j])
    {
      assert out[j] == rest[j - 1];
      if i > 0 {
        assert out[i] == rest[i - 1];
      }
    }
  }

  /** Insertion sort, newest first; rows with equal stamps may come in any order. */
  function SortNewest<T>(rows: seq<T>, stamp: T -> int): (out: seq<T>)
    ensures NewestFirst(out, stamp)
    ensures multiset(out) == multiset(rows)
  {
    if rows == [] then []
    else
      assert rows == [rows[0]] + rows[1..];
      InsertNewest(rows[0], SortNewest(rows[1..], stamp), stamp)
  }

  /** The first `n` rows of an ordered sequence are ordered, and no row after them is newer. */
  lemma PrefixOfNewest<T>(sorted: seq<T>, n: nat, stamp: T -> int)
    requires n <= |sorted| && NewestFirst(sorted, stamp)
    ensures NewestFirst(sorted[..n], stamp)
    ensures multiset(sorted[..n]) <= multiset(sorted)
    ensures forall x, y :: x in sorted[..n] && y in sorted && y !in sorted[..n] ==> stamp(y) <= stamp(x)
  {
    assert sorted == sorted[..n] + sorted[n..];
    forall x, y | x in sorted[..n] && y in sorted && y !in sorted[..n]
      ensures stamp(y) <= stamp(x)
    {
      var i :| 0 <= i < n && sorted[..n][i] == x;
      var j :| 0 <= j < |sorted| && sorted[j] == y;
      if j < n {
        assert sorted[..n][j] == y;
      }
    }
  }

  /**
   * A user's rows, newest first, at most `limit` of them; a negative LIMIT
   * is an error. Fewer than `limit` rows means all of them; otherwise no
   * row left out is newer than a row listed.
   */
  function Listing<T(!new)>(rows: seq<T>, owner: T -> int, stamp: T -> int, userId: int, limit: int): (r: Option<seq<T>>)
    ensures r.None? <==> limit < 0
    ensures r.Some? ==> |r.value| == Min(limit, |Owned(rows, owner, userId)|)
    ensures r.Some? ==> multiset(r.value) <= multiset(Owned(rows, owner, userId))
    ensures r.Some? ==> forall x :: x in r.value ==> x in rows && owner(x) == userId
    ensures r.Some? && |Owned(rows, owner, userId)| <= limit ==> multiset(r.value) == multiset(Owned(rows, owner, userId))
    ensures r.Some? ==> NewestFirst(r.value, stamp)
    ensures r.Some? ==> forall x, y :: x in r.value && y in rows && owner(y) == userId && y !in r.value ==>
      stamp(y) <= stamp(x)
  {
    if limit < 0 then None
    else
      var mine := Owned(rows, owner, userId);
      var sorted := SortNewest(mine, stamp);
      var n := Min(limit, |sorted|);
      PrefixOfNewest(sorted, n, stamp);
      assert n == |sorted| ==> sorted[..n] == sorted;
      assert forall x :: x in sorted[..n] ==> x in multiset(mine);
      assert forall y :: y in mine ==> y in multiset(sorted);
      Some(sorted[..n])
  }

  // ---------------------------------------------------------------------
  // Table constraints
  // ---------------------------------------------------------------------

  /** The ids of a users table. */
  function IdsOf(us: seq<User>): set<int> {
    set u | u in us :: u.id
  }

  /** `users`: increasing SERIAL ids below the next one, UNIQUE email, UNIQUE google_id. */
  predicate UsersOk(us: seq<User>, next: int) {
    && (forall i, j :: 0 <= i < j < |us| ==> us[i].id < us[j].id)
    && (forall i :: 0 <= i < |us| ==> us[i].id < next)
    && (forall i, j :: 0 <= i < j < |us| ==> us[i].email != us[j].email)
    && (forall i, j :: 0 <= i < j < |us| && us[i].googleId.Some? ==> us[i].googleId != us[j].googleId)
  }

  /** `predictions`: increasing SERIAL ids below the next one, and every user_id is a user's id. */
  predicate PredictionsOk(ps: seq<Prediction>, next: int, userIds: set<int>) {
    && (forall i, j :: 0 <= i < j < |ps| ==> ps[i].id < ps[j].id)
    && (forall i :: 0 <= i < |ps| ==> ps[i].id < next && ps[i].userId in userIds)
  }

  /** `history`: increasing SERIAL ids below the next one, and every user_id is a user's id. */
  predicate HistoryOk(hs: seq<HistoryEntry>, next: int, userIds: set<int>) {
    && (forall i, j :: 0 <= i < j < |hs| ==> hs[i].id < hs[j].id)
    && (forall i :: 0 <= i < |hs| ==> hs[i].id < next && hs[i].userId in userIds)
  }

  lemma IdsOfAppend(us: seq<User>, u: User)
    ensures IdsOf(us + [u]) == IdsOf(us) + {u.id}
  {
    assert forall v :: v in us + [u] <==> v in us || v == u;
  }

  lemma IdsOfUpdate(us: seq<User>, i: nat, u: User)
    requires i < |us| && u.id == us[i].id
    ensures IdsOf(us[i := u]) == IdsOf(us)
  {
    var vs := us[i := u];
    forall id | id in IdsOf(us) ensures id in IdsOf(vs) {
      var k :| 0 <= k < |us| && us[k].id == id;
      assert vs[k].id == id;
    }
    forall id | id in IdsOf(vs) ensures id in IdsOf(us) {
      var k :| 0 <= k < |vs| && vs[k].id == id;
      assert us[k].id == id;
    }
  }

  /** A new user above every id so far, with a free email and google id, keeps the users table valid. */
  lemma UsersOkAppend(us: seq<User>, next: int, u: User, next2: int)
    requires UsersOk(us, next) && next <= u.id < next2
    requires IndexOfEmail(us, u.email).None?
    requires u.googleId.None? || IndexOfGoogleId(us, u.googleId.value).None?
    ensures UsersOk(us + [u], next2)
  {
    var vs := us + [u];
    forall i, j | 0 <= i < j < |vs| ensures vs[i].id < vs[j].id && vs[i].email != vs[j].email {
      if j == |us| {
        assert vs[i] == us[i] && vs[j] == u;
      } else {
        assert vs[i] == us[i] && vs[j] == us[j];
      }
    }
  }

  /** Linking a Google account to user `i` keeps the users table valid when nobody else holds that google id. */
  lemma UsersOkLink(us: seq<User>, next: int, i: nat, u: User)
    requires UsersOk(us, next) && i < |us|
    requires u.id == us[i].id && u.email == us[i].email && u.googleId.Some?
    requires forall j :: 0 <= j < |us| && j != i ==> us[j].googleId != u.googleId
    ensures UsersOk(us[i := u], next)
  {
  }

  /** Removing one row keeps the predictions table valid. */
  lemma PredictionsOkRemove(ps: seq<Prediction>, next: int, userIds: set<int>, i: nat)
    requires PredictionsOk(ps, next, userIds) && i < |ps|
    ensures PredictionsOk(ps[..i] + ps[i + 1..], next, userIds)
    ensures forall p :: p in ps[..i] + ps[i + 1..] ==> p in ps
  {
    var qs := ps[..i] + ps[i + 1..];
    assert forall a :: 0 <= a < |qs| ==> qs[a] == (if a < i then ps[a] else ps[a + 1]);
  }

  // ---------------------------------------------------------------------
  // The database
  // ---------------------------------------------------------------------

  /** Whether `createLocalUser` succeeds: a free email and values that fit their columns. */
  predicate LocalInsertAllowed(us: seq<User>, email: string, name: Option<string>, passwordHash: string) {
    IndexOfEmail(us, email).None? && Fits(Some(email), 255) && Fits(name, 255) && Fits(Some(passwordHash), 255)
  }

  /** Whether `createGoogleUser` succeeds: a free email, a free google id and values that fit their columns. */
  predicate GoogleInsertAllowed(us: seq<User>, email: string, name: Option<string>, googleId: string,
                                picture: Option<string>) {
    && IndexOfEmail(us, email).None? && IndexOfGoogleId(us, googleId).None?
    && Fits(Some(email), 255) && Fits(name, 255) && Fits(Some(googleId), 255) && Fits(picture, 500)
  }

  /** Whether `updateGoogleUser` on row `i` succeeds: no other user holds the google id and values fit. */
  predicate LinkAllowed(us: seq<User>, i: nat, name: Option<string>, googleId: string, picture: Option<string>) {
    && (forall j :: 0 <= j < |us| && j != i ==> us[j].googleId != Some(googleId))
    && Fits(name, 255) && Fits(Some(googleId), 255) && Fits(picture, 500)
  }

  /** The row `createLocalUser` inserts. */
  function LocalUser(id: int, email: string, name: Option<string>, passwordHash: string, now: int): User {
    User(id, email, name, Some(passwordHash), None, None, Local, now, now)
  }

  /** The row `createGoogleUser` inserts. */
  function GoogleUser(id: int, email: string, name: Option<string>, googleId: string,
                      picture: Option<string>, now: int): User {
    User(id, email, name, None, Some(googleId), picture, Google, now, now)
  }

  /** What `updateGoogleUser` writes into a row: name, google id, picture and the update time. */
  function Linked(u: User, name: Option<string>, googleId: string, picture: Option<string>, now: int): (v: User)
    ensures v.id == u.id && v.email == u.email && v.passwordHash == u.passwordHash
    ensures v.provider == u.provider && v.createdAt == u.createdAt
  {
    u.(name := name, googleId := Some(googleId), picture := picture, updatedAt := now)
  }

  class Database {
    var users: seq<User>
    var predictions: seq<Prediction>
    var history: seq<HistoryEntry>
    /** The next values of the three SERIAL sequences. */
    var nextUserId: int
    var nextPredictionId: int
    var nextHistoryId: int

    /** The table constraints. */
    predicate Valid()
      reads this
    {
      && UsersOk(users, nextUserId)
      && PredictionsOk(predictions, nextPredictionId, IdsOf(users))
      && HistoryOk(history, nextHistoryId, IdsOf(users))
    }

    /** Freshly created tables. */
    constructor ()
      ensures Valid()
      ensures users == [] && predictions == [] && history == []
      ensures nextUserId == 1 && nextPredictionId == 1 && nextHistoryId == 1
    {
      users := [];
      predictions := [];
      history := [];
      nextUserId := 1;
      nextPredictionId := 1;
      nextHistoryId := 1;
    }

    /** `findUserByEmail`: the user with this email, if there is one. */
    function FindUserByEmail(email: string): (r: Option<User>)
      reads this
      ensures r.Some? ==> r.value in users && r.value.email == email
      ensures r.None? <==> forall u :: u in users ==> u.email != email
    {
      match IndexOfEmail(users, email)
      case None => None
      case Some(i) => Some(users[i])
    }

    /** `findUserByGoogleId`: the user linked to this Google account, if there is one. */
    function FindUserByGoogleId(googleId: string): (r: Option<User>)
      reads this
      ensures r.Some? ==> r.value in users && r.value.googleId == Some(googleId)
      ensures r.None? <==> forall u :: u in users ==> u.googleId != Some(googleId)
    {
      match IndexOfGoogleId(users, googleId)
      case None => None
      case Some(i) => Some(users[i])
    }

    /** With UNIQUE(email), a lookup by email finds the one user holding it. */
    lemma EmailIdentifiesUser(email: string)
      requires Valid()
      ensures forall u :: u in users && u.email == email ==> FindUserByEmail(email) == Some(u)
    {
      forall u | u in users && u.email == email
        ensures FindUserByEmail(email) == Some(u)
      {
        var k :| 0 <= k < |users| && users[k] == u;
        var i := IndexOfEmail(users, email).value;
        assert i == k;
      }
    }

    /** With UNIQUE(google_id), a lookup by google id finds the one user holding it. */
    lemma GoogleIdIdentifiesUser(googleId: string)
      requires Valid()
      ensures forall u :: u in users && u.googleId == Some(googleId) ==> FindUserByGoogleId(googleId) == Some(u)
    {
      forall u | u in users && u.googleId == Some(googleId)
        ensures FindUserByGoogleId(googleId) == Some(u)
      {
        var k :| 0 <= k < |users| && users[k] == u;
        var i := IndexOfGoogleId(users, googleId).value;
        assert i == k;
      }
    }

    /**
     * `createLocalUser`: inserts one 'local' user unless the email is taken
     * or a value is too long. The id sequence advances either way.
     */
    method CreateLocalUser(email: string, name: Option<string>, passwordHash: string, now: int)
      returns (r: Option<Account>)
      requires Valid()
      modifies this
      ensures Valid()
      ensures predictions == old(predictions) && history == old(history)
      ensures nextUserId == old(nextUserId) + 1
      ensures nextPredictionId == old(nextPredictionId) && nextHistoryId == old(nextHistoryId)
      ensures if LocalInsertAllowed(old(users), email, name, passwordHash) then
          var u := LocalUser(old(nextUserId), email, name, passwordHash, now);
          users == old(users) + [u] && r == Some(AccountOf(u))
        else
          users == old(users) && r.None?
    {
      var id := nextUserId;
      nextUserId := nextUserId + 1;
      if LocalInsertAllowed(users, email, name, passwordHash) {
        var u := LocalUser(id, email, name, passwordHash, now);
        UsersOkAppend(users, id, u, nextUserId);
        AddUser(u);
        r := Some(AccountOf(u));
      } else {
        r := None;
      }
    }

    /**
     * `createGoogleUser`: inserts one 'google' user unless the email or the
     * google id is taken or a value is too long. The id sequence advances either way.
     */
    method CreateGoogleUser(email: string, name: Option<string>, googleId: string, picture: Option<string>, now: int)
      returns (r: Option<Account>)
      requires Valid()
      modifies this
      ensures Valid()
      ensures predictions == old(predictions) && history == old(history)
      ensures nextUserId == old(nextUserId) + 1
      ensures nextPredictionId == old(nextPredictionId) && nextHistoryId == old(nextHistoryId)
      ensures if GoogleInsertAllowed(old(users), email, name, googleId, picture) then
          var u := GoogleUser(old(nextUserId), email, name, googleId, picture, now);
          users == old(users) + [u] && r == Some(AccountOf(u))
        else
          users == old(users) && r.None?
    {
      var id := nextUserId;
      nextUserId := nextUserId + 1;
      if GoogleInsertAllowed(users, email, name, googleId, picture) {
        var u := GoogleUser(id, email, name, googleId, picture, now);
        assert u.email == email && u.googleId == Some(googleId);
        UsersOkAppend(users, id, u, nextUserId);
        AddUser(u);
        r := Some(AccountOf(u));
      } else {
        r := None;
      }
    }

    /** Appends a user row that keeps the users table valid. */
    method AddUser(u: User)
      requires Valid() && UsersOk(users + [u], nextUserId)
      modifies this
      ensures Valid() && users == old(users) + [u]
      ensures predictions == old(predictions) && history == old(history)
      ensures nextUserId == old(nextUserId) && nextPredictionId == old(nextPredictionId)
      ensures nextHistoryId == old(nextHistoryId)
    {
      IdsOfAppend(users, u);
      users := users + [u];
    }

    /**
     * `updateGoogleUser`: on the row with this email, sets name, google id
     * and picture; id, email, password hash and provider stay as they were.
     * No row with the email: nothing changes. The google id held by another
     * user, or a value too long: an error, and nothing changes.
     */
    method UpdateGoogleUser(email: string, name: Option<string>, googleId: string, picture: Option<string>, now: int)
      returns (r: Outcome<Account>)
      requires Valid()
      modifies this
      ensures Valid()
      ensures predictions == old(predictions) && history == old(history)
      ensures nextUserId == old(nextUserId) && nextPredictionId == old(nextPredictionId)
      ensures nextHistoryId == old(nextHistoryId)
      ensures IndexOfEmail(old(users), email).None? ==> r == NoRow && users == old(users)
      ensures IndexOfEmail(old(users), email).Some? ==>
        var i := IndexOfEmail(old(users), email).value;
        if LinkAllowed(old(users), i, name, googleId, picture) then
          users == old(users)[i := Linked(old(users)[i], name, googleId, picture, now)]
          && r == Done(AccountOf(users[i]))
        else
          users == old(users) && r == Failed
    {
      var found := IndexOfEmail(users, email);
      if found.None? {
        return NoRow;
      }
      var i := found.value;
      var holder := IndexOfGoogleId(users, googleId);
      if (holder.Some? && holder.value != i) || !Fits(name, 255) || !Fits(Some(googleId), 255) || !Fits(picture, 500) {
        assert !LinkAllowed(users, i, name, googleId, picture);
        return Failed;
      }
      HolderIsOnly(users, nextUserId, i, googleId);
      var u := Linked(users[i], name, googleId, picture, now);
      UsersOkLink(users, nextUserId, i, u);
      IdsOfUpdate(users, i, u);
      users := users[i := u];
      r := Done(AccountOf(u));
    }

    /** With unique google ids, when row `i` is the first holder of `googleId` (or nobody holds it), no other row does. */
    static lemma HolderIsOnly(us: seq<User>, next: int, i: nat, googleId: string)
      requires UsersOk(us, next) && i < |us|
      requires var h := IndexOfGoogleId(us, googleId); h.None? || h.value == i
      ensures forall j :: 0 <= j < |us| && j != i ==> us[j].googleId != Some(googleId)
    {
      var h := IndexOfGoogleId(us, googleId);
      if h.Some? {
        forall j | 0 <= j < |us| && j != i
          ensures us[j].googleId != Some(googleId)
        {
          if j < i {
            assert us[j].googleId.Some? ==> us[j].googleId != us[i].googleId;
          } else {
            assert us[i].googleId != us[j].googleId;
          }
        }
      }
    }

    /**
     * `createPrediction`: inserts one row for this user unless the user does
     * not exist, the label is longer than VARCHAR(50) or the score is not an
     * INTEGER. The id sequence advances either way.
     */
    method CreatePrediction(userId: int, data: PredictionData, now: int) returns (r: Option<Prediction>)
      requires Valid()
      modifies this
      ensures Valid()
      ensures users == old(users) && history == old(history)
      ensures nextPredictionId == old(nextPredictionId) + 1
      ensures nextUserId == old(nextUserId) && nextHistoryId == old(nextHistoryId)
      ensures if userId in IdsOf(old(users)) && Fits(Some(data.kualitas), 50) && FitsInteger(data.score) then
          var p := Prediction(old(nextPredictionId), userId, data, now);
          predictions == old(predictions) + [p] && r == Some(p)
        else
          predictions == old(predictions) && r.None?
    {
      var id := nextPredictionId;
      nextPredictionId := nextPredictionId + 1;
      if userId in IdsOf(users) && Fits(Some(data.kualitas), 50) && FitsInteger(data.score) {
        var p := Prediction(id, userId, data, now);
        predictions := predictions + [p];
        r := Some(p);
      } else {
        r := None;
      }
    }

    /** `getPredictionById`: the row with this id, if there is one. */
    function GetPredictionById(id: int): (r: Option<Prediction>)
      reads this
      ensures r.Some? ==> r.value in predictions && r.value.id == id
      ensures r.None? <==> forall p :: p in predictions ==> p.id != id
    {
      match IndexOfPrediction(predictions, id)
      case None => None
      case Some(i) => Some(predictions[i])
    }

    /** Ids are unique, so a lookup by id finds the one row holding it. */
    lemma PredictionIdIdentifiesRow(id: int)
      requires Valid()
      ensures forall p :: p in predictions && p.id == id ==> GetPredictionById(id) == Some(p)
    {
      forall p | p in predictions && p.id == id
        ensures GetPredictionById(id) == Some(p)
      {
        var k :| 0 <= k < |predictions| && predictions[k] == p;
        var i := IndexOfPrediction(predictions, id).value;
        assert i == k;
      }
    }

    /**
     * `deletePrediction`: removes the row with this id when it belongs to
     * this user and returns it; otherwise nothing changes and nothing is returned.
     */
    method DeletePrediction(id: int, userId: int) returns (r: Option<Prediction>)
      requires Valid()
      modifies this
      ensures Valid()
      ensures users == old(users) && history == old(history)
      ensures nextUserId == old(nextUserId) && nextPredictionId == old(nextPredictionId)
      ensures nextHistoryId == old(nextHistoryId)
      ensures var k := IndexOfPrediction(old(predictions), id);
        if k.Some? && old(predictions)[k.value].userId == userId then
          r == Some(old(predictions)[k.value])
          && predictions == old(predictions)[..k.value] + old(predictions)[k.value + 1..]
        else
          r.None? && predictions == old(predictions)
      ensures forall p :: p in predictions ==> p in old(predictions)
    {
      var k := IndexOfPrediction(predictions, id);
      if k.Some? && predictions[k.value].userId == userId {
        var i := k.value;
        r := Some(predictions[i]);
        PredictionsOkRemove(predictions, nextPredictionId, IdsOf(users), i);
        predictions := predictions[..i] + predictions[i + 1..];
      } else {
        r := None;
      }
    }

    /**
     * `createHistoryLog`: appends one entry whose details are the serialised
     * object (`{}` when none is given), unless the user does not exist or
     * the action is longer than VARCHAR(100). The id sequence advances either way.
     */
    method CreateHistoryLog(userId: int, action: string, details: Option<seq<Member>>, now: int)
      returns (r: Option<HistoryEntry>)
      requires Valid()
      modifies this
      ensures Valid()
      ensures users == old(users) && predictions == old(predictions)
      ensures nextHistoryId == old(nextHistoryId) + 1
      ensures nextUserId == old(nextUserId) && nextPredictionId == old(nextPredictionId)
      ensures if userId in IdsOf(old(users)) && Fits(Some(action), 100) then
          var e := HistoryEntry(old(nextHistoryId), userId, action, Stringify(details.GetOr([])), now);
          history == old(history) + [e] && r == Some(e)
        else
          history == old(history) && r.None?
    {
      var id := nextHistoryId;
      nextHistoryId := nextHistoryId + 1;
      if userId in IdsOf(users) && Fits(Some(action), 100) {
        var e := HistoryEntry(id, userId, action, Stringify(details.GetOr([])), now);
        history := history + [e];
        r := Some(e);
      } else {
        r := None;
      }
    }

    /** `getPredictionsByUserId`, whose limit defaults to 50. */
    function GetPredictionsByUserId(userId: int, limit: Option<int>): (r: Option<seq<Prediction>>)
      reads this
      ensures r.None? <==> limit.GetOr(50) < 0
      ensures r.Some? ==> |r.value| == Min(limit.GetOr(50), |Owned(predictions, OwnerOfPrediction, userId)|)
      ensures r.Some? ==> forall p :: p in r.value ==> p in predictions && p.userId == userId
      ensures r.Some? ==> NewestFirst(r.value, StampOfPrediction)
    {
      Listing(predictions, OwnerOfPrediction, StampOfPrediction, userId, limit.GetOr(50))
    }

    /** `getHistoryByUserId`, whose limit defaults to 100. */
    function GetHistoryByUserId(userId: int, limit: Option<int>): (r: Option<seq<HistoryEntry>>)
      reads this
      ensures r.None? <==> limit.GetOr(100) < 0
      ensures r.Some? ==> |r.value| == Min(limit.GetOr(100), |Owned(history, OwnerOfEntry, userId)|)
      ensures r.Some? ==> forall e :: e in r.value ==> e in history && e.userId == userId
      ensures r.Some? ==> NewestFirst(r.value, StampOfEntry)
    {
      Listing(history, OwnerOfEntry, StampOfEntry, userId, limit.GetOr(100))
    }

    /** Without a limit, at most 50 of the user's own predictions come back, newest first. */
    lemma DefaultPredictionLimit(userId: int)
      ensures var r := GetPredictionsByUserId(userId, None);
        && r.Some? && |r.value| <= 50
        && (forall p :: p in r.value ==> p in predictions && p.userId == userId)
        && NewestFirst(r.value, StampOfPrediction)
    {
    }

    /** Without a limit, at most 100 of the user's own entries come back, newest first. */
    lemma DefaultHistoryLimit(userId: int)
      ensures var r := GetHistoryByUserId(userId, None);
        && r.Some? && |r.value| <= 100
        && (forall e :: e in r.value ==> e in history && e.userId == userId)
        && NewestFirst(r.value, StampOfEntry)
    {
    }
  }
}
