/** The Mongoose `User` model of backend/models/User.js: the email setters
    (lower-case, then trim), the required paths with their `minlength` and
    `match` validators, the defaults, and the collection with its unique email
    index. */
module UserSchema {
  import opened Wrappers
  import opened Strings

  type Id = string

  datatype Profile = Profile(firstName: Option<string>, lastName: Option<string>, avatar: Option<string>)

  const NoProfile := Profile(None, None, None)

  datatype UserRecord = UserRecord(
    id: Id,
    email: string,
    password: string,
    mobile: string,
    isVerified: bool,
    createdAt: int,
    lastLogin: Option<int>,
    profile: Profile)

  /** The values handed to `new User({...})`; an absent path is `None`. */
  datatype UserFields = UserFields(
    email: Option<string>,
    password: Option<string>,
    mobile: Option<string>,
    isVerified: Option<bool>,
    profile: Option<Profile>)

  /** The `lowercase` and `trim` setters of `email`, applied in the order the
      schema declares them. */
  function NormalizeEmail(e: string): string {
    Trim(Lower(e))
  }

  lemma LowerOfLower(s: string)
    requires forall i :: 0 <= i < |s| ==> LowerChar(s[i]) == s[i]
    ensures Lower(s) == s
  {
  }

  lemma TrimOfTrimmed(s: string)
    requires s == [] || (!IsJsSpace(s[0]) && !IsJsSpace(s[|s| - 1]))
    ensures Trim(s) == s
  {
    assert TrimStart(s) == s;
  }

  lemma LowerCharLower(c: char)
    ensures LowerChar(LowerChar(c)) == LowerChar(c) && !('A' <= LowerChar(c) <= 'Z')
  {
  }

  lemma LowerIsFixed(e: string)
    ensures var l := Lower(e);
      forall k :: 0 <= k < |l| ==> LowerChar(l[k]) == l[k]
  {
    var l := Lower(e);
    forall k | 0 <= k < |l| ensures LowerChar(l[k]) == l[k] {
      LowerCharLower(e[k]);
    }
  }

  lemma TrimKeepsFixed(s: string)
    requires forall k :: 0 <= k < |s| ==> LowerChar(s[k]) == s[k]
    ensures var n := Trim(s);
      forall i :: 0 <= i < |n| ==> LowerChar(n[i]) == n[i]
  {
    var t := TrimStart(s);
    var n := TrimEnd(t);
    assert n == Trim(s);
    forall i | 0 <= i < |n| ensures LowerChar(n[i]) == n[i] {
      assert n[i] == t[i] == s[|s| - |t| + i];
    }
  }

  /** Every character of a normalised email is its own lower-case form. */
  lemma NormalizedIsLower(e: string)
    ensures var n := NormalizeEmail(e);
      forall i :: 0 <= i < |n| ==> LowerChar(n[i]) == n[i] && !('A' <= n[i] <= 'Z')
  {
    LowerIsFixed(e);
    TrimKeepsFixed(Lower(e));
    var n := NormalizeEmail(e);
    forall i | 0 <= i < |n| ensures !('A' <= n[i] <= 'Z') {
      LowerCharLower(n[i]);
    }
  }

  /** A string that is already lower-case and trimmed is left alone by the setters. */
  lemma NormalizeFixed(n: string)
    requires forall i :: 0 <= i < |n| ==> LowerChar(n[i]) == n[i]
    requires n == [] || (!IsJsSpace(n[0]) && !IsJsSpace(n[|n| - 1]))
    ensures NormalizeEmail(n) == n
  {
    LowerOfLower(n);
    TrimOfTrimmed(n);
  }

  /** A stored email has no upper-case ASCII letter and no surrounding
      white space, and running the setters on it again changes nothing. */
  lemma NormalizeEmailIdempotent(e: string)
    ensures var n := NormalizeEmail(e);
      (forall i :: 0 <= i < |n| ==> !('A' <= n[i] <= 'Z'))
      && (n == [] || (!IsJsSpace(n[0]) && !IsJsSpace(n[|n| - 1])))
      && NormalizeEmail(n) == n
  {
    NormalizedIsLower(e);
    NormalizeFixed(NormalizeEmail(e));
  }

  /** One failed validator: the path and the validator kind Mongoose reports. */
  datatype PathError = PathError(path: string, kind: string)

  /** Mongoose's `required` for a String path: present and not ''. */
  predicate RequiredString(v: Option<string>) { v.Some? && v.value != "" }

  /** The schema's mobile pattern: exactly ten decimal digits. */
  predicate MobileMatches(m: string) { IsDigitsOfLength(m, 10) }

  /** For each path in schema order, its first failing validator: `required`
      comes before `minlength` and `match` (which only judge a present value). */
  function UserErrors(email: Option<string>, password: Option<string>, mobile: Option<string>): (errs: seq<PathError>)
    ensures errs == [] <==> RequiredString(email) && RequiredString(password) && Utf16Length(password.value) >= 6
                             && RequiredString(mobile) && MobileMatches(mobile.value)
  {
    (if RequiredString(email) then [] else [PathError("email", "required")])
    + (if !RequiredString(password) then [PathError("password", "required")]
       else if Utf16Length(password.value) < 6 then [PathError("password", "minlength")] else [])
    + (if !RequiredString(mobile) then [PathError("mobile", "required")]
       else if !MobileMatches(mobile.value) then [PathError("mobile", "regexp")] else [])
  }

  /** What `save()` validates on a stored user. */
  predicate UserValid(u: UserRecord) {
    UserErrors(Some(u.email), Some(u.password), Some(u.mobile)) == []
  }

  /** The `email` path after its setters. */
  function EmailPath(f: UserFields): Option<string> {
    if f.email.Some? then Some(NormalizeEmail(f.email.value)) else None
  }

  /** Builds a new document: the email setters run, `isVerified` defaults to
      false, `createdAt` to the creation time, `lastLogin` stays unset. */
  function NewUser(id: Id, f: UserFields, now: int): (r: Result<UserRecord, seq<PathError>>)
    ensures r.Ok? <==> UserErrors(EmailPath(f), f.password, f.mobile) == []
    ensures r.Err? ==> r.error != []
    ensures r.Ok? ==> (UserValid(r.value) && r.value.id == id
      && Some(r.value.email) == EmailPath(f) && Some(r.value.password) == f.password
      && Some(r.value.mobile) == f.mobile)
    ensures r.Ok? ==> (r.value.isVerified == (f.isVerified == Some(true))
      && r.value.createdAt == now && r.value.lastLogin == None
      && r.value.profile == (if f.profile.Some? then f.profile.value else NoProfile))
  {
    Build(id, EmailPath(f), f, now)
  }

  /** `NewUser` once the setters have produced the email path. */
  function Build(id: Id, email: Option<string>, f: UserFields, now: int): (r: Result<UserRecord, seq<PathError>>)
    ensures r.Ok? <==> UserErrors(email, f.password, f.mobile) == []
    ensures r.Err? ==> r.error != []
    ensures r.Ok? ==> (UserValid(r.value) && r.value.id == id
      && Some(r.value.email) == email && Some(r.value.password) == f.password
      && Some(r.value.mobile) == f.mobile)
    ensures r.Ok? ==> (r.value.isVerified == (f.isVerified == Some(true))
      && r.value.createdAt == now && r.value.lastLogin == None
      && r.value.profile == (if f.profile.Some? then f.profile.value else NoProfile))
  {
    var errs := UserErrors(email, f.password, f.mobile);
    if errs != [] then Err(errs)
    else Ok(UserRecord(id, email.value, f.password.value, f.mobile.value, f.isVerified.GetOr(false), now, None,
                       f.profile.GetOr(NoProfile)))
  }

  /** Why a save fails: a validation error, or the unique index (on `_id` or
      on `email`) refusing a second entry. */
  datatype SaveError = Invalid(errors: seq<PathError>) | DuplicateKey

  /** `findOne({ email })`: the query value goes through the same setters, so
      the first user whose stored email equals the normalised one. */
  function FindByEmail(users: seq<UserRecord>, email: string): (r: Option<nat>)
    ensures r.Some? ==> r.value < |users| && users[r.value].email == NormalizeEmail(email)
    ensures r.None? <==> forall i :: 0 <= i < |users| ==> users[i].email != NormalizeEmail(email)
    ensures r.Some? ==> forall i :: 0 <= i < r.value ==> users[i].email != NormalizeEmail(email)
  {
    FindWhere(users, NormalizeEmail(email), 0)
  }

  function FindWhere(users: seq<UserRecord>, email: string, from: nat): (r: Option<nat>)
    requires from <= |users|
    ensures r.Some? ==> from <= r.value < |users| && users[r.value].email == email
    ensures r.None? <==> forall i :: from <= i < |users| ==> users[i].email != email
    ensures r.Some? ==> forall i :: from <= i < r.value ==> users[i].email != email
    decreases |users| - from
  {
    if from == |users| then None
    else if users[from].email == email then Some(from)
    else FindWhere(users, email, from + 1)
  }

  /** The position of the user with this id; an absent id finds nothing. */
  function FindById(users: seq<UserRecord>, id: Option<Id>): (r: Option<nat>)
    ensures r.Some? ==> id.Some? && r.value < |users| && users[r.value].id == id.value
    ensures r.None? <==> id.None? || forall i :: 0 <= i < |users| ==> users[i].id != id.value
  {
    if id.None? then None else FindIdFrom(users, id.value, 0)
  }

  function FindIdFrom(users: seq<UserRecord>, id: Id, from: nat): (r: Option<nat>)
    requires from <= |users|
    ensures r.Some? ==> from <= r.value < |users| && users[r.value].id == id
    ensures r.None? <==> forall i :: from <= i < |users| ==> users[i].id != id
    decreases |users| - from
  {
    if from == |users| then None
    else if users[from].id == id then Some(from)
    else FindIdFrom(users, id, from + 1)
  }

  /** Every stored user is valid and no two share an id or an email. */
  predicate CollectionValid(users: seq<UserRecord>) {
    (forall i :: 0 <= i < |users| ==> UserValid(users[i]))
    && (forall i, j :: 0 <= i < j < |users| ==> users[i].id != users[j].id && users[i].email != users[j].email)
  }

  /** Saving a new document: validated first, then refused by the unique
      index when its id or email is already taken, otherwise appended. */
  function Insert(users: seq<UserRecord>, id: Id, f: UserFields, now: int): (r: Result<seq<UserRecord>, SaveError>)
    ensures r.Ok? ==> NewUser(id, f, now).Ok? && r.value == users + [NewUser(id, f, now).value]
    ensures r.Ok? <==> (NewUser(id, f, now).Ok?
      && forall i :: 0 <= i < |users| ==> users[i].id != id && users[i].email != NewUser(id, f, now).value.email)
  {
    var n := NewUser(id, f, now);
    if n.Err? then Err(Invalid(n.error))
    else if exists i :: 0 <= i < |users| && (users[i].id == id || users[i].email == n.value.email) then Err(DuplicateKey)
    else Ok(users + [n.value])
  }

  /** Saving a changed document: validated, refused when another user has its
      email, otherwise it replaces the stored document with its id. */
  function Update(users: seq<UserRecord>, u: UserRecord): (r: Result<seq<UserRecord>, SaveError>)
    ensures r.Ok? ==> |r.value| == |users|
    ensures r.Ok? ==> forall i :: 0 <= i < |users| ==> r.value[i] == if users[i].id == u.id then u else users[i]
  {
    var errs := UserErrors(Some(u.email), Some(u.password), Some(u.mobile));
    if errs != [] then Err(Invalid(errs))
    else if exists i :: 0 <= i < |users| && users[i].id != u.id && users[i].email == u.email then Err(DuplicateKey)
    else Ok(seq(|users|, i requires 0 <= i < |users| => if users[i].id == u.id then u else users[i]))
  }

  /** Inserting keeps the collection valid. */
  lemma InsertKeepsValid(users: seq<UserRecord>, id: Id, f: UserFields, now: int)
    requires CollectionValid(users)
    ensures Insert(users, id, f, now).Ok? ==> CollectionValid(Insert(users, id, f, now).value)
  {
    if Insert(users, id, f, now).Ok? {
      AppendKeepsValid(users, NewUser(id, f, now).value);
    }
  }

  lemma AppendKeepsValid(users: seq<UserRecord>, u: UserRecord)
    requires CollectionValid(users) && UserValid(u)
    requires forall i :: 0 <= i < |users| ==> users[i].id != u.id && users[i].email != u.email
    ensures CollectionValid(users + [u])
  {
    var r := users + [u];
    forall i | 0 <= i < |r| ensures UserValid(r[i]) {
      if i < |users| { assert r[i] == users[i]; }
    }
    forall i, j | 0 <= i < j < |r| ensures r[i].id != r[j].id && r[i].email != r[j].email {
      assert r[i] == users[i];
      if j < |users| { assert r[j] == users[j]; }
    }
  }

  /** Updating a stored user without changing its email keeps the collection
      valid, and the update succeeds exactly when the changed user is valid. */
  lemma UpdateKeepsValid(users: seq<UserRecord>, k: nat, u: UserRecord)
    requires CollectionValid(users) && k < |users| && u.id == users[k].id && u.email == users[k].email
    ensures Update(users, u).Ok? <==> UserValid(u)
    ensures Update(users, u).Ok? ==> CollectionValid(Update(users, u).value) && Update(users, u).value[k] == u
  {
    if UserValid(u) {
      var r := Update(users, u).value;
      forall i, j | 0 <= i < j < |r| ensures r[i].id != r[j].id && r[i].email != r[j].email {
        assert r[i].id == users[i].id && r[j].id == users[j].id;
        assert r[i].email == users[i].email && r[j].email == users[j].email;
      }
    }
  }

  /** The users collection. */
  class UserCollection {
    var users: seq<UserRecord>

    constructor ()
      ensures users == []
    {
      users := [];
    }

    method Create(id: Id, f: UserFields, now: int) returns (r: Result<UserRecord, SaveError>)
      modifies this
      ensures r.Ok? <==> Insert(old(users), id, f, now).Ok?
      ensures r.Ok? ==> r.value == NewUser(id, f, now).value && users == Insert(old(users), id, f, now).value
      ensures r.Err? ==> users == old(users)
    {
      var ins := Insert(users, id, f, now);
      if ins.Err? {
        return Err(ins.error);
      }
      users := ins.value;
      return Ok(NewUser(id, f, now).value);
    }

    method Save(u: UserRecord) returns (ok: bool)
      modifies this
      ensures ok <==> Update(old(users), u).Ok?
      ensures users == if ok then Update(old(users), u).value else old(users)
    {
      var upd := Update(users, u);
      if upd.Err? {
        return false;
      }
      users := upd.value;
      return true;
    }
  }
}
