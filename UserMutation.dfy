/**
 * Changing users in the Rust API (rust_api/src/models/user/mutation.rs):
 * delete, setting the permission list without duplicates, building a new
 * user from a Google sign-in token, and the upsert of that user.
 */
module UserMutation {
  import opened Wrappers
  import opened Permissions
  import opened UserQuery

  /** No element occurs twice. */
  predicate NoDuplicates<T(==,!new)>(s: seq<T>) {
    forall i, j :: 0 <= i < j < |s| ==> s[i] != s[j]
  }

  /**
   * itertools `unique`, walked left to right: an element is kept when it is
   * not among those already `seen`.
   */
  function UniqueFrom<T(==,!new)>(s: seq<T>, seen: set<T>): (r: seq<T>)
    ensures forall x :: x in r <==> x in s && x !in seen
    ensures NoDuplicates(r)
    decreases |s|
  {
    if s == [] then []
    else if s[0] in seen then UniqueFrom(s[1..], seen)
    else [s[0]] + UniqueFrom(s[1..], seen + {s[0]})
  }

  /** `permissions.into_iter().unique().collect()`. */
  function Unique<T(==,!new)>(s: seq<T>): (r: seq<T>)
    ensures forall x :: x in r <==> x in s
    ensures NoDuplicates(r)
  {
    UniqueFrom(s, {})
  }

  /**
   * The first occurrences of `s`, in order, defined from the other end:
   * the last element is kept when it did not occur before it.
   */
  function FirstOccurrences<T(==,!new)>(s: seq<T>): seq<T>
    decreases |s|
  {
    if s == [] then []
    else
      var init := s[..|s| - 1];
      FirstOccurrences(init) + (if s[|s| - 1] in init then [] else [s[|s| - 1]])
  }

  lemma {:induction false} UniqueFromSnoc<T(!new)>(s: seq<T>, seen: set<T>, x: T)
    ensures UniqueFrom(s + [x], seen) == UniqueFrom(s, seen) + (if x in seen || x in s then [] else [x])
    decreases |s|
  {
    if s == [] {
      assert s + [x] == [x];
    } else {
      assert (s + [x])[0] == s[0];
      assert (s + [x])[1..] == s[1..] + [x];
      if s[0] in seen {
        UniqueFromSnoc(s[1..], seen, x);
      } else {
        UniqueFromSnoc(s[1..], seen + {s[0]}, x);
      }
      assert x in s <==> x == s[0] || x in s[1..];
    }
  }

  /** The dedup keeps exactly the first occurrence of each element, in input order. */
  lemma {:induction false} UniqueKeepsFirstOccurrences<T(!new)>(s: seq<T>)
    ensures Unique(s) == FirstOccurrences(s)
    decreases |s|
  {
    if s != [] {
      var init := s[..|s| - 1];
      assert s == init + [s[|s| - 1]];
      UniqueFromSnoc(init, {}, s[|s| - 1]);
      UniqueKeepsFirstOccurrences(init);
    }
  }

  /** A list without duplicates is left as it is. */
  lemma {:induction false} UniqueOfDistinct<T(!new)>(s: seq<T>)
    requires NoDuplicates(s)
    ensures Unique(s) == s
    decreases |s|
  {
    if s != [] {
      var init := s[..|s| - 1];
      assert s == init + [s[|s| - 1]];
      assert s[|s| - 1] !in init by {
        forall i | 0 <= i < |init| ensures init[i] != s[|s| - 1] {
          assert init[i] == s[i];
        }
      }
      UniqueFromSnoc(init, {}, s[|s| - 1]);
      UniqueOfDistinct(init);
    }
  }

  /** Deduplicating twice is deduplicating once. */
  lemma UniqueIdempotent<T(!new)>(s: seq<T>)
    ensures Unique(Unique(s)) == Unique(s)
  {
    UniqueOfDistinct(Unique(s));
  }

  /** `User::delete`: the deleted row, and the database without it. */
  function Delete(ctx: Context, id: string): (r: Result<(User, Db), ErrorKind>)
    ensures ManageUsers !in ctx.granted ==> r == Err(Unauthorized(ManageUsers))
    ensures ManageUsers in ctx.granted && id !in ctx.db ==> r == Err(NotFound)
    ensures ManageUsers in ctx.granted && id in ctx.db ==> r.Ok?
    ensures r.Ok? ==> id in ctx.db && r.value.0 == ctx.db[id] && r.value.1.Keys == ctx.db.Keys - {id}
    ensures r.Ok? ==> forall k :: k in r.value.1 ==> r.value.1[k] == ctx.db[k]
  {
    match Authorize(ctx, ManageUsers)
    case Some(e) => Err(e)
    case None =>
      if id in ctx.db then Ok((ctx.db[id], ctx.db - {id})) else Err(NotFound)
  }

  /** `User::set_permissions`: the updated row, and the database holding it. */
  function SetPermissions(ctx: Context, id: string, permissions: seq<Permission>): (r: Result<(User, Db), ErrorKind>)
    ensures ManageUsers !in ctx.granted ==> r == Err(Unauthorized(ManageUsers))
    ensures ManageUsers in ctx.granted && id !in ctx.db ==> r == Err(NotFound)
    ensures ManageUsers in ctx.granted && id in ctx.db ==> r.Ok?
    ensures r.Ok? ==> id in ctx.db && r.value.0 == ctx.db[id].(permissions := Unique(permissions))
    ensures r.Ok? ==> r.value.1 == ctx.db[id := r.value.0]
  {
    match Authorize(ctx, ManageUsers)
    case Some(e) => Err(e)
    case None =>
      if id in ctx.db then
        var u := ctx.db[id].(permissions := Unique(permissions));
        Ok((u, ctx.db[id := u]))
      else Err(NotFound)
  }

  /** The permission check comes first: without ManageUsers neither mutation looks at or changes the database. */
  lemma MutationsCheckBeforeWriting(ctx: Context, other: Db, id: string, permissions: seq<Permission>)
    requires ManageUsers !in ctx.granted
    ensures Delete(ctx, id) == Delete(ctx.(db := other), id)
    ensures SetPermissions(ctx, id, permissions) == SetPermissions(ctx.(db := other), id, permissions)
  {
  }

  /**
   * After `set_permissions` the user has a permission exactly when it was in
   * the input, each is stored once, in the order of first occurrence.
   */
  lemma SetPermissionsStores(ctx: Context, id: string, permissions: seq<Permission>, p: Permission)
    requires SetPermissions(ctx, id, permissions).Ok?
    ensures var u := SetPermissions(ctx, id, permissions).value.0;
      && (HasPermission(u, p) <==> p in permissions)
      && NoDuplicates(u.permissions)
      && u.permissions == FirstOccurrences(permissions)
  {
    UniqueKeepsFirstOccurrences(permissions);
  }

  /** The claims of a Google sign-in token that a user is made from. */
  datatype IdInfo = IdInfo(
    sub: string,
    email: Option<string>,
    name: Option<string>,
    picture: Option<string>,
    givenName: Option<string>,
    familyName: Option<string>,
    locale: Option<string>)

  /** `NewUser`: a user row without its permissions. */
  datatype NewUser = NewUser(
    id: string,
    email: string,
    name: string,
    picture: string,
    givenName: string,
    familyName: string,
    locale: string)

  /** `NewUser::try_from`: every optional claim must be present, checked in field order. */
  function NewUserFrom(info: IdInfo): (r: Result<NewUser, ErrorKind>)
    ensures r.Ok? <==> (info.email.Some? && info.name.Some? && info.picture.Some?
                        && info.givenName.Some? && info.familyName.Some? && info.locale.Some?)
    ensures r.Ok? ==> r.value == NewUser(info.sub, info.email.value, info.name.value, info.picture.value,
                                         info.givenName.value, info.familyName.value, info.locale.value)
    ensures info.email.None? ==> r == Err(MissingUserFields(["email"]))
    ensures info.email.Some? && info.name.None? ==> r == Err(MissingUserFields(["name"]))
    ensures info.email.Some? && info.name.Some? && info.picture.None? ==> r == Err(MissingUserFields(["picture"]))
    ensures info.email.Some? && info.name.Some? && info.picture.Some? && info.givenName.None?
      ==> r == Err(MissingUserFields(["given_name"]))
    ensures info.email.Some? && info.name.Some? && info.picture.Some? && info.givenName.Some? && info.familyName.None?
      ==> r == Err(MissingUserFields(["family_name"]))
    ensures (info.email.Some? && info.name.Some? && info.picture.Some? && info.givenName.Some? && info.familyName.Some?
             && info.locale.None?) ==> r == Err(MissingUserFields(["locale"]))
  {
    if info.email.None? then Err(MissingUserFields(["email"]))
    else if info.name.None? then Err(MissingUserFields(["name"]))
    else if info.picture.None? then Err(MissingUserFields(["picture"]))
    else if info.givenName.None? then Err(MissingUserFields(["given_name"]))
    else if info.familyName.None? then Err(MissingUserFields(["family_name"]))
    else if info.locale.None? then Err(MissingUserFields(["locale"]))
    else Ok(NewUser(info.sub, info.email.value, info.name.value, info.picture.value,
                    info.givenName.value, info.familyName.value, info.locale.value))
  }

  /** The claims a new user carries. */
  function ClaimsOf(nu: NewUser): IdInfo {
    IdInfo(nu.id, Some(nu.email), Some(nu.name), Some(nu.picture), Some(nu.givenName), Some(nu.familyName), Some(nu.locale))
  }

  /** Every new user is built back from its own claims. */
  lemma NewUserFromClaims(nu: NewUser)
    ensures NewUserFrom(ClaimsOf(nu)) == Ok(nu)
  {
  }

  /** The error names one field, and every field before it in the order of the struct was present. */
  lemma MissingFieldIsFirst(info: IdInfo)
    requires NewUserFrom(info).Err?
    ensures NewUserFrom(info).error.MissingUserFields?
    ensures |NewUserFrom(info).error.fields| == 1
    ensures NewUserFrom(info).error.fields[0] in ["email", "name", "picture", "given_name", "family_name", "locale"]
  {
  }

  /** `upsert` on a row: an existing row keeps its permissions, a new one starts without any. */
  function UpsertRow(nu: NewUser, db: Db): (u: User)
    ensures u.id == nu.id && u.email == nu.email && u.name == nu.name && u.picture == nu.picture
    ensures u.givenName == nu.givenName && u.familyName == nu.familyName && u.locale == nu.locale
    ensures nu.id in db ==> u.permissions == db[nu.id].permissions
    ensures nu.id !in db ==> u.permissions == []
  {
    var perms := if nu.id in db then db[nu.id].permissions else [];
    User(nu.id, perms, nu.email, nu.name, nu.picture, nu.givenName, nu.familyName, nu.locale)
  }

  /** `NewUser::upsert`: insert the row, or on an id conflict overwrite its seven columns. */
  function Upsert(nu: NewUser, db: Db): (r: (User, Db))
    ensures r.0 == UpsertRow(nu, db)
    ensures r.1.Keys == db.Keys + {nu.id}
    ensures r.1[nu.id] == r.0
    ensures forall k :: k in db && k != nu.id ==> r.1[k] == db[k]
  {
    var u := UpsertRow(nu, db);
    (u, db[nu.id := u])
  }

  /** Upserting the same user again changes nothing. */
  lemma UpsertIdempotent(nu: NewUser, db: Db)
    ensures Upsert(nu, Upsert(nu, db).1) == Upsert(nu, db)
  {
    var db1 := Upsert(nu, db).1;
    assert db1[nu.id := UpsertRow(nu, db1)] == db1;
  }
}
