/**
 * Reading users in the Rust API (rust_api/src/models/user/query.rs): the
 * permission test, the permission-checked queries, and finding the user of
 * a request from its `userid` cookie. The database is a map from user id
 * to row; the private cookie jar is the optional value of that cookie.
 */
module UserQuery {
  import opened Wrappers
  import opened Permissions

  /** A row of the `users` table. */
  datatype User = User(
    id: string,
    permissions: seq<Permission>,
    email: string,
    name: string,
    picture: string,
    givenName: string,
    familyName: string,
    locale: string)

  type Db = map<string, User>

  /** The error kinds these operations produce. */
  datatype ErrorKind =
    | Authentication
    | Unauthorized(required: Permission)
    | NotFound
    | MissingUserFields(fields: seq<string>)

  /**
   * A GraphQL request context: the permissions the `auth!` check grants to
   * the caller, and the database.
   */
  datatype Context = Context(granted: set<Permission>, db: Db)

  /** The `auth!` check: no error exactly when the permission is granted. */
  function Authorize(ctx: Context, p: Permission): (r: Option<ErrorKind>)
    ensures r.None? <==> p in ctx.granted
    ensures r.Some? ==> r.value == Unauthorized(p)
  {
    if p in ctx.granted then None else Some(Unauthorized(p))
  }

  /** `has_permission`: the permission list contains it. */
  function HasPermission(u: User, p: Permission): (r: bool)
    ensures r <==> exists i :: 0 <= i < |u.permissions| && u.permissions[i] == p
  {
    p in u.permissions
  }

  /** `get_by_id_authless`: the row with that id, or NotFound. */
  function GetByIdAuthless(db: Db, id: string): (r: Result<User, ErrorKind>)
    ensures r.Ok? <==> id in db
    ensures r.Ok? ==> r.value == db[id]
    ensures r.Err? ==> r.error == NotFound
  {
    if id in db then Ok(db[id]) else Err(NotFound)
  }

  /** `get_many`: every row, once ViewUsers is granted. */
  function GetMany(ctx: Context): (r: Result<set<User>, ErrorKind>)
    ensures ViewUsers !in ctx.granted ==> r == Err(Unauthorized(ViewUsers))
    ensures ViewUsers in ctx.granted ==> r.Ok? && (forall u :: u in r.value <==> exists id :: id in ctx.db && ctx.db[id] == u)
  {
    match Authorize(ctx, ViewUsers)
    case Some(e) => Err(e)
    case None => Ok(ctx.db.Values)
  }

  /** `get_by_id`: the row, once ViewUsers is granted. */
  function GetById(ctx: Context, id: string): (r: Result<User, ErrorKind>)
    ensures ViewUsers !in ctx.granted ==> r == Err(Unauthorized(ViewUsers))
    ensures ViewUsers in ctx.granted ==> r == GetByIdAuthless(ctx.db, id)
  {
    match Authorize(ctx, ViewUsers)
    case Some(e) => Err(e)
    case None => GetByIdAuthless(ctx.db, id)
  }

  /** The permission check comes first: without ViewUsers the database is not looked at. */
  lemma QueriesCheckBeforeReading(ctx: Context, other: Db, id: string)
    requires ViewUsers !in ctx.granted
    ensures GetMany(ctx) == GetMany(ctx.(db := other))
    ensures GetById(ctx, id) == GetById(ctx.(db := other), id)
  {
  }

  /** `from_cookie`: no cookie is an authentication error; otherwise the cookie's value is the id looked up. */
  function FromCookie(db: Db, cookie: Option<string>): (r: Result<User, ErrorKind>)
    ensures cookie.None? ==> r == Err(Authentication)
    ensures cookie.Some? ==> r == GetByIdAuthless(db, cookie.value)
  {
    match cookie
    case None => Err(Authentication)
    case Some(value) => GetByIdAuthless(db, value)
  }

  /** Rocket's request outcome for a guard. */
  datatype Outcome<T, E> = Success(value: T) | Failure(status: int, error: E)

  /**
   * `from_request`: the cookie lookup turned into a request outcome. The
   * HTTP status of an error comes from a conversion that is not part of this
   * model; it is the parameter `statusOf`.
   */
  function FromRequest(db: Db, cookie: Option<string>, statusOf: ErrorKind -> int): (r: Outcome<User, ErrorKind>)
    ensures FromCookie(db, cookie).Ok? ==> r == Success(FromCookie(db, cookie).value)
    ensures FromCookie(db, cookie).Err? ==> r == Failure(statusOf(FromCookie(db, cookie).error), FromCookie(db, cookie).error)
    ensures cookie.None? ==> r == Failure(statusOf(Authentication), Authentication)
  {
    match FromCookie(db, cookie)
    case Ok(user) => Success(user)
    case Err(e) => Failure(statusOf(e), e)
  }

  /** Without the cookie every request fails the same way, whatever the database holds. */
  lemma NoCookieNoLookup(db: Db, other: Db, statusOf: ErrorKind -> int)
    ensures FromRequest(db, None, statusOf) == FromRequest(other, None, statusOf)
    ensures FromRequest(db, None, statusOf).Failure?
  {
  }
}
