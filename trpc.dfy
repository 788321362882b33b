/**
 * The request context and the authorization tiers of src/server/api/trpc.ts:
 * the context builder, the timing middleware, and the public, protected and
 * admin procedures.
 */
module Trpc {
  import opened Wrappers
  import opened Validation

  const AdminRole: string := "ADMIN"
  const UserRole: string := "USER"

  /** The session the session provider resolves for a request; every part of it may be missing. */
  datatype ProviderUser = ProviderUser(id: Option<string>, role: Option<string>)
  datatype ProviderSession = ProviderSession(user: Option<ProviderUser>)

  /** The session as it sits in the request context. */
  datatype SessionUser = SessionUser(id: Option<string>, role: string)
  datatype Session = Session(user: Option<SessionUser>)
  datatype Context = Context(session: Option<Session>)

  /** The narrowed context a gate hands to the resolver once the caller is known. */
  datatype Caller = Caller(session: Session, user: SessionUser)

  /** A failure raised by the store itself, not by a procedure. */
  datatype StoreFault =
    | RecordNotFound   // update or delete of a row that is not there
    | UniqueViolation  // a create whose id is already taken
    | ConnectFailed    // a create that links to a row that is not there

  /**
   * What a procedure throws: the typed errors of the procedures and gates, and
   * `StoreError` for a store failure that propagates without being wrapped.
   */
  datatype Error =
    | Unauthorized
    | Forbidden
    | BadRequest(issues: seq<Issue>)
    | NotFound
    | InternalServerError(cause: StoreFault)
    | StoreError(fault: StoreFault)

  /** A falsy role (absent or the empty string) becomes "USER", as `role || "USER"` does. */
  function RoleOrDefault(role: Option<string>): (r: string)
    ensures r != ""
    ensures role.Some? && role.value != "" ==> r == role.value
    ensures role.None? || role.value == "" ==> r == UserRole
  {
    if role.Some? && role.value != "" then role.value else UserRole
  }

  /**
   * createTRPCContext: no session gives a null session; a session always gives
   * a user object, carrying the provider's user id (possibly missing) and the
   * role with its default.
   */
  function CreateContext(s: Option<ProviderSession>): (ctx: Context)
    ensures s.None? <==> ctx.session.None?
    ensures s.Some? ==> ctx.session.value.user.Some?
    ensures s.Some? && s.value.user.None? ==>
      ctx.session.value.user.value == SessionUser(None, UserRole)
    ensures s.Some? && s.value.user.Some? ==>
      ctx.session.value.user.value == SessionUser(s.value.user.value.id, RoleOrDefault(s.value.user.value.role))
  {
    match s
    case None => Context(None)
    case Some(session) =>
      var id := if session.user.Some? then session.user.value.id else None;
      var role := if session.user.Some? then session.user.value.role else None;
      Context(Some(Session(Some(SessionUser(id, RoleOrDefault(role))))))
  }

  /** The condition `ctx.session?.user` that both gates test first. */
  predicate HasUser(ctx: Context) {
    ctx.session.Some? && ctx.session.value.user.Some?
  }

  /** The role of the user in the context; meaningful only when there is one. */
  function RoleOf(ctx: Context): string
    requires HasUser(ctx)
  {
    ctx.session.value.user.value.role
  }

  /** The protected tier's middleware: UNAUTHORIZED without a user, otherwise session and user unchanged. */
  function ProtectedGate(ctx: Context): (r: Result<Caller, Error>)
    ensures r.Failure? <==> !HasUser(ctx)
    ensures r.Failure? ==> r.error == Unauthorized
    ensures r.Success? ==>
      r.value.session == ctx.session.value && Some(r.value.user) == ctx.session.value.user
  {
    if ctx.session.None? || ctx.session.value.user.None? then Failure(Unauthorized)
    else Success(Caller(ctx.session.value, ctx.session.value.user.value))
  }

  /** The isAdmin middleware on its own: the identity check first, then the role check. */
  function IsAdmin(ctx: Context): (r: Result<Caller, Error>)
    ensures !HasUser(ctx) ==> r == Failure(Unauthorized)
    ensures HasUser(ctx) && RoleOf(ctx) != AdminRole ==> r == Failure(Forbidden)
    ensures HasUser(ctx) && RoleOf(ctx) == AdminRole ==>
      r == Success(Caller(ctx.session.value, ctx.session.value.user.value))
  {
    if ctx.session.None? || ctx.session.value.user.None? then Failure(Unauthorized)
    else if ctx.session.value.user.value.role != AdminRole then Failure(Forbidden)
    else Success(Caller(ctx.session.value, ctx.session.value.user.value))
  }

  /**
   * adminProcedure = protectedProcedure.use(isAdmin): the protected gate runs
   * first and isAdmin sees the context it passes on.
   */
  function AdminGate(ctx: Context): (r: Result<Caller, Error>)
    ensures !HasUser(ctx) ==> r == Failure(Unauthorized)
    ensures HasUser(ctx) && RoleOf(ctx) != AdminRole ==> r == Failure(Forbidden)
    ensures r.Success? <==> HasUser(ctx) && RoleOf(ctx) == AdminRole
    ensures r.Success? ==> r == ProtectedGate(ctx) && r.value.user.role == AdminRole
  {
    match ProtectedGate(ctx)
    case Failure(e) => Failure(e)
    case Success(caller) => IsAdmin(Context(Some(caller.session)))
  }

  /**
   * timingMiddleware: it awaits the rest of the chain and returns that result;
   * the clock, the development delay and the log line are not modelled.
   */
  function TimingMiddleware<T>(next: () -> T): (r: T)
    ensures r == next()
  {
    next()
  }

  /** publicProcedure: the resolver's result, whatever the session. */
  function PublicProcedure<T>(ctx: Context, resolver: Context -> Result<T, Error>): (r: Result<T, Error>)
    ensures r == resolver(ctx)
  {
    TimingMiddleware(() => resolver(ctx))
  }

  /** protectedProcedure: UNAUTHORIZED without a user, else exactly what the resolver returns. */
  function ProtectedProcedure<T>(ctx: Context, resolver: Caller -> Result<T, Error>): (r: Result<T, Error>)
    ensures !HasUser(ctx) ==> r == Failure(Unauthorized)
    ensures HasUser(ctx) ==> r == resolver(ProtectedGate(ctx).value)
  {
    TimingMiddleware(() =>
      match ProtectedGate(ctx)
      case Failure(e) => Failure(e)
      case Success(caller) => resolver(caller))
  }

  /** adminProcedure: UNAUTHORIZED, then FORBIDDEN, else exactly what the resolver returns. */
  function AdminProcedure<T>(ctx: Context, resolver: Caller -> Result<T, Error>): (r: Result<T, Error>)
    ensures !HasUser(ctx) ==> r == Failure(Unauthorized)
    ensures HasUser(ctx) && RoleOf(ctx) != AdminRole ==> r == Failure(Forbidden)
    ensures HasUser(ctx) && RoleOf(ctx) == AdminRole ==> r == resolver(AdminGate(ctx).value)
  {
    TimingMiddleware(() =>
      match AdminGate(ctx)
      case Failure(e) => Failure(e)
      case Success(admin) => resolver(admin))
  }

  /** Passing the admin tier implies passing the protected tier, with the same caller. */
  lemma AdminImpliesProtected(ctx: Context)
    requires AdminGate(ctx).Success?
    ensures ProtectedGate(ctx).Success? && ProtectedGate(ctx).value == AdminGate(ctx).value
  {
  }

  /** The admin tier never answers FORBIDDEN to a caller without an identity. */
  lemma IdentityBeforeRole(ctx: Context)
    ensures AdminGate(ctx) == Failure(Forbidden) ==> HasUser(ctx) && RoleOf(ctx) != AdminRole
    ensures AdminGate(ctx) == Failure(Unauthorized) <==> !HasUser(ctx)
  {
  }

  /** isAdmin alone decides exactly as protected-then-isAdmin: its own identity check is redundant there. */
  lemma AdminGateIsIsAdmin(ctx: Context)
    ensures AdminGate(ctx) == IsAdmin(ctx)
  {
  }

  /**
   * On a context built by CreateContext the protected tier only tests for a
   * session, since a session always carries a user object.
   */
  lemma BuiltContextProtected(s: Option<ProviderSession>)
    ensures ProtectedGate(CreateContext(s)).Success? <==> s.Some?
  {
  }

  /** On a built context the admin tier passes exactly for a provider user whose role is "ADMIN". */
  lemma BuiltContextAdmin(s: Option<ProviderSession>)
    ensures AdminGate(CreateContext(s)).Success? <==>
      s.Some? && s.value.user.Some? && s.value.user.value.role == Some(AdminRole)
  {
  }
}
