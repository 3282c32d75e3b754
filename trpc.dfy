/** Request context and the authorization guard of the API. The session lookup is a
    foreign call: its outcome is a parameter. When it throws or finds no session, a fixed
    development session is substituted. Timestamps of the mock session are not modelled. */
module Trpc {

  import opened Common

  datatype Session = Session(id: string, userId: string, token: string, ipAddress: string, userAgent: string)

  datatype User = User(id: string, email: string, name: string, emailVerified: bool)

  /** What a successful session lookup returns: `{ session, user }`. */
  datatype SessionData = SessionData(session: Session, user: User)

  /** The outcome of `auth.api.getSession(...)`: it may throw, or resolve to a session or
      to `null`. */
  datatype SessionLookup = Threw | Resolved(data: Option<SessionData>)

  /** The fields of the context that the procedures use; `db` and `headers` are passed
      through untouched and are not modelled. */
  datatype Context = Context(session: Option<Session>, user: Option<User>)

  /** The context a protected procedure's body receives. */
  datatype AuthedContext = AuthedContext(session: Session, user: User)

  const Unauthorized := "UNAUTHORIZED"

  const MockSession := SessionData(
    Session("mock-session-id", "mock-user-id", "mock-token", "127.0.0.1", "mock-agent"),
    User("mock-user-id", "dev@glassbox.health", "Dev User", true))

  /** `createContext`: a thrown lookup counts as "no session", and "no session" is
      replaced by the mock session; the context exposes the two halves of the result. */
  function CreateContext(lookup: SessionLookup): (ctx: Context)
    ensures ctx.session.Some? && ctx.user.Some?
    ensures lookup.Resolved? && lookup.data.Some? ==>
              ctx == Context(Some(lookup.data.value.session), Some(lookup.data.value.user))
    ensures lookup.Threw? || lookup == Resolved(None) ==>
              ctx.user.value.id == "mock-user-id" && ctx.user.value.email == "dev@glassbox.health"
              && ctx.session.value.userId == "mock-user-id"
  {
    var session := match lookup
      case Threw => None
      case Resolved(data) => data;
    var used := if session.None? then MockSession else session.value;
    Context(Some(used.session), Some(used.user))
  }

  /** A thrown lookup and a lookup that finds nothing give the same context. */
  lemma ThrowIsNoSession()
    ensures CreateContext(Threw) == CreateContext(Resolved(None))
  {
  }

  /** `protectedProcedure`: rejects with UNAUTHORIZED exactly when the session or the
      user is missing, and otherwise passes both on unchanged. */
  function ProtectedProcedure(ctx: Context): (r: Result<AuthedContext, string>)
    ensures r.Failure? <==> ctx.session.None? || ctx.user.None?
    ensures r.Failure? ==> r.error == Unauthorized
    ensures r.Success? ==> Some(r.value.session) == ctx.session && Some(r.value.user) == ctx.user
  {
    if ctx.session.None? || ctx.user.None? then Failure(Unauthorized)
    else Success(AuthedContext(ctx.session.value, ctx.user.value))
  }

  /** Because of the fallback, every context `createContext` builds passes the guard. */
  lemma CreatedContextIsAuthorized(lookup: SessionLookup)
    ensures ProtectedProcedure(CreateContext(lookup)).Success?
  {
  }
}
