/**
 * One chat connection of src/chat/websocket.py as an event-driven machine: the in-band
 * authentication prelude of `handle_chat`, its message loop, the token-expiry monitor of
 * `monitor_token_expiry`, and the registry of live clients kept by `ConnectionManager`.
 *
 * Time is in whole seconds. The token decoder, the user and recipe lookups, the language
 * model, the JSON parser and the ISO clock are oracles held in an `Env`.
 */
module ChatSession {
  import opened Wrappers
  import opened Json
  import opened Config
  import opened RecipeProcessor
  import opened ChatIntent
  import AuthApi

  // ---------------------------------------------------------------- the registry

  /** `ConnectionManager`: the live clients, each mapped to its socket. */
  class ConnectionManager {
    var activeConnections: map<string, nat>

    constructor()
      ensures activeConnections == map[]
    {
      activeConnections := map[];
    }

    /** `connect`: register (or re-register) a client on a socket. */
    method Connect(clientId: string, socket: nat)
      modifies this
      ensures activeConnections == old(activeConnections)[clientId := socket]
    {
      activeConnections := activeConnections[clientId := socket];
    }

    /** `disconnect`: forget a client; an unknown id changes nothing. */
    method Disconnect(clientId: string)
      modifies this
      ensures activeConnections == old(activeConnections) - {clientId}
      ensures clientId !in old(activeConnections) ==> activeConnections == old(activeConnections)
    {
      if clientId in activeConnections {
        activeConnections := activeConnections - {clientId};
      }
    }
  }

  // ---------------------------------------------------------------- frames and closes

  /** The close code of every close here: policy violation, section 7.4.1 of RFC 6455. */
  const PolicyViolation: int := 1008
  const AuthTimeout: int := 5
  const ReauthWindow: int := 30
  const WarningLead: int := 60

  const Greeting: string := "Connected to recipe chat. How can I help you with this recipe?"
  const ExpiringSoon: string := "Token expiring soon"
  const LoopError: string := "Sorry, I couldn't process that request. Please try again."

  datatype Close = Close(code: int, reason: string)

  /** What the server sends: a `recipe_update` (request id, text, recipe data) or an `auth_required`. */
  datatype OutFrame =
    | RecipeUpdate(requestId: Option<string>, content: string, recipeData: Option<Object>)
    | AuthRequired(reason: string)

  /** The claims of a decoded token: `sub` ("" when absent) and `exp` (0 when absent). */
  datatype Claims = Claims(sub: string, exp: int)

  datatype Env = Env(
    decode: string -> Option<Claims>,
    userExists: string -> bool,
    ownedRecipe: (string, string) -> Option<Object>,
    llm: LlmRequest -> Result<string, string>,
    parse: string -> Option<Value>,
    iso: int -> string)

  /**
   * What the connection receives: a JSON frame at a time (with the id a `ChatMessage` would
   * be given if it has none), the passing of time with no frame, or the client going away.
   */
  datatype Event = Frame(msg: Value, now: int, freshId: string) | Timeout(now: int) | Disconnect

  /** `is_token_expired`. */
  predicate Expired(exp: int, now: int) { now > exp }

  // ---------------------------------------------------------------- the expiry monitor

  /** The monitor's warning delay `max(0, exp - now - 60)`, with `now` the true time. */
  function WarningDelay(exp: int, now: int): (r: nat)
    ensures r == 0 <==> exp - now <= WarningLead
    ensures r > 0 ==> now + r == exp - WarningLead
  {
    if exp - now - WarningLead > 0 then exp - now - WarningLead else 0
  }

  /**
   * The delay as written: `datetime.utcnow().timestamp()` reads the naive UTC wall clock as
   * local time, which on a host `utcOffset` seconds east of UTC is `now - utcOffset`.
   */
  function WarningDelayAsWritten(exp: int, now: int, utcOffset: int): (r: nat)
    ensures utcOffset == 0 ==> r == WarningDelay(exp, now)
    ensures exp - now - WarningLead > 0 && exp - (now - utcOffset) - WarningLead > 0 ==>
      (r == WarningDelay(exp, now) <==> utcOffset == 0)
  {
    var current := now - utcOffset;
    if exp - current - WarningLead > 0 then exp - current - WarningLead else 0
  }

  /** On a host two hours east of UTC, a fresh access token's warning comes after the token has expired. */
  lemma WarningLateEastOfUtc(now: int)
    ensures WarningDelay(now + AccessTokenLifetime, now) == 840
    ensures WarningDelayAsWritten(now + AccessTokenLifetime, now, 7200) == 8040
    ensures now + WarningDelayAsWritten(now + AccessTokenLifetime, now, 7200) > now + AccessTokenLifetime
  {
  }

  /** On a host five hours west of UTC, no warning is ever scheduled for a fresh access token. */
  lemma WarningLostWestOfUtc(now: int)
    ensures WarningDelay(now + AccessTokenLifetime, now) > 0
    ensures WarningDelayAsWritten(now + AccessTokenLifetime, now, -18000) == 0
  {
  }

  /**
   * A freshly issued access token (15 minutes) is warned about 840 seconds later, one minute
   * before it lapses: the monitor started at sign-in sleeps until then.
   */
  lemma FreshAccessTokenWarned(userId: string, now: int)
    ensures WarningDelay(AuthApi.AccessFor(userId, now).exp, now) == 840
    ensures StartMonitor(AuthApi.AccessFor(userId, now).exp, now) == Sleeping(now + 840)
  {
  }

  /** The monitor's state: asleep until the warning, waiting for re-authentication until a deadline, or done. */
  datatype Monitor = Sleeping(warnAt: int) | AwaitingReauth(deadline: int) | Finished

  /** A monitor started at `now` for a token expiring at `exp`: it ends at once when the delay is 0. */
  function StartMonitor(exp: int, now: int): (m: Monitor)
    ensures m == Finished <==> WarningDelay(exp, now) == 0
    ensures m.Sleeping? ==> m.warnAt == exp - WarningLead && m.warnAt > now
    ensures !m.AwaitingReauth?
  {
    var delay := WarningDelay(exp, now);
    if delay == 0 then Finished else Sleeping(now + delay)
  }

  /** A due warning: the `auth_required` frame is sent and the 30-second wait begins. */
  function Wake(m: Monitor, now: int): (r: (Monitor, seq<OutFrame>))
    ensures r.1 == [] || r.1 == [AuthRequired(ExpiringSoon)]
    ensures r.1 != [] <==> m.Sleeping? && now >= m.warnAt
    ensures r.1 != [] ==> r.0 == AwaitingReauth(m.warnAt + ReauthWindow)
    ensures r.1 == [] ==> r.0 == m
  {
    if m.Sleeping? && now >= m.warnAt then (AwaitingReauth(m.warnAt + ReauthWindow), [AuthRequired(ExpiringSoon)])
    else (m, [])
  }

  // ---------------------------------------------------------------- the connection's phases

  datatype Phase =
    | Authenticating(openedAt: int)
    | Connected(clientId: string, recipe: Object, monitor: Monitor, lastMsgId: Option<string>)
    | Closed

  datatype Registry = Keep | Register(clientId: string) | Unregister(clientId: string)

  /** One transition: the next phase, the frames sent, the close sent (if any), the registry change. */
  datatype Step = Step(phase: Phase, out: seq<OutFrame>, close: Option<Close>, registry: Registry)

  /** A close during the prelude: nothing was registered yet. */
  function Reject(reason: string): Step {
    Step(Closed, [], Some(Close(PolicyViolation, reason)), Keep)
  }

  /** The `finally` block: the monitor is cancelled with the phase, and the client is removed. */
  function Teardown(clientId: string, out: seq<OutFrame>, close: Option<string>): Step {
    Step(Closed, out, if close.Some? then Some(Close(PolicyViolation, close.value)) else None, Unregister(clientId))
  }

  function TypeOf(msg: Object): Value { Get(msg, "type", Null) }

  /** The `payload` of an auth or chat message, which the models require to be an object. */
  function PayloadOf(msg: Object): (r: Option<Object>)
    ensures r.Some? <==> "payload" in msg && msg["payload"].Obj?
  {
    if "payload" in msg && msg["payload"].Obj? then Some(msg["payload"].fields) else None
  }

  function ClientId(userId: string, recipeId: string): string { userId + ":" + recipeId }

  /** The first frame after authentication: the greeting, with the recipe only if it has ingredients. */
  function GreetingFrame(recipe: Object): (f: OutFrame)
    ensures f.RecipeUpdate? && f.requestId.None? && f.content == Greeting
    ensures f.recipeData == Some(recipe) <==> HasIngredients(recipe)
    ensures f.recipeData.None? <==> !HasIngredients(recipe)
  {
    RecipeUpdate(None, Greeting, if HasIngredients(recipe) then Some(recipe) else None)
  }

  // ---------------------------------------------------------------- the authentication prelude

  datatype AuthOutcome = Rejected(reason: string) | Aborted | Accepted(userId: string, exp: int, recipe: Object)

  /**
   * The checks of the first frame, in order. A frame that is not an object, or a truthy token
   * that is not a string, makes the handler raise: it ends without a close frame.
   */
  function Authenticate(msg: Value, now: int, recipeId: string, env: Env): AuthOutcome {
    if !msg.Obj? then Aborted
    else if TypeOf(msg.fields) != Str("auth") then Rejected("First message must be auth")
    else
      var payload := PayloadOf(msg.fields);
      if payload.None? then Rejected("Invalid auth message format")
      else
        var token := Get(payload.value, "token", Null);
        if !Truthy(token) then Rejected("Missing auth token")
        else if !token.Str? then Aborted
        else
          var claims := env.decode(token.s);
          if claims.None? then Rejected("Invalid token")
          else if Expired(claims.value.exp, now) then Rejected("Token expired")
          else if claims.value.sub == "" then Rejected("Invalid token payload")
          else if !env.userExists(claims.value.sub) then Rejected("User not found")
          else
            var recipe := env.ownedRecipe(recipeId, claims.value.sub);
            if recipe.None? then Rejected("Recipe not found or access denied")
            else Accepted(claims.value.sub, claims.value.exp, recipe.value)
  }

  /** The prelude's reasons for closing. */
  predicate PreludeReason(reason: string) {
    reason in {"Authentication timeout", "First message must be auth", "Invalid auth message format",
               "Missing auth token", "Invalid token", "Token expired", "Invalid token payload",
               "User not found", "Recipe not found or access denied"}
  }

  /** A first frame is accepted exactly when every check passes. */
  lemma AuthenticateAccepts(msg: Value, now: int, recipeId: string, env: Env)
    ensures Authenticate(msg, now, recipeId, env).Accepted? <==>
      && msg.Obj? && TypeOf(msg.fields) == Str("auth") && PayloadOf(msg.fields).Some?
      && var token := Get(PayloadOf(msg.fields).value, "token", Null);
      && token.Str? && token.s != ""
      && env.decode(token.s).Some?
      && var claims := env.decode(token.s).value;
      && !Expired(claims.exp, now) && claims.sub != "" && env.userExists(claims.sub)
      && env.ownedRecipe(recipeId, claims.sub).Some?
    ensures var a := Authenticate(msg, now, recipeId, env);
      a.Accepted? ==> a.recipe == env.ownedRecipe(recipeId, a.userId).value && env.userExists(a.userId)
    ensures var a := Authenticate(msg, now, recipeId, env);
      a.Rejected? ==> PreludeReason(a.reason)
  {
  }

  /** The prelude: a frame in time is authenticated; the 5-second wait may run out first. */
  function AuthStep(openedAt: int, e: Event, recipeId: string, env: Env): Step {
    match e
    case Disconnect => Step(Closed, [], None, Keep)
    case Timeout(now) =>
      if now >= openedAt + AuthTimeout then Reject("Authentication timeout") else Step(Authenticating(openedAt), [], None, Keep)
    case Frame(msg, now, _) =>
      if now >= openedAt + AuthTimeout then Reject("Authentication timeout")
      else
        match Authenticate(msg, now, recipeId, env)
        case Aborted => Step(Closed, [], None, Keep)
        case Rejected(reason) => Reject(reason)
        case Accepted(userId, exp, recipe) =>
          var id := ClientId(userId, recipeId);
          Step(Connected(id, recipe, StartMonitor(exp, now), None), [GreetingFrame(recipe)], None, Register(id))
  }

  // ---------------------------------------------------------------- the message loop

  /** The error reply of the loop, linked to the last chat message parsed on the connection. */
  function LoopErrorFrame(lastMsgId: Option<string>): OutFrame {
    RecipeUpdate(lastMsgId, LoopError, None)
  }

  datatype ChatFrame = ChatFrame(id: string, payload: Object)

  /**
   * `ChatMessage(**data)`: an object payload, a string id (or the fresh default) and, when
   * given, a timestamp that is a string or a number.
   */
  function ParseChatMessage(msg: Object, freshId: string): (r: Option<ChatFrame>)
    ensures r.Some? <==>
      && PayloadOf(msg).Some?
      && ("id" in msg ==> msg["id"].Str?)
      && ("timestamp" in msg ==> msg["timestamp"].Str? || msg["timestamp"].Int? || msg["timestamp"].Float?)
    ensures r.Some? ==> PayloadOf(msg) == Some(r.value.payload)
    ensures r.Some? ==> r.value.id == (if "id" in msg then msg["id"].s else freshId)
  {
    var payload := PayloadOf(msg);
    if payload.None? then None
    else if "id" in msg && !msg["id"].Str? then None
    else if "timestamp" in msg && !(msg["timestamp"].Str? || msg["timestamp"].Int? || msg["timestamp"].Float?) then None
    else Some(ChatFrame(if "id" in msg then msg["id"].s else freshId, payload.value))
  }

  /**
   * A chat message: stored as the last one parsed, then answered unless its content is empty.
   * Logging a preview slices the content, which raises for a value that is neither a string
   * nor a list.
   */
  function ChatStep(c: Phase, frame: ChatFrame, now: int, recipeId: string, env: Env): Step
    requires c.Connected?
  {
    var c1 := c.(lastMsgId := Some(frame.id));
    var content := Get(frame.payload, "content", Str(""));
    if !Truthy(content) then Step(c1, [], None, Keep)
    else if !(content.Str? || content.Arr?) then Step(c1, [LoopErrorFrame(Some(frame.id))], None, Keep)
    else
      var reply := ProcessChatMessage(content, recipeId, c.recipe, env.iso(now), env.llm, env.parse);
      Step(c1.(recipe := reply.stored), [RecipeUpdate(Some(frame.id), reply.content, reply.data)], None, Keep)
  }

  /** A mid-session auth frame: a bad token closes; a good one restarts the monitor silently. */
  function ReauthStep(c: Phase, msg: Object, now: int, env: Env): Step
    requires c.Connected?
  {
    var payload := PayloadOf(msg);
    if payload.None? then Step(c, [LoopErrorFrame(c.lastMsgId)], None, Keep)
    else
      var token := Get(payload.value, "token", Null);
      if !token.Str? then Step(c, [LoopErrorFrame(c.lastMsgId)], None, Keep)
      else
        var claims := env.decode(token.s);
        if claims.None? || Expired(claims.value.exp, now) then Teardown(c.clientId, [], Some("Invalid or expired token"))
        else Step(c.(monitor := StartMonitor(claims.value.exp, now)), [], None, Keep)
  }

  /** One frame of the `while True` loop, dispatched on its type; other types are ignored. */
  function LoopStep(c: Phase, msg: Value, now: int, freshId: string, recipeId: string, env: Env): (st: Step)
    requires c.Connected?
    ensures |st.out| <= 1 && forall k :: 0 <= k < |st.out| ==> st.out[k].RecipeUpdate?
    ensures st.close.Some? ==> st.close.value.reason == "Invalid or expired token"
  {
    if !msg.Obj? then Step(c, [LoopErrorFrame(c.lastMsgId)], None, Keep)
    else if TypeOf(msg.fields) == Str("auth") then ReauthStep(c, msg.fields, now, env)
    else if TypeOf(msg.fields) == Str("chat_message") then
      var frame := ParseChatMessage(msg.fields, freshId);
      if frame.None? then Step(c, [LoopErrorFrame(c.lastMsgId)], None, Keep)
      else ChatStep(c, frame.value, now, recipeId, env)
    else Step(c, [], None, Keep)
  }

  /**
   * The monitor's handling of the frame that follows its warning (it wins the race for the
   * next frame): anything but an auth frame closes; an undecodable token closes; a decodable
   * one restarts the monitor on its expiry, with no further check. A frame it cannot read
   * ends the monitor silently.
   */
  function MonitorStep(c: Phase, msg: Value, now: int, env: Env): (st: Step)
    requires c.Connected?
    ensures st.out == []
    ensures st.close.Some? <==> st.phase.Closed?
    ensures st.close.Some? ==> st.close.value.reason in {"Expected auth message", "Invalid token"}
    ensures st.phase.Connected? ==> !st.phase.monitor.AwaitingReauth?
  {
    if !msg.Obj? then Step(c.(monitor := Finished), [], None, Keep)
    else if TypeOf(msg.fields) != Str("auth") then Teardown(c.clientId, [], Some("Expected auth message"))
    else
      var payload := PayloadOf(msg.fields);
      if payload.None? then Step(c.(monitor := Finished), [], None, Keep)
      else
        var token := Get(payload.value, "token", Null);
        if !token.Str? then Step(c.(monitor := Finished), [], None, Keep)
        else
          var claims := env.decode(token.s);
          if claims.None? then Teardown(c.clientId, [], Some("Invalid token"))
          else Step(c.(monitor := StartMonitor(claims.value.exp, now)), [], None, Keep)
  }

  /** `step` preceded by the frames already sent. */
  function After(sent: seq<OutFrame>, step: Step): Step {
    step.(out := sent + step.out)
  }

  /**
   * A connected session: a due warning goes out first; a passed re-authentication deadline
   * closes; a frame goes to the waiting monitor, or else to the loop.
   */
  function ConnectedStep(c: Phase, e: Event, recipeId: string, env: Env): Step
    requires c.Connected?
  {
    match e
    case Disconnect => Teardown(c.clientId, [], None)
    case Timeout(now) =>
      var (m, warn) := Wake(c.monitor, now);
      if m.AwaitingReauth? && now >= m.deadline then Teardown(c.clientId, warn, Some("Re-authentication timeout"))
      else Step(c.(monitor := m), warn, None, Keep)
    case Frame(msg, now, freshId) =>
      var (m, warn) := Wake(c.monitor, now);
      if m.AwaitingReauth? && now >= m.deadline then Teardown(c.clientId, warn, Some("Re-authentication timeout"))
      else if m.AwaitingReauth? then After(warn, MonitorStep(c.(monitor := m), msg, now, env))
      else After(warn, LoopStep(c.(monitor := m), msg, now, freshId, recipeId, env))
  }

  /** `handle_chat` on one event; a closed connection ignores everything. */
  function Next(phase: Phase, e: Event, recipeId: string, env: Env): Step {
    match phase
    case Authenticating(openedAt) => AuthStep(openedAt, e, recipeId, env)
    case Connected(_, _, _, _) => ConnectedStep(phase, e, recipeId, env)
    case Closed => Step(Closed, [], None, Keep)
  }

  // ---------------------------------------------------------------- properties of one step

  /** Every close uses the policy-violation code and ends the connection. */
  lemma NextCloses(phase: Phase, e: Event, recipeId: string, env: Env)
    ensures var st := Next(phase, e, recipeId, env);
      st.close.Some? ==> st.close.value.code == PolicyViolation && st.phase.Closed?
  {
  }

  /**
   * The registry changes only at the two ends: a client is registered when the prelude
   * succeeds, under "<user>:<recipe>", and removed on every way out of a connected session.
   */
  lemma NextRegistry(phase: Phase, e: Event, recipeId: string, env: Env)
    ensures var st := Next(phase, e, recipeId, env);
      && (st.registry.Register? <==> phase.Authenticating? && st.phase.Connected?)
      && (st.registry.Register? ==> st.registry.clientId == st.phase.clientId)
      && (st.registry.Unregister? <==> phase.Connected? && st.phase.Closed?)
      && (st.registry.Unregister? ==> st.registry.clientId == phase.clientId)
      && (phase.Connected? && st.phase.Connected? ==> st.phase.clientId == phase.clientId)
      && (st.phase.Authenticating? ==> phase.Authenticating?)
      && (phase.Closed? ==> st == Step(Closed, [], None, Keep))
  {
    if phase.Connected? {
      ConnectedRegistry(phase, e, recipeId, env);
    }
  }

  /** A connected session never registers; it unregisters its own client exactly when it closes. */
  lemma ConnectedRegistry(c: Phase, e: Event, recipeId: string, env: Env)
    requires c.Connected?
    ensures var st := ConnectedStep(c, e, recipeId, env);
      && !st.registry.Register?
      && (st.registry.Unregister? <==> st.phase.Closed?)
      && (st.registry.Unregister? ==> st.registry.clientId == c.clientId)
      && (st.phase.Connected? ==> st.phase.clientId == c.clientId)
  {
    if e.Frame? {
      var (m, warn) := Wake(c.monitor, e.now);
      if !m.AwaitingReauth? {
        LoopStepRegistry(c.(monitor := m), e.msg, e.now, e.freshId, recipeId, env);
      }
    }
  }

  /** The loop's step keeps the registry, unless a bad re-authentication closes the session. */
  lemma LoopStepRegistry(c: Phase, msg: Value, now: int, freshId: string, recipeId: string, env: Env)
    requires c.Connected?
    ensures var st := LoopStep(c, msg, now, freshId, recipeId, env);
      && !st.registry.Register?
      && (st.registry.Unregister? <==> st.phase.Closed?)
      && (st.registry.Unregister? ==> st.registry.clientId == c.clientId)
      && (st.phase.Connected? ==> st.phase.clientId == c.clientId)
  {
    if msg.Obj? && TypeOf(msg.fields) != Str("auth") && TypeOf(msg.fields) == Str("chat_message") {
      var frame := ParseChatMessage(msg.fields, freshId);
      if frame.Some? {
        if Truthy(Get(frame.value.payload, "content", Str(""))) {
          ChatMessageAnswered(c, frame.value, now, recipeId, env);
        } else {
          EmptyChatMessageIgnored(c, frame.value, now, recipeId, env);
        }
      }
    }
  }

  /**
   * The prelude registers only after every check, under "<user>:<recipe>", starts the monitor
   * on the token's expiry and sends the greeting as the first frame; any close it sends has
   * one of its own reasons.
   */
  lemma PreludeOutcome(openedAt: int, e: Event, recipeId: string, env: Env)
    ensures var st := Next(Authenticating(openedAt), e, recipeId, env);
      && (st.phase.Connected? <==> e.Frame? && e.now < openedAt + AuthTimeout && Authenticate(e.msg, e.now, recipeId, env).Accepted?)
      && (st.phase.Connected? ==>
            var a := Authenticate(e.msg, e.now, recipeId, env);
            && st.phase == Connected(ClientId(a.userId, recipeId), a.recipe, StartMonitor(a.exp, e.now), None)
            && st.out == [GreetingFrame(a.recipe)])
      && (st.close.Some? ==> PreludeReason(st.close.value.reason))
      && (!st.phase.Connected? ==> st.out == [])
  {
    if e.Frame? && e.now < openedAt + AuthTimeout {
      AuthenticateAccepts(e.msg, e.now, recipeId, env);
    }
  }

  /** A chat message whose content is empty or missing gets no reply. */
  lemma EmptyChatMessageIgnored(c: Phase, frame: ChatFrame, now: int, recipeId: string, env: Env)
    requires c.Connected?
    requires !Truthy(Get(frame.payload, "content", Str("")))
    ensures ChatStep(c, frame, now, recipeId, env) == Step(c.(lastMsgId := Some(frame.id)), [], None, Keep)
  {
  }

  /**
   * Any other chat message gets exactly one `recipe_update` carrying its id; the connection
   * stays open, and the recipe changes only to what is sent with the reply.
   */
  lemma ChatMessageAnswered(c: Phase, frame: ChatFrame, now: int, recipeId: string, env: Env)
    requires c.Connected?
    requires Truthy(Get(frame.payload, "content", Str("")))
    ensures var st := ChatStep(c, frame, now, recipeId, env);
      && |st.out| == 1 && st.out[0].RecipeUpdate? && st.out[0].requestId == Some(frame.id)
      && st.phase.Connected? && st.phase.clientId == c.clientId && st.phase.monitor == c.monitor
      && st.phase.lastMsgId == Some(frame.id) && st.close.None? && st.registry.Keep?
      && (st.phase.recipe != c.recipe ==> st.out[0].recipeData == Some(st.phase.recipe))
  {
  }

  /** A frame of any other type is ignored: nothing is sent and nothing changes. */
  lemma OtherTypesIgnored(c: Phase, msg: Value, now: int, freshId: string, recipeId: string, env: Env)
    requires c.Connected? && msg.Obj?
    requires TypeOf(msg.fields) != Str("auth") && TypeOf(msg.fields) != Str("chat_message")
    ensures LoopStep(c, msg, now, freshId, recipeId, env) == Step(c, [], None, Keep)
  {
  }

  /** A loop error is answered with the apology, linked to the last chat message parsed (or none). */
  lemma LoopErrorsAnswered(c: Phase, msg: Value, now: int, freshId: string, recipeId: string, env: Env)
    requires c.Connected?
    requires !msg.Obj? || (TypeOf(msg.fields) == Str("chat_message") && ParseChatMessage(msg.fields, freshId).None?)
    ensures LoopStep(c, msg, now, freshId, recipeId, env) == Step(c, [RecipeUpdate(c.lastMsgId, LoopError, None)], None, Keep)
  {
  }

  /**
   * A mid-session auth frame with an undecodable or expired token closes with "Invalid or
   * expired token"; a valid one only restarts the monitor on the new expiry.
   */
  lemma ReauthOutcome(c: Phase, msg: Object, now: int, env: Env)
    requires c.Connected?
    requires PayloadOf(msg).Some? && Get(PayloadOf(msg).value, "token", Null).Str?
    ensures var claims := env.decode(Get(PayloadOf(msg).value, "token", Null).s);
      var st := ReauthStep(c, msg, now, env);
      && (claims.None? || Expired(claims.value.exp, now) ==>
            st == Step(Closed, [], Some(Close(PolicyViolation, "Invalid or expired token")), Unregister(c.clientId)))
      && (claims.Some? && !Expired(claims.value.exp, now) ==>
            st == Step(c.(monitor := StartMonitor(claims.value.exp, now)), [], None, Keep))
  {
  }

  /** `auth_required` is sent only by a sleeping monitor whose warning time has come. */
  lemma WarningOnlyWhenDue(phase: Phase, e: Event, recipeId: string, env: Env)
    requires AuthRequired(ExpiringSoon) in Next(phase, e, recipeId, env).out
    ensures phase.Connected? && phase.monitor.Sleeping? && !e.Disconnect? && e.now >= phase.monitor.warnAt
  {
  }

  /** An auth-typed frame: the only kind that can restart a monitor. */
  predicate AuthFrame(e: Event) {
    e.Frame? && e.msg.Obj? && TypeOf(e.msg.fields) == Str("auth")
  }

  /** A finished monitor sends nothing, and stays finished until an auth frame restarts it. */
  lemma FinishedStaysSilent(phase: Phase, e: Event, recipeId: string, env: Env)
    requires phase.Connected? && phase.monitor == Finished
    ensures var st := Next(phase, e, recipeId, env);
      && AuthRequired(ExpiringSoon) !in st.out
      && (st.phase.Connected? && !AuthFrame(e) ==> st.phase.monitor == Finished)
  {
    if AuthRequired(ExpiringSoon) in Next(phase, e, recipeId, env).out {
      WarningOnlyWhenDue(phase, e, recipeId, env);
    }
  }

  /**
   * After its warning the monitor either restarts on a decodable token, ends silently, or
   * closes with "Expected auth message", "Invalid token" or "Re-authentication timeout".
   */
  lemma AwaitingOutcome(c: Phase, e: Event, recipeId: string, env: Env)
    requires c.Connected? && c.monitor.AwaitingReauth?
    ensures var st := Next(c, e, recipeId, env);
      && (st.close.Some? ==> st.close.value.reason in {"Expected auth message", "Invalid token", "Re-authentication timeout"})
      && (!e.Disconnect? && e.now >= c.monitor.deadline ==>
            st == Step(Closed, [], Some(Close(PolicyViolation, "Re-authentication timeout")), Unregister(c.clientId)))
      && (st.phase.Connected? ==> st.out == [] && (st.phase.monitor == c.monitor || !st.phase.monitor.AwaitingReauth?))
  {
  }

  // ---------------------------------------------------------------- runs of events

  /** The frames and closes a run of events produces, and the phase it ends in. */
  datatype Trace = Trace(phase: Phase, out: seq<OutFrame>, closes: seq<Close>)

  /** The traces of `step` taken event after event, joined; the last phase reached. */
  function Fold(step: (Phase, Event) -> Step, phase: Phase, events: seq<Event>): Trace
    decreases |events|
  {
    if events == [] then Trace(phase, [], [])
    else
      var st := step(phase, events[0]);
      var rest := Fold(step, st.phase, events[1..]);
      Trace(rest.phase, st.out + rest.out, (if st.close.Some? then [st.close.value] else []) + rest.closes)
  }

  /** `handle_chat` for one recipe, as a step function. */
  function Handler(recipeId: string, env: Env): (Phase, Event) -> Step {
    (p, e) => Next(p, e, recipeId, env)
  }

  /** A connection's run of events: `Next` taken event after event. */
  function Run(phase: Phase, events: seq<Event>, recipeId: string, env: Env): Trace {
    Fold(Handler(recipeId, env), phase, events)
  }

  /** A step's output and close appended to the trace so far. */
  function Extend(t: Trace, st: Step): Trace {
    Trace(st.phase, t.out + st.out, t.closes + (if st.close.Some? then [st.close.value] else []))
  }

  /** Whatever the step function, one more event extends the folded trace by its step. */
  lemma {:induction false} FoldSnoc(step: (Phase, Event) -> Step, phase: Phase, events: seq<Event>, e: Event)
    decreases |events|
    ensures var t := Fold(step, phase, events);
      Fold(step, phase, events + [e]) == Extend(t, step(t.phase, e))
  {
    var xs := events + [e];
    if events == [] {
      assert xs == [e] && xs[1..] == [];
    } else {
      var st0 := step(phase, events[0]);
      assert xs[0] == events[0];
      assert xs[1..] == events[1..] + [e];
      FoldSnoc(step, st0.phase, events[1..], e);
    }
  }

  /** Running one more event extends the trace by that event's step. */
  lemma RunSnoc(phase: Phase, events: seq<Event>, e: Event, recipeId: string, env: Env)
    ensures var t := Run(phase, events, recipeId, env);
      Run(phase, events + [e], recipeId, env) == Extend(t, Next(t.phase, e, recipeId, env))
  {
    FoldSnoc(Handler(recipeId, env), phase, events, e);
  }

  /** The same, for a run over a growing prefix of the events. */
  lemma RunPrefixSnoc(phase: Phase, events: seq<Event>, i: nat, recipeId: string, env: Env)
    requires i < |events|
    ensures var t := Run(phase, events[..i], recipeId, env);
      Run(phase, events[..i + 1], recipeId, env) == Extend(t, Next(t.phase, events[i], recipeId, env))
  {
    assert events[..i + 1] == events[..i] + [events[i]];
    RunSnoc(phase, events[..i], events[i], recipeId, env);
  }

  /** The trace of `step` over the first `n` events, built event by event as the receive loop does. */
  ghost function Unrolled(step: (Phase, Event) -> Step, phase: Phase, events: seq<Event>, n: nat): Trace
    requires n <= |events|
  {
    if n == 0 then Trace(phase, [], [])
    else
      var t := Unrolled(step, phase, events, n - 1);
      Extend(t, step(t.phase, events[n - 1]))
  }

  /** Built event by event or all at once, the trace of a prefix is the same. */
  lemma {:induction false} UnrolledIsFold(step: (Phase, Event) -> Step, phase: Phase, events: seq<Event>, n: nat)
    requires n <= |events|
    ensures Unrolled(step, phase, events, n) == Fold(step, phase, events[..n])
  {
    if n > 0 {
      UnrolledIsFold(step, phase, events, n - 1);
      assert events[..n] == events[..n - 1] + [events[n - 1]];
      FoldSnoc(step, phase, events[..n - 1], events[n - 1]);
    }
  }

  /** Two step functions that agree on every phase and event fold every run alike. */
  lemma {:induction false} FoldAgrees(step: (Phase, Event) -> Step, other: (Phase, Event) -> Step, phase: Phase, events: seq<Event>)
    requires forall p, e :: step(p, e) == other(p, e)
    decreases |events|
    ensures Fold(step, phase, events) == Fold(other, phase, events)
  {
    if events != [] {
      FoldAgrees(step, other, step(phase, events[0]).phase, events[1..]);
    }
  }

  /** A step function that agrees with `Next` everywhere runs every connection as `Run` does. */
  lemma UnrolledIsRun(step: (Phase, Event) -> Step, phase: Phase, events: seq<Event>, recipeId: string, env: Env)
    requires forall p, e :: step(p, e) == Next(p, e, recipeId, env)
    ensures Unrolled(step, phase, events, |events|) == Run(phase, events, recipeId, env)
  {
    UnrolledIsFold(step, phase, events, |events|);
    assert events[..|events|] == events;
    FoldAgrees(step, Handler(recipeId, env), phase, events);
  }

  /** A closed connection stays closed and silent. */
  lemma {:induction false} RunFromClosed(events: seq<Event>, recipeId: string, env: Env)
    decreases |events|
    ensures Run(Closed, events, recipeId, env) == Trace(Closed, [], [])
  {
    if events != [] {
      RunFromClosed(events[1..], recipeId, env);
    }
  }

  /** A connection sends at most one close, with the policy-violation code, and nothing after it. */
  lemma {:induction false} RunClosesOnce(phase: Phase, events: seq<Event>, recipeId: string, env: Env)
    decreases |events|
    ensures var t := Run(phase, events, recipeId, env);
      && |t.closes| <= 1
      && (forall k :: 0 <= k < |t.closes| ==> t.closes[k].code == PolicyViolation)
      && (|t.closes| == 1 ==> t.phase.Closed?)
  {
    if events != [] {
      var st := Next(phase, events[0], recipeId, env);
      NextCloses(phase, events[0], recipeId, env);
      if st.close.Some? {
        RunFromClosed(events[1..], recipeId, env);
      } else {
        RunClosesOnce(st.phase, events[1..], recipeId, env);
      }
    }
  }

  /** A session whose monitor has finished never warns, as long as no auth frame arrives. */
  lemma {:induction false} RunFinishedNeverWarns(phase: Phase, events: seq<Event>, recipeId: string, env: Env)
    decreases |events|
    requires phase.Closed? || (phase.Connected? && phase.monitor == Finished)
    requires forall k :: 0 <= k < |events| ==> !AuthFrame(events[k])
    ensures AuthRequired(ExpiringSoon) !in Run(phase, events, recipeId, env).out
  {
    if events != [] {
      var st := Next(phase, events[0], recipeId, env);
      if phase.Connected? {
        FinishedStaysSilent(phase, events[0], recipeId, env);
      }
      NextRegistry(phase, events[0], recipeId, env);
      assert forall k :: 0 <= k < |events[1..]| ==> events[1..][k] == events[k + 1];
      RunFinishedNeverWarns(st.phase, events[1..], recipeId, env);
    }
  }

  // ---------------------------------------------------------------- the connection itself

  /** The registry after a step's change, for a connection on `socket`. */
  function Apply(m: map<string, nat>, change: Registry, socket: nat): map<string, nat> {
    match change
    case Keep => m
    case Register(id) => m[id := socket]
    case Unregister(id) => m - {id}
  }

  /** `handle_chat`'s state: the phase, the `client_id` once set, and what has been sent. */
  class ChatConnection {
    const recipeId: string
    const socket: nat
    const manager: ConnectionManager
    var phase: Phase
    var clientId: Option<string>
    var sent: seq<OutFrame>
    var closes: seq<Close>

    /**
     * The registry agrees with the phase: registered while connected, removed once closed.
     * It assumes this connection alone uses its "<user>:<recipe>" id. With two sockets on the
     * same id, the second connect overwrites the entry, and the first socket's disconnect then
     * deletes it for both, as `Receive`'s registry clauses show; that case is outside `Valid`.
     */
    predicate Valid()
      reads this, manager
    {
      && (phase.Authenticating? ==> clientId.None?)
      && (phase.Connected? ==>
            clientId == Some(phase.clientId) && phase.clientId in manager.activeConnections
            && manager.activeConnections[phase.clientId] == socket)
      && (phase.Closed? && clientId.Some? ==> clientId.value !in manager.activeConnections)
    }

    /** A connection accepted at `openedAt`, waiting for its auth frame. */
    constructor(recipeId: string, socket: nat, manager: ConnectionManager, openedAt: int)
      ensures this.recipeId == recipeId && this.socket == socket && this.manager == manager
      ensures phase == Authenticating(openedAt) && clientId.None? && sent == [] && closes == []
      ensures Valid()
    {
      this.recipeId := recipeId;
      this.socket := socket;
      this.manager := manager;
      phase := Authenticating(openedAt);
      clientId := None;
      sent := [];
      closes := [];
    }

    /**
     * One event: the step of `Next`, with its registry change made on the manager. `step` is
     * `Next` for this recipe, given as a ghost parameter so that a caller's proof need not
     * unfold `Next`.
     */
    method Receive(e: Event, env: Env, ghost step: (Phase, Event) -> Step)
      requires Valid()
      requires forall p, e {:trigger Next(p, e, recipeId, env)} :: step(p, e) == Next(p, e, recipeId, env)
      modifies this, manager
      ensures Valid()
      ensures var st := step(old(phase), e);
        && phase == st.phase
        && sent == old(sent) + st.out
        && closes == old(closes) + (if st.close.Some? then [st.close.value] else [])
        && manager.activeConnections == Apply(old(manager.activeConnections), st.registry, socket)
    {
      var st := Next(phase, e, recipeId, env);
      NextRegistry(phase, e, recipeId, env);
      Commit(st);
    }

    /** Takes a step that keeps the registry rule: its phase, its frames, its close, its registry change. */
    method Commit(st: Step)
      requires Valid()
      requires st.registry.Register? <==> phase.Authenticating? && st.phase.Connected?
      requires st.registry.Register? ==> st.registry.clientId == st.phase.clientId
      requires st.registry.Unregister? <==> phase.Connected? && st.phase.Closed?
      requires st.registry.Unregister? ==> st.registry.clientId == phase.clientId
      requires phase.Connected? && st.phase.Connected? ==> st.phase.clientId == phase.clientId
      requires st.phase.Authenticating? ==> phase.Authenticating?
      requires phase.Closed? ==> st == Step(Closed, [], None, Keep)
      modifies this, manager
      ensures Valid()
      ensures phase == st.phase
      ensures sent == old(sent) + st.out
      ensures closes == old(closes) + (if st.close.Some? then [st.close.value] else [])
      ensures manager.activeConnections == Apply(old(manager.activeConnections), st.registry, socket)
    {
      match st.registry {
        case Register(id) =>
          manager.Connect(id, socket);
          clientId := Some(id);
        case Unregister(id) =>
          manager.Disconnect(id);
        case Keep =>
      }
      phase := st.phase;
      sent := sent + st.out;
      if st.close.Some? {
        closes := closes + [st.close.value];
      }
    }

    /** A run of events, one at a time, as the loop receives them; `step` is `Next` as for `Receive`. */
    method Serve(events: seq<Event>, env: Env, ghost step: (Phase, Event) -> Step)
      requires Valid()
      requires forall p, e {:trigger Next(p, e, recipeId, env)} :: step(p, e) == Next(p, e, recipeId, env)
      modifies this, manager
      ensures Valid()
      ensures var t := Unrolled(step, old(phase), events, |events|);
        phase == t.phase && sent == old(sent) + t.out && closes == old(closes) + t.closes
    {
      ghost var phase0, sent0, closes0 := phase, sent, closes;
      var i := 0;
      while i < |events|
        invariant 0 <= i <= |events|
        invariant Valid()
        invariant var t := Unrolled(step, phase0, events, i);
          phase == t.phase && sent == sent0 + t.out && closes == closes0 + t.closes
      {
        Receive(events[i], env, step);
        i := i + 1;
      }
    }
  }
}
