/**
 The bridge between the embedded page and the native shell (App.tsx): the
 message handler `onMessage`, which turns a decoded page message into at most
 one store action, and the startup message the injected script sends.
 */
module App {
  import opened Js
  import opened AppSlice

  /** The `payload` property of a decoded message. */
  datatype Payload =
    | Absent                 // no `payload` key
    | NotAnObject            // null, a number, a string, a boolean or an array
    | Fields(token: Value)   // an object; `token` is `Undefined` when it has no `token` key

  /** The value `JSON.parse` returns for a page message. */
  datatype Decoded =
    | NotAnEnvelope                          // null, a number, a string, a boolean or an array
    | Envelope(kind: Value, payload: Payload) // an object; `kind` is its `type` property

  /** A raw page message: either text that parses, or text on which `JSON.parse` throws. */
  datatype Incoming = Parsed(data: Decoded) | Malformed

  /** `data?.type`: `undefined` for a message that is not an object. */
  function MessageType(data: Decoded): (kind: Value)
    ensures data.NotAnEnvelope? ==> kind == Undefined
    ensures data.Envelope? ==> kind == data.kind
  {
    match data
    case NotAnEnvelope => Undefined
    case Envelope(kind, _) => kind
  }

  /**
   `data?.payload?.token`: `undefined` unless the message and its payload are
   both objects.
   */
  function PayloadToken(data: Decoded): (token: Value)
    ensures !(data.Envelope? && data.payload.Fields?) ==> token == Undefined
    ensures data.Envelope? && data.payload.Fields? ==> token == data.payload.token
  {
    match data
    case Envelope(_, Fields(token)) => token
    case _ => Undefined
  }

  const LogIn: Value := Str("LOG_IN")
  const LogOut: Value := Str("LOG_OUT")

  /**
   `isTokenAvailable`: the token is none of `''`, `null` and `undefined`. Any
   non-empty string and any non-string JSON value qualify.
   */
  predicate IsTokenAvailable(token: Value)
    ensures IsTokenAvailable(token) <==> (token.Str? && token.s != "") || token.Other?
  {
    token != Str("") && token != Null && token != Undefined
  }

  /**
   The action `onMessage` dispatches for a message, if any: `SaveToken` for a
   `LOG_IN` whose token is available, `RemoveToken` for every `LOG_OUT`,
   nothing for anything else.
   */
  function ActionFor(m: Incoming): (a: Option<Action>)
    ensures a.Some? ==> IsTokenAction(a.value)
    ensures a == Some(RemoveToken) <==> m.Parsed? && MessageType(m.data) == LogOut
    ensures (a.Some? && a.value.SaveToken?) <==>
              m.Parsed? && MessageType(m.data) == LogIn && IsTokenAvailable(PayloadToken(m.data))
    ensures a.Some? && a.value.SaveToken? ==> a.value.payload == PayloadToken(m.data)
  {
    match m
    case Malformed => None
    case Parsed(data) =>
      var token := PayloadToken(data);
      if MessageType(data) == LogIn then
        if IsTokenAvailable(token) then Some(SaveToken(token)) else None
      else if MessageType(data) == LogOut then
        Some(RemoveToken)
      else
        None
  }

  /** The store's state after `onMessage` handles `m` in state `s`. */
  function Step(s: AppState, m: Incoming): (r: AppState)
    ensures r.fcmToken == s.fcmToken
    ensures m.Parsed? && MessageType(m.data) == LogOut ==> r.token == Undefined
    ensures (m.Parsed? && MessageType(m.data) == LogIn && IsTokenAvailable(PayloadToken(m.data)))
              ==> r.token == PayloadToken(m.data)
    ensures ActionFor(m).None? ==> r == s
  {
    match ActionFor(m)
    case None => s
    case Some(a) => Reduce(s, a)
  }

  /**
   `onMessage`: decodes the message and dispatches at most one token action
   to `store`. When `JSON.parse` throws, the handler throws too (`threw`)
   before touching the store.
   */
  method OnMessage(store: AppStore, m: Incoming) returns (threw: bool)
    modifies store
    ensures threw <==> m.Malformed?
    ensures store.State() == Step(old(store.State()), m)
    ensures store.fcmToken == old(store.fcmToken)
  {
    if m.Malformed? {
      return true;
    }
    var data := m.data;
    var isTokenAvailable := IsTokenAvailable(PayloadToken(data));
    var kind := MessageType(data);
    if kind == LogIn {
      if !isTokenAvailable {
        return false;
      }
      store.SaveToken(PayloadToken(data));
    } else if kind == LogOut {
      store.RemoveToken();
    }
    threw := false;
  }

  /**
   A `LOG_IN` whose payload is missing or not an object, or whose token is
   `''`, `null` or missing, leaves the state exactly as it was.
   */
  lemma LogInWithoutTokenIsIgnored(s: AppState, payload: Payload)
    requires payload.Fields? ==> payload.token in {Str(""), Null, Undefined}
    ensures Step(s, Parsed(Envelope(LogIn, payload))) == s
  {
  }

  /** A `LOG_OUT` clears the token whatever its payload and the prior state. */
  lemma LogOutAlwaysClears(s: AppState, payload: Payload)
    ensures Step(s, Parsed(Envelope(LogOut, payload))) == s.(token := Undefined)
  {
  }

  /**
   A message whose `type` is neither `LOG_IN` nor `LOG_OUT` (or absent), a
   message that is not an object, and one `JSON.parse` rejects all leave the
   state unchanged.
   */
  lemma OtherMessagesAreIgnored(s: AppState, kind: Value, payload: Payload)
    requires kind != LogIn && kind != LogOut
    ensures Step(s, Parsed(Envelope(kind, payload))) == s
    ensures Step(s, Parsed(NotAnEnvelope)) == s
    ensures Step(s, Malformed) == s
  {
  }

  /**
   The message the injected startup script posts: a `LOG_IN` carrying the
   page's stored `token`, or `null` when nothing is stored.
   */
  function StartupMessage(stored: Option<string>): (m: Incoming)
    ensures m.Parsed? && MessageType(m.data) == LogIn
    ensures stored.None? ==> PayloadToken(m.data) == Null
    ensures stored.Some? ==> PayloadToken(m.data) == Str(stored.value)
  {
    var token := match stored
      case None => Null
      case Some(v) => Str(v);
    Parsed(Envelope(LogIn, Fields(token)))
  }

  /**
   The startup message re-synchronises the store with the page: it saves a
   non-empty stored token and leaves the state exactly as it was otherwise.
   */
  lemma StartupResync(s: AppState, stored: Option<string>)
    ensures Step(s, StartupMessage(stored)) ==
              if stored.Some? && stored.value != "" then s.(token := Str(stored.value)) else s
    ensures stored.None? ==> Step(s, StartupMessage(stored)) == s
  {
  }

  /** Handling the same message twice leaves the state as handling it once. */
  lemma StepIdempotent(s: AppState, m: Incoming)
    ensures Step(Step(s, m), m) == Step(s, m)
  {
  }

  /** The state after `onMessage` handles each message of `ms` in turn. */
  function Replay(s: AppState, ms: seq<Incoming>): (r: AppState)
    ensures r.fcmToken == s.fcmToken
    decreases |ms|
  {
    if ms == [] then s else Replay(Step(s, ms[0]), ms[1..])
  }

  /**
   The last action dispatched while handling `ms`: the one of the last message
   that dispatches anything, with no later message dispatching.
   */
  function LastAction(ms: seq<Incoming>): (r: Option<Action>)
    ensures r.None? <==> forall i :: 0 <= i < |ms| ==> ActionFor(ms[i]).None?
    ensures r.Some? ==> exists i :: 0 <= i < |ms| && ActionFor(ms[i]) == r &&
                          forall j :: i < j < |ms| ==> ActionFor(ms[j]).None?
    decreases |ms|
  {
    if ms == [] then None
    else
      var last := ms[|ms| - 1];
      if ActionFor(last).Some? then ActionFor(last) else LastAction(ms[..|ms| - 1])
  }

  /** Handling `a + b` is handling `a`, then `b`. */
  lemma {:induction false} ReplayAppend(s: AppState, a: seq<Incoming>, b: seq<Incoming>)
    ensures Replay(s, a + b) == Replay(Replay(s, a), b)
    decreases |a|
  {
    if a == [] {
      assert a + b == b;
    } else {
      assert (a + b)[1..] == a[1..] + b;
      ReplayAppend(Step(s, a[0]), a[1..], b);
    }
  }

  /** The last action of `a + b` is the last of `b`, or of `a` when `b` dispatches nothing. */
  lemma {:induction false} LastActionAppend(a: seq<Incoming>, b: seq<Incoming>)
    ensures LastAction(a + b) == if LastAction(b).Some? then LastAction(b) else LastAction(a)
    decreases |b|
  {
    if b == [] {
      assert a + b == a;
    } else {
      var init := b[..|b| - 1];
      assert (a + b)[..|a + b| - 1] == a + init;
      LastActionAppend(a, init);
    }
  }

  /**
   A stream of messages leaves the state as if only its last dispatched action
   had been applied; a stream that dispatches nothing leaves it unchanged.
   */
  lemma {:induction false} ReplayIsLastAction(s: AppState, ms: seq<Incoming>)
    ensures Replay(s, ms) == match LastAction(ms)
                             case None => s
                             case Some(a) => Reduce(s, a)
    decreases |ms|
  {
    if ms != [] {
      var init, last := ms[..|ms| - 1], ms[|ms| - 1];
      assert init + [last] == ms;
      ReplayAppend(s, init, [last]);
      assert Replay(Replay(s, init), [last]) == Step(Replay(s, init), last);
      ReplayIsLastAction(s, init);
      if ActionFor(last).Some? && LastAction(init).Some? {
        TokenActionOverwrites(s, LastAction(init).value, ActionFor(last).value);
      }
    }
  }

  /** Replaying a whole stream of messages a second time changes nothing. */
  lemma ReplayTwice(s: AppState, ms: seq<Incoming>)
    ensures Replay(s, ms + ms) == Replay(s, ms)
  {
    ReplayIsLastAction(s, ms + ms);
    LastActionAppend(ms, ms);
    ReplayIsLastAction(s, ms);
  }

  /**
   After a stream of messages the session token is the one it started as,
   `undefined`, or the available token of some `LOG_IN` in the stream.
   */
  lemma ReplayTokenOrigin(s: AppState, ms: seq<Incoming>)
    ensures var t := Replay(s, ms).token;
            t == s.token || t == Undefined ||
            (IsTokenAvailable(t) &&
             exists i :: 0 <= i < |ms| && ms[i].Parsed? && MessageType(ms[i].data) == LogIn &&
                         PayloadToken(ms[i].data) == t)
  {
    ReplayIsLastAction(s, ms);
  }
}
