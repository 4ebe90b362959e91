/**
 The `appStore` slice of the Redux store (src/context/redux/slice/app.ts):
 a record holding the session token and the push-notification device token,
 with one reducer per action.

 `AppState` and `Reduce` give the slice's value semantics (what
 `appSlice.reducer` computes); `AppStore` is the slice's state object, whose
 reducers assign one field in place.
 */
module AppSlice {
  import opened Js

  /** The slice's state: the session token and the device (FCM) token. */
  datatype AppState = AppState(token: Value, fcmToken: Value)

  /** The state the slice starts in: both tokens the empty string. */
  const InitialState := AppState(Str(""), Str(""))

  /** The slice's actions, one per reducer. */
  datatype Action =
    | SaveToken(payload: Value)
    | RemoveToken
    | SaveFcmToken(payload: Value)

  /** True of the two actions that touch the session token. */
  predicate IsTokenAction(a: Action) {
    a.SaveToken? || a.RemoveToken?
  }

  /** The slice's reducer: the state after `a` is applied to `s`. */
  function Reduce(s: AppState, a: Action): (r: AppState)
    ensures a.SaveToken? ==> r.token == a.payload
    ensures a.RemoveToken? ==> r.token == Undefined
    ensures a.SaveFcmToken? ==> r.fcmToken == a.payload && r.token == s.token
    ensures IsTokenAction(a) ==> r.fcmToken == s.fcmToken
  {
    match a
    case SaveToken(p) => s.(token := p)
    case RemoveToken => s.(token := Undefined)
    case SaveFcmToken(p) => s.(fcmToken := p)
  }

  /** Applying the same action twice leaves the state as applying it once. */
  lemma ReduceIdempotent(s: AppState, a: Action)
    ensures Reduce(Reduce(s, a), a) == Reduce(s, a)
  {
  }

  /**
   A token action overwrites whatever an earlier token action did: only the
   later one is visible afterwards.
   */
  lemma TokenActionOverwrites(s: AppState, earlier: Action, later: Action)
    requires IsTokenAction(earlier) && IsTokenAction(later)
    ensures Reduce(Reduce(s, earlier), later) == Reduce(s, later)
  {
  }

  /** A cleared token (`undefined`) is never the initial empty string. */
  lemma RemovedIsNotInitial(s: AppState)
    ensures Reduce(s, RemoveToken).token != InitialState.token
    ensures Reduce(s, RemoveToken) != InitialState
  {
  }

  /** The slice's state object; each reducer assigns one field. */
  class AppStore {
    var token: Value
    var fcmToken: Value

    /** The state as a value. */
    function State(): AppState
      reads this
    {
      AppState(token, fcmToken)
    }

    /** A store holding the initial state. */
    constructor ()
      ensures token == Str("") && fcmToken == Str("")
      ensures State() == InitialState
    {
      token := Str("");
      fcmToken := Str("");
    }

    /** Sets the session token to `payload`. */
    method SaveToken(payload: Value)
      modifies this
      ensures token == payload && fcmToken == old(fcmToken)
      ensures State() == Reduce(old(State()), Action.SaveToken(payload))
    {
      token := payload;
    }

    /** Clears the session token to `undefined`, whatever it held. */
    method RemoveToken()
      modifies this
      ensures token == Undefined && fcmToken == old(fcmToken)
      ensures State() == Reduce(old(State()), Action.RemoveToken)
    {
      token := Undefined;
    }

    /** Sets the device token to `payload`. */
    method SaveFcmToken(payload: Value)
      modifies this
      ensures fcmToken == payload && token == old(token)
      ensures State() == Reduce(old(State()), Action.SaveFcmToken(payload))
    {
      fcmToken := payload;
    }
  }
}
