/** The session store (src/context/AuthProvider.js): one state cell `(user, loading)`
    written by two callbacks, the resolution of the one-shot session fetch and the
    auth-change listener, in the order the client delivers them. */
module AuthProvider {
  import opened Common
  import opened Records

  /** `session?.user ?? null`: the session's user, or none when there is no session. */
  function SessionUser(session: Option<Session>): (u: Option<User>)
    ensures session.None? ==> u.None?
    ensures session.Some? ==> u == session.value.user
  {
    match session
    case None => None
    case Some(s) => s.user
  }

  /** The value the context provides to its consumers, `{ user, loading }`. */
  datatype AuthValue = AuthValue(user: Option<User>, loading: bool)

  /** The store's state: the two state fields, and whether the listener is still
      subscribed. */
  datatype State = State(user: Option<User>, loading: bool, listening: bool)

  /** What can happen to a mounted store: the session fetch resolves, the client
      delivers an auth change, or the provider unmounts and unsubscribes. */
  datatype Event =
    | SessionResolved(session: Option<Session>)
    | AuthStateChanged(session: Option<Session>)
    | Unmounted

  /** Right after mounting: no user, still loading, the listener subscribed. */
  const Initial: State := State(None, true, true)

  /** The effect of one event on the state. A released listener receives nothing. */
  function Step(s: State, e: Event): State {
    match e
    case SessionResolved(session) => s.(user := SessionUser(session), loading := false)
    case AuthStateChanged(session) => if s.listening then s.(user := SessionUser(session)) else s
    case Unmounted => s.(listening := false)
  }

  /** The state after a sequence of events, applied in delivery order. */
  function Run(s: State, events: seq<Event>): State
    decreases |events|
  {
    if events == [] then s else Run(Step(s, events[0]), events[1..])
  }

  /** Running two sequences one after the other is running their concatenation. */
  lemma {:induction false} RunAppend(s: State, a: seq<Event>, b: seq<Event>)
    ensures Run(s, a + b) == Run(Run(s, a), b)
    decreases |a|
  {
    if a == [] {
      assert a + b == b;
    } else {
      assert (a + b)[1..] == a[1..] + b;
      RunAppend(Step(s, a[0]), a[1..], b);
    }
  }

  /** Applying one more event is one more step. */
  lemma RunSnoc(s: State, events: seq<Event>, e: Event)
    ensures Run(s, events + [e]) == Step(Run(s, events), e)
  {
    RunAppend(s, events, [e]);
  }

  /** `loading` is only ever written false: once false, it stays false. */
  lemma {:induction false} LoadingStaysFalse(s: State, events: seq<Event>)
    requires !s.loading
    ensures !Run(s, events).loading
    decreases |events|
  {
    if events != [] {
      LoadingStaysFalse(Step(s, events[0]), events[1..]);
    }
  }

  /** The store is loading exactly until the session fetch has resolved. */
  lemma {:induction false} LoadingUntilResolved(s: State, events: seq<Event>)
    ensures Run(s, events).loading <==>
            s.loading && forall i :: 0 <= i < |events| ==> !events[i].SessionResolved?
    decreases |events|
  {
    if events != [] {
      LoadingUntilResolved(Step(s, events[0]), events[1..]);
      assert forall i :: 1 <= i < |events| ==> events[i] == events[1..][i - 1];
    }
  }

  /** Events that write nothing leave `user` alone: no fetch resolution, and only
      change events that reach an unsubscribed listener. */
  lemma {:induction false} QuietKeepsUser(s: State, events: seq<Event>)
    requires forall j :: 0 <= j < |events| ==> !events[j].SessionResolved?
    requires forall j :: 0 <= j < |events| && events[j].AuthStateChanged? ==>
               !s.listening || exists m :: 0 <= m < j && events[m].Unmounted?
    ensures Run(s, events).user == s.user
    decreases |events|
  {
    if events != [] {
      var t := Step(s, events[0]);
      assert t.user == s.user && !t.listening;
      QuietKeepsUser(t, events[1..]);
    }
  }

  /** After the later events `k + 1 ..` the user is the one the write at `k` stored,
      provided none of them writes: no fetch resolution, and every change event comes
      after an unsubscribe. Both writers replace `user` wholesale, so the write
      applied last decides it, whichever of the two it was. */
  lemma LastWriteWins(s: State, events: seq<Event>, k: nat)
    requires k < |events|
    requires events[k].SessionResolved? ||
             (events[k].AuthStateChanged? && Run(s, events[..k]).listening)
    requires forall j :: k < j < |events| ==> !events[j].SessionResolved?
    requires forall j :: k < j < |events| && events[j].AuthStateChanged? ==>
               exists m :: k < m < j && events[m].Unmounted?
    ensures Run(s, events).user == SessionUser(events[k].session)
  {
    var rest := events[k + 1..];
    assert events == events[..k] + [events[k]] + rest;
    RunAppend(s, events[..k] + [events[k]], rest);
    RunSnoc(s, events[..k], events[k]);
    var t := Run(s, events[..k + 1]);
    assert events[..k + 1] == events[..k] + [events[k]];
    forall j | 0 <= j < |rest| && rest[j].AuthStateChanged?
      ensures !t.listening || exists m :: 0 <= m < j && rest[m].Unmounted?
    {
      assert rest[j] == events[k + 1 + j];
      var m :| k < m < k + 1 + j && events[m].Unmounted?;
      assert rest[m - k - 1] == events[m];
    }
    forall j | 0 <= j < |rest| ensures !rest[j].SessionResolved? {
      assert rest[j] == events[k + 1 + j];
    }
    QuietKeepsUser(t, rest);
  }

  /** A session fetch that resolves after a change event overwrites it: the client's
      delivery order decides, not the order in which the two were started. */
  lemma LateSessionOverridesChange(u: User)
    ensures Run(Initial, [AuthStateChanged(None), SessionResolved(Some(Session(Some(u))))])
            == State(Some(u), false, true)
  {
    var events := [AuthStateChanged(None), SessionResolved(Some(Session(Some(u))))];
    var afterChange := Step(Initial, events[0]);
    assert afterChange == State(None, true, true);
    assert events[1..] == [SessionResolved(Some(Session(Some(u))))];
    assert Run(afterChange, events[1..]) == Run(Step(afterChange, events[1]), []);
  }

  /** After unsubscribing, change events are no longer seen. */
  lemma {:induction false} ReleasedListenerIgnoresChanges(s: State, events: seq<Event>)
    requires !s.listening
    requires forall j :: 0 <= j < |events| ==> events[j].AuthStateChanged?
    ensures Run(s, events) == s
    decreases |events|
  {
    if events != [] {
      ReleasedListenerIgnoresChanges(Step(s, events[0]), events[1..]);
    }
  }

  /** The store: the provider's two state fields and its listener subscription.
      `history` records the events applied so far. */
  class AuthProviderCell {
    var user: Option<User>
    var loading: bool
    var listening: bool
    ghost var history: seq<Event>

    /** The current state as a value. */
    function Current(): State
      reads this
    {
      State(user, loading, listening)
    }

    /** The state is the one the recorded events produce from the initial state. */
    ghost predicate Valid()
      reads this
    {
      Current() == Run(Initial, history)
    }

    /** Mounting: `useState(null)`, `useState(true)`, and the effect subscribes the
        listener and starts the session fetch. */
    constructor ()
      ensures Valid() && history == []
      ensures user == None && loading && listening
    {
      user, loading, listening := None, true, true;
      history := [];
    }

    /** The `getSession` resolution: the session's user or none, and `loading`
        becomes false. */
    method OnSessionResolved(session: Option<Session>)
      requires Valid()
      modifies this
      ensures Valid() && history == old(history) + [SessionResolved(session)]
      ensures user == SessionUser(session) && !loading && listening == old(listening)
    {
      RunSnoc(Initial, history, SessionResolved(session));
      user := SessionUser(session);
      loading := false;
      history := history + [SessionResolved(session)];
    }

    /** The auth-change listener: sets only `user`, to the session's user or none;
        `loading` is never touched. Nothing arrives once unsubscribed. */
    method OnAuthStateChange(session: Option<Session>)
      requires Valid()
      modifies this
      ensures Valid() && history == old(history) + [AuthStateChanged(session)]
      ensures user == (if old(listening) then SessionUser(session) else old(user))
      ensures loading == old(loading) && listening == old(listening)
    {
      RunSnoc(Initial, history, AuthStateChanged(session));
      if listening {
        user := SessionUser(session);
      }
      history := history + [AuthStateChanged(session)];
    }

    /** The effect's cleanup, `listener.subscription.unsubscribe()`. */
    method Unsubscribe()
      requires Valid()
      modifies this
      ensures Valid() && history == old(history) + [Unmounted]
      ensures !listening && user == old(user) && loading == old(loading)
    {
      RunSnoc(Initial, history, Unmounted);
      listening := false;
      history := history + [Unmounted];
    }

    /** What consumers of the context see: exactly the pair `(user, loading)`. */
    function Provided(): (v: AuthValue)
      reads this
      ensures v.user == user && v.loading == loading
    {
      AuthValue(user, loading)
    }
  }
}
