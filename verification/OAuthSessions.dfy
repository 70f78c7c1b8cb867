/**
 Login sessions: the administrator's side of a login, over the credential store.
 */
module OAuthSessions {
  import opened Wrappers
  import opened OAuthStore

  datatype LoginState = Pending | Connected | Cancelled | Expired | Failed

  /** `account` is empty until a first login is bound; `committing` once its grant is bound. */
  datatype Session = Session(provider: Id, account: Id, state: LoginState, expires: int, admin: int, family: string,
                             grant: Id, sdkState: string, submitted: bool, committing: bool)

  const SESSION_LIFETIME: int := 5 * 60

  /** `listed` are the sessions still in the engine's table; a dropped one may still be held by a
      request that found it earlier. */
  datatype Engine = Engine(sessions: map<Id, Session>, listed: set<Id>, store: Store)

  predicate Ended(state: LoginState) {
    state.Cancelled? || state.Expired? || state.Failed?
  }

  function SetState(e: Engine, sid: Id, state: LoginState): Engine
    requires sid in e.sessions
  {
    e.(sessions := e.sessions[sid := e.sessions[sid].(state := state)])
  }

  /** Ends a pending session and forgets its grant. */
  function EndSession(e: Engine, sid: Id, state: LoginState): Engine
    requires sid in e.sessions
  {
    if !e.sessions[sid].state.Pending? then e
    else SetState(e, sid, state).(store := CancelGrant(e.store, e.sessions[sid].grant))
  }

  /** Ends sessions one after another, in the order the table is walked. */
  function CancelInOrder(e: Engine, order: seq<Id>): (r: Engine)
    requires forall sid :: sid in order ==> sid in e.sessions
    ensures r.sessions.Keys == e.sessions.Keys && r.listed == e.listed
    decreases |order|
  {
    if order == [] then e
    else EndSession(CancelInOrder(e, order[..|order| - 1]), order[|order| - 1], Cancelled)
  }

  /** The session an administrator asks for, expired on the way if its time is up. */
  predicate Visible(e: Engine, sid: Id, admin: int, provider: Id) {
    sid in e.listed && sid in e.sessions && e.sessions[sid].admin == admin && e.sessions[sid].provider == provider
  }

  function Look(e: Engine, sid: Id, now: int): Engine
    requires sid in e.sessions
  {
    if now > e.sessions[sid].expires then EndSession(e, sid, Expired) else e
  }

  predicate CanPrepare(e: Engine, sid: Id, family: string, now: int) {
    && sid in e.listed && sid in e.sessions
    && e.sessions[sid].state.Pending? && now <= e.sessions[sid].expires && family == e.sessions[sid].family
    && CanBind(e.store, e.sessions[sid].grant, family, now)
  }

  function Prepare(e: Engine, sid: Id, newAccount: Id, incarnation: Id): Engine
    requires sid in e.sessions && e.sessions[sid].grant in e.store.grants
  {
    var s := e.sessions[sid];
    var store := BindGrant(e.store, s.grant, newAccount, incarnation);
    e.(sessions := e.sessions[sid := s.(account := store.grants[s.grant].account, committing := true)], store := store)
  }

  predicate Watches(s: Session, account: Id, now: int) {
    s.account == account && s.committing && s.state.Pending? && now < s.expires
  }

  /** The account is registered in the runtime: pending logins that are committing it are connected. */
  function Observe(e: Engine, account: Id, now: int): Engine {
    e.(sessions := map sid | sid in e.sessions ::
         if sid in e.listed && Watches(e.sessions[sid], account, now) then e.sessions[sid].(state := Connected)
         else e.sessions[sid])
  }

  datatype SdkStatus = Waiting | Done | Error

  /** What the SDK reports about a login. */
  function Report(e: Engine, sid: Id, status: SdkStatus, registered: bool): Engine
    requires sid in e.sessions
  {
    if !e.sessions[sid].state.Pending? then e
    else
      match status
      case Waiting => e
      case Done => if e.sessions[sid].account != "" && registered then SetState(e, sid, Connected) else e
      case Error => EndSession(e, sid, Failed)
  }

  /** A pasted callback fits the session: it is the first one, in time, with the state handed out. */
  predicate CanSubmit(e: Engine, sid: Id, callbackState: string, now: int) {
    && sid in e.sessions && e.sessions[sid].state.Pending? && now <= e.sessions[sid].expires
    && !e.sessions[sid].submitted && e.sessions[sid].sdkState == callbackState
  }

  function Submit(e: Engine, sid: Id): Engine
    requires sid in e.sessions
  {
    e.(sessions := e.sessions[sid := e.sessions[sid].(submitted := true)])
  }

  /** The SDK has handed out the authorization URL and its state. */
  function Announce(e: Engine, sid: Id, sdkState: string): Engine
    requires sid in e.sessions
  {
    e.(sessions := e.sessions[sid := e.sessions[sid].(sdkState := sdkState)])
  }

  /** Some sessions have been cancelled and nothing else has happened to the sessions. */
  ghost predicate OnlyCancelled(a: map<Id, Session>, b: map<Id, Session>) {
    b.Keys == a.Keys && forall sid :: sid in a ==> b[sid] == a[sid] || b[sid] == a[sid].(state := Cancelled)
  }

  lemma {:induction false} CancelledInOrder(e: Engine, order: seq<Id>)
    requires forall sid :: sid in order ==> sid in e.sessions
    ensures var r := CancelInOrder(e, order);
            && OnlyCancelled(e.sessions, r.sessions)
            && (forall sid :: sid in order ==> !r.sessions[sid].state.Pending?)
            && (forall sid :: sid in e.sessions && sid !in order ==> r.sessions[sid] == e.sessions[sid])
            && r.store.accounts == e.store.accounts && r.store.credentials == e.store.credentials
    decreases |order|
  {
    if order != [] {
      hide EndSession, OnlyCancelled;
      var front := order[..|order| - 1];
      CancelledInOrder(e, front);
      OneCancelled(e, CancelInOrder(e, front), order[|order| - 1]);
      assert forall sid :: sid in order <==> sid in front || sid == order[|order| - 1];
    }
  }

  lemma OneCancelled(e: Engine, c: Engine, sid: Id)
    requires OnlyCancelled(e.sessions, c.sessions) && sid in e.sessions
    ensures var r := EndSession(c, sid, Cancelled);
            && OnlyCancelled(e.sessions, r.sessions) && !r.sessions[sid].state.Pending?
            && (forall id :: id in e.sessions && id != sid ==> r.sessions[id] == c.sessions[id])
            && (forall id :: id in e.sessions && !c.sessions[id].state.Pending? ==> !r.sessions[id].state.Pending?)
            && r.store.accounts == c.store.accounts && r.store.credentials == c.store.credentials
  {
  }

  ghost function ConnectedTo(s: Store, provider: Id): set<Id> {
    set id | id in s.accounts && s.accounts[id].provider == provider && !s.accounts[id].disconnected
  }

  /** Exactly these accounts have been disconnected, once each. */
  ghost predicate LeftBy(s: Store, t: Store, ids: set<Id>) {
    && t.accounts.Keys == s.accounts.Keys && t.credentials == s.credentials - ids
    && forall id :: id in s.accounts ==>
         t.accounts[id] == if id in ids
                           then s.accounts[id].(disconnected := true, status := "disconnected", version := s.accounts[id].version + 1)
                           else s.accounts[id]
  }

  lemma NoneLeft(s: Store, t: Store)
    requires t.accounts == s.accounts && t.credentials == s.credentials
    ensures LeftBy(s, t, {})
  {
  }

  lemma OneMore(s: Store, before: Store, t: Store, ids: set<Id>, provider: Id, id: Id)
    requires LeftBy(s, before, ids) && id !in ids && Owns(s, provider, id)
    requires t.accounts == before.accounts && t.credentials == before.credentials
    ensures LeftBy(s, Disconnect(t, provider, id), ids + {id})
  {
  }

  /** The provider's listed sessions have ended, those of other providers are as they were. */
  ghost predicate EndedFor(a: map<Id, Session>, b: map<Id, Session>, listed: set<Id>, provider: Id) {
    && OnlyCancelled(a, b)
    && (forall sid :: sid in listed && sid in b && b[sid].provider == provider ==> !b[sid].state.Pending?)
    && (forall sid :: sid in b && b[sid].provider != provider ==> b[sid] == a[sid])
  }

  lemma StillEnded(a: map<Id, Session>, e: Engine, order: seq<Id>, provider: Id)
    requires EndedFor(a, e.sessions, e.listed, provider)
    requires forall sid :: sid in order ==> sid in e.sessions && e.sessions[sid].provider == provider
    ensures EndedFor(a, CancelInOrder(e, order).sessions, e.listed, provider)
  {
    CancelledInOrder(e, order);
    hide CancelInOrder;
  }

  function NewSession(provider: Id, account: Id, admin: int, family: string, grant: Id, now: int): Session {
    Session(provider, account, Pending, now + SESSION_LIFETIME, admin, family, grant, "", false, false)
  }

  function AddSession(e: Engine, sid: Id, s: Session): Engine {
    e.(sessions := e.sessions[sid := s], listed := e.listed + {sid})
  }

  /** The engine as it runs. */
  class LoginEngine {
    var sessions: map<Id, Session>
    var listed: set<Id>
    const store: CredentialStore

    constructor (store: CredentialStore)
      ensures this.store == store && sessions == map[] && listed == {}
    {
      this.store, this.sessions, this.listed := store, map[], {};
    }

    ghost function State(): Engine
      reads this, store
    {
      Engine(sessions, listed, store.State())
    }

    method End(sid: Id, state: LoginState)
      requires sid in sessions
      modifies this`sessions, store
      ensures State() == EndSession(old(State()), sid, state)
      ensures sid in sessions && sessions[sid].state == if old(sessions)[sid].state.Pending? then state else old(sessions)[sid].state
    {
      if !sessions[sid].state.Pending? {
        return;
      }
      sessions := sessions[sid := sessions[sid].(state := state)];
      store.Cancel(sessions[sid].grant);
    }

    /** Cancels every session of `which`, in some order. */
    method CancelAll(which: set<Id>) returns (ghost order: seq<Id>)
      requires which <= sessions.Keys
      modifies this`sessions, store
      ensures forall sid :: sid in order <==> sid in which
      ensures State() == CancelInOrder(old(State()), order)
    {
      order := [];
      var todo := which;
      while todo != {}
        invariant todo <= which <= sessions.Keys == old(sessions).Keys
        invariant forall sid :: sid in order <==> sid in which - todo
        invariant State() == CancelInOrder(old(State()), order)
        decreases todo
      {
        var sid :| sid in todo;
        End(sid, Cancelled);
        assert (order + [sid])[..|order|] == order;
        order := order + [sid];
        todo := todo - {sid};
      }
    }

    /** A new login: sessions whose time is up are cancelled and dropped, then the session is listed. */
    method Start(sid: Id, provider: Id, account: Id, admin: int, family: string, grant: Id, now: int) returns (ghost order: seq<Id>)
      requires listed <= sessions.Keys && sid !in sessions
      modifies this, store
      ensures forall id :: id in order <==> id in old(listed) && now > old(sessions)[id].expires
      ensures var swept := CancelInOrder(old(State()), order);
              State() == AddSession(swept.(listed := swept.listed - set id | id in order), sid,
                                    NewSession(provider, account, admin, family, grant, now))
      ensures sid in listed && sid in sessions && sessions[sid].state.Pending? && sessions[sid].expires == now + 300
      ensures var s := sessions[sid];
              s.provider == provider && s.account == account && s.admin == admin && s.family == family && s.grant == grant
    {
      var expired := set id | id in listed && now > sessions[id].expires;
      order := CancelAll(expired);
      assert expired == set id | id in order;
      listed := listed - expired + {sid};
      sessions := sessions[sid := NewSession(provider, account, admin, family, grant, now)];
    }

    method Announced(sid: Id, sdkState: string)
      requires sid in sessions
      modifies this`sessions
      ensures State() == Announce(old(State()), sid, sdkState)
    {
      sessions := sessions[sid := sessions[sid].(sdkState := sdkState)];
    }

    /** Binds the SDK's record to the session's grant before it is saved. */
    method PrepareLogin(sid: Id, a: Auth, newAccount: Id, incarnation: Id, now: int) returns (record: Option<Auth>)
      requires Fresh(store.State(), newAccount) && Fresh(store.State(), incarnation) && newAccount != incarnation
      modifies this`sessions, store
      ensures record.Some? <==> CanPrepare(old(State()), sid, a.family, now)
      ensures record.Some? ==>
                && sid in old(listed) && sid in old(sessions) && sid in sessions && old(sessions)[sid].state.Pending?
                && now <= old(sessions)[sid].expires && old(sessions)[sid].family == a.family
                && sessions[sid] == old(sessions)[sid].(account := record.value.id, committing := true)
      ensures State() == if record.Some? then Prepare(old(State()), sid, newAccount, incarnation) else old(State())
    {
      if sid !in listed || sid !in sessions {
        return None;
      }
      var s := sessions[sid];
      if !s.state.Pending? || now > s.expires || a.family != s.family {
        return None;
      }
      record := store.Bind(s.grant, a, newAccount, incarnation, now);
      if record.None? {
        return;
      }
      sessions := sessions[sid := s.(account := record.value.id, committing := true)];
    }

    method Find(sid: Id, admin: int, provider: Id, now: int) returns (found: bool)
      modifies this`sessions, store
      ensures found == Visible(old(State()), sid, admin, provider)
      ensures found ==> sid in listed && sid in sessions && sessions[sid].admin == admin && sessions[sid].provider == provider
      ensures found && old(sessions)[sid].state.Pending? ==> sessions[sid].state == if now > sessions[sid].expires then Expired else Pending
      ensures State() == if found then Look(old(State()), sid, now) else old(State())
    {
      if sid !in listed || sid !in sessions || sessions[sid].admin != admin || sessions[sid].provider != provider {
        return false;
      }
      if sessions[sid].state.Pending? && now > sessions[sid].expires {
        End(sid, Expired);
      }
      return true;
    }

    /** Cancels a login unless its record is already being saved. */
    method CancelLogin(sid: Id, admin: int, provider: Id, now: int) returns (ok: bool)
      modifies this`sessions, store
      ensures ok == (Visible(old(State()), sid, admin, provider) && !old(sessions)[sid].committing)
      ensures State() == if !Visible(old(State()), sid, admin, provider) then old(State())
                         else if ok then EndSession(Look(old(State()), sid, now), sid, Cancelled)
                         else Look(old(State()), sid, now)
    {
      var found := Find(sid, admin, provider, now);
      if !found || sessions[sid].committing {
        return false;
      }
      End(sid, Cancelled);
      return true;
    }

    method StatusReport(sid: Id, status: SdkStatus, registered: bool)
      requires sid in sessions
      modifies this`sessions, store
      ensures State() == Report(old(State()), sid, status, registered)
      ensures sid in sessions
      ensures old(sessions)[sid].state.Pending? ==>
                sessions[sid].state == match status
                                       case Waiting => Pending
                                       case Done => if old(sessions)[sid].account != "" && registered then Connected else Pending
                                       case Error => Failed
    {
      if !sessions[sid].state.Pending? {
        return;
      }
      match status
      case Waiting =>
      case Done =>
        if sessions[sid].account != "" && registered {
          sessions := sessions[sid := sessions[sid].(state := Connected)];
        }
      case Error => End(sid, Failed);
    }

    /** Takes a pasted callback once per pending session. `wellFormed` is whether the callback is a complete
        web address without a user, `hasResult` whether it carries a code or an error. */
    method SubmitCallback(sid: Id, admin: int, provider: Id, wellFormed: bool, callbackState: string, hasResult: bool, now: int)
        returns (ok: bool)
      modifies this`sessions, store
      ensures ok == (wellFormed && Visible(old(State()), sid, admin, provider) && CanSubmit(old(State()), sid, callbackState, now) && hasResult)
      ensures State() == if ok then Submit(old(State()), sid)
                         else if wellFormed && Visible(old(State()), sid, admin, provider) then Look(old(State()), sid, now)
                         else old(State())
    {
      if !wellFormed {
        return false;
      }
      var found := Find(sid, admin, provider, now);
      if !found {
        return false;
      }
      var s := sessions[sid];
      if !s.state.Pending? || s.submitted || callbackState != s.sdkState || !hasResult {
        return false;
      }
      sessions := sessions[sid := s.(submitted := true)];
      return true;
    }

    /** Cancels the account's sessions, then disconnects it. */
    method DisconnectAccount(provider: Id, account: Id) returns (found: bool, ghost order: seq<Id>)
      requires listed <= sessions.Keys
      modifies this`sessions, store
      ensures forall sid :: sid in order <==>
                sid in listed && old(sessions)[sid].provider == provider && old(sessions)[sid].account == account
      ensures found == Owns(old(store.State()), provider, account)
      ensures var e := CancelInOrder(old(State()), order); State() == e.(store := Disconnect(e.store, provider, account))
    {
      order := CancelAll(set sid | sid in listed && sessions[sid].provider == provider && sessions[sid].account == account);
      CancelledInOrder(old(State()), order);
      found := store.DisconnectAccount(provider, account);
    }

    /** Ends the provider's logins and disconnects all its accounts; nothing else changes. */
    method RemoveProvider(provider: Id)
      requires listed <= sessions.Keys
      modifies this`sessions, store
      ensures OnlyCancelled(old(sessions), sessions)
      ensures forall sid :: sid in listed && sessions[sid].provider == provider ==> !sessions[sid].state.Pending?
      ensures forall sid :: sid in sessions && sessions[sid].provider != provider ==> sessions[sid] == old(sessions)[sid]
      ensures LeftBy(old(store.State()), store.State(), ConnectedTo(old(store.State()), provider))
    {
      hide CancelInOrder, Disconnect, LeftBy;
      ghost var before := State();
      ghost var order := CancelAll(set sid | sid in listed && sessions[sid].provider == provider);
      CancelledInOrder(before, order);
      NoneLeft(before.store, store.State());
      var todo := set id | id in store.accounts && store.accounts[id].provider == provider && !store.accounts[id].disconnected;
      ghost var all := todo;
      assert all == ConnectedTo(before.store, provider) && all - todo == {};
      while todo != {}
        invariant todo <= all && EndedFor(before.sessions, sessions, listed, provider)
        invariant LeftBy(before.store, store.State(), all - todo)
        decreases todo
      {
        var id :| id in todo;
        ghost var now, left := State(), all - todo;
        var found;
        ghost var cancelled;
        found, cancelled := DisconnectAccount(provider, id);
        CancelledInOrder(now, cancelled);
        StillEnded(before.sessions, now, cancelled, provider);
        OneMore(before.store, now.store, CancelInOrder(now, cancelled).store, left, provider, id);
        todo := todo - {id};
        assert all - todo == left + {id};
      }
      assert all - {} == all;
    }

    /** The runtime hook: walks the listed sessions and connects the ones committing this account. */
    method Registered(account: Id, now: int)
      requires listed <= sessions.Keys
      modifies this`sessions
      ensures State() == Observe(old(State()), account, now)
    {
      var todo := listed;
      while todo != {}
        invariant todo <= listed && sessions.Keys == old(sessions).Keys
        invariant forall sid :: sid in sessions ==>
                    sessions[sid] == (if sid in listed - todo && Watches(old(sessions)[sid], account, now)
                                      then old(sessions)[sid].(state := Connected) else old(sessions)[sid])
        decreases todo
      {
        var sid :| sid in todo;
        if Watches(sessions[sid], account, now) {
          sessions := sessions[sid := sessions[sid].(state := Connected)];
        }
        todo := todo - {sid};
      }
    }
  }
}
