/**
 Runs of sessions and store together: every critical section of a login session and of the credential
 store, in any interleaving.
 */
module OAuthSessionRuns {
  import opened OAuthStore
  import opened OAuthSessions
  import OAuthRuns
  import OAuthSafety

  /** A restart empties the engine's table of sessions; the records of the lost ones stay here to be spoken
      about, listed no more. */
  datatype System = System(engine: Engine, pending: map<Id, OAuthRuns.Pending>, now: int)

  function WorldOf(y: System): OAuthRuns.World {
    OAuthRuns.World(y.engine.store, y.pending, y.now)
  }

  datatype Event =
    | StoreStep(event: OAuthRuns.Event)
    | Start(sid: Id, provider: Id, account: Id, admin: int, family: string, grant: Id, order: seq<Id>)
    | PrepareStep(sid: Id, family: string, newAccount: Id, incarnation: Id)
    | LookStep(sid: Id)
    | CancelStep(sid: Id)
    | ReportStep(sid: Id, status: SdkStatus, registered: bool)
    | SubmitStep(sid: Id, callbackState: string)
    | AnnounceStep(sid: Id, sdkState: string)
    | CancelMany(order: seq<Id>)
    | HookStep(account: Id)
    | RestartStep

  /** Grants are bound and cancelled by sessions only; a new session holds a grant issued before, for it alone.
      A restart is no step of the store alone. */
  predicate Enabled(providers: map<Id, string>, y: System, e: Event) {
    var sessions := y.engine.sessions;
    match e
    case StoreStep(event) => !event.Cancel? && !event.Bind? && !event.Restart? && OAuthRuns.Enabled(providers, WorldOf(y), event)
    case Start(sid, _, _, _, _, grant, order) =>
      && sid !in sessions && grant in y.engine.store.issued && (forall id :: id in sessions ==> sessions[id].grant != grant)
      && forall id :: id in order ==> id in sessions
    case PrepareStep(sid, family, newAccount, incarnation) =>
      && CanPrepare(y.engine, sid, family, y.now)
      && Fresh(y.engine.store, newAccount) && Fresh(y.engine.store, incarnation) && newAccount != incarnation
    case CancelStep(sid) => sid in sessions && !sessions[sid].committing
    case CancelMany(order) => forall id :: id in order ==> id in sessions
    case SubmitStep(sid, callbackState) => CanSubmit(y.engine, sid, callbackState, y.now)
    case HookStep(_) => true
    case RestartStep => true
    case _ => e.sid in sessions
  }

  function Next(providers: map<Id, string>, y: System, e: Event): System
    requires Enabled(providers, y, e)
  {
    match e
    case StoreStep(event) =>
      var w := OAuthRuns.Next(providers, WorldOf(y), event);
      System(y.engine.(store := w.store), w.pending, w.now)
    case Start(sid, provider, account, admin, family, grant, order) =>
      var swept := CancelInOrder(y.engine, order);
      y.(engine := AddSession(swept.(listed := swept.listed - set id | id in order), sid,
                              NewSession(provider, account, admin, family, grant, y.now)))
    case PrepareStep(sid, _, newAccount, incarnation) => y.(engine := Prepare(y.engine, sid, newAccount, incarnation))
    case LookStep(sid) => y.(engine := Look(y.engine, sid, y.now))
    case CancelStep(sid) => y.(engine := EndSession(Look(y.engine, sid, y.now), sid, Cancelled))
    case ReportStep(sid, status, registered) => y.(engine := Report(y.engine, sid, status, registered))
    case SubmitStep(sid, _) => y.(engine := Submit(y.engine, sid))
    case AnnounceStep(sid, sdkState) => y.(engine := Announce(y.engine, sid, sdkState))
    case CancelMany(order) => y.(engine := CancelInOrder(y.engine, order))
    case HookStep(account) => y.(engine := Observe(y.engine, account, y.now))
    case RestartStep => System(y.engine.(listed := {}, store := Restarted(y.engine.store)), map[], y.now)
  }

  /** What a step may do to the sessions that are there: an ended session stays as it is, and a session
      that ends loses its grant. */
  ghost predicate Moves(a: Engine, b: Engine) {
    forall sid :: sid in a.sessions ==>
      && sid in b.sessions && b.sessions[sid].grant == a.sessions[sid].grant
      && (!a.sessions[sid].state.Pending? ==> b.sessions[sid].state == a.sessions[sid].state)
      && (Ended(b.sessions[sid].state) && a.sessions[sid].state.Pending? ==> a.sessions[sid].grant !in b.store.grants)
  }

  /** A step that only cancels grants. */
  ghost predicate Cancels(s: Store, t: Store) {
    && t.accounts == s.accounts && t.credentials == s.credentials && t.issued == s.issued
    && t.grants.Keys <= s.grants.Keys && (forall id :: id in t.grants ==> t.grants[id] == s.grants[id])
    && t.creation.Keys <= s.creation.Keys && (forall id :: id in t.creation ==> t.creation[id] == s.creation[id])
  }

  lemma {:induction false} CancelInOrderShape(e: Engine, order: seq<Id>)
    requires forall sid :: sid in order ==> sid in e.sessions
    ensures var r := CancelInOrder(e, order); Moves(e, r) && Cancels(e.store, r.store)
    decreases |order|
  {
    if order != [] {
      CancelInOrderShape(e, order[..|order| - 1]);
    }
  }

  lemma EndMoves(e: Engine, sid: Id, state: LoginState)
    requires sid in e.sessions
    ensures var r := EndSession(e, sid, state); Moves(e, r) && Cancels(e.store, r.store)
  {
  }

  lemma MovesCompose(a: Engine, b: Engine, c: Engine)
    requires Moves(a, b) && Moves(b, c) && Cancels(b.store, c.store)
    ensures Moves(a, c)
  {
  }

  lemma StepMoves(providers: map<Id, string>, y: System, e: Event)
    requires Enabled(providers, y, e)
    ensures Moves(y.engine, Next(providers, y, e).engine)
  {
    hide Moves, Cancels, CancelInOrder;
    match e
    case Start(sid, provider, account, admin, family, grant, order) =>
      StartMoves(y.engine, sid, NewSession(provider, account, admin, family, grant, y.now), order);
    case CancelMany(order) => CancelInOrderShape(y.engine, order);
    case LookStep(sid) => LookMoves(y.engine, sid, y.now);
    case CancelStep(sid) =>
      var looked := Look(y.engine, sid, y.now);
      LookMoves(y.engine, sid, y.now);
      EndMoves(looked, sid, Cancelled);
      MovesCompose(y.engine, looked, Next(providers, y, e).engine);
    case ReportStep(sid, status, registered) => ReportMoves(y.engine, sid, status, registered);
    case StoreStep(_) => SameSessionsMove(y.engine, Next(providers, y, e).engine);
    case PrepareStep(sid, _, newAccount, incarnation) => PrepareMoves(y.engine, sid, newAccount, incarnation);
    case SubmitStep(sid, _) => SubmitMoves(y.engine, sid);
    case AnnounceStep(sid, sdkState) => AnnounceMoves(y.engine, sid, sdkState);
    case HookStep(account) => ObserveMoves(y.engine, account, y.now);
    case RestartStep => SameSessionsMove(y.engine, Next(providers, y, e).engine);
  }

  lemma SameSessionsMove(a: Engine, b: Engine)
    requires b.sessions == a.sessions
    ensures Moves(a, b)
  {
  }

  lemma PrepareMoves(e: Engine, sid: Id, newAccount: Id, incarnation: Id)
    requires sid in e.sessions && e.sessions[sid].grant in e.store.grants
    ensures Moves(e, Prepare(e, sid, newAccount, incarnation))
  {
  }

  lemma SubmitMoves(e: Engine, sid: Id)
    requires sid in e.sessions
    ensures Moves(e, Submit(e, sid))
  {
  }

  lemma AnnounceMoves(e: Engine, sid: Id, sdkState: string)
    requires sid in e.sessions
    ensures Moves(e, Announce(e, sid, sdkState))
  {
  }

  lemma ObserveMoves(e: Engine, account: Id, now: int)
    ensures Moves(e, Observe(e, account, now))
  {
  }

  lemma ReportMoves(e: Engine, sid: Id, status: SdkStatus, registered: bool)
    requires sid in e.sessions
    ensures Moves(e, Report(e, sid, status, registered))
  {
    EndMoves(e, sid, Failed);
  }

  lemma StartMoves(e: Engine, sid: Id, session: Session, order: seq<Id>)
    requires sid !in e.sessions && forall id :: id in order ==> id in e.sessions
    ensures var swept := CancelInOrder(e, order);
            Moves(e, AddSession(swept.(listed := swept.listed - set id | id in order), sid, session))
  {
    hide CancelInOrder;
    CancelInOrderShape(e, order);
  }

  lemma LookMoves(e: Engine, sid: Id, now: int)
    requires sid in e.sessions
    ensures Moves(e, Look(e, sid, now))
  {
    EndMoves(e, sid, Expired);
  }

  lemma StepCancels(providers: map<Id, string>, y: System, e: Event)
    requires Enabled(providers, y, e) && !e.StoreStep? && !e.PrepareStep?
    ensures Cancels(y.engine.store, Next(providers, y, e).engine.store)
  {
    hide Cancels, CancelInOrder;
    match e
    case Start(_, _, _, _, _, _, order) => CancelInOrderShape(y.engine, order);
    case CancelMany(order) => CancelInOrderShape(y.engine, order);
    case LookStep(sid) => LookCancels(y.engine, sid, y.now);
    case CancelStep(sid) =>
      var looked := Look(y.engine, sid, y.now);
      LookCancels(y.engine, sid, y.now);
      EndMoves(looked, sid, Cancelled);
      CancelsCompose(y.engine.store, looked.store, Next(providers, y, e).engine.store);
    case ReportStep(sid, _, _) =>
      EndMoves(y.engine, sid, Failed);
      CancelsNone(y.engine.store);
    case RestartStep => RestartCancels(y.engine.store);
    case _ => CancelsNone(y.engine.store);
  }

  lemma RestartCancels(s: Store)
    ensures Cancels(s, Restarted(s))
  {
  }

  lemma CancelsNone(s: Store)
    ensures Cancels(s, s)
  {
  }

  lemma CancelsCompose(s: Store, t: Store, u: Store)
    requires Cancels(s, t) && Cancels(t, u)
    ensures Cancels(s, u)
  {
  }

  lemma LookCancels(e: Engine, sid: Id, now: int)
    requires sid in e.sessions
    ensures Cancels(e.store, Look(e, sid, now).store)
  {
    EndMoves(e, sid, Expired);
  }

  lemma CancelsKeepsInv(w: OAuthRuns.World, t: Store)
    requires OAuthRuns.Inv(w) && Cancels(w.store, t)
    ensures OAuthRuns.Inv(w.(store := t))
  {
    forall id | id in t.grants ensures OAuthRuns.GrantKnown(t, id) {
      assert OAuthRuns.GrantKnown(w.store, id);
    }
    forall token | token in w.pending ensures OAuthRuns.PendingKnown(w.(store := t), token) {
      assert OAuthRuns.PendingKnown(w, token);
    }
  }

  /** What every reachable system keeps: the store's invariant, and no ended session has a grant. */
  ghost predicate SystemInv(y: System) {
    && OAuthRuns.Inv(WorldOf(y))
    && forall sid :: sid in y.engine.sessions ==>
         var s := y.engine.sessions[sid];
         s.grant in y.engine.store.issued && (Ended(s.state) ==> s.grant !in y.engine.store.grants)
  }

  /** A step keeps the store's invariant, and what is gone or dead in the store stays so. */
  lemma StepKeepsStore(providers: map<Id, string>, y: System, e: Event)
    requires OAuthRuns.Inv(WorldOf(y)) && Enabled(providers, y, e)
    ensures var w, w' := WorldOf(y), WorldOf(Next(providers, y, e));
            && OAuthRuns.Inv(w') && w.store.issued <= w'.store.issued
            && (forall grant :: OAuthRuns.Gone(w, grant) ==> OAuthRuns.Gone(w', grant))
            && (forall login :: OAuthSafety.DeadLogin(w, login) ==> OAuthSafety.DeadLogin(w', login))
  {
    var w := WorldOf(y);
    match e
    case StoreStep(event) =>
      StoreEventKeeps(providers, w, event);
    case PrepareStep(sid, family, newAccount, incarnation) =>
      StoreEventKeeps(providers, w, OAuthRuns.Bind(y.engine.sessions[sid].grant, family, newAccount, incarnation));
    case _ =>
      StepCancels(providers, y, e);
      CancelsKeepsInv(w, Next(providers, y, e).engine.store);
  }

  lemma StoreEventKeeps(providers: map<Id, string>, w: OAuthRuns.World, event: OAuthRuns.Event)
    requires OAuthRuns.Inv(w) && OAuthRuns.Enabled(providers, w, event)
    ensures var w' := OAuthRuns.Next(providers, w, event);
            && OAuthRuns.Inv(w') && w.store.issued <= w'.store.issued
            && (forall grant :: OAuthRuns.Gone(w, grant) ==> OAuthRuns.Gone(w', grant))
            && (forall login :: OAuthSafety.DeadLogin(w, login) ==> OAuthSafety.DeadLogin(w', login))
  {
    OAuthRuns.InvStep(providers, w, event);
    forall login | OAuthSafety.DeadLogin(w, login)
      ensures OAuthSafety.DeadLogin(OAuthRuns.Next(providers, w, event), login)
    {
      OAuthSafety.DeadStep(providers, w, event, login);
    }
  }

  lemma SystemStep(providers: map<Id, string>, y: System, e: Event)
    requires SystemInv(y) && Enabled(providers, y, e)
    ensures SystemInv(Next(providers, y, e))
  {
    StepKeepsStore(providers, y, e);
    StepMoves(providers, y, e);
    var y' := Next(providers, y, e);
    forall sid | sid in y'.engine.sessions
      ensures y'.engine.sessions[sid].grant in y'.engine.store.issued
      ensures Ended(y'.engine.sessions[sid].state) ==> y'.engine.sessions[sid].grant !in y'.engine.store.grants
    {
      if sid in y.engine.sessions && Ended(y.engine.sessions[sid].state) {
        assert OAuthRuns.Gone(WorldOf(y), y.engine.sessions[sid].grant);
      }
    }
  }

  /** How a process begins: without sessions. */
  ghost predicate Initial(y: System) {
    OAuthRuns.Initial(WorldOf(y)) && y.engine.sessions == map[] && y.engine.listed == {}
  }

  lemma InitialInv(y: System)
    requires Initial(y)
    ensures SystemInv(y)
  {
    OAuthRuns.InitialInv(WorldOf(y));
  }

  datatype Run = Run(systems: seq<System>, events: seq<Event>)

  ghost predicate IsRun(providers: map<Id, string>, run: Run) {
    && |run.systems| == |run.events| + 1
    && Initial(run.systems[0])
    && forall i {:trigger run.events[i]} :: 0 <= i < |run.events| ==>
         Enabled(providers, run.systems[i], run.events[i])
         && run.systems[i + 1] == Next(providers, run.systems[i], run.events[i])
  }

  lemma {:induction false} SystemAlong(providers: map<Id, string>, run: Run, i: nat)
    requires IsRun(providers, run) && i < |run.systems|
    ensures SystemInv(run.systems[i])
    decreases i
  {
    if 0 < i {
      SystemAlong(providers, run, i - 1);
      assert Enabled(providers, run.systems[i - 1], run.events[i - 1]);
      SystemStep(providers, run.systems[i - 1], run.events[i - 1]);
    } else {
      InitialInv(run.systems[0]);
    }
  }

  /** A session that is no longer pending never changes state again. */
  lemma {:induction false} StatesAreAbsorbing(providers: map<Id, string>, run: Run, sid: Id, i: nat, j: nat)
    requires IsRun(providers, run) && i <= j < |run.systems| && sid in run.systems[i].engine.sessions
    ensures sid in run.systems[j].engine.sessions
    ensures run.systems[j].engine.sessions[sid].grant == run.systems[i].engine.sessions[sid].grant
    ensures !run.systems[i].engine.sessions[sid].state.Pending? ==>
              run.systems[j].engine.sessions[sid].state == run.systems[i].engine.sessions[sid].state
    decreases j - i
  {
    if i < j {
      StatesAreAbsorbing(providers, run, sid, i, j - 1);
      assert Enabled(providers, run.systems[j - 1], run.events[j - 1])
        && run.systems[j - 1 + 1] == Next(providers, run.systems[j - 1], run.events[j - 1]);
      StepMoves(providers, run.systems[j - 1], run.events[j - 1]);
    }
  }

  lemma {:induction false} DeadAlong(providers: map<Id, string>, run: Run, login: Id, i: nat, j: nat)
    requires IsRun(providers, run) && i <= j < |run.systems| && OAuthSafety.DeadLogin(WorldOf(run.systems[i]), login)
    ensures OAuthSafety.DeadLogin(WorldOf(run.systems[j]), login)
    decreases j - i
  {
    if i < j {
      DeadAlong(providers, run, login, i, j - 1);
      SystemAlong(providers, run, j - 1);
      assert Enabled(providers, run.systems[j - 1], run.events[j - 1])
        && run.systems[j - 1 + 1] == Next(providers, run.systems[j - 1], run.events[j - 1]);
      StepKeepsStore(providers, run.systems[j - 1], run.events[j - 1]);
    }
  }

  lemma DeadSave(providers: map<Id, string>, y: System, e: Event, login: Id)
    requires OAuthRuns.Inv(WorldOf(y)) && Enabled(providers, y, e) && OAuthSafety.DeadLogin(WorldOf(y), login)
    requires e.StoreStep? && e.event.Save? && e.event.auth.login == login
    ensures Next(providers, y, e).engine.store == y.engine.store
  {
    hide OAuthRuns.Inv, OAuthRuns.Next, OAuthSafety.DeadLogin;
    OAuthSafety.DeadStep(providers, WorldOf(y), e.event, login);
  }

  /** The step that ends a session kills the login bound to its grant, if that was still open. */
  lemma EndingKills(providers: map<Id, string>, y: System, e: Event, sid: Id)
    requires SystemInv(y) && Enabled(providers, y, e)
    requires sid in y.engine.sessions && y.engine.sessions[sid].state.Pending?
    requires Ended(Next(providers, y, e).engine.sessions[sid].state)
    requires y.engine.sessions[sid].grant in y.engine.store.grants
    ensures var g := y.engine.store.grants[y.engine.sessions[sid].grant];
            g.bound ==> OAuthSafety.DeadLogin(WorldOf(Next(providers, y, e)), g.incarnation)
  {
    StepMoves(providers, y, e);
    StepCancels(providers, y, e);
    assert OAuthRuns.GrantKnown(y.engine.store, y.engine.sessions[sid].grant);
  }

  /** Once a session is cancelled, expired or failed (event k), its grant never commits; and if the grant was
      bound and open then, every later save by its login is refused and leaves the store as it is. */
  lemma EndedSessionIsPowerless(providers: map<Id, string>, run: Run, sid: Id, k: nat, j: nat)
    requires IsRun(providers, run) && k < j < |run.events|
    requires sid in run.systems[k].engine.sessions && run.systems[k].engine.sessions[sid].state.Pending?
    requires sid in run.systems[k + 1].engine.sessions && Ended(run.systems[k + 1].engine.sessions[sid].state)
    requires run.events[j].StoreStep? && run.events[j].event.Save?
    ensures !OAuthRuns.Commits(WorldOf(run.systems[j]), run.events[j].event, run.systems[k].engine.sessions[sid].grant)
    ensures var before, grant := run.systems[k].engine.store, run.systems[k].engine.sessions[sid].grant;
            grant in before.grants && before.grants[grant].bound
            && run.events[j].event.auth.login == before.grants[grant].incarnation ==>
              run.systems[j + 1].engine.store == run.systems[j].engine.store
  {
    hide Next, OAuthRuns.Inv, OAuthRuns.Next, OAuthSafety.DeadLogin;
    SystemAlong(providers, run, k);
    SystemAlong(providers, run, j);
    assert Enabled(providers, run.systems[k], run.events[k]) && run.systems[k + 1] == Next(providers, run.systems[k], run.events[k]);
    assert Enabled(providers, run.systems[j], run.events[j]) && run.systems[j + 1] == Next(providers, run.systems[j], run.events[j]);
    StepMoves(providers, run.systems[k], run.events[k]);
    StatesAreAbsorbing(providers, run, sid, k + 1, j);
    var before, grant := run.systems[k].engine.store, run.systems[k].engine.sessions[sid].grant;
    if grant in before.grants && before.grants[grant].bound {
      EndingKills(providers, run.systems[k], run.events[k], sid);
      DeadAlong(providers, run, before.grants[grant].incarnation, k + 1, j);
      if run.events[j].event.auth.login == before.grants[grant].incarnation {
        DeadSave(providers, run.systems[j], run.events[j], before.grants[grant].incarnation);
      }
    }
  }

  // A login that has not committed.

  /** The login is bound to the grant, which is open. */
  predicate Open(s: Store, grant: Id, login: Id) {
    grant in s.grants && s.grants[grant].bound && s.grants[grant].incarnation == login
  }

  predicate CommitsAt(y: System, e: Event, grant: Id) {
    e.StoreStep? && OAuthRuns.Commits(WorldOf(y), e.event, grant)
  }

  lemma CancelledDies(w: OAuthRuns.World, t: Store, grant: Id, login: Id)
    requires OAuthRuns.Inv(w) && Cancels(w.store, t) && Open(w.store, grant, login)
    ensures Open(t, grant, login) || OAuthSafety.DeadLogin(w.(store := t), login)
  {
    assert OAuthRuns.GrantKnown(w.store, grant);
  }

  lemma OpenOrDead(providers: map<Id, string>, y: System, e: Event, grant: Id, login: Id)
    requires OAuthRuns.Inv(WorldOf(y)) && Enabled(providers, y, e) && Open(y.engine.store, grant, login) && !CommitsAt(y, e, grant)
    ensures var y' := Next(providers, y, e); Open(y'.engine.store, grant, login) || OAuthSafety.DeadLogin(WorldOf(y'), login)
  {
    var w := WorldOf(y);
    match e
    case StoreStep(event) =>
      hide OAuthRuns.Inv, OAuthRuns.Next, OAuthRuns.Commits, OAuthSafety.DeadLogin;
      OAuthSafety.OpenStep(providers, w, event, grant);
    case PrepareStep(sid, family, newAccount, incarnation) =>
      hide OAuthRuns.Inv, OAuthSafety.DeadLogin;
    case _ =>
      hide OAuthRuns.Inv, OAuthSafety.DeadLogin, Cancels, Open;
      StepCancels(providers, y, e);
      CancelledDies(w, Next(providers, y, e).engine.store, grant, login);
      DeadByStore(WorldOf(Next(providers, y, e)), w.(store := Next(providers, y, e).engine.store), login);
  }

  /** Whether a login is dead is a matter of the store alone. */
  lemma DeadByStore(a: OAuthRuns.World, b: OAuthRuns.World, login: Id)
    requires a.store == b.store
    ensures OAuthSafety.DeadLogin(a, login) <==> OAuthSafety.DeadLogin(b, login)
  {
  }

  lemma StepOfRun(providers: map<Id, string>, run: Run, j: nat)
    requires IsRun(providers, run) && j + 1 < |run.systems|
    ensures |run.systems| == |run.events| + 1
    ensures Enabled(providers, run.systems[j], run.events[j]) && run.systems[j + 1] == Next(providers, run.systems[j], run.events[j])
  {
  }

  lemma StoreInvAlong(providers: map<Id, string>, run: Run, j: nat)
    requires IsRun(providers, run) && j < |run.systems|
    ensures OAuthRuns.Inv(WorldOf(run.systems[j]))
  {
    SystemAlong(providers, run, j);
  }

  lemma {:induction false} OpenOrDeadAlong(providers: map<Id, string>, run: Run, grant: Id, login: Id, i: nat, k: nat)
    requires IsRun(providers, run) && i <= k < |run.systems| && Open(run.systems[i].engine.store, grant, login)
    requires forall m :: i <= m < k ==> !CommitsAt(run.systems[m], run.events[m], grant)
    ensures Open(run.systems[k].engine.store, grant, login) || OAuthSafety.DeadLogin(WorldOf(run.systems[k]), login)
    decreases k - i
  {
    hide Next, Enabled, IsRun, OAuthRuns.Inv, OAuthSafety.DeadLogin, Open, CommitsAt;
    if i < k {
      StepOfRun(providers, run, k - 1);
      OpenOrDeadAlong(providers, run, grant, login, i, k - 1);
      StoreInvAlong(providers, run, k - 1);
      if OAuthSafety.DeadLogin(WorldOf(run.systems[k - 1]), login) {
        DeadAlong(providers, run, login, k - 1, k);
      } else {
        OpenOrDead(providers, run.systems[k - 1], run.events[k - 1], grant, login);
      }
    }
  }

  lemma PreparedOpen(providers: map<Id, string>, y: System, e: Event)
    requires Enabled(providers, y, e) && e.PrepareStep?
    ensures Open(Next(providers, y, e).engine.store, y.engine.sessions[e.sid].grant, e.incarnation)
  {
  }

  /** Once a session has ended, every save by its login (bound at event i) is refused and leaves the store as it
      is, unless the login has committed before: it cannot create, reconnect or overwrite any account, however
      the session ended and whatever other logins, disconnects and restarts did to its grant. */
  lemma UncommittedLoginIsPowerless(providers: map<Id, string>, run: Run, sid: Id, i: nat, k: nat, j: nat)
    requires IsRun(providers, run) && i < k <= j < |run.events| && run.events[i].PrepareStep? && run.events[i].sid == sid
    requires sid in run.systems[i].engine.sessions
    requires sid in run.systems[k].engine.sessions && Ended(run.systems[k].engine.sessions[sid].state)
    requires forall m :: i < m < k ==> !CommitsAt(run.systems[m], run.events[m], run.systems[i].engine.sessions[sid].grant)
    requires run.events[j].StoreStep? && run.events[j].event.Save? && run.events[j].event.auth.login == run.events[i].incarnation
    ensures run.systems[j + 1].engine.store == run.systems[j].engine.store
  {
    StepOfRun(providers, run, i);
    StepOfRun(providers, run, j);
    hide Next, Enabled, IsRun, OAuthRuns.Inv, OAuthSafety.DeadLogin, CommitsAt;
    var grant, login := run.systems[i].engine.sessions[sid].grant, run.events[i].incarnation;
    PreparedOpen(providers, run.systems[i], run.events[i]);
    OpenOrDeadAlong(providers, run, grant, login, i + 1, k);
    StatesAreAbsorbing(providers, run, sid, i, k);
    SystemAlong(providers, run, k);
    DeadAlong(providers, run, login, k, j);
    SystemAlong(providers, run, j);
    DeadSave(providers, run.systems[j], run.events[j], login);
  }

  // Callbacks.

  /** What a step does to the callback of a session that is there: only an announcement sets the state it
      waits for, only an accepted callback marks it as submitted, and nothing takes the mark away. */
  lemma StepKeepsCallback(providers: map<Id, string>, y: System, e: Event, sid: Id)
    requires Enabled(providers, y, e) && sid in y.engine.sessions
    ensures sid in Next(providers, y, e).engine.sessions
    ensures var a, b := y.engine.sessions[sid], Next(providers, y, e).engine.sessions[sid];
            && (b.submitted <==> a.submitted || (e.SubmitStep? && e.sid == sid))
            && b.sdkState == if e.AnnounceStep? && e.sid == sid then e.sdkState else a.sdkState
  {
    hide CancelInOrder, OAuthRuns.Next, OAuthRuns.Enabled, EndSession, CancelGrant;
    match e
    case Start(_, _, _, _, _, _, order) => CancelledInOrder(y.engine, order);
    case CancelMany(order) => CancelledInOrder(y.engine, order);
    case LookStep(other) => EndKeepsCallback(y.engine, other, Expired, sid);
    case CancelStep(other) =>
      EndKeepsCallback(y.engine, other, Expired, sid);
      EndKeepsCallback(Look(y.engine, other, y.now), other, Cancelled, sid);
    case ReportStep(other, _, _) => EndKeepsCallback(y.engine, other, Failed, sid);
    case _ =>
  }

  lemma EndKeepsCallback(e: Engine, other: Id, state: LoginState, sid: Id)
    requires sid in e.sessions && other in e.sessions
    ensures var r := EndSession(e, other, state).sessions;
            && r.Keys == e.sessions.Keys && r[sid].submitted == e.sessions[sid].submitted && r[sid].sdkState == e.sessions[sid].sdkState
  {
  }

  /** The state a session waits for was announced for it, unless it waits for none yet. */
  ghost predicate WasAnnounced(run: Run, sid: Id, sdkState: string, j: nat)
    requires j <= |run.events|
  {
    sdkState == "" || exists k :: 0 <= k < j && run.events[k] == AnnounceStep(sid, sdkState)
  }

  lemma {:induction false} WaitsForAnnounced(providers: map<Id, string>, run: Run, sid: Id, j: nat)
    requires IsRun(providers, run) && j < |run.systems| && sid in run.systems[j].engine.sessions
    ensures WasAnnounced(run, sid, run.systems[j].engine.sessions[sid].sdkState, j)
    decreases j
  {
    if 0 < j {
      var y, e := run.systems[j - 1], run.events[j - 1];
      assert Enabled(providers, y, e) && run.systems[j - 1 + 1] == Next(providers, y, e);
      if sid in y.engine.sessions {
        WaitsForAnnounced(providers, run, sid, j - 1);
        StepKeepsCallback(providers, y, e, sid);
        hide Next, Enabled;
      } else {
        AppearsUnannounced(providers, y, e, sid);
      }
    }
  }

  lemma AppearsUnannounced(providers: map<Id, string>, y: System, e: Event, sid: Id)
    requires Enabled(providers, y, e) && sid !in y.engine.sessions && sid in Next(providers, y, e).engine.sessions
    ensures Next(providers, y, e).engine.sessions[sid].sdkState == ""
  {
    hide CancelInOrder, OAuthRuns.Next, OAuthRuns.Enabled, CancelGrant;
  }

  lemma {:induction false} SubmittedForGood(providers: map<Id, string>, run: Run, sid: Id, i: nat, j: nat)
    requires IsRun(providers, run) && i <= j < |run.systems|
    requires sid in run.systems[i].engine.sessions && run.systems[i].engine.sessions[sid].submitted
    ensures sid in run.systems[j].engine.sessions && run.systems[j].engine.sessions[sid].submitted
    decreases j - i
  {
    if i < j {
      SubmittedForGood(providers, run, sid, i, j - 1);
      assert Enabled(providers, run.systems[j - 1], run.events[j - 1])
        && run.systems[j - 1 + 1] == Next(providers, run.systems[j - 1], run.events[j - 1]);
      StepKeepsCallback(providers, run.systems[j - 1], run.events[j - 1], sid);
    }
  }

  /** Over every run a session accepts one callback at most, and that one carries a state announced for this
      very session before, or none at all if none has been announced. */
  lemma OneAnnouncedCallback(providers: map<Id, string>, run: Run, sid: Id, i: nat, j: nat)
    requires IsRun(providers, run) && i <= j < |run.events|
    requires run.events[i].SubmitStep? && run.events[i].sid == sid && run.events[j].SubmitStep? && run.events[j].sid == sid
    ensures i == j && WasAnnounced(run, sid, run.events[i].callbackState, i)
  {
    hide Next;
    assert Enabled(providers, run.systems[i], run.events[i]) && run.systems[i + 1] == Next(providers, run.systems[i], run.events[i]);
    assert Enabled(providers, run.systems[j], run.events[j]);
    WaitsForAnnounced(providers, run, sid, i);
    StepKeepsCallback(providers, run.systems[i], run.events[i], sid);
    if i < j {
      SubmittedForGood(providers, run, sid, i + 1, j);
    }
  }

  /** An administrator's cancellation spares every login whose record is being saved. */
  lemma CancelSparesCommitting(providers: map<Id, string>, y: System, sid: Id, other: Id)
    requires Enabled(providers, y, CancelStep(sid)) && other in y.engine.sessions && y.engine.sessions[other].committing
    ensures var y' := Next(providers, y, CancelStep(sid));
            other in y'.engine.sessions && y'.engine.sessions[other] == y.engine.sessions[other]
  {
  }

  /** What can happen to a system: whatever can happen to its store, but for binding and cancelling, which
      sessions do; the reports, cancellations, announcements and looks of any session; a callback exactly if it
      is the first one, in time, for a pending session that waits for its state. */
  lemma SystemIsOpen(providers: map<Id, string>, y: System, e: OAuthRuns.Event, sid: Id, status: SdkStatus, registered: bool,
                     sdkState: string, account: Id, order: seq<Id>)
    ensures !e.Cancel? && !e.Bind? && !e.Restart? && OAuthRuns.Enabled(providers, WorldOf(y), e) ==> Enabled(providers, y, StoreStep(e))
    ensures sid in y.engine.sessions ==>
              && Enabled(providers, y, LookStep(sid)) && Enabled(providers, y, ReportStep(sid, status, registered))
              && Enabled(providers, y, AnnounceStep(sid, sdkState))
              && (Enabled(providers, y, CancelStep(sid)) <==> !y.engine.sessions[sid].committing)
              && var s := y.engine.sessions[sid];
                 Enabled(providers, y, SubmitStep(sid, sdkState)) <==>
                   s.state.Pending? && y.now <= s.expires && !s.submitted && s.sdkState == sdkState
    ensures Enabled(providers, y, HookStep(account)) && Enabled(providers, y, RestartStep)
    ensures (forall id :: id in order ==> id in y.engine.sessions) ==> Enabled(providers, y, CancelMany(order))
  {
  }
}
