/**
 What a connected session says: that the account it was saving is registered, not that its own login was saved.
 */
module OAuthConnections {
  import opened Wrappers
  import opened OAuthStore
  import opened OAuthSessions
  import opened OAuthSessionRuns
  import OAuthRuns
  import OAuthSafety

  /** Every session has a grant of its own. */
  ghost predicate OwnGrants(sessions: map<Id, Session>) {
    forall a, b :: a in sessions && b in sessions && sessions[a].grant == sessions[b].grant ==> a == b
  }

  lemma StepKeepsOwn(providers: map<Id, string>, y: System, e: Event)
    requires Enabled(providers, y, e) && OwnGrants(y.engine.sessions)
    ensures OwnGrants(Next(providers, y, e).engine.sessions)
  {
    StepMoves(providers, y, e);
    NewSessions(providers, y, e);
    hide Next;
    var after := Next(providers, y, e).engine.sessions;
    forall a, b | a in after && b in after && after[a].grant == after[b].grant ensures a == b {
    }
  }

  /** Only a start adds a session, with the grant it names. */
  lemma NewSessions(providers: map<Id, string>, y: System, e: Event)
    requires Enabled(providers, y, e)
    ensures forall sid :: sid in Next(providers, y, e).engine.sessions && sid !in y.engine.sessions ==>
              e.Start? && sid == e.sid && Next(providers, y, e).engine.sessions[sid].grant == e.grant
  {
    hide CancelInOrder, OAuthRuns.Next, OAuthRuns.Enabled, CancelGrant;
  }

  lemma {:induction false} OwnAlong(providers: map<Id, string>, run: Run, j: nat)
    requires IsRun(providers, run) && j < |run.systems|
    ensures OwnGrants(run.systems[j].engine.sessions)
    decreases j
  {
    if 0 < j {
      hide Next, Enabled, OwnGrants;
      OwnAlong(providers, run, j - 1);
      StepOfRun(providers, run, j - 1);
      StepKeepsOwn(providers, run.systems[j - 1], run.events[j - 1]);
    }
  }

  /** The session's grant is there, or the session has ended. */
  predicate Holds(e: Engine, sid: Id) {
    sid in e.sessions && (e.sessions[sid].grant in e.store.grants || Ended(e.sessions[sid].state))
  }

  lemma EndHolds(e: Engine, other: Id, state: LoginState, sid: Id)
    requires OwnGrants(e.sessions) && Holds(e, sid) && other in e.sessions && Ended(state)
    ensures var r := EndSession(e, other, state); Holds(r, sid) && OwnGrants(r.sessions) && r.sessions.Keys == e.sessions.Keys
  {
  }

  lemma {:induction false} CancelInOrderHolds(e: Engine, order: seq<Id>, sid: Id)
    requires OwnGrants(e.sessions) && Holds(e, sid) && forall id :: id in order ==> id in e.sessions
    ensures var r := CancelInOrder(e, order); Holds(r, sid) && OwnGrants(r.sessions)
    decreases |order|
  {
    hide EndSession, Holds, OwnGrants;
    if order != [] {
      CancelInOrderHolds(e, order[..|order| - 1], sid);
      EndHolds(CancelInOrder(e, order[..|order| - 1]), order[|order| - 1], Cancelled, sid);
    }
  }

  /** As long as the process lives, a session loses a bound grant only by ending or by the commit of its login. */
  lemma StepHolds(providers: map<Id, string>, y: System, e: Event, sid: Id)
    requires OAuthRuns.Inv(WorldOf(y)) && Enabled(providers, y, e) && !e.RestartStep? && OwnGrants(y.engine.sessions)
    requires sid in y.engine.sessions && y.engine.sessions[sid].grant in y.engine.store.grants
    requires y.engine.store.grants[y.engine.sessions[sid].grant].bound
    ensures Holds(Next(providers, y, e).engine, sid) || CommitsAt(y, e, y.engine.sessions[sid].grant)
  {
    hide OAuthRuns.Inv, CancelInOrder, OwnGrants;
    match e
    case StoreStep(event) =>
      hide OAuthRuns.Next, OAuthRuns.Commits;
      if !CommitsAt(y, e, y.engine.sessions[sid].grant) {
        OAuthSafety.OpenStep(providers, WorldOf(y), event, y.engine.sessions[sid].grant);
      }
    case Start(_, _, _, _, _, _, order) => CancelInOrderHolds(y.engine, order, sid);
    case CancelMany(order) => CancelInOrderHolds(y.engine, order, sid);
    case LookStep(other) => EndHolds(y.engine, other, Expired, sid);
    case CancelStep(other) =>
      EndHolds(y.engine, other, Expired, sid);
      EndHolds(y.engine, other, Cancelled, sid);
    case ReportStep(other, _, _) => EndHolds(y.engine, other, Failed, sid);
    case _ =>
  }

  ghost predicate Committed(run: Run, grant: Id, i: nat, j: nat)
    requires j <= |run.events| <= |run.systems|
  {
    exists m :: i <= m < j && CommitsAt(run.systems[m], run.events[m], grant)
  }

  lemma {:induction false} GoneAlong(providers: map<Id, string>, run: Run, grant: Id, i: nat, j: nat)
    requires IsRun(providers, run) && i <= j < |run.systems| && OAuthRuns.Gone(WorldOf(run.systems[i]), grant)
    ensures OAuthRuns.Gone(WorldOf(run.systems[j]), grant)
    decreases j - i
  {
    if i < j {
      hide Next, Enabled, OAuthRuns.Gone, OAuthRuns.Inv, OAuthSafety.DeadLogin;
      GoneAlong(providers, run, grant, i, j - 1);
      StepOfRun(providers, run, j - 1);
      StoreInvAlong(providers, run, j - 1);
      StepKeepsStore(providers, run.systems[j - 1], run.events[j - 1]);
    }
  }

  lemma CommitGoes(providers: map<Id, string>, y: System, e: Event, grant: Id)
    requires OAuthRuns.Inv(WorldOf(y)) && Enabled(providers, y, e) && CommitsAt(y, e, grant)
    ensures OAuthRuns.Gone(WorldOf(Next(providers, y, e)), grant)
  {
    hide OAuthRuns.Inv, OAuthRuns.Next, OAuthRuns.Commits;
    OAuthRuns.CommitStep(providers, WorldOf(y), e.event, grant);
  }

  /** From its binding (event i) on, as long as the session has not ended and the process lives. */
  ghost predicate Underway(run: Run, sid: Id, i: nat, j: nat)
    requires i <= j <= |run.events| < |run.systems|
  {
    && run.events != [] && i < |run.events| && run.events[i].PrepareStep? && run.events[i].sid == sid
    && sid in run.systems[i].engine.sessions
    && sid in run.systems[j].engine.sessions && !Ended(run.systems[j].engine.sessions[sid].state)
    && forall m :: i <= m < j ==> !run.events[m].RestartStep?
  }

  lemma OpenStaysOpen(providers: map<Id, string>, y: System, e: Event, sid: Id, login: Id)
    requires OAuthRuns.Inv(WorldOf(y)) && OwnGrants(y.engine.sessions) && Enabled(providers, y, e) && !e.RestartStep?
    requires sid in y.engine.sessions && Open(y.engine.store, y.engine.sessions[sid].grant, login)
    requires !CommitsAt(y, e, y.engine.sessions[sid].grant)
    requires var after := Next(providers, y, e).engine.sessions; sid in after && !Ended(after[sid].state)
    ensures Open(Next(providers, y, e).engine.store, y.engine.sessions[sid].grant, login)
  {
    var grant := y.engine.sessions[sid].grant;
    StepMoves(providers, y, e);
    hide Next, Enabled, OAuthRuns.Inv, OwnGrants, CommitsAt;
    StepHolds(providers, y, e, sid);
    OpenAgain(providers, y, e, grant);
  }

  lemma {:induction false} OpenUntilCommitted(providers: map<Id, string>, run: Run, sid: Id, i: nat, j: nat)
    requires IsRun(providers, run) && i < j <= |run.events| < |run.systems| && Underway(run, sid, i, j)
    requires !Committed(run, run.systems[i].engine.sessions[sid].grant, i + 1, j)
    ensures Open(run.systems[j].engine.store, run.systems[i].engine.sessions[sid].grant, run.events[i].incarnation)
    decreases j
  {
    hide IsRun, Next, Enabled, Open, OwnGrants, CommitsAt, OAuthRuns.Inv;
    var grant, login := run.systems[i].engine.sessions[sid].grant, run.events[i].incarnation;
    StepOfRun(providers, run, j - 1);
    if j == i + 1 {
      PreparedOpen(providers, run.systems[i], run.events[i]);
    } else {
      StatesAreAbsorbing(providers, run, sid, i, j - 1);
      StatesAreAbsorbing(providers, run, sid, j - 1, j);
      OpenUntilCommitted(providers, run, sid, i, j - 1);
      StoreInvAlong(providers, run, j - 1);
      OwnAlong(providers, run, j - 1);
      OpenStaysOpen(providers, run.systems[j - 1], run.events[j - 1], sid, login);
    }
  }

  /** A bound grant that is still there is as it was. */
  lemma OpenAgain(providers: map<Id, string>, y: System, e: Event, grant: Id)
    requires OAuthRuns.Inv(WorldOf(y)) && Enabled(providers, y, e) && !CommitsAt(y, e, grant)
    requires grant in y.engine.store.grants && y.engine.store.grants[grant].bound
    requires grant in Next(providers, y, e).engine.store.grants
    ensures Next(providers, y, e).engine.store.grants[grant] == y.engine.store.grants[grant]
  {
    match e
    case StoreStep(event) =>
      hide OAuthRuns.Inv, OAuthRuns.Next, OAuthRuns.Commits;
      OAuthSafety.OpenStep(providers, WorldOf(y), event, grant);
    case PrepareStep(_, _, _, _) => hide OAuthRuns.Inv;
    case _ =>
      hide Next, OAuthRuns.Inv;
      StepCancels(providers, y, e);
  }

  /** A session that has been bound and has not ended, connected ones above all: its own login has committed
      exactly if its grant is gone, as long as the process lives. */
  lemma GoneMeansCommitted(providers: map<Id, string>, run: Run, sid: Id, i: nat, j: nat)
    requires IsRun(providers, run) && i < j <= |run.events| < |run.systems| && Underway(run, sid, i, j)
    ensures var grant := run.systems[i].engine.sessions[sid].grant;
            grant !in run.systems[j].engine.store.grants <==> Committed(run, grant, i + 1, j)
  {
    var grant := run.systems[i].engine.sessions[sid].grant;
    if Committed(run, grant, i + 1, j) {
      var m :| i + 1 <= m < j && CommitsAt(run.systems[m], run.events[m], grant);
      StepOfRun(providers, run, m);
      StoreInvAlong(providers, run, m);
      hide Next, Enabled, OAuthRuns.Inv, CommitsAt;
      CommitGoes(providers, run.systems[m], run.events[m], grant);
      GoneAlong(providers, run, grant, m + 1, j);
    } else {
      OpenUntilCommitted(providers, run, sid, i, j);
    }
  }

  // Which sessions the hook connects, told by the run and the grants.

  /** At event i the session was bound, through its grant, to the account. */
  predicate BoundAt(run: Run, sid: Id, account: Id, i: nat) {
    && i < |run.events| && i + 1 < |run.systems|
    && run.events[i].PrepareStep? && run.events[i].sid == sid && sid in run.systems[i].engine.sessions
    && var grant, store := run.systems[i].engine.sessions[sid].grant, run.systems[i + 1].engine.store;
       grant in store.grants && store.grants[grant].account == account
  }

  ghost predicate BoundTo(run: Run, sid: Id, account: Id, j: nat) {
    exists i :: 0 <= i < j && BoundAt(run, sid, account, i)
  }

  /** A grant that no one can bind any more. */
  predicate Taken(s: Store, grant: Id) {
    grant in s.issued && (grant in s.grants ==> s.grants[grant].bound)
  }

  lemma StepKeepsTaken(providers: map<Id, string>, y: System, e: Event, grant: Id)
    requires Enabled(providers, y, e) && Taken(y.engine.store, grant)
    ensures Taken(Next(providers, y, e).engine.store, grant)
  {
    match e
    case StoreStep(_) =>
    case PrepareStep(_, _, _, _) =>
    case _ =>
      hide Next;
      StepCancels(providers, y, e);
  }

  /** What a step does to the binding of a session that is there. */
  lemma StepKeepsBinding(providers: map<Id, string>, y: System, e: Event, sid: Id)
    requires Enabled(providers, y, e) && sid in y.engine.sessions
    ensures sid in Next(providers, y, e).engine.sessions
    ensures var a, b := y.engine.sessions[sid], Next(providers, y, e).engine.sessions[sid];
            if e.PrepareStep? && e.sid == sid then
              && b.committing && a.grant in Next(providers, y, e).engine.store.grants
              && b.account == Next(providers, y, e).engine.store.grants[a.grant].account
            else b.committing == a.committing && b.account == a.account
  {
    hide CancelInOrder, OAuthRuns.Next, OAuthRuns.Enabled, EndSession, CancelGrant;
    match e
    case Start(_, _, _, _, _, _, order) => CancelledInOrder(y.engine, order);
    case CancelMany(order) => CancelledInOrder(y.engine, order);
    case LookStep(other) => EndKeepsBinding(y.engine, other, Expired, sid);
    case CancelStep(other) =>
      EndKeepsBinding(y.engine, other, Expired, sid);
      EndKeepsBinding(Look(y.engine, other, y.now), other, Cancelled, sid);
    case ReportStep(other, _, _) => EndKeepsBinding(y.engine, other, Failed, sid);
    case _ =>
  }

  lemma EndKeepsBinding(e: Engine, other: Id, state: LoginState, sid: Id)
    requires sid in e.sessions && other in e.sessions
    ensures var r := EndSession(e, other, state).sessions;
            && r.Keys == e.sessions.Keys && r[sid].committing == e.sessions[sid].committing && r[sid].account == e.sessions[sid].account
  {
  }

  /** A session is committing exactly if it has been bound, and then it has the account of its grant. */
  ghost predicate Remembers(run: Run, sid: Id, j: nat)
    requires j < |run.systems| && sid in run.systems[j].engine.sessions
  {
    var s := run.systems[j].engine.sessions[sid];
    && (s.committing ==> Taken(run.systems[j].engine.store, s.grant))
    && forall account :: BoundTo(run, sid, account, j) <==> s.committing && s.account == account
  }

  lemma NotBoundBefore(providers: map<Id, string>, run: Run, sid: Id, account: Id, j: nat)
    requires IsRun(providers, run) && j < |run.systems| && sid !in run.systems[j].engine.sessions
    ensures !BoundTo(run, sid, account, j)
  {
    if BoundTo(run, sid, account, j) {
      var i :| 0 <= i < j && BoundAt(run, sid, account, i);
      StatesAreAbsorbing(providers, run, sid, i, j);
    }
  }

  lemma BoundToStep(run: Run, sid: Id, account: Id, j: nat)
    ensures BoundTo(run, sid, account, j + 1) <==> BoundTo(run, sid, account, j) || BoundAt(run, sid, account, j)
  {
  }

  lemma PrepareTakes(providers: map<Id, string>, y: System, e: Event)
    requires Enabled(providers, y, e) && e.PrepareStep?
    ensures e.sid in y.engine.sessions && !Taken(y.engine.store, y.engine.sessions[e.sid].grant)
    ensures y.engine.sessions[e.sid].grant in y.engine.store.issued ==>
              Taken(Next(providers, y, e).engine.store, y.engine.sessions[e.sid].grant)
  {
  }

  lemma AppearsUnbound(providers: map<Id, string>, y: System, e: Event, sid: Id)
    requires Enabled(providers, y, e) && sid !in y.engine.sessions && sid in Next(providers, y, e).engine.sessions
    ensures !Next(providers, y, e).engine.sessions[sid].committing && !e.PrepareStep?
  {
    hide CancelInOrder, OAuthRuns.Next, OAuthRuns.Enabled, CancelGrant;
  }

  lemma GrantIssued(y: System, sid: Id)
    requires SystemInv(y) && sid in y.engine.sessions
    ensures y.engine.sessions[sid].grant in y.engine.store.issued
  {
  }

  lemma {:induction false} BindingRemembered(providers: map<Id, string>, run: Run, sid: Id, j: nat)
    requires IsRun(providers, run) && j < |run.systems| && sid in run.systems[j].engine.sessions
    ensures Remembers(run, sid, j)
    decreases j
  {
    if 0 < j {
      StepOfRun(providers, run, j - 1);
      SystemAlong(providers, run, j - 1);
      hide Next, Enabled, IsRun, SystemInv, Taken, BoundAt, BoundTo;
      forall account ensures BoundTo(run, sid, account, j) <==> BoundTo(run, sid, account, j - 1) || BoundAt(run, sid, account, j - 1) {
        BoundToStep(run, sid, account, j - 1);
      }
      var y, e := run.systems[j - 1], run.events[j - 1];
      if sid in y.engine.sessions {
        BindingRemembered(providers, run, sid, j - 1);
        OneStepRemembers(providers, run, sid, j - 1);
      } else {
        FirstRemembers(providers, run, sid, j - 1);
      }
    }
  }

  lemma FirstRemembers(providers: map<Id, string>, run: Run, sid: Id, j: nat)
    requires IsRun(providers, run) && j + 1 < |run.systems| && sid !in run.systems[j].engine.sessions
    requires sid in run.systems[j + 1].engine.sessions
    ensures Remembers(run, sid, j + 1)
  {
    StepOfRun(providers, run, j);
    AppearsUnbound(providers, run.systems[j], run.events[j], sid);
    hide Next, Enabled, IsRun, Taken;
    var next := j + 1;
    forall account ensures !BoundTo(run, sid, account, next) {
      NotBoundBefore(providers, run, sid, account, j);
      BoundToStep(run, sid, account, j);
    }
  }

  lemma OneStepRemembers(providers: map<Id, string>, run: Run, sid: Id, j: nat)
    requires IsRun(providers, run) && j + 1 < |run.systems| && sid in run.systems[j].engine.sessions && Remembers(run, sid, j)
    ensures sid in run.systems[j + 1].engine.sessions && Remembers(run, sid, j + 1)
  {
    var y, e := run.systems[j], run.events[j];
    StepOfRun(providers, run, j);
    SystemAlong(providers, run, j);
    GrantIssued(y, sid);
    StepMoves(providers, y, e);
    StepKeepsBinding(providers, y, e, sid);
    if e.PrepareStep? {
      PrepareTakes(providers, y, e);
    }
    hide Next, Enabled, IsRun, SystemInv, Taken, BoundTo;
    if y.engine.sessions[sid].committing {
      StepKeepsTaken(providers, y, e, y.engine.sessions[sid].grant);
    }
    var next := j + 1;
    forall account
      ensures BoundTo(run, sid, account, next) <==>
                run.systems[next].engine.sessions[sid].committing && run.systems[next].engine.sessions[sid].account == account
    {
      BoundToStep(run, sid, account, j);
    }
  }

  /** The runtime hook for an account, over every run: it connects a session exactly if that is listed, pending,
      in time, and has been bound through a grant of this account; and it does nothing else. */
  lemma HookConnectsExactly(providers: map<Id, string>, run: Run, h: nat, sid: Id)
    requires IsRun(providers, run) && h < |run.events| && run.events[h].HookStep? && sid in run.systems[h].engine.sessions
    ensures var y, y' := run.systems[h], run.systems[h + 1];
            var before := y.engine.sessions[sid];
            && y' == y.(engine := y.engine.(sessions := y'.engine.sessions)) && y'.engine.sessions.Keys == y.engine.sessions.Keys
            && y'.engine.sessions[sid] ==
                 if sid in y.engine.listed && before.state.Pending? && y.now < before.expires
                    && BoundTo(run, sid, run.events[h].account, h)
                 then before.(state := Connected) else before
  {
    StepOfRun(providers, run, h);
    BindingRemembered(providers, run, sid, h);
    hide BoundTo, IsRun;
  }

  // Connected by another login's save.

  const OLD: Credential := Credential("i0", 0, 0, 0, "")
  const START: System :=
    System(Engine(map[], {}, Store(map["a" := Account("p", "claude", "me", "connected", 1, false)], map["a" := OLD],
                                   map[], map[], {"a", "i0"})), map[], 0)

  function Play(y: System, events: seq<Event>): Option<System> {
    if events == [] then Some(y)
    else
      var before, e := Play(y, events[..|events| - 1]), events[|events| - 1];
      if before.Some? && Enabled(OAuthSafety.PROVIDERS, before.value, e) then Some(Next(OAuthSafety.PROVIDERS, before.value, e)) else None
  }

  lemma PlayOn(y: System, events: seq<Event>, e: Event)
    requires Play(y, events).Some? && Enabled(OAuthSafety.PROVIDERS, Play(y, events).value, e)
    ensures Play(y, events + [e]) == Some(Next(OAuthSafety.PROVIDERS, Play(y, events).value, e))
  {
    assert (events + [e])[..|events|] == events;
  }

  /** What plays from a beginning is a run. */
  lemma {:induction false} PlayedIsRun(y: System, events: seq<Event>) returns (run: Run)
    requires Initial(y) && Play(y, events).Some?
    ensures IsRun(OAuthSafety.PROVIDERS, run) && |run.systems| == |events| + 1 && run.systems[0] == y && run.events == events
    ensures forall i :: 0 <= i <= |events| ==> Play(y, events[..i]) == Some(run.systems[i])
    decreases |events|
  {
    hide Enabled, Next, Initial;
    assert events[..|events|] == events;
    if events == [] {
      run := Run([y], []);
    } else {
      var front, e := events[..|events| - 1], events[|events| - 1];
      var shorter := PlayedIsRun(y, front);
      assert front[..|front|] == front;
      run := Run(shorter.systems + [Play(y, events).value], events);
      Longer(shorter, run, e);
      hide Play, IsRun;
      forall i | 0 <= i < |events| ensures Play(y, events[..i]) == Some(run.systems[i]) {
        assert front[..i] == events[..i];
      }
    }
  }

  lemma Longer(run: Run, longer: Run, e: Event)
    requires IsRun(OAuthSafety.PROVIDERS, run) && Enabled(OAuthSafety.PROVIDERS, run.systems[|run.events|], e)
    requires longer == Run(run.systems + [Next(OAuthSafety.PROVIDERS, run.systems[|run.events|], e)], run.events + [e])
    ensures IsRun(OAuthSafety.PROVIDERS, longer)
  {
    hide Enabled, Next, Initial;
    forall i | 0 <= i < |longer.events|
      ensures Enabled(OAuthSafety.PROVIDERS, longer.systems[i], longer.events[i])
              && longer.systems[i + 1] == Next(OAuthSafety.PROVIDERS, longer.systems[i], longer.events[i])
    {
      assert i < |run.events| ==> longer.events[i] == run.events[i];
    }
  }

  function Relogin(bound: bool, incarnation: Id): Grant {
    Grant("p", "a", "claude", 1, GRANT_LIFETIME, bound, if bound then incarnation else "")
  }

  function LoginOf(grant: Id, committing: bool, state: LoginState): Session {
    Session("p", "a", state, SESSION_LIFETIME, 0, "claude", grant, "", false, committing)
  }

  function Auth2(login: Id): Auth {
    Auth("a", "claude", "me", false, "p", login, 0, 0, 0, "")
  }

  const READ: Event := StoreStep(OAuthRuns.Read("t", "p", "a", "claude"))
  const GRANTS: seq<Event> :=
    [] + [READ] + [StoreStep(OAuthRuns.Issue("t", "g1"))] + [READ] + [StoreStep(OAuthRuns.Issue("t", "g2"))]
  const SESSIONS: seq<Event> :=
    GRANTS + [Event.Start("s1", "p", "a", 0, "claude", "g1", [])] + [Event.Start("s2", "p", "a", 0, "claude", "g2", [])]
  const BOUND: seq<Event> :=
    SESSIONS + [PrepareStep("s1", "claude", "b1", "i1")] + [PrepareStep("s2", "claude", "b2", "i2")]
  const SAVED: seq<Event> := BOUND + [StoreStep(OAuthRuns.Save(Auth2("i2")))] + [HookStep("a")]

  lemma PlayGrants()
    ensures Play(START, GRANTS) == Some(START.(engine := START.engine.(store := START.engine.store.(
              grants := map["g1" := Relogin(false, ""), "g2" := Relogin(false, "")], issued := {"a", "i0", "g1", "g2"}))))
  {
    assert Play(START, []) == Some(START);
    hide Play;
    PlayOn(START, [], READ);
    PlayOn(START, [] + [READ], StoreStep(OAuthRuns.Issue("t", "g1")));
    PlayOn(START, [] + [READ] + [StoreStep(OAuthRuns.Issue("t", "g1"))], READ);
    PlayOn(START, [] + [READ] + [StoreStep(OAuthRuns.Issue("t", "g1"))] + [READ], StoreStep(OAuthRuns.Issue("t", "g2")));
    var y := Play(START, GRANTS).value;
    assert y.pending == map[] && y.engine.store.issued == {"a", "i0", "g1", "g2"};
    assert y.engine.store.grants == map["g1" := Relogin(false, ""), "g2" := Relogin(false, "")];
  }

  lemma PlaySessions()
    ensures Play(START, SESSIONS) == Some(System(Engine(
              map["s1" := LoginOf("g1", false, Pending), "s2" := LoginOf("g2", false, Pending)], {"s1", "s2"},
              START.engine.store.(grants := map["g1" := Relogin(false, ""), "g2" := Relogin(false, "")],
                                  issued := {"a", "i0", "g1", "g2"})), map[], 0))
  {
    PlayGrants();
    hide Play;
    PlayOn(START, GRANTS, Event.Start("s1", "p", "a", 0, "claude", "g1", []));
    PlayOn(START, GRANTS + [Event.Start("s1", "p", "a", 0, "claude", "g1", [])], Event.Start("s2", "p", "a", 0, "claude", "g2", []));
    var y := Play(START, SESSIONS).value;
    assert y.engine.listed == {"s1", "s2"};
    assert y.engine.sessions == map["s1" := LoginOf("g1", false, Pending), "s2" := LoginOf("g2", false, Pending)];
  }

  const HALF_BOUND: Store :=
    START.engine.store.(grants := map["g1" := Relogin(true, "i1"), "g2" := Relogin(false, "")], creation := map["a" := "g1"],
                        issued := {"a", "i0", "g1", "g2", "b1", "i1"})

  const BOUND_STORE: Store :=
    START.engine.store.(grants := map["g1" := Relogin(true, "i1"), "g2" := Relogin(true, "i2")], creation := map["a" := "g2"],
                        issued := {"a", "i0", "g1", "g2", "b1", "i1", "b2", "i2"})

  const SAVED_STORE: Store :=
    BOUND_STORE.(accounts := map["a" := Account("p", "claude", "me", "connected", 2, false)],
                 credentials := map["a" := Credential("i2", 0, 0, 0, "")],
                 grants := map["g1" := Relogin(true, "i1")], creation := map[])

  function Both(first: Session, second: Session, store: Store): System {
    System(Engine(map["s1" := first, "s2" := second], {"s1", "s2"}, store), map[], 0)
  }

  lemma PlayHalfBound()
    ensures Play(START, SESSIONS + [PrepareStep("s1", "claude", "b1", "i1")])
         == Some(Both(LoginOf("g1", true, Pending), LoginOf("g2", false, Pending), HALF_BOUND))
  {
    PlaySessions();
    hide Play;
    PlayOn(START, SESSIONS, PrepareStep("s1", "claude", "b1", "i1"));
    var y := Play(START, SESSIONS + [PrepareStep("s1", "claude", "b1", "i1")]).value;
    assert y.engine.store.creation == HALF_BOUND.creation && y.engine.store.issued == HALF_BOUND.issued;
    assert y.engine.store.grants == HALF_BOUND.grants;
    assert y.engine.sessions == map["s1" := LoginOf("g1", true, Pending), "s2" := LoginOf("g2", false, Pending)];
  }

  lemma PlayBound()
    ensures Play(START, BOUND) == Some(Both(LoginOf("g1", true, Pending), LoginOf("g2", true, Pending), BOUND_STORE))
  {
    PlayHalfBound();
    hide Play;
    PlayOn(START, SESSIONS + [PrepareStep("s1", "claude", "b1", "i1")], PrepareStep("s2", "claude", "b2", "i2"));
    var y := Play(START, BOUND).value;
    assert y.engine.store.creation == BOUND_STORE.creation && y.engine.store.issued == BOUND_STORE.issued;
    assert y.engine.store.grants == BOUND_STORE.grants;
    assert y.engine.sessions == map["s1" := LoginOf("g1", true, Pending), "s2" := LoginOf("g2", true, Pending)];
  }

  lemma PlaySave()
    ensures Play(START, BOUND + [StoreStep(OAuthRuns.Save(Auth2("i2")))])
         == Some(Both(LoginOf("g1", true, Pending), LoginOf("g2", true, Pending), SAVED_STORE))
  {
    PlayBound();
    hide Play;
    PlayOn(START, BOUND, StoreStep(OAuthRuns.Save(Auth2("i2"))));
    var t := Play(START, BOUND + [StoreStep(OAuthRuns.Save(Auth2("i2")))]).value.engine.store;
    assert t.accounts == SAVED_STORE.accounts && t.credentials == SAVED_STORE.credentials;
    assert t.grants == SAVED_STORE.grants && t.creation == SAVED_STORE.creation;
  }

  lemma PlaySaved()
    ensures Play(START, SAVED) == Some(Both(LoginOf("g1", true, Connected), LoginOf("g2", true, Connected), SAVED_STORE))
  {
    PlaySave();
    hide Play;
    PlayOn(START, BOUND + [StoreStep(OAuthRuns.Save(Auth2("i2")))], HookStep("a"));
    assert Play(START, SAVED).value.engine.sessions == map["s1" := LoginOf("g1", true, Connected), "s2" := LoginOf("g2", true, Connected)];
  }

  /** A run in which two logins of one account are bound and the second is saved: both sessions become
      connected, although the first login's grant is still there and its save is refused as replaced. */
  lemma ConnectedByAnother() returns (run: Run, sid: Id, a: Auth)
    ensures IsRun(OAuthSafety.PROVIDERS, run)
    ensures var y := run.systems[|run.events|];
            && sid in y.engine.sessions && y.engine.sessions[sid].state.Connected?
            && Open(y.engine.store, y.engine.sessions[sid].grant, a.login) && SaveOutcome(y.engine.store, a, y.now).Replaced?
  {
    sid, a := "s1", Auth2("i1");
    assert Initial(START);
    PlaySaved();
    hide Play, Initial;
    run := PlayedIsRun(START, SAVED);
    assert SAVED[..|SAVED|] == SAVED;
  }
}
