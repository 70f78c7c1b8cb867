/**
 Runs of the credential store: login starts, binds, cancellations, saves and disconnects in any
 interleaving, one critical section at a time.
 */
module OAuthRuns {
  import opened Wrappers
  import opened OAuthStore

  /** A login start that has read the account version and not yet taken the store's lock. */
  datatype Pending = Pending(provider: Id, account: Id, family: string, version: int)

  datatype World = World(store: Store, pending: map<Id, Pending>, now: int)

  datatype Event =
    | Tick(t: int)
    | Read(token: Id, provider: Id, account: Id, family: string)
    | Issue(token: Id, grant: Id)
    | Bind(grant: Id, family: string, newAccount: Id, incarnation: Id)
    | Cancel(grant: Id)
    | Save(auth: Auth)
    | Leave(provider: Id, account: Id)
    | Status(provider: Id, account: Id, status: string)
    | Restart

  predicate Enabled(providers: map<Id, string>, w: World, e: Event) {
    match e
    case Tick(t) => w.now <= t
    case Read(_, provider, account, family) => ReadVersion(providers, w.store, provider, account, family).Some?
    case Issue(token, grant) => token in w.pending && Fresh(w.store, grant)
    case Bind(grant, family, newAccount, incarnation) =>
      && CanBind(w.store, grant, family, w.now)
      && Fresh(w.store, newAccount) && Fresh(w.store, incarnation) && newAccount != incarnation
    case _ => true
  }

  function Next(providers: map<Id, string>, w: World, e: Event): World
    requires Enabled(providers, w, e)
  {
    match e
    case Tick(t) => w.(now := t)
    case Read(token, provider, account, family) =>
      var version := ReadVersion(providers, w.store, provider, account, family).value;
      w.(pending := w.pending[token := Pending(provider, account, family, version)])
    case Issue(token, grant) =>
      var p := w.pending[token];
      w.(store := AddGrant(w.store, grant, p.provider, p.account, p.family, p.version, w.now), pending := w.pending - {token})
    case Bind(grant, _, newAccount, incarnation) => w.(store := BindGrant(w.store, grant, newAccount, incarnation))
    case Cancel(grant) => w.(store := CancelGrant(w.store, grant))
    case Save(auth) => w.(store := SaveCredential(w.store, auth, w.now))
    case Leave(provider, account) => w.(store := Disconnect(w.store, provider, account))
    case Status(provider, account, status) => w.(store := SetStatus(w.store, provider, account, status))
    case Restart => World(Restarted(w.store), map[], w.now)
  }

  /** A restart forgets every login in progress and keeps the rows; a failed refresh sets a status; and time
      only passes. */
  lemma RestartAndStatus(providers: map<Id, string>, w: World, provider: Id, account: Id, status: string, t: int)
    ensures w.now <= t ==> Next(providers, w, Tick(t)) == World(w.store, w.pending, t)
    ensures var w' := Next(providers, w, Restart);
            && w'.store.grants == map[] && w'.store.creation == map[] && w'.pending == map[]
            && w'.store.accounts == w.store.accounts && w'.store.credentials == w.store.credentials && w'.now == w.now
    ensures var w' := Next(providers, w, Status(provider, account, status));
            && w' == w.(store := w.store.(accounts := w'.store.accounts)) && w'.store.accounts.Keys == w.store.accounts.Keys
            && forall id :: id in w.store.accounts ==>
                 w'.store.accounts[id] == if id == account && Owns(w.store, provider, id) && !w.store.accounts[id].disconnected
                                          then w.store.accounts[id].(status := status) else w.store.accounts[id]
  {
  }

  /** What no one can forbid: time, refreshes, disconnects and restarts are possible in every state. */
  lemma AlwaysOpen(providers: map<Id, string>, w: World, e: Event)
    requires e.Cancel? || e.Save? || e.Leave? || e.Status? || e.Restart? || (e.Tick? && w.now <= e.t)
    ensures Enabled(providers, w, e)
  {
  }

  // What every reachable store keeps.

  /** A credential row exists exactly for the accounts that are not disconnected. */
  ghost predicate RowsMatch(s: Store) {
    forall id :: id in s.credentials <==> id in s.accounts && !s.accounts[id].disconnected
  }

  ghost predicate AccountsKnown(s: Store) {
    && (forall id :: id in s.accounts ==> s.accounts[id].version >= 1 && id in s.issued)
    && (forall id :: id in s.credentials ==> s.credentials[id].login in s.issued)
    && "" !in s.accounts
  }

  /** A version read for an account is at most the account's version; a first login has no account
      yet, or one that no one else knows. */
  ghost predicate GrantKnown(s: Store, id: Id)
    requires id in s.grants
  {
    var g := s.grants[id];
    && id in s.issued
    && (g.bound ==> g.account != "" && g.incarnation in s.issued)
    && (if g.version == 0 then g.account !in s.accounts && (g.bound <==> g.account != "") && (g.bound ==> g.account in s.issued)
        else g.account in s.accounts && 1 <= g.version <= s.accounts[g.account].version)
  }

  ghost predicate GrantsApart(s: Store) {
    && (forall i, j :: i in s.grants && j in s.grants && s.grants[i].bound && s.grants[j].bound && i != j ==>
          && s.grants[i].incarnation != s.grants[j].incarnation
          && (s.grants[i].version == 0 ==> s.grants[i].account != s.grants[j].account))
    && (forall i, id :: i in s.grants && id in s.credentials && s.grants[i].bound ==>
          s.credentials[id].login != s.grants[i].incarnation)
  }

  ghost predicate CreationKnown(s: Store) {
    forall id :: id in s.creation && s.creation[id] in s.grants ==>
      s.grants[s.creation[id]].bound && s.grants[s.creation[id]].account == id
  }

  ghost predicate CreationIssued(s: Store) {
    forall id :: id in s.creation ==> s.creation[id] in s.issued
  }

  ghost predicate PendingKnown(w: World, token: Id)
    requires token in w.pending
  {
    var p := w.pending[token];
    if p.account == "" then p.version == 0
    else p.account in w.store.accounts && 1 <= p.version <= w.store.accounts[p.account].version
  }

  /** A store all of whose grants are known. */
  ghost predicate StoreInv(s: Store) {
    && RowsMatch(s) && AccountsKnown(s)
    && (forall id :: id in s.grants ==> GrantKnown(s, id))
    && GrantsApart(s) && CreationKnown(s) && CreationIssued(s)
  }

  ghost predicate Inv(w: World) {
    StoreInv(w.store) && forall token :: token in w.pending ==> PendingKnown(w, token)
  }

  /** The grant a save completes belongs to the saved account. */
  lemma CreatingGrant(s: Store, a: Auth, now: int)
    requires StoreInv(s) && Creating(s, a, now).Some?
    ensures var g := s.grants[Creating(s, a, now).value];
            && g.account == a.id && g.incarnation == a.login && a.login in s.issued && a.id in s.issued
            && (a.id in s.accounts <==> g.version >= 1)
  {
    assert GrantKnown(s, Creating(s, a, now).value);
  }

  lemma SavedRows(s: Store, a: Auth, now: int)
    requires StoreInv(s)
    ensures RowsInv(SaveCredential(s, a, now))
  {
    if Creating(s, a, now).Some? {
      CreatingGrant(s, a, now);
    }
  }

  /** The part of the invariant about accounts, credential rows and the creation map. */
  ghost predicate RowsInv(s: Store) {
    RowsMatch(s) && AccountsKnown(s) && CreationIssued(s)
  }

  lemma BindRows(s: Store, id: Id, newAccount: Id, incarnation: Id)
    requires RowsInv(s) && id in s.grants && GrantKnown(s, id)
    ensures RowsInv(BindGrant(s, id, newAccount, incarnation))
  {
  }

  lemma DisconnectRows(s: Store, provider: Id, id: Id)
    requires RowsInv(s)
    ensures RowsInv(Disconnect(s, provider, id))
  {
  }

  lemma OtherRows(s: Store, id: Id, provider: Id, account: Id, family: string, version: int, now: int, status: string)
    requires RowsInv(s)
    ensures RowsInv(AddGrant(s, id, provider, account, family, version, now))
    ensures RowsInv(CancelGrant(s, id))
    ensures RowsInv(SetStatus(s, provider, account, status))
  {
  }

  lemma RestartRows(s: Store)
    requires RowsInv(s)
    ensures RowsInv(Restarted(s))
  {
  }

  lemma InvRows(providers: map<Id, string>, w: World, e: Event)
    requires Inv(w) && Enabled(providers, w, e)
    ensures RowsInv(Next(providers, w, e).store)
  {
    assert RowsInv(w.store);
    hide RowsInv, SaveCredential, AddGrant, BindGrant, CancelGrant, Disconnect, SetStatus, Restarted;
    match e
    case Save(auth) =>
      SavedRows(w.store, auth, w.now);
    case Bind(grant, _, newAccount, incarnation) => BindRows(w.store, grant, newAccount, incarnation);
    case Leave(provider, account) => DisconnectRows(w.store, provider, account);
    case Issue(token, grant) =>
      var p := w.pending[token];
      OtherRows(w.store, grant, p.provider, p.account, p.family, p.version, w.now, "");
    case Cancel(grant) => OtherRows(w.store, grant, "", "", "", 0, w.now, "");
    case Status(provider, account, status) => OtherRows(w.store, "", provider, account, "", 0, w.now, status);
    case Restart => RestartRows(w.store);
    case _ =>
  }

  lemma GrantStaysKnown(s: Store, t: Store, id: Id)
    requires id in s.grants && GrantKnown(s, id) && id in t.grants && t.grants[id] == s.grants[id]
    requires s.issued <= t.issued
    requires s.grants[id].version == 0 ==> s.grants[id].account !in t.accounts
    requires s.grants[id].version >= 1 ==> s.grants[id].account in t.accounts
                                           && s.accounts[s.grants[id].account].version <= t.accounts[s.grants[id].account].version
    ensures GrantKnown(t, id)
  {
  }

  lemma SaveGrants(s: Store, a: Auth, now: int)
    requires StoreInv(s)
    ensures var t := SaveCredential(s, a, now); forall id :: id in t.grants ==> GrantKnown(t, id)
  {
    var t := SaveCredential(s, a, now);
    if Creating(s, a, now).Some? {
      CreatingGrant(s, a, now);
    }
    forall id | id in t.grants ensures GrantKnown(t, id) {
      assert GrantKnown(s, id);
      GrantStaysKnown(s, t, id);
    }
  }

  lemma BindGrants(s: Store, id: Id, newAccount: Id, incarnation: Id)
    requires StoreInv(s) && id in s.grants && !s.grants[id].bound && Fresh(s, newAccount) && Fresh(s, incarnation)
    ensures var t := BindGrant(s, id, newAccount, incarnation); forall i :: i in t.grants ==> GrantKnown(t, i)
  {
    var t := BindGrant(s, id, newAccount, incarnation);
    assert GrantKnown(s, id);
    forall i | i in t.grants ensures GrantKnown(t, i) {
      assert GrantKnown(s, i);
    }
  }

  lemma InvGrants(providers: map<Id, string>, w: World, e: Event)
    requires Inv(w) && Enabled(providers, w, e)
    ensures var s := Next(providers, w, e).store; forall id :: id in s.grants ==> GrantKnown(s, id)
  {
    match e
    case Save(auth) => SaveGrants(w.store, auth, w.now);
    case Bind(grant, _, newAccount, incarnation) => BindGrants(w.store, grant, newAccount, incarnation);
    case Restart =>
    case _ =>
      var s := Next(providers, w, e).store;
      forall id | id in s.grants ensures GrantKnown(s, id) {
        assert id in w.store.grants ==> GrantKnown(w.store, id);
      }
  }

  lemma SaveApart(s: Store, a: Auth, now: int)
    requires StoreInv(s)
    ensures var t := SaveCredential(s, a, now); GrantsApart(t) && CreationKnown(t)
  {
    if Creating(s, a, now).Some? {
      CreatingGrant(s, a, now);
    }
  }

  lemma BindApart(s: Store, id: Id, newAccount: Id, incarnation: Id)
    requires StoreInv(s) && id in s.grants && !s.grants[id].bound && Fresh(s, newAccount) && Fresh(s, incarnation)
    ensures var t := BindGrant(s, id, newAccount, incarnation); GrantsApart(t) && CreationKnown(t)
  {
    var t := BindGrant(s, id, newAccount, incarnation);
    forall i | i in s.grants ensures GrantKnown(s, i) {
    }
  }

  lemma InvApart(providers: map<Id, string>, w: World, e: Event)
    requires Inv(w) && Enabled(providers, w, e)
    ensures var s := Next(providers, w, e).store; GrantsApart(s) && CreationKnown(s)
  {
    match e
    case Save(auth) => SaveApart(w.store, auth, w.now);
    case Bind(grant, _, newAccount, incarnation) => BindApart(w.store, grant, newAccount, incarnation);
    case _ =>
  }

  lemma InvPending(providers: map<Id, string>, w: World, e: Event)
    requires Inv(w) && Enabled(providers, w, e)
    ensures var w' := Next(providers, w, e); forall token :: token in w'.pending ==> PendingKnown(w', token)
  {
  }

  lemma InvStep(providers: map<Id, string>, w: World, e: Event)
    requires Inv(w) && Enabled(providers, w, e)
    ensures Inv(Next(providers, w, e))
  {
    InvRows(providers, w, e);
    InvGrants(providers, w, e);
    InvApart(providers, w, e);
    InvPending(providers, w, e);
  }

  /** How a process begins: no login in progress, and rows that belong together. */
  ghost predicate Initial(w: World) {
    && w.store == Restarted(w.store) && w.pending == map[]
    && RowsMatch(w.store) && AccountsKnown(w.store)
  }

  lemma InitialInv(w: World)
    requires Initial(w)
    ensures Inv(w)
  {
  }

  const NEW: Store := Store(map[], map[], map[], map[], {})

  /** A new database is a beginning, and so is whatever a process leaves behind when it ends. */
  lemma Beginnings(now: int)
    ensures Initial(World(NEW, map[], now))
    ensures forall w :: Inv(w) ==> Initial(World(Restarted(w.store), map[], now))
  {
    assert Initial(World(NEW, map[], now));
  }

  datatype Run = Run(worlds: seq<World>, events: seq<Event>)

  ghost predicate IsRun(providers: map<Id, string>, run: Run) {
    && |run.worlds| == |run.events| + 1
    && Initial(run.worlds[0])
    && forall i {:trigger run.events[i]} :: 0 <= i < |run.events| ==>
         Enabled(providers, run.worlds[i], run.events[i])
         && run.worlds[i + 1] == Next(providers, run.worlds[i], run.events[i])
  }

  /** In every reachable world the invariant holds; in particular a credential row exists exactly for
      the accounts that are not disconnected. */
  lemma {:induction false} InvAlong(providers: map<Id, string>, run: Run, i: nat)
    requires IsRun(providers, run) && i < |run.worlds|
    ensures Inv(run.worlds[i])
    ensures forall id :: id in run.worlds[i].store.credentials <==>
              id in run.worlds[i].store.accounts && !run.worlds[i].store.accounts[id].disconnected
    decreases i
  {
    if 0 < i {
      hide Next;
      InvAlong(providers, run, i - 1);
      InvStep(providers, run.worlds[i - 1], run.events[i - 1]);
    } else {
      InitialInv(run.worlds[0]);
    }
  }

  /** The run with one more event. */
  function Extended(providers: map<Id, string>, run: Run, e: Event): (longer: Run)
    requires run.worlds != [] && Enabled(providers, run.worlds[|run.worlds| - 1], e)
  {
    Run(run.worlds + [Next(providers, run.worlds[|run.worlds| - 1], e)], run.events + [e])
  }

  lemma ExtendedIsRun(providers: map<Id, string>, run: Run, e: Event)
    requires IsRun(providers, run) && Enabled(providers, run.worlds[|run.worlds| - 1], e)
    ensures IsRun(providers, Extended(providers, run, e))
  {
    hide Enabled, Next;
    var longer := Extended(providers, run, e);
    forall i | 0 <= i < |longer.events|
      ensures Enabled(providers, longer.worlds[i], longer.events[i])
              && longer.worlds[i + 1] == Next(providers, longer.worlds[i], longer.events[i])
    {
      assert i < |run.events| ==> longer.events[i] == run.events[i];
    }
  }

  /** The event commits the login of a grant. */
  predicate Commits(w: World, e: Event, grant: Id) {
    e.Save? && Creating(w.store, e.auth, w.now) == Some(grant) && SaveOutcome(w.store, e.auth, w.now).Saved?
  }

  /** A login of a grant bound to the account is saved exactly if the account still points to the
      grant, in time, and at the version the login started from. */
  lemma GrantCommitsExactly(w: World, grant: Id, a: Auth)
    requires Inv(w) && grant in w.store.grants && w.store.grants[grant].bound
    requires a.id == w.store.grants[grant].account && a.login == w.store.grants[grant].incarnation && a.provider != ""
    ensures var g := w.store.grants[grant];
            SaveOutcome(w.store, a, w.now).Saved? <==>
              && a.id in w.store.creation && w.store.creation[a.id] == grant
              && w.now < g.expires && RowVersion(w.store, a) == g.version
  {
    assert GrantKnown(w.store, grant);
    if Creating(w.store, a, w.now).Some? {
      CreatingGrant(w.store, a, w.now);
    }
  }

  // Grants commit at most once.

  predicate Gone(w: World, grant: Id) {
    grant in w.store.issued && grant !in w.store.grants
  }

  lemma {:induction false} GoneForGood(providers: map<Id, string>, run: Run, grant: Id, i: nat, j: nat)
    requires IsRun(providers, run) && i <= j < |run.worlds| && Gone(run.worlds[i], grant)
    ensures Gone(run.worlds[j], grant)
    decreases j - i
  {
    if i < j {
      GoneForGood(providers, run, grant, i, j - 1);
      assert run.worlds[j - 1 + 1] == Next(providers, run.worlds[j - 1], run.events[j - 1]);
    }
  }

  lemma CommitStep(providers: map<Id, string>, w: World, e: Event, grant: Id)
    requires Inv(w) && Enabled(providers, w, e) && Commits(w, e, grant)
    ensures var w' := Next(providers, w, e);
            var g := w.store.grants[grant];
            && g.account == e.auth.id && Gone(w', grant)
            && g.account in w'.store.accounts && w'.store.accounts[g.account].version == g.version + 1
            && !w'.store.accounts[g.account].disconnected
  {
    CreatingGrant(w.store, e.auth, w.now);
    assert GrantKnown(w.store, grant);
  }

  /** No grant commits twice. */
  lemma CommitsOnce(providers: map<Id, string>, run: Run, grant: Id, i: nat, j: nat)
    requires IsRun(providers, run) && i <= j < |run.events|
    requires Commits(run.worlds[i], run.events[i], grant) && Commits(run.worlds[j], run.events[j], grant)
    ensures i == j
  {
    hide Next, Inv;
    InvAlong(providers, run, i);
    assert Enabled(providers, run.worlds[i], run.events[i]);
    CommitStep(providers, run.worlds[i], run.events[i], grant);
    if i < j {
      GoneForGood(providers, run, grant, i + 1, j);
    }
  }

  /** The events that count in an account's version: committed logins and disconnects. */
  predicate Lifecycle(w: World, e: Event, account: Id) {
    match e
    case Save(a) => a.id == account && SaveOutcome(w.store, a, w.now).Saved? && Creating(w.store, a, w.now).Some?
    case Leave(provider, id) => id == account && Owns(w.store, provider, id)
    case _ => false
  }

  function LifecycleEvents(run: Run, account: Id, i: nat, j: nat): nat
    requires i <= j <= |run.events| <= |run.worlds|
    decreases j
  {
    if i == j then 0
    else LifecycleEvents(run, account, i, j - 1) + if Lifecycle(run.worlds[j - 1], run.events[j - 1], account) then 1 else 0
  }

  lemma VersionStep(providers: map<Id, string>, w: World, e: Event, account: Id)
    requires Inv(w) && Enabled(providers, w, e)
    ensures var w' := Next(providers, w, e);
            if account in w.store.accounts then
              account in w'.store.accounts
              && w'.store.accounts[account].version
                 == w.store.accounts[account].version + if Lifecycle(w, e, account) then 1 else 0
            else account in w'.store.accounts ==> Lifecycle(w, e, account) && w'.store.accounts[account].version == 1
  {
    if e.Save? && Creating(w.store, e.auth, w.now).Some? {
      CreatingGrant(w.store, e.auth, w.now);
    }
  }

  /** An account appears with version 1, and from then on its version counts the committed logins and
      disconnects: refresh saves and status changes leave it alone. */
  lemma {:induction false} VersionCountsLifecycle(providers: map<Id, string>, run: Run, account: Id, i: nat, j: nat)
    requires IsRun(providers, run) && i <= j < |run.worlds| && account in run.worlds[i].store.accounts
    ensures account in run.worlds[j].store.accounts
    ensures run.worlds[j].store.accounts[account].version
         == run.worlds[i].store.accounts[account].version + LifecycleEvents(run, account, i, j)
    ensures 0 < i && account !in run.worlds[i - 1].store.accounts ==> run.worlds[i].store.accounts[account].version == 1
    decreases j - i
  {
    hide Next, Inv, Lifecycle;
    if i < j {
      VersionCountsLifecycle(providers, run, account, i, j - 1);
      InvAlong(providers, run, j - 1);
      assert run.worlds[j - 1 + 1] == Next(providers, run.worlds[j - 1], run.events[j - 1]);
      VersionStep(providers, run.worlds[j - 1], run.events[j - 1], account);
    } else if 0 < i {
      InvAlong(providers, run, i - 1);
      assert run.worlds[i - 1 + 1] == Next(providers, run.worlds[i - 1], run.events[i - 1]);
      VersionStep(providers, run.worlds[i - 1], run.events[i - 1], account);
    }
  }

  /** Of all grants issued for one account at one version, at most one ever commits. */
  lemma OneCommitPerVersion(providers: map<Id, string>, run: Run, first: Id, second: Id, i: nat, j: nat)
    requires IsRun(providers, run) && i <= j < |run.events|
    requires Commits(run.worlds[i], run.events[i], first) && Commits(run.worlds[j], run.events[j], second)
    requires run.worlds[i].store.grants[first].account == run.worlds[j].store.grants[second].account
    requires run.worlds[i].store.grants[first].version == run.worlds[j].store.grants[second].version
    ensures i == j && first == second
  {
    hide Next, RowsMatch, AccountsKnown, GrantKnown, GrantsApart, CreationKnown, CreationIssued, PendingKnown, Lifecycle;
    InvAlong(providers, run, i);
    InvAlong(providers, run, j);
    assert Enabled(providers, run.worlds[i], run.events[i]) && run.worlds[i + 1] == Next(providers, run.worlds[i], run.events[i]);
    CommitStep(providers, run.worlds[i], run.events[i], first);
    CreatingGrant(run.worlds[j].store, run.events[j].auth, run.worlds[j].now);
    if i < j {
      VersionCountsLifecycle(providers, run, run.events[i].auth.id, i + 1, j);
    }
  }
}
