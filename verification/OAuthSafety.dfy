/**
 Safety over whole runs of the credential store: what a disconnect bars, what a refresh may not undo,
 and what a cancelled login can no longer do.
 */
module OAuthSafety {
  import opened Wrappers
  import opened OAuthStore
  import opened OAuthRuns

  // After a disconnect, only a login whose version was read later can connect the account again.

  /** A login start read the version of the account at event r. */
  predicate ReadsAt(run: Run, account: Id, token: Id, r: nat) {
    r < |run.events| && run.events[r].Read? && run.events[r].token == token && run.events[r].account == account
  }

  predicate IssuesAt(run: Run, token: Id, grant: Id, k: nat) {
    k < |run.events| && run.events[k] == Issue(token, grant)
  }

  /** Between events `from` and `to`, the account's version was read and the grant issued for it. */
  ghost predicate ReadSince(run: Run, account: Id, token: Id, from: nat, to: nat) {
    exists r :: from <= r < to && ReadsAt(run, account, token, r)
  }

  ghost predicate IssuedSince(run: Run, account: Id, grant: Id, from: nat, to: nat) {
    exists token, k :: from <= k < to && IssuesAt(run, token, grant, k) && ReadSince(run, account, token, from, k)
  }

  ghost predicate ReconnectedSince(run: Run, account: Id, from: nat, to: nat)
    requires |run.events| <= |run.worlds|
  {
    exists grant, c :: from <= c < to && c < |run.events| && Commits(run.worlds[c], run.events[c], grant)
                       && run.events[c].auth.id == account && IssuedSince(run, account, grant, from, c)
  }

  /** Every login of the account that still has a chance (its version is at least the account's version
      after the disconnect) was read and issued since. */
  ghost predicate OnlyNewLogins(run: Run, account: Id, version: int, from: nat, to: nat)
    requires to < |run.worlds|
  {
    var w := run.worlds[to];
    && (forall token :: token in w.pending && w.pending[token].account == account && w.pending[token].version >= version ==>
          ReadSince(run, account, token, from, to))
    && (forall grant :: grant in w.store.grants && w.store.grants[grant].account == account && w.store.grants[grant].version >= version ==>
          IssuedSince(run, account, grant, from, to))
  }

  lemma SinceGrows(run: Run, account: Id, from: nat, to: nat)
    ensures forall token :: ReadSince(run, account, token, from, to) ==> ReadSince(run, account, token, from, to + 1)
    ensures forall grant :: IssuedSince(run, account, grant, from, to) ==> IssuedSince(run, account, grant, from, to + 1)
  {
  }

  lemma NewLoginsStep(providers: map<Id, string>, run: Run, account: Id, version: int, from: nat, to: nat)
    requires IsRun(providers, run) && from <= to < |run.events| && Inv(run.worlds[to])
    requires account in run.worlds[to].store.accounts && OnlyNewLogins(run, account, version, from, to) && version >= 1
    ensures OnlyNewLogins(run, account, version, from, to + 1)
  {
    var w, e, w' := run.worlds[to], run.events[to], run.worlds[to + 1];
    assert Enabled(providers, w, e) && w' == Next(providers, w, e);
    SinceGrows(run, account, from, to);
    LoginsFrom(providers, w, e, account);
    hide Next, Inv, IsRun;
    forall token | token in w'.pending && w'.pending[token].account == account && w'.pending[token].version >= version
      ensures ReadSince(run, account, token, from, to + 1)
    {
      if e.Read? && e.token == token {
        assert ReadsAt(run, account, token, to);
      }
    }
    forall grant | grant in w'.store.grants && w'.store.grants[grant].account == account
                   && w'.store.grants[grant].version >= version
      ensures IssuedSince(run, account, grant, from, to + 1)
    {
      if e.Issue? && e.grant == grant {
        assert IssuesAt(run, e.token, grant, to) && ReadSince(run, account, e.token, from, to);
      }
    }
  }

  /** Where the logins of a known account come from: an earlier state, or the event that starts them. */
  lemma LoginsFrom(providers: map<Id, string>, w: World, e: Event, account: Id)
    requires Inv(w) && Enabled(providers, w, e) && account in w.store.accounts
    ensures var w' := Next(providers, w, e);
            forall token :: token in w'.pending && w'.pending[token].account == account ==>
              (token in w.pending && w'.pending[token] == w.pending[token])
              || (e.Read? && e.token == token && e.account == account)
    ensures var w' := Next(providers, w, e);
            forall grant :: grant in w'.store.grants && w'.store.grants[grant].account == account && w'.store.grants[grant].version >= 1 ==>
              || (&& grant in w.store.grants && w.store.grants[grant].account == account
                  && w.store.grants[grant].version == w'.store.grants[grant].version)
              || (&& e.Issue? && e.grant == grant && e.token in w.pending && w.pending[e.token].account == account
                  && w.pending[e.token].version == w'.store.grants[grant].version)
  {
    hide RowsMatch, GrantsApart, CreationKnown, CreationIssued, PendingKnown;
    if e.Bind? {
      assert GrantKnown(w.store, e.grant);
    }
    hide GrantKnown;
  }

  lemma ReconnectStep(providers: map<Id, string>, run: Run, account: Id, version: int, from: nat, to: nat)
    requires IsRun(providers, run) && from <= to < |run.events| && Inv(run.worlds[to])
    requires account in run.worlds[to].store.accounts && OnlyNewLogins(run, account, version, from, to) && version >= 1
    requires run.worlds[to].store.accounts[account].disconnected && run.worlds[to].store.accounts[account].version >= version
    ensures account in run.worlds[to + 1].store.accounts
    ensures run.worlds[to + 1].store.accounts[account].disconnected || ReconnectedSince(run, account, from, to + 1)
  {
    var w, e := run.worlds[to], run.events[to];
    assert Enabled(providers, w, e) && run.worlds[to + 1] == Next(providers, w, e);
    if e.Save? && e.auth.id == account && SaveOutcome(w.store, e.auth, w.now).Saved? {
      var grant := Creating(w.store, e.auth, w.now).value;
      CreatingGrant(w.store, e.auth, w.now);
      assert Commits(w, e, grant) && IssuedSince(run, account, grant, from, to);
    }
  }

  /** The account is out, unless a login read and issued since has brought it back. */
  ghost predicate Barred(run: Run, account: Id, version: int, from: nat, to: nat)
    requires |run.events| <= |run.worlds| && to < |run.worlds|
  {
    var s := run.worlds[to].store;
    && account in s.accounts && s.accounts[account].version >= version
    && (s.accounts[account].disconnected || ReconnectedSince(run, account, from, to))
    && OnlyNewLogins(run, account, version, from, to)
  }

  lemma BarredStep(providers: map<Id, string>, run: Run, account: Id, version: int, from: nat, to: nat)
    requires IsRun(providers, run) && from <= to < |run.events| && Inv(run.worlds[to]) && version >= 1
    requires Barred(run, account, version, from, to)
    ensures Barred(run, account, version, from, to + 1)
  {
    assert Enabled(providers, run.worlds[to], run.events[to]) && run.worlds[to + 1] == Next(providers, run.worlds[to], run.events[to]);
    NewLoginsStep(providers, run, account, version, from, to);
    VersionStep(providers, run.worlds[to], run.events[to], account);
    if !ReconnectedSince(run, account, from, to) {
      ReconnectStep(providers, run, account, version, from, to);
    }
  }

  lemma BarredAtOnce(providers: map<Id, string>, run: Run, account: Id, d: nat)
    requires IsRun(providers, run) && d < |run.events| && Inv(run.worlds[d])
    requires run.events[d].Leave? && run.events[d].account == account
    requires Owns(run.worlds[d].store, run.events[d].provider, account)
    ensures Barred(run, account, run.worlds[d].store.accounts[account].version + 1, d + 1, d + 1)
  {
    assert Enabled(providers, run.worlds[d], run.events[d]) && run.worlds[d + 1] == Next(providers, run.worlds[d], run.events[d]);
    NothingNewYet(run.worlds[d], account);
  }

  lemma VersionPositive(w: World, account: Id)
    requires Inv(w) && account in w.store.accounts
    ensures w.store.accounts[account].version >= 1
  {
  }

  lemma {:induction false} BarredSince(providers: map<Id, string>, run: Run, account: Id, d: nat, j: nat)
    requires IsRun(providers, run) && d < j < |run.worlds|
    requires run.events[d].Leave? && run.events[d].account == account
    requires Owns(run.worlds[d].store, run.events[d].provider, account)
    ensures Barred(run, account, run.worlds[d].store.accounts[account].version + 1, d + 1, j)
    decreases j
  {
    hide Next, Inv, OnlyNewLogins, ReconnectedSince;
    InvAlong(providers, run, j - 1);
    if j == d + 1 {
      BarredAtOnce(providers, run, account, d);
    } else {
      BarredSince(providers, run, account, d, j - 1);
      InvAlong(providers, run, d);
      VersionPositive(run.worlds[d], account);
      BarredStep(providers, run, account, run.worlds[d].store.accounts[account].version + 1, d + 1, j - 1);
    }
  }

  /** After a disconnect (event d), at every later point the account is still disconnected and without
      a credential row, unless a login whose version was read after the disconnect has been issued a
      grant since and committed it. */
  lemma DisconnectHolds(providers: map<Id, string>, run: Run, account: Id, d: nat, j: nat)
    requires IsRun(providers, run) && d < j < |run.worlds|
    requires run.events[d].Leave? && run.events[d].account == account
    requires Owns(run.worlds[d].store, run.events[d].provider, account)
    ensures var s := run.worlds[j].store;
            account in s.accounts
            && ((s.accounts[account].disconnected && account !in s.credentials) || ReconnectedSince(run, account, d + 1, j))
  {
    BarredSince(providers, run, account, d, j);
    InvAlong(providers, run, j);
  }

  /** No login can already hold a version the account has yet to reach. */
  lemma NothingNewYet(w: World, account: Id)
    requires Inv(w) && account in w.store.accounts
    ensures forall token :: token in w.pending && w.pending[token].account == account ==>
              w.pending[token].version <= w.store.accounts[account].version
    ensures forall grant :: grant in w.store.grants && w.store.grants[grant].account == account ==>
              w.store.grants[grant].version <= w.store.accounts[account].version
  {
    forall token | token in w.pending && w.pending[token].account == account
      ensures w.pending[token].version <= w.store.accounts[account].version
    {
      assert PendingKnown(w, token);
    }
    forall grant | grant in w.store.grants && w.store.grants[grant].account == account
      ensures w.store.grants[grant].version <= w.store.accounts[account].version
    {
      assert GrantKnown(w.store, grant);
    }
  }

  // Within one login the stored credential never gets older.

  predicate NotOlder(a: Credential, b: Credential) {
    a.epoch < b.epoch || (a.epoch == b.epoch && (a.version < b.version || (a.version == b.version && a.generation <= b.generation)))
  }

  function RowOf(a: Auth): Credential {
    Credential(a.login, a.epoch, a.version, a.generation, a.payload)
  }

  /** The account of a record stands under its provider and is connected. */
  predicate Connects(s: Store, a: Auth) {
    a.id in s.accounts && s.accounts[a.id].provider == a.provider && !s.accounts[a.id].disconnected
  }

  /** A token refresh, which completes no grant, is saved exactly if its account is connected under its
      provider, the stored row comes from the same login, and that row is not newer. Otherwise it is told
      which of these failed. */
  lemma RefreshSavedExactly(w: World, a: Auth)
    requires Inv(w) && Creating(w.store, a, w.now).None? && a.id != "" && a.provider != ""
    ensures SaveOutcome(w.store, a.(id := ""), w.now).NoIdentity? && SaveOutcome(w.store, a.(provider := ""), w.now).NoProvider?
    ensures var outcome := SaveOutcome(w.store, a, w.now);
            && (outcome.Saved? <==> Connects(w.store, a) && w.store.credentials[a.id].login == a.login
                                    && NotOlder(w.store.credentials[a.id], RowOf(a)))
            && (outcome.Disconnected? <==> !Connects(w.store, a))
            && (outcome.Replaced? <==> Connects(w.store, a) && w.store.credentials[a.id].login != a.login)
            && (outcome.Stale? <==> Connects(w.store, a) && w.store.credentials[a.id].login == a.login
                                    && !NotOlder(w.store.credentials[a.id], RowOf(a)))
  {
  }

  /** What a saved record leaves: its row holds it, its account is connected under the name it gives; a refresh
      keeps the account's version and the logins in progress, a login counts its version up and is done. */
  lemma SaveStores(w: World, a: Auth)
    requires Inv(w) && SaveOutcome(w.store, a, w.now).Saved?
    ensures var s, t, grant := w.store, SaveCredential(w.store, a, w.now), Creating(w.store, a, w.now);
            && t.credentials == s.credentials[a.id := RowOf(a)]
            && t.accounts.Keys == s.accounts.Keys + {a.id} && Connects(t, a)
            && (forall id :: id in s.accounts && id != a.id ==> t.accounts[id] == s.accounts[id])
            && t.accounts[a.id].status == (if a.disabled then "disabled" else "connected")
            && t.accounts[a.id].display == (if a.display != "" then a.display else a.family + " account")
            && (a.id in s.accounts ==> t.accounts[a.id].family == s.accounts[a.id].family)
            && (a.id !in s.accounts ==> t.accounts[a.id].family == a.family)
            && match grant
               case None =>
                 t.accounts[a.id].version == s.accounts[a.id].version && t.grants == s.grants && t.creation == s.creation
               case Some(g) =>
                 && t.accounts[a.id].version == s.grants[g].version + 1
                 && t.grants == s.grants - {g} && t.creation == s.creation - {a.id}
  {
    if Creating(w.store, a, w.now).Some? {
      CreatingGrant(w.store, a, w.now);
    }
  }

  /** Right after its binding a login can be saved, in time and as long as the account is at its version. */
  lemma BoundLoginSaves(w: World, id: Id, newAccount: Id, incarnation: Id, a: Auth, now: int)
    requires Inv(w) && id in w.store.grants && CanBind(w.store, id, w.store.grants[id].family, w.now) && Fresh(w.store, newAccount) && Fresh(w.store, incarnation)
    requires newAccount != incarnation && a.provider != "" && a.login == incarnation
    requires a.id == if w.store.grants[id].account == "" then newAccount else w.store.grants[id].account
    ensures var s := BindGrant(w.store, id, newAccount, incarnation);
            now < w.store.grants[id].expires && RowVersion(s, a) == w.store.grants[id].version ==> SaveOutcome(s, a, now).Saved?
  {
    assert GrantKnown(w.store, id);
  }

  /** Right after a disconnect every save for the account is told so. */
  lemma DisconnectedIsTold(s: Store, provider: Id, id: Id, a: Auth, now: int)
    requires Owns(s, provider, id) && a.id == id && id != "" && a.provider != ""
    ensures SaveOutcome(Disconnect(s, provider, id), a, now).Disconnected?
  {
  }

  /** A login starts from the version of the provider's own account, or from 0 without an account, and only
      for a provider of its family. */
  lemma VersionReadExactly(providers: map<Id, string>, s: Store, provider: Id, account: Id, family: string, version: int)
    ensures ReadVersion(providers, s, provider, account, family) == Some(version)
       <==> && provider in providers && providers[provider] == family
            && if account == "" then version == 0 else Owns(s, provider, account) && s.accounts[account].version == version
  {
  }

  /** A failed refresh changes the status of a connected account of the provider, and nothing else. */
  lemma StatusTouchesConnected(s: Store, provider: Id, id: Id, status: string)
    ensures var t := SetStatus(s, provider, id, status);
            if Owns(s, provider, id) && !s.accounts[id].disconnected
            then t.accounts[id].status == status && t.(accounts := t.accounts[id := s.accounts[id]]) == s
            else t == s
  {
    if Owns(s, provider, id) {
      assert s.accounts[id := s.accounts[id].(status := status)][id := s.accounts[id]] == s.accounts;
    }
  }

  /** The login can never be stored for the account again. */
  ghost predicate Displaced(w: World, login: Id, account: Id) {
    && login in w.store.issued
    && (account in w.store.credentials ==> w.store.credentials[account].login != login)
    && (forall grant :: grant in w.store.grants && w.store.grants[grant].bound ==> w.store.grants[grant].incarnation != login)
  }

  lemma CredentialStep(providers: map<Id, string>, w: World, e: Event, account: Id, login: Id)
    requires Inv(w) && Enabled(providers, w, e)
    requires account in w.store.credentials && w.store.credentials[account].login == login
    ensures var w' := Next(providers, w, e);
            || Displaced(w', login, account)
            || (&& account in w'.store.credentials && w'.store.credentials[account].login == login
                && NotOlder(w.store.credentials[account], w'.store.credentials[account]))
  {
  }

  lemma DisplacedStep(providers: map<Id, string>, w: World, e: Event, account: Id, login: Id)
    requires Inv(w) && Enabled(providers, w, e) && Displaced(w, login, account)
    ensures Displaced(Next(providers, w, e), login, account)
  {
  }

  lemma {:induction false} LoginNeverReturns(providers: map<Id, string>, run: Run, account: Id, login: Id, i: nat, j: nat)
    requires IsRun(providers, run) && i <= j < |run.worlds|
    requires account in run.worlds[i].store.credentials && run.worlds[i].store.credentials[account].login == login
    ensures var w := run.worlds[j];
            || Displaced(w, login, account)
            || (&& account in w.store.credentials && w.store.credentials[account].login == login
                && NotOlder(run.worlds[i].store.credentials[account], w.store.credentials[account]))
    decreases j - i
  {
    hide Next, Inv, Displaced;
    if i < j {
      LoginNeverReturns(providers, run, account, login, i, j - 1);
      InvAlong(providers, run, j - 1);
      var w, e := run.worlds[j - 1], run.events[j - 1];
      assert Enabled(providers, w, e) && run.worlds[j - 1 + 1] == Next(providers, w, e);
      if Displaced(w, login, account) {
        DisplacedStep(providers, w, e, account, login);
      } else {
        CredentialStep(providers, w, e, account, login);
      }
    }
  }

  /** As long as an account's credential comes from one login, its registration epoch, credential version
      and generation never go back, even if the account was logged out or replaced in between. */
  lemma CredentialNeverOlder(providers: map<Id, string>, run: Run, account: Id, i: nat, j: nat)
    requires IsRun(providers, run) && i <= j < |run.worlds|
    requires account in run.worlds[i].store.credentials && account in run.worlds[j].store.credentials
    requires run.worlds[i].store.credentials[account].login == run.worlds[j].store.credentials[account].login
    ensures NotOlder(run.worlds[i].store.credentials[account], run.worlds[j].store.credentials[account])
  {
    LoginNeverReturns(providers, run, account, run.worlds[i].store.credentials[account].login, i, j);
  }

  // A cancelled login.

  /** The login is bound to no grant and stored for no account. */
  ghost predicate DeadLogin(w: World, login: Id) {
    && login in w.store.issued
    && (forall id :: id in w.store.credentials ==> w.store.credentials[id].login != login)
    && (forall grant :: grant in w.store.grants && w.store.grants[grant].bound ==> w.store.grants[grant].incarnation != login)
  }

  lemma DeadStep(providers: map<Id, string>, w: World, e: Event, login: Id)
    requires Inv(w) && Enabled(providers, w, e) && DeadLogin(w, login)
    ensures DeadLogin(Next(providers, w, e), login)
    ensures e.Save? && e.auth.login == login ==>
              !SaveOutcome(w.store, e.auth, w.now).Saved? && Next(providers, w, e) == w
  {
    if e.Save? && Creating(w.store, e.auth, w.now).Some? {
      CreatingGrant(w.store, e.auth, w.now);
    }
  }

  /** Cancelling a grant that is still open kills its login. */
  lemma CancelKills(w: World, grant: Id)
    requires Inv(w) && grant in w.store.grants
    ensures var s := CancelGrant(w.store, grant);
            && Gone(w.(store := s), grant)
            && (w.store.grants[grant].bound ==> DeadLogin(w.(store := s), w.store.grants[grant].incarnation))
  {
    assert GrantKnown(w.store, grant);
  }

  /** A bound grant stays as it is until it commits, is cancelled, or the process ends. */
  lemma OpenStep(providers: map<Id, string>, w: World, e: Event, grant: Id)
    requires Inv(w) && Enabled(providers, w, e) && grant in w.store.grants && w.store.grants[grant].bound
    requires e != Cancel(grant) && !e.Restart? && !Commits(w, e, grant)
    ensures var w' := Next(providers, w, e); grant in w'.store.grants && w'.store.grants[grant] == w.store.grants[grant]
  {
    assert GrantKnown(w.store, grant);
    hide Inv;
  }

  lemma {:induction false} DeadForGood(providers: map<Id, string>, run: Run, login: Id, i: nat, j: nat)
    requires IsRun(providers, run) && i <= j < |run.worlds| && DeadLogin(run.worlds[i], login)
    ensures DeadLogin(run.worlds[j], login)
    ensures j < |run.events| && run.events[j].Save? && run.events[j].auth.login == login ==>
              run.worlds[j + 1] == run.worlds[j]
    decreases j - i
  {
    hide Next, Inv, DeadLogin;
    InvAlong(providers, run, j);
    if i < j {
      DeadForGood(providers, run, login, i, j - 1);
      InvAlong(providers, run, j - 1);
      assert Enabled(providers, run.worlds[j - 1], run.events[j - 1])
        && run.worlds[j - 1 + 1] == Next(providers, run.worlds[j - 1], run.events[j - 1]);
      DeadStep(providers, run.worlds[j - 1], run.events[j - 1], login);
    }
    if j < |run.events| {
      assert Enabled(providers, run.worlds[j], run.events[j]) && run.worlds[j + 1] == Next(providers, run.worlds[j], run.events[j]);
      DeadStep(providers, run.worlds[j], run.events[j], login);
    }
  }

  /** Once an open grant is cancelled (event c), it never commits, and every later save by its login is
      refused and changes nothing: it cannot create, reconnect or overwrite any account. */
  lemma CancelledLoginIsPowerless(providers: map<Id, string>, run: Run, grant: Id, c: nat, j: nat)
    requires IsRun(providers, run) && c < j < |run.events|
    requires run.events[c] == Cancel(grant) && grant in run.worlds[c].store.grants
    ensures !Commits(run.worlds[j], run.events[j], grant)
    ensures var g := run.worlds[c].store.grants[grant];
            g.bound && run.events[j].Save? && run.events[j].auth.login == g.incarnation ==>
              run.worlds[j + 1] == run.worlds[j]
  {
    InvAlong(providers, run, c);
    assert Enabled(providers, run.worlds[c], run.events[c]) && run.worlds[c + 1] == Next(providers, run.worlds[c], run.events[c]);
    CancelKills(run.worlds[c], grant);
    GoneForGood(providers, run, grant, c + 1, j);
    if run.worlds[c].store.grants[grant].bound {
      DeadForGood(providers, run, run.worlds[c].store.grants[grant].incarnation, c + 1, j);
    }
  }

  // Cancelling one login can strand another.

  const PROVIDERS: map<Id, string> := map["p" := "claude"]

  /** Where the events lead to, if each can happen. */
  function Play(w: World, events: seq<Event>): Option<World> {
    if events == [] then Some(w)
    else
      var before, e := Play(w, events[..|events| - 1]), events[|events| - 1];
      if before.Some? && Enabled(PROVIDERS, before.value, e) then Some(Next(PROVIDERS, before.value, e)) else None
  }

  lemma PlayOn(w: World, events: seq<Event>, e: Event)
    requires Play(w, events).Some? && Enabled(PROVIDERS, Play(w, events).value, e)
    ensures Play(w, events + [e]) == Some(Next(PROVIDERS, Play(w, events).value, e))
  {
    assert (events + [e])[..|events|] == events;
  }

  /** What plays from a beginning is a run. */
  lemma {:induction false} PlayedIsRun(w: World, events: seq<Event>) returns (run: Run)
    requires Initial(w) && Play(w, events).Some?
    ensures IsRun(PROVIDERS, run) && |run.worlds| == |events| + 1 && run.worlds[0] == w && run.events == events
    ensures forall i :: 0 <= i <= |events| ==> Play(w, events[..i]) == Some(run.worlds[i])
    decreases |events|
  {
    hide Enabled, Next, Initial;
    assert events[..|events|] == events;
    if events == [] {
      run := Run([w], []);
    } else {
      var front, e := events[..|events| - 1], events[|events| - 1];
      var shorter := PlayedIsRun(w, front);
      assert front[..|front|] == front;
      ExtendedIsRun(PROVIDERS, shorter, e);
      run := Extended(PROVIDERS, shorter, e);
      hide Play, IsRun;
      forall i | 0 <= i < |events| ensures Play(w, events[..i]) == Some(run.worlds[i]) {
        assert front[..i] == events[..i];
      }
    }
  }

  const START: World := World(NEW, map[], 0)
  const LOGIN: seq<Event> := [Read("t", "p", "", "claude"), Issue("t", "g"), Bind("g", "claude", "a", "i")]
  const LEFT: seq<Event> := LOGIN + [Save(Auth("a", "claude", "me", false, "p", "i", 0, 0, 0, ""))] + [Leave("p", "a")]
  const TWO_GRANTS: seq<Event> := LEFT + [Read("t", "p", "a", "claude")] + [Issue("t", "g1")] + [Read("t", "p", "a", "claude")] + [Issue("t", "g2")]
  const TWO_LOGINS: seq<Event> := TWO_GRANTS + [Bind("g1", "claude", "b1", "i1")] + [Bind("g2", "claude", "b2", "i2")]

  const ACCOUNT: Account := Account("p", "claude", "me", "disconnected", 2, true)

  function Relogin(bound: bool, incarnation: Id): Grant {
    Grant("p", "a", "claude", 2, GRANT_LIFETIME, bound, if bound then incarnation else "")
  }

  /** A first login is bound. */
  lemma PlayLogin()
    ensures Play(START, LOGIN) == Some(World(Store(map[], map[], map["g" := Grant("p", "a", "claude", 0, GRANT_LIFETIME, true, "i")],
                                                   map["a" := "g"], {"g", "a", "i"}), map[], 0))
  {
    assert Play(START, []) == Some(START);
    hide Play;
    PlayOn(START, [], LOGIN[0]);
    PlayOn(START, [LOGIN[0]], LOGIN[1]);
    PlayOn(START, [LOGIN[0]] + [LOGIN[1]], LOGIN[2]);
    assert [] + [LOGIN[0]] == [LOGIN[0]] && [LOGIN[0]] + [LOGIN[1]] + [LOGIN[2]] == LOGIN;
    var w := Play(START, LOGIN).value;
    assert w.pending == map[] && w.store.accounts == map[] && w.store.creation == map["a" := "g"] && w.store.issued == {"g", "a", "i"};
    assert w.store.grants == map["g" := Grant("p", "a", "claude", 0, GRANT_LIFETIME, true, "i")];
  }

  /** It is saved, and the account disconnected. */
  lemma PlayLeft()
    ensures Play(START, LEFT) == Some(World(Store(map["a" := ACCOUNT], map[], map[], map[], {"g", "a", "i"}), map[], 0))
  {
    PlayLogin();
    hide Play;
    var save := Save(Auth("a", "claude", "me", false, "p", "i", 0, 0, 0, ""));
    PlayOn(START, LOGIN, save);
    PlayOn(START, LOGIN + [save], Leave("p", "a"));
    var w := Play(START, LEFT).value;
    assert w.store.accounts == map["a" := ACCOUNT] && w.store.credentials == map[];
    assert w.store.grants == map[] && w.store.creation == map[];
  }

  /** Two logins of the account start. */
  lemma PlayTwoGrants()
    ensures Play(START, TWO_GRANTS) == Some(World(Store(map["a" := ACCOUNT], map[], map["g1" := Relogin(false, ""), "g2" := Relogin(false, "")],
                                                        map[], {"g", "a", "i", "g1", "g2"}), map[], 0))
  {
    PlayLeft();
    hide Play;
    var read := Read("t", "p", "a", "claude");
    PlayOn(START, LEFT, read);
    PlayOn(START, LEFT + [read], Issue("t", "g1"));
    PlayOn(START, LEFT + [read] + [Issue("t", "g1")], read);
    PlayOn(START, LEFT + [read] + [Issue("t", "g1")] + [read], Issue("t", "g2"));
    var w := Play(START, TWO_GRANTS).value;
    assert w.pending == map[] && w.store.issued == {"g", "a", "i", "g1", "g2"};
    assert w.store.grants == map["g1" := Relogin(false, ""), "g2" := Relogin(false, "")];
  }

  /** Both are bound; the account points to the second. */
  lemma PlayTwoLogins()
    ensures Play(START, TWO_LOGINS) == Some(World(Store(map["a" := ACCOUNT], map[], map["g1" := Relogin(true, "i1"), "g2" := Relogin(true, "i2")],
                                                        map["a" := "g2"], {"g", "a", "i", "g1", "g2", "b1", "i1", "b2", "i2"}), map[], 0))
  {
    PlayTwoGrants();
    hide Play;
    PlayOn(START, TWO_GRANTS, Bind("g1", "claude", "b1", "i1"));
    PlayOn(START, TWO_GRANTS + [Bind("g1", "claude", "b1", "i1")], Bind("g2", "claude", "b2", "i2"));
    var w := Play(START, TWO_LOGINS).value;
    assert w.store.creation == map["a" := "g2"] && w.store.issued == {"g", "a", "i", "g1", "g2", "b1", "i1", "b2", "i2"};
    assert w.store.grants == map["g1" := Relogin(true, "i1"), "g2" := Relogin(true, "i2")];
  }

  /** The login of a grant is bound, in time, and current. */
  predicate Ready(w: World, grant: Id, a: Auth) {
    && grant in w.store.grants && w.store.grants[grant].bound && w.now < w.store.grants[grant].expires
    && a.id == w.store.grants[grant].account && a.login == w.store.grants[grant].incarnation
    && RowVersion(w.store, a) == w.store.grants[grant].version
  }

  /** A run from a new database: with two logins bound to one account, cancelling the first removes the
      creation entry of the second, whose save is then refused although it is as ready as before. */
  lemma CancelCanStrandAnother() returns (run: Run, first: Id, second: Id, a: Auth)
    ensures IsRun(PROVIDERS, run) && run.worlds[0].store == NEW && run.events != []
    ensures run.events[|run.events| - 1] == Cancel(first) && first != second
    ensures var before, after := run.worlds[|run.events| - 1], run.worlds[|run.events|];
            && Ready(before, second, a) && SaveOutcome(before.store, a, before.now).Saved?
            && Ready(after, second, a) && !SaveOutcome(after.store, a, after.now).Saved?
  {
    first, second, a := "g1", "g2", Auth("a", "claude", "me", false, "p", "i2", 0, 0, 0, "");
    Beginnings(0);
    PlayTwoLogins();
    hide Play, Initial, IsRun;
    PlayOn(START, TWO_LOGINS, Cancel(first));
    var events := TWO_LOGINS + [Cancel(first)];
    run := PlayedIsRun(START, events);
    assert events[..|events| - 1] == TWO_LOGINS && events[..|events|] == events;
  }
}
