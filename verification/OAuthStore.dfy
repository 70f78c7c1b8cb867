/**
 OAuth accounts and credentials: login grants, and the saves, cancellations and disconnects that
 race with them. Each function below is one critical section of the store.
 */
module OAuthStore {
  import opened Wrappers

  type Id = string

  /** A login in progress. `account` is empty until a first login is bound; `version` is the account
      version read when the login started, 0 for a first login. */
  datatype Grant = Grant(provider: Id, account: Id, family: string, version: int, expires: int,
                         bound: bool, incarnation: Id)

  datatype Account = Account(provider: Id, family: string, display: string, status: string,
                             version: int, disconnected: bool)

  /** A stored credential row; `login` is the incarnation of the login it came from. */
  datatype Credential = Credential(login: Id, epoch: nat, version: nat, generation: nat, payload: string)

  /** What the SDK hands over: `family` is its provider kind, `provider` and `login` are the attributes
      the store wrote when it bound the login. */
  datatype Auth = Auth(id: Id, family: string, display: string, disabled: bool, provider: Id, login: Id,
                       epoch: nat, version: nat, generation: nat, payload: string)

  /** `issued` holds every random id handed out so far. */
  datatype Store = Store(accounts: map<Id, Account>, credentials: map<Id, Credential>,
                         grants: map<Id, Grant>, creation: map<Id, Id>, issued: set<Id>)

  const GRANT_LIFETIME: int := 15 * 60

  datatype Outcome = Saved | NoIdentity | NoProvider | Superseded | Disconnected | NoCredential | Replaced | Stale

  predicate Fresh(s: Store, id: Id) {
    id != "" && id !in s.issued
  }

  /** The account version a login starts from, read before the store is locked. */
  function ReadVersion(providers: map<Id, string>, s: Store, provider: Id, account: Id, family: string): Option<int> {
    if provider !in providers || providers[provider] != family then None
    else if account == "" then Some(0)
    else if account in s.accounts && s.accounts[account].provider == provider then Some(s.accounts[account].version)
    else None
  }

  function AddGrant(s: Store, id: Id, provider: Id, account: Id, family: string, version: int, now: int): Store {
    s.(grants := s.grants[id := Grant(provider, account, family, version, now + GRANT_LIFETIME, false, "")],
       issued := s.issued + {id})
  }

  predicate CanBind(s: Store, id: Id, family: string, now: int) {
    id in s.grants && !s.grants[id].bound && now <= s.grants[id].expires && s.grants[id].family == family
  }

  function BoundGrant(g: Grant, newAccount: Id, incarnation: Id): Grant {
    g.(account := if g.account == "" then newAccount else g.account, bound := true, incarnation := incarnation)
  }

  function BindGrant(s: Store, id: Id, newAccount: Id, incarnation: Id): Store
    requires id in s.grants
  {
    var g := BoundGrant(s.grants[id], newAccount, incarnation);
    s.(grants := s.grants[id := g], creation := s.creation[g.account := id],
       issued := s.issued + {newAccount, incarnation})
  }

  /** Forgets a grant, and whichever creation entry its account has. */
  function CancelGrant(s: Store, id: Id): Store {
    if id !in s.grants then s
    else s.(grants := s.grants - {id}, creation := s.creation - {s.grants[id].account})
  }

  /** The grant that a save completes, if any. */
  function Creating(s: Store, a: Auth, now: int): Option<Id> {
    if a.id !in s.creation || s.creation[a.id] !in s.grants then None
    else
      var g := s.grants[s.creation[a.id]];
      if g.bound && g.incarnation == a.login && now < g.expires then Some(s.creation[a.id]) else None
  }

  /** The row a save sees: its account under its own provider. */
  predicate HasRow(s: Store, a: Auth) {
    a.id in s.accounts && s.accounts[a.id].provider == a.provider
  }

  function RowVersion(s: Store, a: Auth): int {
    if HasRow(s, a) then s.accounts[a.id].version else 0
  }

  /** Older in the order of registration epoch, then credential version, then generation. */
  predicate Older(a: Auth, c: Credential) {
    a.epoch < c.epoch || (a.epoch == c.epoch && (a.version < c.version || (a.version == c.version && a.generation < c.generation)))
  }

  function SaveOutcome(s: Store, a: Auth, now: int): Outcome {
    if a.id == "" then NoIdentity
    else if a.provider == "" then NoProvider
    else
      match Creating(s, a, now)
      case Some(id) => if RowVersion(s, a) != s.grants[id].version then Superseded else Saved
      case None =>
        if !HasRow(s, a) || s.accounts[a.id].disconnected then Disconnected
        else if a.id !in s.credentials then NoCredential
        else if s.credentials[a.id].login != a.login then Replaced
        else if Older(a, s.credentials[a.id]) then Stale
        else Saved
  }

  function SavedAccount(s: Store, a: Auth, lifecycle: int): Account {
    var display := if a.display == "" then a.family + " account" else a.display;
    var status := if a.disabled then "disabled" else "connected";
    if a.id in s.accounts then
      s.accounts[a.id].(display := display, status := status, version := s.accounts[a.id].version + lifecycle, disconnected := false)
    else Account(a.provider, a.family, display, status, 1, false)
  }

  function SaveCredential(s: Store, a: Auth, now: int): Store {
    if !SaveOutcome(s, a, now).Saved? then s
    else
      var grant := Creating(s, a, now);
      var account := SavedAccount(s, a, if grant.Some? then 1 else 0);
      var t := s.(accounts := s.accounts[a.id := account],
                  credentials := s.credentials[a.id := Credential(a.login, a.epoch, a.version, a.generation, a.payload)]);
      if grant.Some? then t.(creation := t.creation - {a.id}, grants := t.grants - {grant.value}) else t
  }

  predicate Owns(s: Store, provider: Id, id: Id) {
    id in s.accounts && s.accounts[id].provider == provider
  }

  function Disconnect(s: Store, provider: Id, id: Id): Store {
    if !Owns(s, provider, id) then s
    else
      var account := s.accounts[id];
      s.(accounts := s.accounts[id := account.(disconnected := true, status := "disconnected", version := account.version + 1)],
         credentials := s.credentials - {id},
         creation := s.creation - {id})
  }

  /** The status a failed token refresh leaves on a connected account. */
  function SetStatus(s: Store, provider: Id, id: Id, status: string): Store {
    if !Owns(s, provider, id) || s.accounts[id].disconnected then s
    else s.(accounts := s.accounts[id := s.accounts[id].(status := status)])
  }

  /** A restart keeps the tables and forgets the logins in progress. */
  function Restarted(s: Store): Store {
    s.(grants := map[], creation := map[])
  }

  /** The store as it runs: maps and table rows updated in place. Random ids come from the caller. */
  class CredentialStore {
    var accounts: map<Id, Account>
    var credentials: map<Id, Credential>
    var grants: map<Id, Grant>
    var creation: map<Id, Id>
    ghost var issued: set<Id>

    /** Opens the store over the rows it finds. */
    constructor (accounts: map<Id, Account>, credentials: map<Id, Credential>, ghost issued: set<Id>)
      ensures State() == Store(accounts, credentials, map[], map[], issued)
      ensures State() == Restarted(State())
    {
      this.accounts, this.credentials, this.grants, this.creation := accounts, credentials, map[], map[];
      this.issued := issued;
    }

    ghost function State(): Store
      reads this
    {
      Store(accounts, credentials, grants, creation, issued)
    }

    method NewGrant(id: Id, provider: Id, account: Id, family: string, version: int, now: int)
      requires Fresh(State(), id)
      modifies this
      ensures State() == AddGrant(old(State()), id, provider, account, family, version, now)
      ensures forall t, f :: CanBind(State(), id, f, t) <==> f == family && t <= now + 900
      ensures grants[id].version == version && grants[id].account == account && grants[id].provider == provider
    {
      grants := grants[id := Grant(provider, account, family, version, now + GRANT_LIFETIME, false, "")];
      issued := issued + {id};
    }

    /** Binds a grant to an SDK record, giving it an account id and a login incarnation. */
    method Bind(id: Id, a: Auth, newAccount: Id, incarnation: Id, now: int) returns (bound: Option<Auth>)
      requires Fresh(State(), newAccount) && Fresh(State(), incarnation) && newAccount != incarnation
      modifies this
      ensures bound.Some? <==> CanBind(old(State()), id, a.family, now)
      ensures bound.Some? <==> id in old(grants) && !old(grants)[id].bound && now <= old(grants)[id].expires
                               && old(grants)[id].family == a.family
      ensures bound.None? ==> State() == old(State())
      ensures bound.Some? ==>
                && bound.value.id == (if old(grants)[id].account != "" then old(grants)[id].account else newAccount)
                && bound.value.id in creation && creation[bound.value.id] == id && id in grants && grants[id].account == bound.value.id
      ensures bound.Some? ==>
                && State() == BindGrant(old(State()), id, newAccount, incarnation)
                && var g := grants[id]; bound.value == a.(id := g.account, provider := g.provider, login := incarnation)
    {
      if id !in grants || grants[id].bound || now > grants[id].expires || a.family != grants[id].family {
        return None;
      }
      var g := grants[id];
      if g.account == "" {
        g := g.(account := newAccount);
      }
      g := g.(incarnation := incarnation);
      g := g.(bound := true);
      grants := grants[id := g];
      creation := creation[g.account := id];
      issued := issued + {newAccount, incarnation};
      return Some(a.(id := g.account, provider := g.provider, login := incarnation));
    }

    method Cancel(id: Id)
      modifies this
      ensures State() == CancelGrant(old(State()), id)
      ensures forall a, t :: Creating(State(), a, t) != Some(id)
    {
      if id in grants {
        creation := creation - {grants[id].account};
      }
      grants := grants - {id};
    }

    method UpsertAccount(a: Auth, lifecycleChange: int)
      modifies this`accounts
      ensures accounts == old(accounts)[a.id := SavedAccount(old(State()), a, lifecycleChange)]
      ensures !accounts[a.id].disconnected
      ensures accounts[a.id].version == if a.id in old(accounts) then old(accounts)[a.id].version + lifecycleChange else 1
    {
      var display := if a.display == "" then a.family + " account" else a.display;
      var status := if a.disabled then "disabled" else "connected";
      if a.id in accounts {
        var row := accounts[a.id];
        accounts := accounts[a.id := row.(display := display, status := status, version := row.version + lifecycleChange,
                                          disconnected := false)];
      } else {
        accounts := accounts[a.id := Account(a.provider, a.family, display, status, 1, false)];
      }
    }

    /** Saves a login or a token refresh. */
    method Save(a: Auth, now: int) returns (outcome: Outcome)
      modifies this
      ensures outcome == SaveOutcome(old(State()), a, now)
      ensures State() == SaveCredential(old(State()), a, now)
    {
      if a.id == "" {
        return NoIdentity;
      }
      if a.provider == "" {
        return NoProvider;
      }
      var grantID := if a.id in creation then creation[a.id] else "";
      var creating := a.id in creation && grantID in grants && grants[grantID].bound
                      && grants[grantID].incarnation == a.login && now < grants[grantID].expires;
      var found := a.id in accounts && accounts[a.id].provider == a.provider;
      var version := if found then accounts[a.id].version else 0;
      if creating {
        if version != grants[grantID].version {
          return Superseded;
        }
      } else if !found || accounts[a.id].disconnected {
        return Disconnected;
      }
      if found && !creating {
        if a.id !in credentials {
          return NoCredential;
        }
        if credentials[a.id].login != a.login {
          return Replaced;
        }
        var prev := credentials[a.id];
        if a.epoch < prev.epoch || (a.epoch == prev.epoch &&
           (a.version < prev.version || (a.version == prev.version && a.generation < prev.generation))) {
          return Stale;
        }
      }
      UpsertAccount(a, if creating then 1 else 0);
      credentials := credentials[a.id := Credential(a.login, a.epoch, a.version, a.generation, a.payload)];
      if creating {
        creation := creation - {a.id};
        grants := grants - {grantID};
      }
      return Saved;
    }

    method DisconnectAccount(provider: Id, id: Id) returns (found: bool)
      modifies this
      ensures found == Owns(old(State()), provider, id)
      ensures State() == Disconnect(old(State()), provider, id)
      ensures found ==> accounts[id].disconnected && accounts[id].status == "disconnected"
      ensures found == (id in old(accounts) && old(accounts)[id].provider == provider)
    {
      if id !in accounts || accounts[id].provider != provider {
        return false;
      }
      var row := accounts[id];
      accounts := accounts[id := row.(disconnected := true, status := "disconnected", version := row.version + 1)];
      credentials := credentials - {id};
      creation := creation - {id};
      return true;
    }
  }
}
