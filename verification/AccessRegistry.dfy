/**
  The access registry of src/config.rs: what its validator accepts, and what acceptance buys.
  A registry that passes names every Ozon account by selectors that nobody else answers to.
  Error messages are left out: a validator answers whether the registry is accepted.
 */
module AccessRegistry {
  import opened Common
  import opened Decimal

  datatype Marketplace = OzonMarket | WildberriesMarket

  datatype Oidc = Oidc(subject: Option<string>, username: Option<string>, email: Option<string>)
  datatype Actor = Actor(id: string, accountIds: set<string>, oidc: Option<Oidc>)

  datatype Performance = Performance(clientIdEnv: string, clientSecretEnv: string, executorSha256: Option<string>)
  datatype Ozon = Ozon(storeId: string, clientIdEnv: string, apiKeyEnv: string, performance: Option<Performance>)
  datatype Wildberries = Wildberries(apiTokenEnv: string, sellerSid: Option<string>)
  datatype Account = Account(id: string, marketplace: Marketplace, sellerClientId: string, managerId: string,
                             ozon: Option<Ozon>, wildberries: Option<Wildberries>)

  datatype Registry = Registry(version: nat, actors: seq<Actor>, accounts: seq<Account>)

  // ----- Field grammars -----

  const MAX_IDENTIFIER_BYTES: nat := 128
  const MAX_ENV_NAME_BYTES: nat := 128

  predicate IsUpper(c: char) { 'A' <= c <= 'Z' }
  predicate IsLower(c: char) { 'a' <= c <= 'z' }

  predicate IsBoundedAscii(value: string, punctuation: string)
  {
    && 0 < |value| <= MAX_IDENTIFIER_BYTES
    && forall i :: 0 <= i < |value| ==> IsDigit(value[i]) || IsUpper(value[i]) || IsLower(value[i]) || value[i] in punctuation
  }

  predicate IsAccountId(value: string) { IsBoundedAscii(value, "_-") }
  predicate IsActorId(value: string) { IsBoundedAscii(value, "._:@-") }

  predicate IsEnvName(value: string)
  {
    && 0 < |value| <= MAX_ENV_NAME_BYTES
    && !IsDigit(value[0])
    && forall i :: 0 <= i < |value| ==> IsDigit(value[i]) || IsUpper(value[i]) || value[i] == '_'
  }

  predicate IsHex(c: char) { IsDigit(c) || 'a' <= c <= 'f' }

  predicate IsSha256(value: string)
  {
    |value| == 64 && forall i :: 0 <= i < 64 ==> IsHex(value[i])
  }

  predicate IsCanonicalUuid(value: string)
  {
    && |value| == 36
    && value != "00000000-0000-0000-0000-000000000000"
    && forall i :: 0 <= i < 36 ==> if i in {8, 13, 18, 23} then value[i] == '-' else IsHex(value[i])
  }

  /** The characters that `str::trim` removes. */
  predicate IsWhitespace(c: char)
  {
    || '\U{0009}' <= c <= '\U{000D}' || c == ' ' || c == '\U{0085}' || c == '\U{00A0}' || c == '\U{1680}'
    || '\U{2000}' <= c <= '\U{200A}' || c == '\U{2028}' || c == '\U{2029}' || c == '\U{202F}'
    || c == '\U{205F}' || c == '\U{3000}'
  }

  predicate IsBlank(value: string)
  {
    forall i :: 0 <= i < |value| ==> IsWhitespace(value[i])
  }

  // ----- Projections that must be unique -----

  function ActorId(a: Actor): (id: Option<string>) { Some(a.id) }
  function AccountId(a: Account): (id: Option<string>) { Some(a.id) }
  function Store(a: Account): (id: Option<string>) { if a.ozon.Some? then Some(a.ozon.value.storeId) else None }
  function SellerSid(a: Account): (id: Option<string>) { if a.wildberries.Some? then a.wildberries.value.sellerSid else None }
  function Executor(a: Account): (id: Option<string>)
  {
    if a.ozon.Some? && a.ozon.value.performance.Some? then a.ozon.value.performance.value.executorSha256 else None
  }
  function Subject(a: Actor): (id: Option<string>) { if a.oidc.Some? then a.oidc.value.subject else None }
  function Username(a: Actor): (id: Option<string>) { if a.oidc.Some? then a.oidc.value.username else None }
  function Email(a: Actor): (id: Option<string>) { if a.oidc.Some? then a.oidc.value.email else None }

  /** No two places of a list carry the same value of an optional field. */
  ghost predicate UniqueOn<T(!new)>(s: seq<T>, field: T -> Option<string>)
  {
    forall i, j :: 0 <= i < j < |s| && field(s[i]).Some? ==> field(s[i]) != field(s[j])
  }

  ghost function Values<T>(s: seq<T>, field: T -> Option<string>): (values: set<string>)
  {
    set i | 0 <= i < |s| && field(s[i]).Some? :: field(s[i]).value
  }

  // ----- What a sound registry is -----

  ghost predicate OzonFieldsOk(account: Account, ozon: Ozon)
  {
    && account.marketplace == OzonMarket
    && !IsBlank(ozon.storeId) && IsEnvName(ozon.clientIdEnv) && IsEnvName(ozon.apiKeyEnv)
    && (ozon.performance.Some? ==>
          && IsEnvName(ozon.performance.value.clientIdEnv) && IsEnvName(ozon.performance.value.clientSecretEnv)
          && (ozon.performance.value.executorSha256.Some? ==> IsSha256(ozon.performance.value.executorSha256.value)))
  }

  ghost predicate WildberriesFieldsOk(account: Account, wildberries: Wildberries)
  {
    && account.marketplace == WildberriesMarket
    && IsEnvName(wildberries.apiTokenEnv)
    && (wildberries.sellerSid.Some? ==> IsCanonicalUuid(wildberries.sellerSid.value))
  }

  ghost predicate AccountOk(account: Account, actorIds: set<string>)
  {
    && account.managerId in actorIds
    && !(account.ozon.Some? && account.wildberries.Some?)
    && (account.ozon.Some? ==> OzonFieldsOk(account, account.ozon.value))
    && (account.wildberries.Some? ==> WildberriesFieldsOk(account, account.wildberries.value))
  }

  /** No store id is the id of a different account, of whatever marketplace. */
  ghost predicate StoresAreNotForeignIds(accounts: seq<Account>)
  {
    forall i, j :: 0 <= i < |accounts| && 0 <= j < |accounts| && Store(accounts[i]) == Some(accounts[j].id) ==>
      accounts[i].id == accounts[j].id
  }

  ghost predicate AccountsSound(accounts: seq<Account>, actorIds: set<string>)
  {
    && (forall i :: 0 <= i < |accounts| ==> AccountOk(accounts[i], actorIds))
    && UniqueOn(accounts, Store) && StoresAreNotForeignIds(accounts)
    && UniqueOn(accounts, Executor) && UniqueOn(accounts, SellerSid)
  }

  ghost predicate FieldNotBlank(value: Option<string>)
  {
    value.Some? ==> !IsBlank(value.value)
  }

  ghost predicate IdentityOk(actor: Actor)
  {
    actor.oidc.Some? ==>
      && (Subject(actor).Some? || Username(actor).Some? || Email(actor).Some?)
      && FieldNotBlank(Subject(actor)) && FieldNotBlank(Username(actor)) && FieldNotBlank(Email(actor))
  }

  ghost predicate IdentitiesSound(actors: seq<Actor>)
  {
    && (forall i :: 0 <= i < |actors| ==> IdentityOk(actors[i]))
    && UniqueOn(actors, Subject) && UniqueOn(actors, Username) && UniqueOn(actors, Email)
  }

  ghost predicate Sound(r: Registry)
  {
    && r.version == 1
    && (forall i :: 0 <= i < |r.actors| ==> IsActorId(r.actors[i].id))
    && (forall i :: 0 <= i < |r.accounts| ==> IsAccountId(r.accounts[i].id))
    && UniqueOn(r.actors, ActorId) && UniqueOn(r.accounts, AccountId)
    && AccountsSound(r.accounts, Values(r.actors, ActorId))
    && (forall i :: 0 <= i < |r.actors| ==> r.actors[i].accountIds <= Values(r.accounts, AccountId))
    && IdentitiesSound(r.actors)
  }

  // ----- The validator -----

  lemma ValuesGrow<T>(s: seq<T>, k: nat, field: T -> Option<string>)
    requires k < |s|
    ensures Values(s[..k + 1], field) == With(Values(s[..k], field), field(s[k]))
  {
    var more := s[..k + 1];
    assert more[..k] == s[..k] && more[k] == s[k];
    forall v | v in Values(s[..k], field) ensures v in Values(more, field) {
      var i :| 0 <= i < k && field(s[i]).Some? && field(s[i]).value == v;
      assert more[i] == s[i];
    }
    if field(s[k]).Some? {
      assert field(more[k]).value in Values(more, field);
    }
  }

  /** Uniqueness grows by one element exactly when its value is new. */
  lemma UniqueGrows<T(!new)>(s: seq<T>, k: nat, field: T -> Option<string>)
    requires k < |s|
    ensures UniqueOn(s[..k + 1], field) <==>
            UniqueOn(s[..k], field) && IsNew(Values(s[..k], field), field(s[k]))
  {
    var less, more := s[..k], s[..k + 1];
    if UniqueOn(more, field) {
      forall i, j | 0 <= i < j < k && field(less[i]).Some? ensures field(less[i]) != field(less[j]) {
        assert more[i] == less[i] && more[j] == less[j];
      }
      if field(s[k]).Some? && field(s[k]).value in Values(less, field) {
        var i :| 0 <= i < k && field(less[i]).Some? && field(less[i]).value == field(s[k]).value;
        assert false;
      }
    }
    if UniqueOn(less, field) && IsNew(Values(less, field), field(s[k])) {
      forall i, j | 0 <= i < j < k + 1 && field(more[i]).Some? ensures field(more[i]) != field(more[j]) {
        assert more[i] == less[i];
        assert field(less[i]).value in Values(less, field);
        if j < k { assert more[j] == less[j]; }
      }
    }
  }

  lemma {:induction false} UniqueGoesDown<T(!new)>(s: seq<T>, k: nat, field: T -> Option<string>)
    requires k <= |s| && UniqueOn(s, field)
    ensures UniqueOn(s[..k], field)
  {
    forall i, j | 0 <= i < j < k && field(s[..k][i]).Some? ensures field(s[..k][i]) != field(s[..k][j]) {
      assert s[..k][i] == s[i] && s[..k][j] == s[j];
    }
  }

  /** Collecting ids into a set and comparing sizes decides uniqueness. */
  lemma {:induction false} SizesDecideUniqueness<T(!new)>(s: seq<T>, field: T -> Option<string>)
    requires forall i :: 0 <= i < |s| ==> field(s[i]).Some?
    ensures |Values(s, field)| <= |s|
    ensures |Values(s, field)| == |s| <==> UniqueOn(s, field)
  {
    if s == [] {
      assert Values(s, field) == {};
    } else {
      var k := |s| - 1;
      assert s[..k + 1] == s;
      SizesDecideUniqueness(s[..k], field);
      ValuesGrow(s, k, field);
      UniqueGrows(s, k, field);
    }
  }

  /** Putting an optional value in a set: whether it is no repetition, and the set afterwards. */
  predicate IsNew(values: set<string>, value: Option<string>)
  {
    value.Some? ==> value.value !in values
  }

  function With(values: set<string>, value: Option<string>): (r: set<string>)
  {
    if value.Some? then values + {value.value} else values
  }

  method ValidateOzonAccount(account: Account, ozon: Ozon, storeIds: set<string>, selectors: map<string, string>)
    returns (ok: bool, storeIds': set<string>, selectors': map<string, string>)
    ensures ok <==>
            && OzonFieldsOk(account, ozon) && ozon.storeId !in storeIds
            && (ozon.storeId in selectors ==> selectors[ozon.storeId] == account.id)
    ensures ok ==> storeIds' == storeIds + {ozon.storeId} && selectors' == selectors[ozon.storeId := account.id]
  {
    ok, storeIds', selectors' := false, storeIds, selectors;
    if account.marketplace != OzonMarket { return; }
    if IsBlank(ozon.storeId) || IsBlank(ozon.clientIdEnv) || IsBlank(ozon.apiKeyEnv) {
      NamesAreNotBlank(ozon.clientIdEnv);
      NamesAreNotBlank(ozon.apiKeyEnv);
      return;
    }
    if !IsEnvName(ozon.clientIdEnv) || !IsEnvName(ozon.apiKeyEnv) { return; }
    if ozon.performance.Some? {
      var performance := ozon.performance.value;
      if IsBlank(performance.clientIdEnv) || IsBlank(performance.clientSecretEnv) {
        NamesAreNotBlank(performance.clientIdEnv);
        NamesAreNotBlank(performance.clientSecretEnv);
        return;
      }
      if !IsEnvName(performance.clientIdEnv) || !IsEnvName(performance.clientSecretEnv) { return; }
      if performance.executorSha256.Some? && !IsSha256(performance.executorSha256.value) { return; }
    }
    if ozon.storeId in storeIds { return; }
    storeIds' := storeIds + {ozon.storeId};
    selectors' := selectors[ozon.storeId := account.id];
    if ozon.storeId in selectors && selectors[ozon.storeId] != account.id { return; }
    ok := true;
  }

  lemma NamesAreNotBlank(name: string)
    ensures IsEnvName(name) ==> !IsBlank(name)
  {
    if IsEnvName(name) {
      assert !IsWhitespace(name[0]);
    }
  }

  method ValidateWildberriesAccount(account: Account, wildberries: Wildberries) returns (ok: bool)
    ensures ok <==> WildberriesFieldsOk(account, wildberries)
  {
    if account.marketplace != WildberriesMarket { return false; }
    if IsBlank(wildberries.apiTokenEnv) {
      NamesAreNotBlank(wildberries.apiTokenEnv);
      return false;
    }
    if !IsEnvName(wildberries.apiTokenEnv) { return false; }
    if wildberries.sellerSid.Some? && !IsCanonicalUuid(wildberries.sellerSid.value) { return false; }
    return true;
  }

  method ValidateAccount(account: Account, actorIds: set<string>, storeIds: set<string>, selectors: map<string, string>)
    returns (ok: bool, storeIds': set<string>, selectors': map<string, string>)
    ensures ok <==>
            && AccountOk(account, actorIds) && IsNew(storeIds, Store(account))
            && (Store(account).Some? && Store(account).value in selectors ==> selectors[Store(account).value] == account.id)
    ensures ok ==> storeIds' == With(storeIds, Store(account))
    ensures ok ==> selectors' == if Store(account).Some? then selectors[Store(account).value := account.id] else selectors
  {
    ok, storeIds', selectors' := false, storeIds, selectors;
    if account.managerId !in actorIds { return; }
    if account.ozon.Some? && account.wildberries.Some? { return; }
    if account.ozon.Some? {
      ok, storeIds', selectors' := ValidateOzonAccount(account, account.ozon.value, storeIds, selectors);
      if !ok { return; }
    }
    if account.wildberries.Some? {
      ok := ValidateWildberriesAccount(account, account.wildberries.value);
      if !ok { return; }
    }
    ok := true;
  }

  /** The selector map while the accounts are walked: who owns each id and each store seen so far. */
  ghost predicate SelectorsFit(accounts: seq<Account>, k: nat, selectors: map<string, string>)
    requires k <= |accounts|
  {
    && selectors.Keys == Values(accounts, AccountId) + Values(accounts[..k], Store)
    && (forall j :: 0 <= j < |accounts| ==> accounts[j].id in selectors && selectors[accounts[j].id] == accounts[j].id)
  }

  /** What the walk over the first `k` accounts has established. */
  ghost predicate WalkedSound(accounts: seq<Account>, actorIds: set<string>, k: nat)
    requires k <= |accounts|
  {
    && (forall i :: 0 <= i < k ==> AccountOk(accounts[i], actorIds))
    && UniqueOn(accounts[..k], Store)
    && (forall i, j :: 0 <= i < k && 0 <= j < |accounts| && Store(accounts[i]) == Some(accounts[j].id) ==>
          accounts[i].id == accounts[j].id)
    && UniqueOn(accounts[..k], Executor) && UniqueOn(accounts[..k], SellerSid)
  }

  lemma WalkNeedsEveryStep(accounts: seq<Account>, actorIds: set<string>, k: nat)
    requires k <= |accounts| && AccountsSound(accounts, actorIds)
    ensures WalkedSound(accounts, actorIds, k)
  {
    UniqueGoesDown(accounts, k, Store);
    UniqueGoesDown(accounts, k, Executor);
    UniqueGoesDown(accounts, k, SellerSid);
  }

  lemma WalkEndsSound(accounts: seq<Account>, actorIds: set<string>)
    requires WalkedSound(accounts, actorIds, |accounts|)
    ensures AccountsSound(accounts, actorIds)
  {
    assert accounts[..|accounts|] == accounts;
  }

  ghost predicate StoreClear(accounts: seq<Account>, k: nat, selectors: map<string, string>)
    requires k < |accounts|
  {
    var store := Store(accounts[k]);
    && IsNew(Values(accounts[..k], Store), store)
    && (store.Some? && store.value in selectors ==> selectors[store.value] == accounts[k].id)
  }

  /** The checks of one account decide whether the walk is still sound one account further. */
  lemma WalkStep(accounts: seq<Account>, actorIds: set<string>, k: nat, selectors: map<string, string>)
    requires k < |accounts| && SelectorsFit(accounts, k, selectors) && WalkedSound(accounts, actorIds, k)
    ensures WalkedSound(accounts, actorIds, k + 1) <==>
            && AccountOk(accounts[k], actorIds) && StoreClear(accounts, k, selectors)
            && IsNew(Values(accounts[..k], Executor), Executor(accounts[k]))
            && IsNew(Values(accounts[..k], SellerSid), SellerSid(accounts[k]))
  {
    UniqueGrows(accounts, k, Store);
    UniqueGrows(accounts, k, Executor);
    UniqueGrows(accounts, k, SellerSid);
    var store := Store(accounts[k]);
    if store.Some? && store.value in selectors && store.value !in Values(accounts[..k], Store) {
      var j :| 0 <= j < |accounts| && accounts[j].id == store.value;
      assert selectors[store.value] == accounts[j].id;
    }
    forall j | 0 <= j < |accounts| && store == Some(accounts[j].id) ensures store.value in selectors {
    }
  }

  lemma SelectorsStep(accounts: seq<Account>, k: nat, selectors: map<string, string>)
    requires k < |accounts| && SelectorsFit(accounts, k, selectors) && StoreClear(accounts, k, selectors)
    ensures SelectorsFit(accounts, k + 1,
              if Store(accounts[k]).Some? then selectors[Store(accounts[k]).value := accounts[k].id] else selectors)
  {
    ValuesGrow(accounts, k, Store);
  }

  method AccountSelectors(accounts: seq<Account>) returns (selectors: map<string, string>)
    ensures SelectorsFit(accounts, 0, selectors)
  {
    selectors := map i | 0 <= i < |accounts| :: accounts[i].id := accounts[i].id;
    assert forall j :: 0 <= j < |accounts| ==> AccountId(accounts[j]).value == accounts[j].id;
  }

  method ValidateAccounts(accounts: seq<Account>, actorIds: set<string>) returns (ok: bool)
    ensures ok <==> AccountsSound(accounts, actorIds)
  {
    var storeIds: set<string>, wbSellerSids: set<string>, ozonControlClientIds: set<string> := {}, {}, {};
    var selectors := AccountSelectors(accounts);
    for k := 0 to |accounts|
      invariant SelectorsFit(accounts, k, selectors)
      invariant WalkedSound(accounts, actorIds, k)
      invariant storeIds == Values(accounts[..k], Store)
      invariant wbSellerSids == Values(accounts[..k], SellerSid)
      invariant ozonControlClientIds == Values(accounts[..k], Executor)
    {
      var account := accounts[k];
      WalkStep(accounts, actorIds, k, selectors);
      if AccountsSound(accounts, actorIds) { WalkNeedsEveryStep(accounts, actorIds, k + 1); }
      ghost var before := selectors;
      ok, storeIds, selectors := ValidateAccount(account, actorIds, storeIds, selectors);
      if !ok { return; }
      SelectorsStep(accounts, k, before);
      if !IsNew(ozonControlClientIds, Executor(account)) { return false; }
      ozonControlClientIds := With(ozonControlClientIds, Executor(account));
      if !IsNew(wbSellerSids, SellerSid(account)) { return false; }
      wbSellerSids := With(wbSellerSids, SellerSid(account));
      ValuesGrow(accounts, k, Store);
      ValuesGrow(accounts, k, SellerSid);
      ValuesGrow(accounts, k, Executor);
    }
    WalkEndsSound(accounts, actorIds);
    return true;
  }

  method ValidateOidcIdentities(actors: seq<Actor>) returns (ok: bool)
    ensures ok <==> IdentitiesSound(actors)
  {
    var subjects: set<string>, usernames: set<string>, emails: set<string> := {}, {}, {};
    for k := 0 to |actors|
      invariant IdentitiesSound(actors[..k])
      invariant subjects == Values(actors[..k], Subject)
      invariant usernames == Values(actors[..k], Username)
      invariant emails == Values(actors[..k], Email)
    {
      var actor := actors[k];
      IdentityStep(actors, k);
      ValuesGrow(actors, k, Subject);
      ValuesGrow(actors, k, Username);
      ValuesGrow(actors, k, Email);
      if actor.oidc.None? { continue; }
      if Subject(actor).None? && Username(actor).None? && Email(actor).None? { return false; }
      var usable;
      usable, subjects := ClaimField(Subject(actor), subjects);
      if !usable { return false; }
      usable, usernames := ClaimField(Username(actor), usernames);
      if !usable { return false; }
      usable, emails := ClaimField(Email(actor), emails);
      if !usable { return false; }
    }
    assert actors[..|actors|] == actors;
    return true;
  }

  method ClaimField(value: Option<string>, values: set<string>) returns (usable: bool, values': set<string>)
    ensures usable <==> FieldNotBlank(value) && IsNew(values, value)
    ensures usable ==> values' == With(values, value)
  {
    values' := values;
    if value.None? { return true, values; }
    if IsBlank(value.value) { return false, values; }
    return IsNew(values, value), With(values, value);
  }

  /** One more actor keeps the identities sound exactly when its own fields are usable and new. */
  lemma IdentityStep(actors: seq<Actor>, k: nat)
    requires k < |actors| && IdentitiesSound(actors[..k])
    ensures IdentitiesSound(actors[..k + 1]) <==>
            && IdentityOk(actors[k]) && IsNew(Values(actors[..k], Subject), Subject(actors[k]))
            && IsNew(Values(actors[..k], Username), Username(actors[k])) && IsNew(Values(actors[..k], Email), Email(actors[k]))
    ensures IdentitiesSound(actors) ==> IdentitiesSound(actors[..k + 1])
  {
    UniqueGrows(actors, k, Subject);
    UniqueGrows(actors, k, Username);
    UniqueGrows(actors, k, Email);
    var more := actors[..k + 1];
    assert forall i :: 0 <= i < k ==> more[i] == actors[..k][i];
    assert more[k] == actors[k];
    if IdentitiesSound(actors) {
      UniqueGoesDown(actors, k + 1, Subject);
      UniqueGoesDown(actors, k + 1, Username);
      UniqueGoesDown(actors, k + 1, Email);
    }
  }

  /** `validate`: accepts exactly the sound registries. */
  method Validate(r: Registry) returns (ok: bool)
    ensures ok <==> Sound(r)
  {
    if r.version != 1 { return false; }
    if exists i :: 0 <= i < |r.actors| && !IsActorId(r.actors[i].id) { return false; }
    if exists i :: 0 <= i < |r.accounts| && !IsAccountId(r.accounts[i].id) { return false; }
    var actorIds := set i | 0 <= i < |r.actors| :: r.actors[i].id;
    assert actorIds == Values(r.actors, ActorId);
    SizesDecideUniqueness(r.actors, ActorId);
    if |actorIds| != |r.actors| { return false; }
    var accountIds := set i | 0 <= i < |r.accounts| :: r.accounts[i].id;
    assert accountIds == Values(r.accounts, AccountId);
    SizesDecideUniqueness(r.accounts, AccountId);
    if |accountIds| != |r.accounts| { return false; }
    ok := ValidateAccounts(r.accounts, actorIds);
    if !ok { return; }
    for k := 0 to |r.actors|
      invariant forall i :: 0 <= i < k ==> r.actors[i].accountIds <= accountIds
    {
      if !(r.actors[k].accountIds <= accountIds) { return false; }
    }
    ok := ValidateOidcIdentities(r.actors);
  }

  // ----- Lookups -----

  predicate Answers(account: Account, selector: string)
  {
    account.ozon.Some? && (account.id == selector || account.ozon.value.storeId == selector)
  }

  /** The first account that answers to a selector. */
  function AccountForStoreSelector(accounts: seq<Account>, selector: string): (found: Option<Account>)
    ensures found.Some? ==> found.value in accounts && Answers(found.value, selector)
    ensures found.None? ==> forall i :: 0 <= i < |accounts| ==> !Answers(accounts[i], selector)
  {
    if accounts == [] then None
    else if Answers(accounts[0], selector) then Some(accounts[0])
    else AccountForStoreSelector(accounts[1..], selector)
  }

  datatype OidcLookup = Unregistered | Ambiguous | Found(actor: Actor)

  /** The first actor with a subject, refused when a second one follows. */
  function ActorForOidc(actors: seq<Actor>, subject: string): (found: OidcLookup)
  {
    if actors == [] then Unregistered
    else if Subject(actors[0]) == Some(subject) then
      if exists i :: 1 <= i < |actors| && Subject(actors[i]) == Some(subject) then Ambiguous else Found(actors[0])
    else ActorForOidc(actors[1..], subject)
  }

  // ----- Main results -----

  predicate Claims(account: Account, selector: string)
  {
    Answers(account, selector) || account.id == selector
  }

  /**
    A selector that an Ozon account answers to, by its id or by its store id, is answered by no
    other Ozon account and is the id of no other account, not even of a Wildberries account.
   */
  ghost predicate NamesOnlyOne(accounts: seq<Account>, selector: string)
  {
    forall i, j ::
      0 <= i < |accounts| && 0 <= j < |accounts| && Answers(accounts[i], selector) && Claims(accounts[j], selector) ==> i == j
  }

  lemma SelectorNamesAtMostOne(accounts: seq<Account>, selector: string)
    requires UniqueOn(accounts, AccountId) && UniqueOn(accounts, Store) && StoresAreNotForeignIds(accounts)
    ensures NamesOnlyOne(accounts, selector)
  {
    forall i, j | 0 <= i < |accounts| && 0 <= j < |accounts| && Answers(accounts[i], selector) && Claims(accounts[j], selector)
      ensures i == j
    {
      var a, b := accounts[i], accounts[j];
      assert AccountId(a) == Some(a.id) && AccountId(b) == Some(b.id);
      assert Store(a) == Some(a.ozon.value.storeId);
      if b.ozon.Some? { assert Store(b) == Some(b.ozon.value.storeId); }
    }
  }

  /** The selector checks refuse nothing else: with unique ids they hold exactly when every selector names one account. */
  lemma UnambiguousExactlyWhenAccepted(accounts: seq<Account>)
    requires UniqueOn(accounts, AccountId)
    ensures (forall selector :: NamesOnlyOne(accounts, selector)) <==>
            UniqueOn(accounts, Store) && StoresAreNotForeignIds(accounts)
  {
    if UniqueOn(accounts, Store) && StoresAreNotForeignIds(accounts) {
      forall selector ensures NamesOnlyOne(accounts, selector) {
        SelectorNamesAtMostOne(accounts, selector);
      }
    }
    if forall selector :: NamesOnlyOne(accounts, selector) {
      forall i, j | 0 <= i < j < |accounts| && Store(accounts[i]).Some? ensures Store(accounts[i]) != Store(accounts[j]) {
        assert NamesOnlyOne(accounts, Store(accounts[i]).value);
      }
      forall i, j | 0 <= i < |accounts| && 0 <= j < |accounts| && Store(accounts[i]) == Some(accounts[j].id)
        ensures accounts[i].id == accounts[j].id
      {
        assert NamesOnlyOne(accounts, Store(accounts[i]).value);
      }
    }
  }

  /** An elements-only reading of a list: two lists that are permutations have the same elements. */
  lemma SameElements<T>(s: seq<T>, t: seq<T>, x: T)
    requires multiset(s) == multiset(t)
    ensures x in s <==> x in t
  {
    assert x in s <==> x in multiset(s);
    assert x in t <==> x in multiset(t);
  }

  /** The order in which a sound registry lists its accounts never changes which one a selector finds. */
  lemma SelectorLookupIsOrderFree(r: Registry, accounts: seq<Account>, selector: string)
    requires Sound(r) && multiset(accounts) == multiset(r.accounts)
    ensures AccountForStoreSelector(accounts, selector) == AccountForStoreSelector(r.accounts, selector)
  {
    var found, other := AccountForStoreSelector(r.accounts, selector), AccountForStoreSelector(accounts, selector);
    if found.Some? { SameElements(accounts, r.accounts, found.value); }
    if other.Some? { SameElements(accounts, r.accounts, other.value); }
    if found.Some? && other.Some? {
      var i :| 0 <= i < |r.accounts| && r.accounts[i] == found.value;
      var j :| 0 <= j < |r.accounts| && r.accounts[j] == other.value;
      SelectorNamesAtMostOne(r.accounts, selector);
    }
  }

  /** Two different places of a list hold `x` and `y`, said without places. */
  lemma TwoPlaces<T>(s: seq<T>, i: nat, j: nat)
    requires i < j < |s|
    ensures multiset{s[i], s[j]} <= multiset(s)
  {
    assert s == s[..i] + [s[i]] + s[i + 1..j] + [s[j]] + s[j + 1..];
    assert multiset(s) == multiset(s[..i]) + multiset{s[i]} + multiset(s[i + 1..j]) + multiset{s[j]} + multiset(s[j + 1..]);
  }

  lemma WithoutOnePlace<T>(s: seq<T>, i: nat)
    requires i < |s|
    ensures multiset(s[..i] + s[i + 1..]) == multiset(s) - multiset{s[i]}
  {
    assert s == s[..i] + [s[i]] + s[i + 1..];
    assert multiset(s) == multiset(s[..i]) + multiset{s[i]} + multiset(s[i + 1..]);
  }

  lemma PlacesOfTwo<T>(s: seq<T>, x: T, y: T) returns (i: nat, j: nat)
    requires multiset{x, y} <= multiset(s)
    ensures i < |s| && j < |s| && i != j && s[i] == x && s[j] == y
  {
    assert x in multiset{x, y};
    assert x in s;
    i :| i < |s| && s[i] == x;
    WithoutOnePlace(s, i);
    var rest := s[..i] + s[i + 1..];
    assert multiset{x, y} - multiset{x} == multiset{y};
    assert y in multiset(rest);
    assert y in rest;
    var k :| 0 <= k < |rest| && rest[k] == y;
    j := if k < i then k else k + 1;
  }

  lemma UniqueIsOrderFree<T(!new)>(s: seq<T>, t: seq<T>, field: T -> Option<string>)
    requires multiset(s) == multiset(t) && UniqueOn(s, field)
    ensures UniqueOn(t, field)
  {
    forall i, j | 0 <= i < j < |t| && field(t[i]).Some? ensures field(t[i]) != field(t[j]) {
      TwoPlaces(t, i, j);
      var a, b := PlacesOfTwo(s, t[i], t[j]);
      assert a < b || b < a;
    }
  }

  lemma ValuesAreOrderFree<T(!new)>(s: seq<T>, t: seq<T>, field: T -> Option<string>)
    requires multiset(s) == multiset(t)
    ensures Values(s, field) == Values(t, field)
  {
    forall x ensures x in s <==> x in t {
      SameElements(s, t, x);
    }
    ValuesOfElements(s, t, field);
    ValuesOfElements(t, s, field);
  }

  lemma ValuesOfElements<T>(s: seq<T>, t: seq<T>, field: T -> Option<string>)
    requires forall i :: 0 <= i < |s| ==> s[i] in t
    ensures Values(s, field) <= Values(t, field)
  {
    forall v | v in Values(s, field) ensures v in Values(t, field) {
      var i :| 0 <= i < |s| && field(s[i]).Some? && field(s[i]).value == v;
      var j :| 0 <= j < |t| && t[j] == s[i];
      assert field(t[j]).value in Values(t, field);
    }
  }

  /** Whether the accounts are accepted does not depend on their order either. */
  lemma AcceptanceIsOrderFree(r: Registry, accounts: seq<Account>)
    requires Sound(r) && multiset(accounts) == multiset(r.accounts)
    ensures Sound(r.(accounts := accounts))
  {
    var was := r.accounts;
    forall i | 0 <= i < |accounts| ensures accounts[i] in was {
      SameElements(accounts, was, accounts[i]);
    }
    UniqueIsOrderFree(was, accounts, AccountId);
    UniqueIsOrderFree(was, accounts, Store);
    UniqueIsOrderFree(was, accounts, Executor);
    UniqueIsOrderFree(was, accounts, SellerSid);
    ValuesAreOrderFree(was, accounts, AccountId);
  }

  /** The subject lookup of a sound registry is never ambiguous, and finds whoever has the subject. */
  lemma {:induction false} SubjectLookupIsExact(actors: seq<Actor>, subject: string)
    requires UniqueOn(actors, Subject)
    ensures ActorForOidc(actors, subject) != Ambiguous
    ensures forall k :: 0 <= k < |actors| && Subject(actors[k]) == Some(subject) ==> ActorForOidc(actors, subject) == Found(actors[k])
    ensures ActorForOidc(actors, subject).Found? ==>
            ActorForOidc(actors, subject).actor in actors && Subject(ActorForOidc(actors, subject).actor) == Some(subject)
  {
    if actors != [] {
      var rest := actors[1..];
      assert forall i :: 0 <= i < |rest| ==> rest[i] == actors[i + 1];
      SubjectLookupIsExact(rest, subject);
    }
  }
}
