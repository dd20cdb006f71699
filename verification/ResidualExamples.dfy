/** Databases on which the first stage commits and the second stops, one for every reason it can still have. */
module ResidualExamples {
  import opened Sequences
  import opened Tables
  import opened Envelopes
  import Accounts = ManagedAccounts
  import AccountsT = ManagedTheorems
  import Owned = OwnedCredentials
  import Pipeline
  import SchemaContracts

  /** A database with one account, which never held tokens. */
  function OneAccount(providers: seq<Provider>, c: Credential, defaults: seq<DefaultAccount>): State {
    State(providers, [c], defaults, [], [])
  }

  function Account(owner: string, status: CredentialStatus): Credential {
    Credential("c", Some(owner), Codex, status, 1, 1, None, NO_BUNDLE, None)
  }

  function Following(id: string): Provider {
    Provider(id, Codex, Active, Some(FollowDefault), None, 1, "managed_oauth")
  }

  function PinnedTo(id: string): Provider {
    Provider(id, Codex, Active, Some(Pinned), Some("c"), 1, "managed_oauth")
  }

  /** Every Provider follows the default or is pinned to the account. */
  predicate Bound(providers: seq<Provider>) {
    forall p :: p in providers ==> p == Following(p.id) || p == PinnedTo(p.id)
  }

  predicate Tokenless(c: Credential) {
    c.providerId.Some? && !c.status.Connected? && c == Account(c.providerId.value, c.status)
  }

  function Contexted(c: Credential): Credential {
    c.(contextId := Some(c.id))
  }

  // ---- The first stage ----

  lemma AccountTransforms(c: Credential, crypto: Crypto, apply: bool)
    requires Tokenless(c)
    ensures Accounts.Transform(c, crypto, apply).Success? && Accounts.NewKey(c, crypto).None?
    ensures Accounts.MigrateCredential(crypto, c) == Contexted(c)
  {
  }

  lemma BoundStays(c: Credential, p: Provider)
    requires c.id == "c" && c.adapter == Codex && (p == Following(p.id) || p == PinnedTo(p.id))
    ensures Accounts.ProviderFault([c], p).None? && Accounts.MigrateProvider([c], p) == p
  {
  }

  lemma StageOneClean(providers: seq<Provider>, c: Credential, defaults: seq<DefaultAccount>, crypto: Crypto)
    requires Bound(providers) && Tokenless(c)
    ensures AccountsT.Clean(OneAccount(providers, c, defaults), crypto, true)
  {
    var s := OneAccount(providers, c, defaults);
    forall p | p in Accounts.Selected(s).providers ensures Accounts.ProviderFault([c], p).None? {
      BoundStays(c, p);
    }
    AccountTransforms(c, crypto, true);
    AccountsT.CredentialsAccepted([c], crypto, true);
  }

  lemma StageOneCommits(providers: seq<Provider>, c: Credential, defaults: seq<DefaultAccount>, crypto: Crypto)
    requires Lawful(crypto) && Bound(providers) && Tokenless(c)
    ensures var s := OneAccount(providers, c, defaults);
      && Accounts.Outcome(s, true, crypto).Success?
      && Accounts.Migrated(s, crypto) == OneAccount(providers, Contexted(c), defaults)
  {
    var s := OneAccount(providers, c, defaults);
    StageOneClean(providers, c, defaults, crypto);
    AccountsT.MigrationVerified(s, crypto);
    AccountTransforms(c, crypto, true);
    forall i | 0 <= i < |providers| ensures Accounts.MigrateProvider([c], providers[i]) == providers[i] {
      BoundStays(c, providers[i]);
    }
    var t := Accounts.Migrated(s, crypto);
    assert t.providers == providers && t.credentials == [Contexted(c)] && t.attempts == [] && t.jobs == [];
  }

  // ---- The second stage ----

  lemma AllSelected(providers: seq<Provider>, c: Credential, defaults: seq<DefaultAccount>)
    requires Bound(providers)
    ensures Owned.Selected(OneAccount(providers, c, defaults)) == OneAccount(providers, c, defaults)
  {
    FilterAll(providers, IsManaged);
  }

  lemma OneFault(c: Credential, fault: Credential -> Option<Owned.Fault>)
    ensures FirstFault([c], fault) == fault(c)
  {
    assert [c][..0] == [];
  }

  lemma OneCount(c: Credential, keep: Credential -> bool)
    ensures Count([c], keep) == if keep(c) then 1 else 0
  {
    assert [c][..0] == [];
  }

  /** The planner's first failure over one account. */
  ghost function Reason(providers: seq<Provider>, c: Credential, defaults: seq<DefaultAccount>, crypto: Crypto): Option<Owned.Fault> {
    var s := OneAccount(providers, c, defaults);
    var owners := Owned.Owners(s, c);
    if Owned.DefaultsFault(defaults, [c]).Some? then Owned.DefaultsFault(defaults, [c])
    else if Owned.CredentialFault(providers, crypto, true, c).Some? then Owned.CredentialFault(providers, crypto, true, c)
    else if FirstFault(providers, p => Owned.ProviderFault(s, p)).Some? then FirstFault(providers, p => Owned.ProviderFault(s, p))
    else if IsLive(c) && owners > 1 then Some(Owned.SharedLive(1))
    else if IsLive(c) && owners == 0 then Some(Owned.OrphanLive(1))
    else None
  }

  lemma PlannerReason(providers: seq<Provider>, c: Credential, defaults: seq<DefaultAccount>, crypto: Crypto)
    requires Bound(providers) && UniqueBy(providers, ProviderKey)
    ensures Owned.PlanFault(Owned.Selected(OneAccount(providers, c, defaults)), crypto, true)
         == Reason(providers, c, defaults, crypto)
  {
    var s := OneAccount(providers, c, defaults);
    AllSelected(providers, c, defaults);
    OneFault(c, c => Owned.CredentialFault(providers, crypto, true, c));
    OneCount(c, c => IsLive(c) && Owned.Owners(s, c) > 1);
    OneCount(c, c => IsLive(c) && Owned.Owners(s, c) == 0);
  }

  lemma TokenlessSound(providers: seq<Provider>, c: Credential, crypto: Crypto)
    requires |providers| > 0 && Tokenless(c) && c.providerId == Some(providers[0].id)
    requires Bound(providers) && UniqueBy(providers, ProviderKey) && providers[0].id != ""
    ensures Owned.CredentialFault(providers, crypto, true, Contexted(c)).None?
  {
    FindUnique(providers, ProviderKey, providers[0]);
  }

  // ---- One database for each reason ----

  /** The account, its Providers and the default behind each reason. */
  function Providers(fault: Owned.Fault): seq<Provider> {
    if fault.SharedLive? then [PinnedTo("p"), PinnedTo("q")]
    else if fault.ProviderCredentialNotLive? then [PinnedTo("p")]
    else [Following("p")]
  }

  function Defaults(fault: Owned.Fault): seq<DefaultAccount> {
    if fault.DefaultDangling? then [DefaultAccount(Codex, "x", 1)]
    else if fault.DefaultNotLive? then [DefaultAccount(Codex, "c", 1)]
    else []
  }

  function Holder(fault: Owned.Fault): Credential {
    Account(if fault.ProvenanceDangling? then "x" else "p",
            if fault.DefaultNotLive? || fault.ProviderCredentialNotLive? then Disconnected else ReauthRequired)
  }

  function Example(fault: Owned.Fault): State {
    OneAccount(Providers(fault), Holder(fault), Defaults(fault))
  }

  lemma DefaultReason(fault: Owned.Fault, crypto: Crypto)
    requires fault.DefaultDangling? || fault.DefaultNotLive?
    ensures Owned.DefaultsFault(Defaults(fault), [Contexted(Holder(fault))]) == Some(fault)
  {
    var d, c := Defaults(fault)[0], Contexted(Holder(fault));
    assert [d][..0] == [] && [c][..0] == [];
  }

  lemma ProvenanceReason(crypto: Crypto)
    ensures Owned.CredentialFault([Following("p")], crypto, true, Contexted(Account("x", ReauthRequired)))
         == Some(Owned.ProvenanceDangling)
  {
    assert [Following("p")][..0] == [];
  }

  /** A Provider pinned to the account fails exactly when the account is not live; one that follows no default does not. */
  lemma PinReason(providers: seq<Provider>, c: Credential, p: Provider)
    requires c.id == "c" && c.adapter == Codex && (p == Following(p.id) || p == PinnedTo(p.id))
    ensures Owned.ProviderFault(OneAccount(providers, c, []), p)
         == if p == PinnedTo(p.id) && !IsLive(c) then Some(Owned.ProviderCredentialNotLive) else None
  {
    assert [c][..0] == [];
  }

  lemma NotLiveReason(c: Credential)
    requires c.id == "c" && c.adapter == Codex && !IsLive(c)
    ensures var s := OneAccount([PinnedTo("p")], c, []);
      FirstFault(s.providers, p => Owned.ProviderFault(s, p)) == Some(Owned.ProviderCredentialNotLive)
  {
    var s := OneAccount([PinnedTo("p")], c, []);
    PinReason(s.providers, c, PinnedTo("p"));
    assert s.providers[..0] == [];
  }

  lemma LiveReason(providers: seq<Provider>, c: Credential)
    requires Bound(providers) && c.id == "c" && c.adapter == Codex && IsLive(c)
    ensures var s := OneAccount(providers, c, []); FirstFault(providers, p => Owned.ProviderFault(s, p)).None?
  {
    forall p | p in providers ensures Owned.ProviderFault(OneAccount(providers, c, []), p).None? {
      PinReason(providers, c, p);
    }
  }

  /** The account's claimants are the Providers pinned to it. */
  lemma OwnerCount(providers: seq<Provider>, c: Credential)
    requires c.id == "c" && (providers == [PinnedTo("p"), PinnedTo("q")] || providers == [Following("p")])
    ensures Owned.Owners(OneAccount(providers, c, []), c) == if |providers| == 2 then 2 else 0
  {
    if |providers| == 2 {
      FilterAll(providers, p => Owned.Claims([], p, "c"));
    } else {
      CountZero(providers, p => Owned.Claims([], p, "c"));
    }
  }

  lemma OwnerReason(fault: Owned.Fault, crypto: Crypto)
    requires (fault.SharedLive? || fault.OrphanLive?) && fault.count == 1
    ensures Reason(Providers(fault), Contexted(Holder(fault)), Defaults(fault), crypto) == Some(fault)
  {
    var providers, c := Providers(fault), Contexted(Holder(fault));
    TokenlessSound(providers, Holder(fault), crypto);
    LiveReason(providers, c);
    OwnerCount(providers, c);
  }

  lemma PinnedReason(crypto: Crypto)
    ensures Reason([PinnedTo("p")], Contexted(Account("p", Disconnected)), [], crypto) == Some(Owned.ProviderCredentialNotLive)
  {
    TokenlessSound([PinnedTo("p")], Account("p", Disconnected), crypto);
    NotLiveReason(Contexted(Account("p", Disconnected)));
  }

  lemma ExampleReason(fault: Owned.Fault, crypto: Crypto)
    requires Pipeline.Residual(fault) && (fault.SharedLive? || fault.OrphanLive? ==> fault.count == 1)
    ensures Reason(Providers(fault), Contexted(Holder(fault)), Defaults(fault), crypto) == Some(fault)
  {
    match fault {
      case DefaultDangling => DefaultReason(fault, crypto);
      case DefaultNotLive => DefaultReason(fault, crypto);
      case ProvenanceDangling => ProvenanceReason(crypto);
      case ProviderCredentialNotLive => PinnedReason(crypto);
      case SharedLive(_) => OwnerReason(fault, crypto);
      case OrphanLive(_) => OwnerReason(fault, crypto);
    }
  }

  /** Each residual reason occurs: the first stage commits and the second stops for it. */
  lemma ResidualReachable(fault: Owned.Fault, crypto: Crypto)
    requires Lawful(crypto) && Pipeline.Residual(fault) && (fault.SharedLive? || fault.OrphanLive? ==> fault.count == 1)
    ensures var s := Example(fault);
      && PrimaryKeys(s)
      && Accounts.Outcome(s, true, crypto).Success?
      && Owned.Outcome(Accounts.Migrated(s, crypto), true, crypto) == Failure(fault)
  {
    StageOneCommits(Providers(fault), Holder(fault), Defaults(fault), crypto);
    ExampleKeys(fault);
    ExampleFails(fault, crypto);
  }

  lemma ExampleKeys(fault: Owned.Fault)
    ensures PrimaryKeys(Example(fault))
  {
  }

  lemma ExampleFails(fault: Owned.Fault, crypto: Crypto)
    requires Pipeline.Residual(fault) && (fault.SharedLive? || fault.OrphanLive? ==> fault.count == 1)
    ensures Owned.Outcome(OneAccount(Providers(fault), Contexted(Holder(fault)), Defaults(fault)), true, crypto) == Failure(fault)
  {
    PlannerReason(Providers(fault), Contexted(Holder(fault)), Defaults(fault), crypto);
    ExampleReason(fault, crypto);
  }

  /** The examples without a dangling reference respect the foreign keys. */
  lemma ExampleStorable(fault: Owned.Fault)
    requires Pipeline.Residual(fault) && !fault.DefaultDangling? && !fault.ProvenanceDangling?
    ensures SchemaContracts.PointerReferences(Example(fault)) && SchemaContracts.OwnerReferences(Example(fault))
    ensures SchemaContracts.DefaultReferences(Example(fault))
  {
    var s, c := Example(fault), Holder(fault);
    assert c in s.credentials && s.providers[0] in s.providers;
    assert SchemaContracts.NamesCredential(s, "c", Codex);
  }
}
