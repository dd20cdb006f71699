/** What the ownership planner accepts, and what its cutover achieves. */
module OwnershipTheorems {
  import opened Sequences
  import opened Tables
  import opened Envelopes
  import opened OwnedCredentials

  ghost predicate Settled(s: State) {
    && (forall a :: a in s.attempts ==> !IsActive(a))
    && (forall j :: j in s.jobs ==> j.status.Terminal() && j.bundle == NO_BUNDLE)
    && UniqueBy(s.providers, ProviderKey)
    && UniqueBy(s.credentials, CredentialKey)
  }

  ghost predicate LiveAccount(s: State, id: string, adapter: Adapter) {
    exists c :: c in s.credentials && c.id == id && c.adapter == adapter && IsLive(c)
  }

  ghost predicate DefaultsSound(s: State) {
    UniqueBy(s.defaults, DefaultKey) && LiveDefaults(s.defaults, s)
  }

  ghost predicate CredentialsFaultless(s: State, crypto: Crypto, validateEnvelopes: bool) {
    forall c :: c in s.credentials ==> CredentialFault(s.providers, crypto, validateEnvelopes, c).None?
  }

  /** Every Provider in use has a mode, and what it is bound to is a live account of its adapter. */
  ghost predicate BindingSound(s: State, p: Provider) {
    p.status.Deleted?
    || (&& p.mode.Some?
        && (p.mode == Some(FollowDefault) ==> p.credentialId.None?)
        && (Truthy(Binding(s.defaults, p)) ==> LiveAccount(s, Binding(s.defaults, p).value, p.adapter)))
  }

  /** No account has two claimants. */
  ghost predicate Injective(s: State) {
    forall p, q, id :: p in s.providers && q in s.providers && Claims(s.defaults, p, id) && Claims(s.defaults, q, id) ==> p == q
  }

  /** Every live account has a claimant. */
  ghost predicate Covering(s: State) {
    forall c :: c in s.credentials && IsLive(c) ==> exists p :: p in s.providers && Claims(s.defaults, p, c.id)
  }

  ghost predicate LiveDefaults(defaults: seq<DefaultAccount>, s: State) {
    forall d :: d in defaults ==> LiveAccount(s, d.credentialId, d.adapter)
  }

  lemma LiveExtend(defaults: seq<DefaultAccount>, s: State)
    requires defaults != []
    ensures var front, d := defaults[..|defaults| - 1], defaults[|defaults| - 1];
      LiveDefaults(defaults, s) <==> LiveDefaults(front, s) && LiveAccount(s, d.credentialId, d.adapter)
  {
    var front, d := defaults[..|defaults| - 1], defaults[|defaults| - 1];
    assert defaults == front + [d];
  }

  lemma {:induction false} DefaultsFaultSound(defaults: seq<DefaultAccount>, s: State)
    requires UniqueBy(s.credentials, CredentialKey)
    ensures DefaultsFault(defaults, s.credentials).None? <==> UniqueBy(defaults, DefaultKey) && LiveDefaults(defaults, s)
  {
    if defaults != [] {
      var front, d := defaults[..|defaults| - 1], defaults[|defaults| - 1];
      DefaultsFaultSound(front, s);
      LiveAccountFind(s, d.credentialId, d.adapter);
      UniqueExtend(defaults, DefaultKey);
      LiveExtend(defaults, s);
    }
  }

  lemma LiveAccountFind(s: State, id: string, adapter: Adapter)
    requires UniqueBy(s.credentials, CredentialKey)
    ensures LiveAccount(s, id, adapter) <==>
            var c := Find(s.credentials, CredentialKey, id); c.Some? && c.value.adapter == adapter && IsLive(c.value)
  {
    if LiveAccount(s, id, adapter) {
      var c :| c in s.credentials && c.id == id && c.adapter == adapter && IsLive(c);
      FindUnique(s.credentials, CredentialKey, c);
    }
  }

  lemma ProviderFaultSound(s: State, p: Provider)
    requires UniqueBy(s.credentials, CredentialKey)
    ensures ProviderFault(s, p).None? <==> BindingSound(s, p)
  {
    if Truthy(Binding(s.defaults, p)) {
      LiveAccountFind(s, Binding(s.defaults, p).value, p.adapter);
    }
  }

  lemma IntakeSettled(s: State)
    ensures IntakeFault(s).None? <==> Settled(s)
  {
    CountZero(s.attempts, IsActive);
    CountZero(s.jobs, IsUnfinished);
    CountZero(s.jobs, HasMaterial);
    assert forall j: Job :: !HasMaterial(j) <==> j.bundle == NO_BUNDLE;
  }

  lemma OneClaimant(s: State, id: string)
    requires UniqueBy(s.providers, ProviderKey)
    ensures |Claimants(s.defaults, s.providers, id)| == 0 <==> forall p :: p in s.providers ==> !Claims(s.defaults, p, id)
    ensures |Claimants(s.defaults, s.providers, id)| <= 1 <==>
            forall p, q :: p in s.providers && q in s.providers && Claims(s.defaults, p, id) && Claims(s.defaults, q, id) ==> p == q
  {
    var hit := p => Claims(s.defaults, p, id);
    var claimants := Claimants(s.defaults, s.providers, id);
    CountZero(s.providers, hit);
    FilterUnique(s.providers, hit, ProviderKey);
    if |claimants| > 1 {
      assert claimants[0] in claimants && claimants[1] in claimants;
      assert ProviderKey(claimants[0]) != ProviderKey(claimants[1]);
    } else {
      forall p, q | p in s.providers && q in s.providers && Claims(s.defaults, p, id) && Claims(s.defaults, q, id)
        ensures p == q
      {
        assert p in claimants && q in claimants;
      }
    }
  }

  /** The planner accepts exactly the snapshots whose rows have no fault and whose bindings are injective and covering. */
  lemma PlannerAcceptsRows(s: State, crypto: Crypto, validateEnvelopes: bool)
    ensures PlanFault(s, crypto, validateEnvelopes).None? <==>
            && Settled(s)
            && DefaultsSound(s)
            && CredentialsFaultless(s, crypto, validateEnvelopes)
            && (forall p :: p in s.providers ==> BindingSound(s, p))
            && Injective(s)
            && Covering(s)
  {
    IntakeSettled(s);
    if Settled(s) {
      DefaultsFaultSound(s.defaults, s);
      forall p | p in s.providers ensures ProviderFault(s, p).None? <==> BindingSound(s, p) {
        ProviderFaultSound(s, p);
      }
      if RowFault(s, crypto, validateEnvelopes).None? {
        SharedOrphans(s);
      }
    }
  }

  lemma NoneShared(s: State)
    requires UniqueBy(s.providers, ProviderKey) && forall p :: p in s.providers ==> BindingSound(s, p)
    ensures SharedCount(s, s.credentials) == 0 <==> Injective(s)
  {
    CountZero(s.credentials, c => IsLive(c) && Owners(s, c) > 1);
    if SharedCount(s, s.credentials) == 0 {
      forall p, q, id | p in s.providers && q in s.providers && Claims(s.defaults, p, id) && Claims(s.defaults, q, id)
        ensures p == q
      {
        assert LiveAccount(s, id, p.adapter);
        OneClaimant(s, id);
      }
    }
    if Injective(s) {
      forall c | c in s.credentials ensures Owners(s, c) <= 1 {
        OneClaimant(s, c.id);
      }
    }
  }

  lemma NoneOrphaned(s: State)
    requires UniqueBy(s.providers, ProviderKey)
    ensures OrphanCount(s, s.credentials) == 0 <==> Covering(s)
  {
    CountZero(s.credentials, c => IsLive(c) && Owners(s, c) == 0);
    forall c | c in s.credentials
      ensures Owners(s, c) == 0 <==> forall p :: p in s.providers ==> !Claims(s.defaults, p, c.id)
    {
      OneClaimant(s, c.id);
    }
  }

  lemma SharedOrphans(s: State)
    requires Settled(s) && forall p :: p in s.providers ==> BindingSound(s, p)
    ensures SharedCount(s, s.credentials) == 0 <==> Injective(s)
    ensures OrphanCount(s, s.credentials) == 0 <==> Covering(s)
  {
    NoneShared(s);
    NoneOrphaned(s);
  }

  // ---- Facts about an accepted snapshot ----

  ghost predicate Accepted(s: State, crypto: Crypto) {
    PlanFault(s, crypto, true).None?
  }

  lemma AcceptedKeys(s: State, crypto: Crypto)
    requires Accepted(s, crypto)
    ensures UniqueBy(s.providers, ProviderKey) && UniqueBy(s.credentials, CredentialKey)
  {
  }

  lemma ClaimantAdapter(s: State, p: Provider, c: Credential)
    requires UniqueBy(s.credentials, CredentialKey) && c in s.credentials
    requires BindingSound(s, p) && Claims(s.defaults, p, c.id)
    ensures p.adapter == c.adapter
  {
    var d :| d in s.credentials && d.id == c.id && d.adapter == p.adapter && IsLive(d);
    UniqueRow(s.credentials, CredentialKey, c, d);
  }

  lemma SoleClaimant(s: State, id: string, p: Provider)
    requires UniqueBy(s.providers, ProviderKey) && Injective(s) && p in s.providers && Claims(s.defaults, p, id)
    ensures Claimants(s.defaults, s.providers, id) == [p]
  {
    OneClaimant(s, id);
    assert p in Claimants(s.defaults, s.providers, id);
  }

  /** A live credential of an accepted snapshot has one claimant, of its own adapter. */
  lemma OwnerOf(s: State, crypto: Crypto, c: Credential) returns (p: Provider)
    requires Accepted(s, crypto) && c in s.credentials && IsLive(c)
    ensures p in s.providers && Claims(s.defaults, p, c.id) && p.adapter == c.adapter
    ensures Claimants(s.defaults, s.providers, c.id) == [p] && HasOwner(s, c) && OwnerId(s, c) == p.id
  {
    AcceptedKeys(s, crypto);
    assert Injective(s) && Covering(s) && forall q :: q in s.providers ==> BindingSound(s, q) by {
      PlannerAcceptsRows(s, crypto, true);
    }
    p :| p in s.providers && Claims(s.defaults, p, c.id);
    SoleClaimant(s, c.id, p);
    ClaimantAdapter(s, p, c);
  }

  /** A Provider with a non-blank binding owns a live credential. */
  lemma BoundTo(s: State, crypto: Crypto, p: Provider) returns (c: Credential)
    requires Accepted(s, crypto) && p in s.providers && !p.status.Deleted? && Truthy(Binding(s.defaults, p))
    ensures c in s.credentials && IsLive(c) && Binding(s.defaults, p) == Some(c.id) && c.adapter == p.adapter
    ensures HasOwner(s, c) && OwnerId(s, c) == p.id
  {
    PlannerAcceptsRows(s, crypto, true);
    assert LiveAccount(s, Binding(s.defaults, p).value, p.adapter);
    c :| c in s.credentials && c.id == Binding(s.defaults, p).value && c.adapter == p.adapter && IsLive(c);
    var q := OwnerOf(s, crypto, c);
    assert Claims(s.defaults, p, c.id);
  }

  ghost function DirectlyBound(s: State): seq<Provider> {
    Filter(s.providers, (p: Provider) => !p.status.Deleted? && Truthy(Binding(s.defaults, p)))
  }

  ghost function BlankBound(s: State): nat {
    Count(s.providers, (p: Provider) => !p.status.Deleted? && Binding(s.defaults, p) == Some(""))
  }

  ghost function OwnerIdOf(s: State, id: string): string {
    var claimants := Claimants(s.defaults, s.providers, id);
    if claimants == [] then "" else claimants[0].id
  }

  ghost function BoundIds(s: State): set<string> {
    Keys(DirectlyBound(s), ProviderKey)
  }

  ghost function LiveIds(s: State): set<string> {
    Keys(Filter(s.credentials, IsLive), CredentialKey)
  }

  lemma OwnerBound(s: State, crypto: Crypto, id: string)
    requires Accepted(s, crypto) && id in LiveIds(s)
    ensures OwnerIdOf(s, id) in BoundIds(s)
  {
    var c :| c in Filter(s.credentials, IsLive) && c.id == id;
    var p := OwnerOf(s, crypto, c);
    assert p in DirectlyBound(s);
  }

  lemma OwnersApart(s: State, crypto: Crypto, id: string, id': string)
    requires Accepted(s, crypto) && id in LiveIds(s) && id' in LiveIds(s) && OwnerIdOf(s, id) == OwnerIdOf(s, id')
    ensures id == id'
  {
    AcceptedKeys(s, crypto);
    var c :| c in Filter(s.credentials, IsLive) && c.id == id;
    var c' :| c' in Filter(s.credentials, IsLive) && c'.id == id';
    var p := OwnerOf(s, crypto, c);
    var p' := OwnerOf(s, crypto, c');
    UniqueRow(s.providers, ProviderKey, p, p');
  }

  lemma BoundOwns(s: State, crypto: Crypto, k: string) returns (id: string)
    requires Accepted(s, crypto) && k in BoundIds(s)
    ensures id in LiveIds(s) && OwnerIdOf(s, id) == k
  {
    var p :| p in DirectlyBound(s) && p.id == k;
    var c := BoundTo(s, crypto, p);
    id := c.id;
    assert c in Filter(s.credentials, IsLive);
  }

  /** Bound Providers and live credentials are in bijection. */
  lemma BoundSize(s: State, crypto: Crypto)
    requires Accepted(s, crypto)
    ensures |DirectlyBound(s)| == Count(s.credentials, IsLive)
  {
    AcceptedKeys(s, crypto);
    FilterUnique(s.providers, (p: Provider) => !p.status.Deleted? && Truthy(Binding(s.defaults, p)), ProviderKey);
    FilterUnique(s.credentials, IsLive, CredentialKey);
    KeysSize(DirectlyBound(s), ProviderKey);
    KeysSize(Filter(s.credentials, IsLive), CredentialKey);
    var owner := map id | id in LiveIds(s) :: OwnerIdOf(s, id);
    forall id | id in LiveIds(s) ensures owner[id] in BoundIds(s) {
      OwnerBound(s, crypto, id);
    }
    forall id, id' | id in LiveIds(s) && id' in LiveIds(s) && owner[id] == owner[id'] ensures id == id' {
      OwnersApart(s, crypto, id, id');
    }
    forall k | k in BoundIds(s) ensures exists id :: id in LiveIds(s) && owner[id] == k {
      var id := BoundOwns(s, crypto, k);
      assert owner[id] == k;
    }
    BijectionSize(LiveIds(s), BoundIds(s), owner);
  }

  lemma CredentialCounts(s: State, crypto: Crypto)
    requires Accepted(s, crypto)
    ensures PlanOf(s).liveCredentialRows == Count(s.credentials, IsLive)
    ensures PlanOf(s).disconnectedCredentialRows == Count(s.credentials, (c: Credential) => !IsLive(c))
  {
    forall c | c in s.credentials ensures HasOwner(s, c) == IsLive(c) {
      if IsLive(c) {
        var p := OwnerOf(s, crypto, c);
      }
    }
    FilterSame(s.credentials, c => HasOwner(s, c), IsLive);
    CountSplit(s.credentials, (c: Credential) => true, IsLive, (c: Credential) => !IsLive(c));
    FilterAll(s.credentials, (c: Credential) => true);
  }

  lemma ProviderCounts(s: State)
    ensures PlanOf(s).providersDirectBound == |DirectlyBound(s)| + BlankBound(s)
    ensures PlanOf(s).providersDirectBound + PlanOf(s).providersWithoutCredential == |s.providers|
  {
    FilterMap(s.providers, p => TargetOf(s.defaults, p),
              (p: Provider) => TargetPointer(s.defaults, p).Some?, (t: ProviderTarget) => t.credentialId.Some?);
    CountSplit(s.providers, (p: Provider) => TargetPointer(s.defaults, p).Some?,
               (p: Provider) => !p.status.Deleted? && Truthy(Binding(s.defaults, p)),
               (p: Provider) => !p.status.Deleted? && Binding(s.defaults, p) == Some(""));
    CountSplit(ProviderTargets(s), (t: ProviderTarget) => true,
               (t: ProviderTarget) => t.credentialId.Some?, (t: ProviderTarget) => t.credentialId.None?);
    FilterAll(ProviderTargets(s), (t: ProviderTarget) => true);
  }

  /** The receipt's arithmetic. A pin to the blank id is the one binding that is counted without being owned. */
  lemma PlanCounts(s: State, crypto: Crypto)
    requires Accepted(s, crypto)
    ensures var plan := PlanOf(s);
      && plan.liveCredentialRows == Count(s.credentials, IsLive)
      && plan.providersDirectBound == plan.liveCredentialRows + BlankBound(s)
      && plan.providersDirectBound + plan.providersWithoutCredential == |s.providers|
      && plan.disconnectedCredentialRows == Count(s.credentials, (c: Credential) => !IsLive(c))
  {
    CredentialCounts(s, crypto);
    ProviderCounts(s);
    BoundSize(s, crypto);
  }
}
