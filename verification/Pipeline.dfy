/** The three migrations in sequence: what each stage's output spares the next. */
module Pipeline {
  import opened Sequences
  import opened Tables
  import opened Envelopes
  import Accounts = ManagedAccounts
  import AccountsT = ManagedTheorems
  import Owned = OwnedCredentials
  import OwnedT = OwnershipTheorems
  import CutT = CutoverTheorems
  import Orphans = OrphanRepair
  import RepairT = RepairTheorems

  // ---- Stage 1 discharges stage 2 ----

  /** The only reasons the ownership planner can still have after a committed managed-account migration. */
  predicate Residual(fault: Owned.Fault) {
    || fault.DefaultDangling?
    || fault.DefaultNotLive?
    || fault.ProvenanceDangling?
    || fault.ProviderCredentialNotLive?
    || fault.SharedLive?
    || fault.OrphanLive?
  }

  lemma MigratedKeys(s: State, crypto: Crypto)
    requires PrimaryKeys(s)
    ensures PrimaryKeys(Accounts.Migrated(s, crypto))
  {
    var t := Accounts.Migrated(s, crypto);
    assert forall i :: 0 <= i < |s.providers| ==> ProviderKey(t.providers[i]) == ProviderKey(s.providers[i]);
    assert forall i :: 0 <= i < |s.credentials| ==> CredentialKey(t.credentials[i]) == CredentialKey(s.credentials[i]);
    assert forall i :: 0 <= i < |s.attempts| ==> AttemptKey(t.attempts[i]) == AttemptKey(s.attempts[i]);
    assert forall i :: 0 <= i < |s.jobs| ==> JobKey(t.jobs[i]) == JobKey(s.jobs[i]);
  }

  lemma MigratedSettled(s: State, crypto: Crypto)
    requires PrimaryKeys(s) && AccountsT.Clean(s, crypto, true)
    ensures OwnedT.Settled(Owned.Selected(Accounts.Migrated(s, crypto)))
  {
    var t := Accounts.Migrated(s, crypto);
    MigratedKeys(s, crypto);
    FilterUnique(t.providers, IsManaged, ProviderKey);
    AccountsT.CleanRows(s, crypto, true);
    forall a | a in t.attempts ensures !IsActive(a) {
      var i :| 0 <= i < |s.attempts| && t.attempts[i] == a;
    }
    forall j | j in t.jobs ensures j.status.Terminal() && j.bundle == NO_BUNDLE {
      var i :| 0 <= i < |s.jobs| && t.jobs[i] == j;
      assert s.jobs[i] in s.jobs;
    }
  }

  /** A migrated credential can only fail the ownership planner over its provenance. */
  lemma MigratedCredentialSound(c: Credential, crypto: Crypto, providers: seq<Provider>)
    requires Lawful(crypto) && Accounts.Transform(c, crypto, true).Success?
    ensures var fault := Owned.CredentialFault(providers, crypto, true, Accounts.MigrateCredential(crypto, c));
      fault.None? || fault == Some(Owned.ProvenanceDangling)
  {
    AccountsT.MigratedCredentialValid(c, crypto);
    Accounts.TransformDry(c, crypto);
    if c.bundle.Present() == 5 {
      var e, b := AccountsT.Opened(c, crypto);
    }
  }

  /** A credential whose owner is found does not fail over its provenance. */
  lemma ProvenanceFound(providers: seq<Provider>, crypto: Crypto, d: Credential)
    requires Truthy(d.providerId) ==>
      var found := Find(providers, ProviderKey, d.providerId.value); found.Some? && found.value.adapter == d.adapter
    ensures Owned.CredentialFault(providers, crypto, true, d) != Some(Owned.ProvenanceDangling)
  {
  }

  /** A migrated Provider in use can only fail it over a pin to an account that is no longer live. */
  lemma MigratedProviderSound(s: State, crypto: Crypto, p: Provider)
    requires PrimaryKeys(s) && AccountsT.Clean(s, crypto, true) && p in s.providers && IsManaged(p)
    requires Owned.DefaultsFault(s.defaults, Accounts.Migrated(s, crypto).credentials).None?
    ensures var fault := Owned.ProviderFault(Owned.Selected(Accounts.Migrated(s, crypto)), Accounts.MigrateProvider(s.credentials, p));
      fault.None? || fault == Some(Owned.ProviderCredentialNotLive)
  {
    AccountsT.CleanRows(s, crypto, true);
    var t, q := Accounts.Migrated(s, crypto), Accounts.MigrateProvider(s.credentials, p);
    AccountsT.ProviderAgain(s, crypto, p);
    if q.mode == Some(FollowDefault) {
      MigratedKeys(s, crypto);
      OwnedT.DefaultsFaultSound(s.defaults, t);
      if Truthy(Owned.Binding(s.defaults, q)) {
        var d := Find(s.defaults, DefaultKey, q.adapter).value;
        assert OwnedT.LiveAccount(t, d.credentialId, d.adapter);
        OwnedT.LiveAccountFind(t, d.credentialId, d.adapter);
      }
    }
  }

  lemma FirstFaultIs<T(!new), F(!new)>(rows: seq<T>, fault: T -> Option<F>, only: F)
    requires forall x :: x in rows ==> fault(x).None? || fault(x) == Some(only)
    ensures FirstFault(rows, fault).None? || FirstFault(rows, fault) == Some(only)
  {
  }

  lemma {:induction false} DefaultsResidual(defaults: seq<DefaultAccount>, credentials: seq<Credential>)
    requires UniqueBy(defaults, DefaultKey)
    ensures var fault := Owned.DefaultsFault(defaults, credentials);
      fault.None? || fault.value.DefaultDangling? || fault.value.DefaultNotLive?
  {
    if defaults != [] {
      var n := |defaults| - 1;
      DefaultsResidual(defaults[..n], credentials);
      UniqueExtend(defaults, DefaultKey);
    }
  }

  lemma CredentialsResidual(s: State, crypto: Crypto, providers: seq<Provider>)
    requires Lawful(crypto) && AccountsT.Clean(s, crypto, true)
    ensures var fault := FirstFault(Accounts.Migrated(s, crypto).credentials, c => Owned.CredentialFault(providers, crypto, true, c));
      fault.None? || fault == Some(Owned.ProvenanceDangling)
  {
    var credentials := Accounts.Migrated(s, crypto).credentials;
    AccountsT.CleanRows(s, crypto, true);
    forall d | d in credentials
      ensures var fault := Owned.CredentialFault(providers, crypto, true, d); fault.None? || fault == Some(Owned.ProvenanceDangling)
    {
      var i :| 0 <= i < |s.credentials| && credentials[i] == d;
      MigratedCredentialSound(s.credentials[i], crypto, providers);
    }
    FirstFaultIs(credentials, c => Owned.CredentialFault(providers, crypto, true, c), Owned.ProvenanceDangling);
  }

  lemma ProvidersResidual(s: State, crypto: Crypto)
    requires PrimaryKeys(s) && AccountsT.Clean(s, crypto, true)
    requires Owned.DefaultsFault(s.defaults, Accounts.Migrated(s, crypto).credentials).None?
    ensures var sel := Owned.Selected(Accounts.Migrated(s, crypto));
      var fault := FirstFault(sel.providers, p => Owned.ProviderFault(sel, p));
      fault.None? || fault == Some(Owned.ProviderCredentialNotLive)
  {
    var t := Accounts.Migrated(s, crypto);
    var sel := Owned.Selected(t);
    forall q | q in sel.providers
      ensures var fault := Owned.ProviderFault(sel, q); fault.None? || fault == Some(Owned.ProviderCredentialNotLive)
    {
      var i :| 0 <= i < |s.providers| && t.providers[i] == q;
      MigratedProviderSound(s, crypto, s.providers[i]);
    }
    FirstFaultIs(sel.providers, q => Owned.ProviderFault(sel, q), Owned.ProviderCredentialNotLive);
  }

  /** After a committed stage 1 the planner never stops over attempts, jobs, envelopes, identities, modes or dangling pins. */
  lemma StageOneDischargesStageTwo(s: State, crypto: Crypto)
    requires PrimaryKeys(s) && Lawful(crypto) && Accounts.Outcome(s, true, crypto).Success?
    ensures var fault := Owned.PlanFault(Owned.Selected(Accounts.Migrated(s, crypto)), crypto, true);
      fault.None? || Residual(fault.value)
  {
    var t := Accounts.Migrated(s, crypto);
    var sel := Owned.Selected(t);
    assert Owned.IntakeFault(sel).None? by {
      MigratedSettled(s, crypto);
      OwnedT.IntakeSettled(sel);
    }
    DefaultsResidual(s.defaults, t.credentials);
    CredentialsResidual(s, crypto, sel.providers);
    if Owned.DefaultsFault(s.defaults, t.credentials).None? {
      ProvidersResidual(s, crypto);
    }
    ResidualRows(sel, crypto);
  }

  lemma ResidualRows(s: State, crypto: Crypto)
    requires Owned.IntakeFault(s).None?
    requires var fault := Owned.DefaultsFault(s.defaults, s.credentials); fault.None? || Residual(fault.value)
    requires var fault := FirstFault(s.credentials, c => Owned.CredentialFault(s.providers, crypto, true, c));
      fault.None? || Residual(fault.value)
    requires Owned.DefaultsFault(s.defaults, s.credentials).None? ==>
      var fault := FirstFault(s.providers, p => Owned.ProviderFault(s, p)); fault.None? || Residual(fault.value)
    ensures var fault := Owned.PlanFault(s, crypto, true); fault.None? || Residual(fault.value)
  {
  }

  // ---- Stage 2 leaves stage 3 nothing to do ----

  ghost predicate NamedProviders(s: State) {
    forall p :: p in s.providers ==> p.id != ""
  }

  lemma CutoverKeys(s: State)
    requires PrimaryKeys(s)
    ensures PrimaryKeys(Owned.Cutover(s))
  {
    var u := Owned.Cutover(s);
    assert forall i :: 0 <= i < |s.providers| ==> ProviderKey(u.providers[i]) == ProviderKey(s.providers[i]);
    assert forall i :: 0 <= i < |s.credentials| ==> CredentialKey(u.credentials[i]) == CredentialKey(s.credentials[i]);
  }

  lemma CutProviderQuiet(s: State, q: Provider)
    requires q in Owned.Cutover(s).providers && IsManaged(q)
    ensures !Orphans.Tombstone(q)
  {
    var i :| 0 <= i < |s.providers| && Owned.Cutover(s).providers[i] == q;
  }

  lemma CutCredentialOwned(s: State, crypto: Crypto, d: Credential)
    requires PrimaryKeys(s) && NamedProviders(s) && OwnedT.Accepted(Owned.Selected(s), crypto)
    requires d in Owned.Cutover(s).credentials && IsLive(d)
    ensures !Orphans.Orphaned(Orphans.Selected(Owned.Cutover(s)).providers, d)
    ensures RepairT.Unambiguous(Orphans.Selected(Owned.Cutover(s)).providers, d)
  {
    var u := Owned.Cutover(s);
    var providers := Orphans.Selected(u).providers;
    var i :| 0 <= i < |s.credentials| && u.credentials[i] == d;
    var p := CutT.CutPair(s, crypto, s.credentials[i]);
    CutoverKeys(s);
    FilterUnique(u.providers, IsManaged, ProviderKey);
    FindUnique(providers, ProviderKey, Owned.CutProvider(s.defaults, p));
    NoDeadPointer(s, d.id);
  }

  lemma NoDeadPointer(s: State, id: string)
    ensures var providers := Orphans.Selected(Owned.Cutover(s)).providers;
      Orphans.PointerOwners(providers, id) == [] && forall q :: q in providers ==> !Orphans.DeadPointer(q, id)
  {
    var providers := Orphans.Selected(Owned.Cutover(s)).providers;
    forall q | q in providers ensures !Orphans.DeadPointer(q, id) {
      CutProviderQuiet(s, q);
    }
    CountZero(providers, q => Orphans.DeadPointer(q, id));
  }

  /** The orphan planner accepts every stage 2 output and plans nothing, whatever stage 2 started from. */
  lemma RepairAfterCutover(s: State, crypto: Crypto)
    requires PrimaryKeys(s) && NamedProviders(s) && Owned.Outcome(s, true, crypto).Success?
    ensures var sel := Orphans.Selected(Owned.Cutover(s));
      Orphans.PlanFault(sel).None? && Orphans.PlanOf(sel) == Orphans.Plan([], [], [])
  {
    CutT.OutcomeApplied(s, crypto);
    var u := Owned.Cutover(s);
    var sel := Orphans.Selected(u);
    CutoverKeys(s);
    forall d | d in u.credentials && IsLive(d)
      ensures RepairT.Unambiguous(sel.providers, d) && !Orphans.Orphaned(sel.providers, d)
    {
      CutCredentialOwned(s, crypto, d);
    }
    RepairT.RepairAccepts(u);
    forall q | q in sel.providers ensures !Orphans.Tombstone(q) {
      CutProviderQuiet(s, q);
    }
    CountZero(sel.providers, p => Orphans.Tombstone(p));
    CountZero(sel.credentials, c => Orphans.Orphaned(sel.providers, c));
    OwnedT.IntakeSettled(Owned.Selected(s));
    CountZero(sel.attempts, a => Orphans.Stranded(sel, a));
  }

  /** Stage 3 commits on every stage 2 output without changing a row. */
  lemma StageThreeQuiet(s: State, crypto: Crypto)
    requires PrimaryKeys(s) && WellTyped(s) && Owned.Outcome(s, true, crypto).Success?
    ensures var u := Owned.Cutover(s);
      && Orphans.Repaired(u) == u
      && Orphans.Outcome(u, true, crypto).Success?
      && Orphans.Outcome(u, true, crypto).value.changedRows == 0
  {
    RepairAfterCutover(s, crypto);
    CutoverKeys(s);
    RepairT.EmptyRepair(Owned.Cutover(s), crypto);
  }
}
