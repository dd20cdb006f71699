/** provider-deleted-credential-orphans-v1: live credentials without a live owner are invalidated locally. */
module OrphanRepair {
  import opened Sequences
  import opened CanonicalJson
  import opened Tables
  import opened Envelopes

  datatype Fault =
    | UnsupportedAdapter
    | DuplicateProvider
    | DuplicateCredential
    | MultiplePointers
    | PointerAdapterMismatched
    | ProvenanceDisagrees
    | DuplicateAttempt
    | ProviderChanged
    | AttemptChanged
    | CredentialChanged
    | VerificationFailed

  datatype ProviderTarget = ProviderTarget(providerId: string, credentialId: string)

  datatype CredentialTarget = CredentialTarget(credentialId: string, providerId: Option<string>, adapter: Adapter, status: CredentialStatus)

  datatype AttemptTarget = AttemptTarget(attemptId: string, status: AttemptStatus)

  datatype Plan = Plan(
    providerTargets: seq<ProviderTarget>,
    credentialTargets: seq<CredentialTarget>,
    attemptTargets: seq<AttemptTarget>)

  // ---- Row rules ----

  function ProvidersFault(providers: seq<Provider>): Option<Fault> {
    if providers == [] then None
    else
      var front, p := providers[..|providers| - 1], providers[|providers| - 1];
      var earlier := ProvidersFault(front);
      if earlier.Some? then earlier
      else if !p.adapter.Managed() then Some(UnsupportedAdapter)
      else if Find(front, ProviderKey, p.id).Some? then Some(DuplicateProvider)
      else None
  }

  /** A tombstone that still points at the credential `id`. */
  predicate DeadPointer(p: Provider, id: string) {
    p.status.Deleted? && id != "" && p.credentialId == Some(id)
  }

  function PointerOwners(providers: seq<Provider>, id: string): seq<Provider> {
    Filter(providers, p => DeadPointer(p, id))
  }

  function OwnerOf(providers: seq<Provider>, c: Credential): Option<Provider> {
    if Truthy(c.providerId) then Find(providers, ProviderKey, c.providerId.value) else None
  }

  /** The Provider a credential names is in use, of the same adapter, and points back. */
  predicate ValidOwner(owner: Option<Provider>, c: Credential) {
    owner.Some? && owner.value.adapter == c.adapter && !owner.value.status.Deleted? && owner.value.credentialId == Some(c.id)
  }

  function CredentialFault(providers: seq<Provider>, c: Credential): Option<Fault> {
    var owner, pointers := OwnerOf(providers, c), PointerOwners(providers, c.id);
    if !IsLive(c) then None
    else if |pointers| > 1 then Some(MultiplePointers)
    else if pointers == [] then None
    else if pointers[0].adapter != c.adapter then Some(PointerAdapterMismatched)
    else if owner.Some? && owner.value.id != pointers[0].id then Some(ProvenanceDisagrees)
    else None
  }

  predicate Orphaned(providers: seq<Provider>, c: Credential) {
    IsLive(c) && !(ValidOwner(OwnerOf(providers, c), c) && PointerOwners(providers, c.id) == [])
  }

  function CredentialsFault(providers: seq<Provider>, credentials: seq<Credential>): Option<Fault> {
    if credentials == [] then None
    else
      var front, c := credentials[..|credentials| - 1], credentials[|credentials| - 1];
      var earlier := CredentialsFault(providers, front);
      if earlier.Some? then earlier
      else if Find(front, CredentialKey, c.id).Some? then Some(DuplicateCredential)
      else CredentialFault(providers, c)
  }

  predicate Tombstone(p: Provider) {
    p.status.Deleted? && p.credentialId.Some?
  }

  /** An attempt to cancel: active, and on a tombstone or towards a credential being disconnected. */
  predicate Stranded(s: State, a: Attempt) {
    IsActive(a)
    && (|| (exists p :: p in s.providers && p.id == a.providerId && p.status.Deleted?)
        || (Truthy(a.targetCredentialId)
            && exists c :: c in s.credentials && c.id == a.targetCredentialId.value && Orphaned(s.providers, c)))
  }

  function AttemptsFault(attempts: seq<Attempt>): Option<Fault> {
    if attempts == [] then None
    else
      var front, a := attempts[..|attempts| - 1], attempts[|attempts| - 1];
      var earlier := AttemptsFault(front);
      if earlier.Some? then earlier
      else if Find(front, AttemptKey, a.id).Some? then Some(DuplicateAttempt)
      else None
  }

  function PlanFault(s: State): Option<Fault> {
    if ProvidersFault(s.providers).Some? then ProvidersFault(s.providers)
    else if CredentialsFault(s.providers, s.credentials).Some? then CredentialsFault(s.providers, s.credentials)
    else AttemptsFault(s.attempts)
  }

  function Orphans(s: State): seq<Credential> {
    Filter(s.credentials, c => Orphaned(s.providers, c))
  }

  function Tombstones(s: State): seq<Provider> {
    Filter(s.providers, p => Tombstone(p))
  }

  function StrandedAttempts(s: State): seq<Attempt> {
    Filter(s.attempts, a => Stranded(s, a))
  }

  function ProviderTargetOf(p: Provider): ProviderTarget {
    ProviderTarget(p.id, if p.credentialId.Some? then p.credentialId.value else "")
  }

  function CredentialTargetOf(c: Credential): CredentialTarget {
    CredentialTarget(c.id, c.providerId, c.adapter, c.status)
  }

  function AttemptTargetOf(a: Attempt): AttemptTarget {
    AttemptTarget(a.id, a.status)
  }

  function ProviderTargets(s: State): seq<ProviderTarget> {
    MapRows(Tombstones(s), ProviderTargetOf)
  }

  function CredentialTargets(s: State): seq<CredentialTarget> {
    MapRows(Orphans(s), CredentialTargetOf)
  }

  function AttemptTargets(s: State): seq<AttemptTarget> {
    MapRows(StrandedAttempts(s), AttemptTargetOf)
  }

  function PlanOf(s: State): Plan {
    Plan(ProviderTargets(s), CredentialTargets(s), AttemptTargets(s))
  }

  // ---- The planner ----

  ghost predicate PointersCollected(owners: map<string, seq<Provider>>, providers: seq<Provider>) {
    forall id :: (if id in owners then owners[id] else []) == PointerOwners(providers, id)
  }

  lemma PointersStep(owners: map<string, seq<Provider>>, providers: seq<Provider>, i: nat, next: map<string, seq<Provider>>)
    requires i < |providers| && PointersCollected(owners, providers[..i])
    requires var p := providers[i];
             next == if p.status.Deleted? && Truthy(p.credentialId)
               then var id := p.credentialId.value;
                    owners[id := (if id in owners then owners[id] else []) + [p]]
               else owners
    ensures PointersCollected(next, providers[..i + 1])
  {
    forall id ensures (if id in next then next[id] else []) == PointerOwners(providers[..i + 1], id) {
      FilterPrefix(providers, p => DeadPointer(p, id), i);
    }
  }

  /** The ids of the deleted Providers. */
  ghost predicate DeletedCollected(deleted: set<string>, providers: seq<Provider>) {
    forall id :: id in deleted <==> exists p :: p in providers && p.id == id && p.status.Deleted?
  }

  lemma DeletedStep(deleted: set<string>, providers: seq<Provider>, i: nat)
    requires i < |providers| && DeletedCollected(deleted, providers[..i])
    ensures DeletedCollected(if providers[i].status.Deleted? then deleted + {providers[i].id} else deleted, providers[..i + 1])
  {
    assert providers[..i + 1] == providers[..i] + [providers[i]];
  }

  lemma ProviderStep(providers: seq<Provider>, i: nat)
    requires i < |providers| && ProvidersFault(providers[..i]).None?
    ensures var p := providers[i];
      && ProvidersFault(providers[..i + 1])
         == (if !p.adapter.Managed() then Some(UnsupportedAdapter)
             else if p.id in IndexBy(providers[..i], ProviderKey) then Some(DuplicateProvider) else None)
      && IndexBy(providers[..i + 1], ProviderKey) == IndexBy(providers[..i], ProviderKey)[p.id := p]
  {
    assert providers[..i + 1][..i] == providers[..i];
    IndexFind(providers[..i], ProviderKey, providers[i].id);
  }

  method SurveyProviders(providers: seq<Provider>)
    returns (fault: Option<Fault>, byId: map<string, Provider>, deleted: set<string>, pointerOwners: map<string, seq<Provider>>)
    ensures fault == ProvidersFault(providers)
    ensures fault.None? ==> byId == IndexBy(providers, ProviderKey)
    ensures fault.None? ==> DeletedCollected(deleted, providers)
    ensures fault.None? ==> PointersCollected(pointerOwners, providers)
  {
    byId, deleted, pointerOwners := map[], {}, map[];
    for i := 0 to |providers|
      invariant ProvidersFault(providers[..i]).None?
      invariant byId == IndexBy(providers[..i], ProviderKey)
      invariant DeletedCollected(deleted, providers[..i])
      invariant PointersCollected(pointerOwners, providers[..i])
    {
      var p := providers[i];
      ProviderStep(providers, i);
      if !p.adapter.Managed() {
        fault := Some(UnsupportedAdapter);
      } else if p.id in byId {
        fault := Some(DuplicateProvider);
      } else {
        fault := None;
      }
      if fault.Some? {
        ProvidersFaultPrefix(providers, i + 1);
        return;
      }
      byId := byId[p.id := p];
      DeletedStep(deleted, providers, i);
      ghost var was := pointerOwners;
      if p.status.Deleted? {
        deleted := deleted + {p.id};
        if Truthy(p.credentialId) {
          var owners := if p.credentialId.value in pointerOwners then pointerOwners[p.credentialId.value] else [];
          pointerOwners := pointerOwners[p.credentialId.value := owners + [p]];
        }
      }
      PointersStep(was, providers, i, pointerOwners);
    }
    assert providers[..|providers|] == providers;
    fault := None;
  }

  lemma {:induction false} ProvidersFaultPrefix(providers: seq<Provider>, n: nat)
    requires n <= |providers| && ProvidersFault(providers[..n]).Some?
    ensures ProvidersFault(providers) == ProvidersFault(providers[..n])
    decreases |providers|
  {
    if n < |providers| {
      assert providers[..|providers| - 1][..n] == providers[..n];
      ProvidersFaultPrefix(providers[..|providers| - 1], n);
    } else {
      assert providers[..n] == providers;
    }
  }

  lemma {:induction false} CredentialsFaultPrefix(providers: seq<Provider>, credentials: seq<Credential>, n: nat)
    requires n <= |credentials| && CredentialsFault(providers, credentials[..n]).Some?
    ensures CredentialsFault(providers, credentials) == CredentialsFault(providers, credentials[..n])
    decreases |credentials|
  {
    if n < |credentials| {
      assert credentials[..|credentials| - 1][..n] == credentials[..n];
      CredentialsFaultPrefix(providers, credentials[..|credentials| - 1], n);
    } else {
      assert credentials[..n] == credentials;
    }
  }

  lemma {:induction false} AttemptsFaultPrefix(attempts: seq<Attempt>, n: nat)
    requires n <= |attempts| && AttemptsFault(attempts[..n]).Some?
    ensures AttemptsFault(attempts) == AttemptsFault(attempts[..n])
    decreases |attempts|
  {
    if n < |attempts| {
      assert attempts[..|attempts| - 1][..n] == attempts[..n];
      AttemptsFaultPrefix(attempts[..|attempts| - 1], n);
    } else {
      assert attempts[..n] == attempts;
    }
  }

  /** One live credential: blocked, kept, or a target. */
  method Classify(providers: seq<Provider>, c: Credential, byId: map<string, Provider>, pointerOwners: map<string, seq<Provider>>)
    returns (fault: Option<Fault>, target: bool)
    requires byId == IndexBy(providers, ProviderKey) && PointersCollected(pointerOwners, providers)
    ensures fault == CredentialFault(providers, c)
    ensures fault.None? ==> target == Orphaned(providers, c)
  {
    if !c.status.Live() {
      return None, false;
    }
    var owner := None;
    if Truthy(c.providerId) {
      IndexFind(providers, ProviderKey, c.providerId.value);
      owner := Get(byId, c.providerId.value);
    }
    var pointers := if c.id in pointerOwners then pointerOwners[c.id] else [];
    if |pointers| > 1 {
      return Some(MultiplePointers), false;
    }
    if ValidOwner(owner, c) && pointers == [] {
      return None, false;
    }
    if pointers != [] && pointers[0].adapter != c.adapter {
      return Some(PointerAdapterMismatched), false;
    }
    if owner.Some? && pointers != [] && owner.value.id != pointers[0].id {
      return Some(ProvenanceDisagrees), false;
    }
    return None, true;
  }

  method SurveyCredentials(s: State, byId: map<string, Provider>, pointerOwners: map<string, seq<Provider>>)
    returns (fault: Option<Fault>, targets: seq<CredentialTarget>)
    requires byId == IndexBy(s.providers, ProviderKey) && PointersCollected(pointerOwners, s.providers)
    ensures fault == CredentialsFault(s.providers, s.credentials)
    ensures fault.None? ==> targets == CredentialTargets(s)
  {
    var seen: set<string> := {};
    targets := [];
    for i := 0 to |s.credentials|
      invariant CredentialsFault(s.providers, s.credentials[..i]).None?
      invariant seen == Keys(s.credentials[..i], CredentialKey)
      invariant targets == CredentialTargets(s.(credentials := s.credentials[..i]))
    {
      var c := s.credentials[i];
      var target := false;
      CredentialStep(s, i);
      CredentialTargetStep(s, i);
      if c.id in seen {
        fault := Some(DuplicateCredential);
      } else {
        fault, target := Classify(s.providers, c, byId, pointerOwners);
      }
      if fault.Some? {
        CredentialsFaultPrefix(s.providers, s.credentials, i + 1);
        return;
      }
      seen := seen + {c.id};
      if target {
        targets := targets + [CredentialTarget(c.id, c.providerId, c.adapter, c.status)];
      }
    }
    assert s.credentials[..|s.credentials|] == s.credentials;
    fault := None;
  }

  lemma CredentialStep(s: State, i: nat)
    requires i < |s.credentials| && CredentialsFault(s.providers, s.credentials[..i]).None?
    ensures var c := s.credentials[i];
      && CredentialsFault(s.providers, s.credentials[..i + 1])
         == (if c.id in Keys(s.credentials[..i], CredentialKey) then Some(DuplicateCredential) else CredentialFault(s.providers, c))
      && Keys(s.credentials[..i + 1], CredentialKey) == Keys(s.credentials[..i], CredentialKey) + {c.id}
  {
    assert s.credentials[..i + 1][..i] == s.credentials[..i];
    KeysFind(s.credentials[..i], CredentialKey, s.credentials[i].id);
    KeysStep(s.credentials, CredentialKey, i);
  }

  lemma CredentialTargetStep(s: State, i: nat)
    requires i < |s.credentials|
    ensures CredentialTargets(s.(credentials := s.credentials[..i + 1]))
         == CredentialTargets(s.(credentials := s.credentials[..i]))
            + if Orphaned(s.providers, s.credentials[i]) then [CredentialTargetOf(s.credentials[i])] else []
  {
    FilterPrefix(s.credentials, c => Orphaned(s.providers, c), i);
  }

  lemma AttemptStep(s: State, i: nat)
    requires i < |s.attempts| && AttemptsFault(s.attempts[..i]).None?
    ensures var a := s.attempts[i];
      && AttemptsFault(s.attempts[..i + 1])
         == (if a.id in Keys(s.attempts[..i], AttemptKey) then Some(DuplicateAttempt) else None)
      && Keys(s.attempts[..i + 1], AttemptKey) == Keys(s.attempts[..i], AttemptKey) + {a.id}
  {
    assert s.attempts[..i + 1][..i] == s.attempts[..i];
    KeysFind(s.attempts[..i], AttemptKey, s.attempts[i].id);
    KeysStep(s.attempts, AttemptKey, i);
  }

  lemma AttemptTargetStep(s: State, i: nat)
    requires i < |s.attempts|
    ensures AttemptTargets(s.(attempts := s.attempts[..i + 1]))
         == AttemptTargets(s.(attempts := s.attempts[..i]))
            + if Stranded(s, s.attempts[i]) then [AttemptTargetOf(s.attempts[i])] else []
  {
    StrandedSame(s, s.attempts[..i]);
    StrandedSame(s, s.attempts[..i + 1]);
    FilterPrefix(s.attempts, a => Stranded(s, a), i);
  }

  /** Which attempts are stranded does not depend on the attempts. */
  lemma StrandedSame(s: State, attempts: seq<Attempt>)
    ensures AttemptTargets(s.(attempts := attempts)) == MapRows(Filter(attempts, a => Stranded(s, a)), AttemptTargetOf)
  {
    var t := s.(attempts := attempts);
    FilterSame(attempts, a => Stranded(t, a), a => Stranded(s, a));
  }

  method SurveyAttempts(s: State, deleted: set<string>, targetIds: set<string>)
    returns (fault: Option<Fault>, targets: seq<AttemptTarget>)
    requires DeletedCollected(deleted, s.providers)
    requires forall id :: id in targetIds <==> exists c :: c in s.credentials && c.id == id && Orphaned(s.providers, c)
    ensures fault == AttemptsFault(s.attempts)
    ensures fault.None? ==> targets == AttemptTargets(s)
  {
    var seen: set<string> := {};
    targets := [];
    for i := 0 to |s.attempts|
      invariant AttemptsFault(s.attempts[..i]).None?
      invariant seen == Keys(s.attempts[..i], AttemptKey)
      invariant targets == AttemptTargets(s.(attempts := s.attempts[..i]))
    {
      var a := s.attempts[i];
      AttemptStep(s, i);
      AttemptTargetStep(s, i);
      if a.id in seen {
        AttemptsFaultPrefix(s.attempts, i + 1);
        return Some(DuplicateAttempt), targets;
      }
      seen := seen + {a.id};
      var stranded := IsStranded(s, a, deleted, targetIds);
      if stranded {
        targets := targets + [AttemptTarget(a.id, a.status)];
      }
    }
    assert s.attempts[..|s.attempts|] == s.attempts;
    fault := None;
  }

  /** An active attempt whose Provider is deleted or whose target is about to be disconnected. */
  method IsStranded(s: State, a: Attempt, deleted: set<string>, targetIds: set<string>) returns (stranded: bool)
    requires DeletedCollected(deleted, s.providers)
    requires forall id :: id in targetIds <==> exists c :: c in s.credentials && c.id == id && Orphaned(s.providers, c)
    ensures stranded == Stranded(s, a)
  {
    if !a.status.Active() {
      return false;
    }
    return a.providerId in deleted || (Truthy(a.targetCredentialId) && a.targetCredentialId.value in targetIds);
  }

  method PlanRepair(s: State) returns (result: Result<Plan, Fault>)
    ensures result == match PlanFault(s)
                      case Some(fault) => Failure(fault)
                      case None => Success(PlanOf(s))
  {
    var fault, byId, deleted, pointerOwners := SurveyProviders(s.providers);
    if fault.Some? {
      return Failure(fault.value);
    }
    var credentialTargets;
    fault, credentialTargets := SurveyCredentials(s, byId, pointerOwners);
    if fault.Some? {
      return Failure(fault.value);
    }
    var targetIds := set t | t in credentialTargets :: t.credentialId;
    TargetIds(s, targetIds);
    var providerTargets := MapRows(Filter(s.providers, p => Tombstone(p)), ProviderTargetOf);
    var attemptTargets;
    fault, attemptTargets := SurveyAttempts(s, deleted, targetIds);
    if fault.Some? {
      return Failure(fault.value);
    }
    result := Success(Plan(providerTargets, credentialTargets, attemptTargets));
  }

  lemma TargetIds(s: State, ids: set<string>)
    requires ids == set t | t in CredentialTargets(s) :: t.credentialId
    ensures forall id :: id in ids <==> exists c :: c in s.credentials && c.id == id && Orphaned(s.providers, c)
  {
    var targets, orphans := CredentialTargets(s), Orphans(s);
    forall c | c in s.credentials && Orphaned(s.providers, c) ensures c.id in ids {
      var i :| 0 <= i < |orphans| && orphans[i] == c;
      assert targets[i] in targets;
    }
    forall id | id in ids ensures exists c :: c in s.credentials && c.id == id && Orphaned(s.providers, c) {
      var t :| t in targets && t.credentialId == id;
      var i :| 0 <= i < |targets| && targets[i] == t;
      assert orphans[i] in orphans;
    }
  }

  // ---- What applying an accepted plan does to the tables ----

  /** The selected rows: managed Providers, live credentials, active attempts. */
  function Selected(s: State): State {
    s.(providers := Filter(s.providers, IsManaged),
       credentials := Filter(s.credentials, IsLive),
       attempts := Filter(s.attempts, IsActive))
  }

  function Unpointed(p: Provider): Provider {
    p.(credentialId := None, activeCredentialKind := "none", authEpoch := p.authEpoch + 1)
  }

  function Cancel(a: Attempt): Attempt {
    a.(status := Cancelled, revision := a.revision + 1, bundle := NO_BUNDLE, flow := None, failureCode := Some("PROVIDER_DELETED"))
  }

  function Disconnect(c: Credential): Credential {
    c.(providerId := None, status := Disconnected, authEpoch := c.authEpoch + 1, revision := c.revision + 1, bundle := NO_BUNDLE)
  }

  function RepairProvider(p: Provider): Provider {
    if IsManaged(p) && Tombstone(p) then Unpointed(p) else p
  }

  function RepairCredential(selected: State, c: Credential): Credential {
    if Orphaned(selected.providers, c) then Disconnect(c) else c
  }

  function RepairAttempt(selected: State, a: Attempt): Attempt {
    if Stranded(selected, a) then Cancel(a) else a
  }

  function Repaired(s: State): State {
    s.(providers := MapRows(s.providers, RepairProvider),
       credentials := MapRows(s.credentials, c => RepairCredential(Selected(s), c)),
       attempts := MapRows(s.attempts, a => RepairAttempt(Selected(s), a)))
  }

  /** The `WHERE` clauses of the guarded updates. */
  function ProviderGuard(target: ProviderTarget): Provider -> bool {
    (row: Provider) => row.id == target.providerId && row.status.Deleted? && row.credentialId == Some(target.credentialId)
  }

  function AttemptGuard(target: AttemptTarget): Attempt -> bool {
    (row: Attempt) => row.id == target.attemptId && row.status == target.status
  }

  function CredentialGuard(target: CredentialTarget): Credential -> bool {
    (row: Credential) => row.id == target.credentialId && row.adapter == target.adapter && row.status == target.status
           && row.providerId == target.providerId
  }

  /** A guarded update by primary key still finds its planned row: exactly one. */
  lemma TableHit<T(!new), K(!new)>(rows: seq<T>, key: T -> K, done: set<K>, f: T -> T, x: T, hit: T -> bool)
    requires UniqueBy(rows, key) && x in rows && key(x) !in done && hit(x)
    requires forall y :: y in rows ==> key(f(y)) == key(y)
    requires forall y :: hit(y) ==> key(y) == key(x)
    ensures Count(Patched(rows, key, done, f), hit) == 1
  {
    var now := Patched(rows, key, done, f);
    assert forall i :: 0 <= i < |rows| ==> rows[i] in rows;
    var i :| 0 <= i < |rows| && rows[i] == x;
    assert now[i] == x;
    assert forall i :: 0 <= i < |rows| ==> key(now[i]) == key(rows[i]);
    CountOne(now, key, hit, x);
  }

  /** The Provider table after the first `i` targets. */
  ghost function ProvidersAt(s: State, i: nat): seq<Provider>
    requires i <= |Tombstones(Selected(s))|
  {
    Patched(s.providers, ProviderKey, Keys(Tombstones(Selected(s))[..i], ProviderKey), RepairProvider)
  }

  lemma ProviderUpdate(s: State, i: nat)
    requires UniqueBy(s.providers, ProviderKey) && i < |Tombstones(Selected(s))|
    ensures var hit := ProviderGuard(ProviderTargets(Selected(s))[i]);
      && Count(ProvidersAt(s, i), hit) == 1
      && UpdateWhere(ProvidersAt(s, i), hit, Unpointed) == ProvidersAt(s, i + 1)
  {
    var rows := Tombstones(Selected(s));
    FilterUnique(s.providers, IsManaged, ProviderKey);
    FilterUnique(Filter(s.providers, IsManaged), p => Tombstone(p), ProviderKey);
    var p, done := rows[i], Keys(rows[..i], ProviderKey);
    assert p in rows && p in s.providers;
    KeysStep(rows, ProviderKey, i);
    var hit := ProviderGuard(ProviderTargetOf(p));
    TableHit(s.providers, ProviderKey, done, RepairProvider, p, hit);
    PatchStep(s.providers, ProviderKey, done, RepairProvider, p, hit, Unpointed);
  }

  lemma ProvidersDone(s: State)
    ensures ProvidersAt(s, 0) == s.providers && ProvidersAt(s, |Tombstones(Selected(s))|) == Repaired(s).providers
  {
    var rows := Tombstones(Selected(s));
    assert Keys(rows[..0], ProviderKey) == {} && rows[..|rows|] == rows;
    PatchNone(s.providers, ProviderKey, RepairProvider);
    PatchAll(s.providers, ProviderKey, Keys(rows, ProviderKey), RepairProvider);
  }

  method RepairProviders(db: Database, s: State, targets: seq<ProviderTarget>) returns (changed: bool)
    requires db.Contents() == s && UniqueBy(s.providers, ProviderKey)
    requires targets == ProviderTargets(Selected(s))
    modifies db
    ensures !changed && db.Contents() == s.(providers := Repaired(s).providers)
  {
    ProvidersDone(s);
    for i := 0 to |targets|
      invariant db.Contents() == s.(providers := ProvidersAt(s, i))
    {
      ProviderUpdate(s, i);
      var rowCount := db.UpdateProviders(ProviderGuard(targets[i]), Unpointed);
      if rowCount != 1 {
        return true;
      }
    }
    return false;
  }

  /** The attempt table after the first `i` targets. */
  ghost function AttemptsAt(s: State, i: nat): seq<Attempt>
    requires i <= |StrandedAttempts(Selected(s))|
  {
    Patched(s.attempts, AttemptKey, Keys(StrandedAttempts(Selected(s))[..i], AttemptKey), a => RepairAttempt(Selected(s), a))
  }

  lemma AttemptUpdate(s: State, i: nat)
    requires UniqueBy(s.attempts, AttemptKey) && i < |StrandedAttempts(Selected(s))|
    ensures var hit := AttemptGuard(AttemptTargets(Selected(s))[i]);
      && Count(AttemptsAt(s, i), hit) == 1
      && UpdateWhere(AttemptsAt(s, i), hit, Cancel) == AttemptsAt(s, i + 1)
  {
    var selected := Selected(s);
    var rows := StrandedAttempts(selected);
    var repair := a => RepairAttempt(selected, a);
    FilterUnique(s.attempts, IsActive, AttemptKey);
    FilterUnique(selected.attempts, a => Stranded(selected, a), AttemptKey);
    var a, done := rows[i], Keys(rows[..i], AttemptKey);
    assert a in rows && a in s.attempts;
    KeysStep(rows, AttemptKey, i);
    var hit := AttemptGuard(AttemptTargetOf(a));
    TableHit(s.attempts, AttemptKey, done, repair, a, hit);
    PatchStep(s.attempts, AttemptKey, done, repair, a, hit, Cancel);
  }

  lemma AttemptsDone(s: State)
    ensures AttemptsAt(s, 0) == s.attempts && AttemptsAt(s, |StrandedAttempts(Selected(s))|) == Repaired(s).attempts
  {
    var rows, repair := StrandedAttempts(Selected(s)), (a: Attempt) => RepairAttempt(Selected(s), a);
    assert Keys(rows[..0], AttemptKey) == {} && rows[..|rows|] == rows;
    PatchNone(s.attempts, AttemptKey, repair);
    PatchAll(s.attempts, AttemptKey, Keys(rows, AttemptKey), repair);
  }

  method RepairAttempts(db: Database, s: State, targets: seq<AttemptTarget>) returns (changed: bool)
    requires db.Contents() == s.(providers := Repaired(s).providers) && UniqueBy(s.attempts, AttemptKey)
    requires targets == AttemptTargets(Selected(s))
    modifies db
    ensures !changed && db.Contents() == s.(providers := Repaired(s).providers, attempts := Repaired(s).attempts)
  {
    AttemptsDone(s);
    for i := 0 to |targets|
      invariant db.Contents() == s.(providers := Repaired(s).providers, attempts := AttemptsAt(s, i))
    {
      AttemptUpdate(s, i);
      var rowCount := db.UpdateAttempts(AttemptGuard(targets[i]), Cancel);
      if rowCount != 1 {
        return true;
      }
    }
    return false;
  }

  /** The credential table after the first `i` targets. */
  ghost function CredentialsAt(s: State, i: nat): seq<Credential>
    requires i <= |Orphans(Selected(s))|
  {
    Patched(s.credentials, CredentialKey, Keys(Orphans(Selected(s))[..i], CredentialKey), c => RepairCredential(Selected(s), c))
  }

  lemma CredentialUpdate(s: State, i: nat)
    requires UniqueBy(s.credentials, CredentialKey) && i < |Orphans(Selected(s))|
    ensures var hit := CredentialGuard(CredentialTargets(Selected(s))[i]);
      && Count(CredentialsAt(s, i), hit) == 1
      && UpdateWhere(CredentialsAt(s, i), hit, Disconnect) == CredentialsAt(s, i + 1)
  {
    var selected := Selected(s);
    var rows := Orphans(selected);
    var repair := c => RepairCredential(selected, c);
    FilterUnique(s.credentials, IsLive, CredentialKey);
    FilterUnique(selected.credentials, c => Orphaned(selected.providers, c), CredentialKey);
    var c, done := rows[i], Keys(rows[..i], CredentialKey);
    assert c in rows && c in s.credentials;
    KeysStep(rows, CredentialKey, i);
    var hit := CredentialGuard(CredentialTargetOf(c));
    TableHit(s.credentials, CredentialKey, done, repair, c, hit);
    PatchStep(s.credentials, CredentialKey, done, repair, c, hit, Disconnect);
  }

  lemma CredentialsDone(s: State)
    ensures CredentialsAt(s, 0) == s.credentials && CredentialsAt(s, |Orphans(Selected(s))|) == Repaired(s).credentials
  {
    var rows, repair := Orphans(Selected(s)), (c: Credential) => RepairCredential(Selected(s), c);
    assert Keys(rows[..0], CredentialKey) == {} && rows[..|rows|] == rows;
    PatchNone(s.credentials, CredentialKey, repair);
    PatchAll(s.credentials, CredentialKey, Keys(rows, CredentialKey), repair);
  }

  method RepairCredentials(db: Database, s: State, targets: seq<CredentialTarget>) returns (changed: bool)
    requires db.Contents() == s.(providers := Repaired(s).providers, attempts := Repaired(s).attempts)
    requires UniqueBy(s.credentials, CredentialKey) && targets == CredentialTargets(Selected(s))
    modifies db
    ensures !changed && db.Contents() == Repaired(s)
  {
    CredentialsDone(s);
    for i := 0 to |targets|
      invariant db.Contents() == Repaired(s).(credentials := CredentialsAt(s, i))
    {
      CredentialUpdate(s, i);
      var rowCount := db.UpdateCredentials(CredentialGuard(targets[i]), Disconnect);
      if rowCount != 1 {
        return true;
      }
    }
    return false;
  }

  // ---- The verifier ----

  predicate DeletedPointer(p: Provider) {
    p.status.Deleted? && IsManaged(p) && p.credentialId.Some?
  }

  /** A live credential that does not name a Provider in use, of its adapter, pointing back. */
  predicate OwnerlessLive(s: State, c: Credential) {
    IsLive(c)
    && !exists p :: p in s.providers && c.providerId == Some(p.id) && p.adapter == c.adapter
                    && !p.status.Deleted? && p.credentialId == Some(c.id)
  }

  predicate ActiveOnDeleted(s: State, a: Attempt) {
    IsActive(a) && exists p :: p in s.providers && p.id == a.providerId && p.adapter == a.adapter && p.status.Deleted?
  }

  function PointerCount(s: State): nat {
    Count(s.providers, p => DeletedPointer(p))
  }

  function LiveCount(s: State): nat {
    Count(s.credentials, c => OwnerlessLive(s, c))
  }

  function ActiveCount(s: State): nat {
    Count(s.attempts, a => ActiveOnDeleted(s, a))
  }

  predicate Verified(s: State) {
    PointerCount(s) == 0 && LiveCount(s) == 0 && ActiveCount(s) == 0
  }

  // ---- Receipt and runner ----

  datatype Receipt = Receipt(
    applied: bool,
    providerRows: nat,
    credentialRows: nat,
    attemptRows: nat,
    changedRows: nat,
    providerPointersCleared: nat,
    credentialsDisconnected: nat,
    credentialSecretsErased: nat,
    attemptsCancelled: nat,
    remainingPointers: nat,
    remainingLiveCredentials: nat,
    remainingActiveAttempts: nat,
    fingerprint: string)

  function ProviderEntry(p: Provider): Entry {
    [Str("provider"), Str(p.id), Str(p.adapter.Name()), Str(p.status.Name()), OptText(p.credentialId)]
  }

  function HasSecrets(c: Credential): bool {
    c.bundle.Present() > 0
  }

  function CredentialEntry(c: Credential): Entry {
    [Str("credential"), Str(c.id), OptText(c.providerId), Str(c.adapter.Name()), Str(c.status.Name()),
     Num(c.authEpoch), Num(c.revision), Flag(HasSecrets(c))]
  }

  function AttemptEntry(a: Attempt): Entry {
    [Str("attempt"), Str(a.id), Str(a.providerId), Str(a.adapter.Name()), OptText(a.targetCredentialId),
     Str(a.status.Name()), Num(a.revision)]
  }

  function Entries(selected: State): seq<Entry> {
    MapRows(selected.providers, ProviderEntry) + MapRows(selected.credentials, CredentialEntry)
    + MapRows(selected.attempts, AttemptEntry)
  }

  function ReceiptOf(selected: State, plan: Plan, applied: bool, crypto: Crypto): Receipt {
    var ids := set t | t in plan.credentialTargets :: t.credentialId;
    var p, c, a := |plan.providerTargets|, |plan.credentialTargets|, |plan.attemptTargets|;
    Receipt(
      applied, |selected.providers|, |selected.credentials|, |selected.attempts|,
      p + c + a, p, c, Count(selected.credentials, (c: Credential) => c.id in ids && HasSecrets(c)), a,
      if applied then 0 else p, if applied then 0 else c, if applied then 0 else a,
      crypto.sha256(Preimage(Entries(selected))))
  }

  function Outcome(s: State, apply: bool, crypto: Crypto): Result<Receipt, Fault> {
    var selected := Selected(s);
    match PlanFault(selected)
    case Some(fault) => Failure(fault)
    case None =>
      if apply && !Verified(Repaired(s)) then Failure(VerificationFailed)
      else Success(ReceiptOf(selected, PlanOf(selected), apply, crypto))
  }

  /** The three guarded update loops, in the runner's order. */
  method Apply(db: Database, s: State, plan: Plan) returns (fault: Option<Fault>)
    requires PrimaryKeys(s) && db.Contents() == s && plan == PlanOf(Selected(s))
    modifies db
    ensures fault.None? && db.Contents() == Repaired(s)
  {
    var changed := RepairProviders(db, s, plan.providerTargets);
    if changed {
      return Some(ProviderChanged);
    }
    changed := RepairAttempts(db, s, plan.attemptTargets);
    if changed {
      return Some(AttemptChanged);
    }
    changed := RepairCredentials(db, s, plan.credentialTargets);
    if changed {
      return Some(CredentialChanged);
    }
    return None;
  }

  method Migrate(db: Database, apply: bool, crypto: Crypto) returns (result: Result<Receipt, Fault>)
    requires PrimaryKeys(db.Contents())
    modifies db
    ensures result == Outcome(old(db.Contents()), apply, crypto)
    ensures result.Success? ==> db.Contents() == if apply then Repaired(old(db.Contents())) else old(db.Contents())
  {
    var s := db.Contents();
    var selected := Selected(s);
    var planned := PlanRepair(selected);
    if planned.Failure? {
      return Failure(planned.error);
    }
    if apply {
      var fault := Apply(db, s, planned.value);
      if fault.Some? {
        assert false;
      }
      if !Verified(db.Contents()) {
        return Failure(VerificationFailed);
      }
    }
    result := Success(ReceiptOf(selected, planned.value, apply, crypto));
  }

  method Run(db: Database, apply: bool, crypto: Crypto) returns (result: Result<Receipt, Fault>)
    requires PrimaryKeys(db.Contents())
    modifies db
    ensures result == Outcome(old(db.Contents()), apply, crypto)
    ensures db.Contents() == if apply && result.Success? then Repaired(old(db.Contents())) else old(db.Contents())
  {
    var snapshot := db.Contents();
    result := Migrate(db, apply, crypto);
    if !apply || result.Failure? {
      db.Restore(snapshot);
    }
  }
}
