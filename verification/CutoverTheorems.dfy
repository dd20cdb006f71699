/** The cutover against its independent verifier, and running it twice. */
module CutoverTheorems {
  import opened Sequences
  import opened CanonicalJson
  import opened Tables
  import opened Envelopes
  import opened OwnedCredentials
  import opened OwnershipTheorems

  /** No reference the planner skips as falsy although it is not NULL. */
  ghost predicate NoBlankReference(s: State) {
    && (forall p :: p in s.providers && IsManaged(p) && !p.status.Deleted? ==> Binding(s.defaults, p) != Some(""))
    && (forall c :: c in s.credentials && !IsLive(c) && c.providerId == Some("") ==>
          exists p :: p in s.providers && p.id == "" && p.adapter == c.adapter)
  }

  lemma CutProviderRow(s: State, p: Provider)
    requires p in s.providers
    ensures CutProvider(s.defaults, p) in Cutover(s).providers
    ensures IsManaged(p) ==> p in Selected(s).providers
  {
    var i :| 0 <= i < |s.providers| && s.providers[i] == p;
    assert Cutover(s).providers[i] == CutProvider(s.defaults, p);
  }

  lemma CutCredentialRow(s: State, c: Credential)
    requires c in s.credentials
    ensures CutCredential(Selected(s), c) in Cutover(s).credentials
  {
    var i :| 0 <= i < |s.credentials| && s.credentials[i] == c;
    assert Cutover(s).credentials[i] == CutCredential(Selected(s), c);
  }

  /** A cut live credential and its owner point at each other. */
  lemma CutPair(s: State, crypto: Crypto, c: Credential) returns (p: Provider)
    requires Accepted(Selected(s), crypto) && c in s.credentials && IsLive(c)
    ensures p in s.providers && IsManaged(p) && !p.status.Deleted? && p.adapter == c.adapter
    ensures Binding(s.defaults, p) == Some(c.id)
    ensures CutProvider(s.defaults, p) in Cutover(s).providers
    ensures CutCredential(Selected(s), c) in Cutover(s).credentials
    ensures Holds(CutProvider(s.defaults, p), CutCredential(Selected(s), c))
  {
    p := OwnerOf(Selected(s), crypto, c);
    CutProviderRow(s, p);
    CutCredentialRow(s, c);
  }

  lemma CutProviderValid(s: State, crypto: Crypto, p: Provider)
    requires Accepted(Selected(s), crypto) && p in s.providers
    ensures InvalidProvider(Cutover(s), CutProvider(s.defaults, p))
       <==> IsManaged(p) && !p.status.Deleted? && Binding(s.defaults, p) == Some("")
  {
    var t, q := Cutover(s), CutProvider(s.defaults, p);
    CutProviderRow(s, p);
    if IsManaged(p) && !p.status.Deleted? && Truthy(Binding(s.defaults, p)) {
      var c := BoundTo(Selected(s), crypto, p);
      CutCredentialRow(s, c);
      assert Holds(q, CutCredential(Selected(s), c));
    } else if IsManaged(p) && !p.status.Deleted? && Binding(s.defaults, p) == Some("") {
      forall i | 0 <= i < |t.credentials| ensures !Holds(q, t.credentials[i]) {
        var c := s.credentials[i];
        assert t.credentials[i] == CutCredential(Selected(s), c);
        if IsLive(c) {
          var owner := OwnerOf(Selected(s), crypto, c);
        }
      }
    }
  }

  lemma CutCredentialOwned(s: State, crypto: Crypto, c: Credential)
    requires Accepted(Selected(s), crypto) && c in s.credentials
    ensures !OwnerlessLive(Cutover(s), CutCredential(Selected(s), c))
    ensures BadProvenance(Cutover(s), CutCredential(Selected(s), c))
       <==> !IsLive(c) && c.providerId == Some("") && !exists p :: p in s.providers && p.id == "" && p.adapter == c.adapter
  {
    var d := CutCredential(Selected(s), c);
    if IsLive(c) {
      var p := CutPair(s, crypto, c);
      assert CutProvider(s.defaults, p).id == p.id;
    } else {
      assert d == c;
      SameReferences(s, c);
      if Truthy(c.providerId) {
        PlannerAcceptsRows(Selected(s), crypto, true);
        var p := Find(Selected(s).providers, ProviderKey, c.providerId.value).value;
        assert p in s.providers && p.id == c.providerId.value && p.adapter == c.adapter;
      }
    }
  }

  /** The cutover neither creates nor removes a (Provider, adapter) key. */
  lemma SameReferences(s: State, c: Credential)
    ensures BadProvenance(Cutover(s), c) == BadProvenance(s, c)
  {
    if c.providerId.Some? {
      forall p | p in s.providers && p.id == c.providerId.value && p.adapter == c.adapter
        ensures exists q :: q in Cutover(s).providers && q.id == c.providerId.value && q.adapter == c.adapter
      {
        CutProviderRow(s, p);
        assert CutProvider(s.defaults, p).adapter == p.adapter;
      }
      forall q | q in Cutover(s).providers && q.id == c.providerId.value && q.adapter == c.adapter
        ensures exists p :: p in s.providers && p.id == c.providerId.value && p.adapter == c.adapter
      {
        var i :| 0 <= i < |s.providers| && Cutover(s).providers[i] == q;
        assert s.providers[i] in s.providers;
      }
    }
  }

  /** Whatever the planner accepts, the written tables pass all six counts, except for blank references. */
  lemma CutoverVerified(s: State, crypto: Crypto)
    requires Accepted(Selected(s), crypto)
    ensures Verified(Cutover(s)) <==> NoBlankReference(s)
  {
    var t := Cutover(s);
    IntakeSettled(Selected(s));
    CountZero(t.providers, p => InvalidProvider(t, p));
    CountZero(t.credentials, c => OwnerlessLive(t, c));
    CountZero(t.credentials, c => BadProvenance(t, c));
    forall i | 0 <= i < |t.providers|
      ensures InvalidProvider(t, t.providers[i])
         <==> IsManaged(s.providers[i]) && !s.providers[i].status.Deleted? && Binding(s.defaults, s.providers[i]) == Some("")
    {
      CutProviderValid(s, crypto, s.providers[i]);
    }
    forall i | 0 <= i < |t.credentials|
      ensures !OwnerlessLive(t, t.credentials[i])
      ensures BadProvenance(t, t.credentials[i])
         <==> (var c := s.credentials[i];
               !IsLive(c) && c.providerId == Some("") && !exists p :: p in s.providers && p.id == "" && p.adapter == c.adapter)
    {
      CutCredentialOwned(s, crypto, s.credentials[i]);
    }
    VerifiedCounts(s, t);
  }

  lemma VerifiedCounts(s: State, t: State)
    requires |t.providers| == |s.providers| && |t.credentials| == |s.credentials|
    requires t.defaults == [] && Count(t.attempts, IsActive) == 0 && Count(t.jobs, IsUnfinished) == 0
    requires forall i :: 0 <= i < |t.providers| ==>
               (InvalidProvider(t, t.providers[i]) <==>
                IsManaged(s.providers[i]) && !s.providers[i].status.Deleted? && Binding(s.defaults, s.providers[i]) == Some(""))
    requires forall i :: 0 <= i < |t.credentials| ==>
               && !OwnerlessLive(t, t.credentials[i])
               && (BadProvenance(t, t.credentials[i]) <==>
                   !IsLive(s.credentials[i]) && s.credentials[i].providerId == Some("")
                   && !exists p :: p in s.providers && p.id == "" && p.adapter == s.credentials[i].adapter)
    ensures Verified(t) <==> NoBlankReference(s)
  {
    CountZero(t.providers, p => InvalidProvider(t, p));
    CountZero(t.credentials, c => OwnerlessLive(t, c));
    CountZero(t.credentials, c => BadProvenance(t, c));
    if Verified(t) {
      forall p | p in s.providers && IsManaged(p) && !p.status.Deleted? ensures Binding(s.defaults, p) != Some("") {
        var i :| 0 <= i < |s.providers| && s.providers[i] == p;
        assert t.providers[i] in t.providers;
      }
      forall c | c in s.credentials && !IsLive(c) && c.providerId == Some("")
        ensures exists p :: p in s.providers && p.id == "" && p.adapter == c.adapter
      {
        var i :| 0 <= i < |s.credentials| && s.credentials[i] == c;
        assert t.credentials[i] in t.credentials;
      }
    }
  }

  // ---- What the cutover preserves ----

  /** No Provider in use changes account: its own pointer after the cutover is its effective binding before it. Deleted
      ones end without a pointer, and only mode, pointer and owner columns are written. */
  lemma CutoverKeepsBindings(s: State)
    ensures var t := Cutover(s);
      && |t.providers| == |s.providers| && |t.credentials| == |s.credentials|
      && t.attempts == s.attempts && t.jobs == s.jobs
      && (forall i :: 0 <= i < |s.providers| && IsManaged(s.providers[i]) ==>
            var p, q := s.providers[i], t.providers[i];
            && q == p.(mode := Some(Pinned), credentialId := q.credentialId)
            && q.credentialId == Binding(t.defaults, q)
            && (if p.status.Deleted? then q.credentialId.None? else Binding(t.defaults, q) == Binding(s.defaults, p)))
      && (forall i :: 0 <= i < |s.providers| && !IsManaged(s.providers[i]) ==> t.providers[i] == s.providers[i])
      && (forall i :: 0 <= i < |s.credentials| ==>
            t.credentials[i] == s.credentials[i].(providerId := t.credentials[i].providerId))
  {
  }

  // ---- Running it again ----

  /** The state a second run selects. */
  lemma SelectedCutover(s: State)
    ensures Selected(Cutover(s)).providers == MapRows(Selected(s).providers, p => CutProvider(s.defaults, p))
  {
    FilterMap(s.providers, p => CutProvider(s.defaults, p), IsManaged, IsManaged);
  }

  /** After the cutover every Provider claims what it claimed before, now by its own pointer. */
  lemma SameClaimants(s: State, id: string)
    ensures Claimants([], Selected(Cutover(s)).providers, id)
         == MapRows(Claimants(s.defaults, Selected(s).providers, id), p => CutProvider(s.defaults, p))
  {
    SelectedCutover(s);
    FilterMap(Selected(s).providers, p => CutProvider(s.defaults, p),
              p => Claims(s.defaults, p, id), p => Claims([], p, id));
  }

  lemma SameOwner(s: State, c: Credential)
    ensures Owners(Selected(Cutover(s)), c) == Owners(Selected(s), c)
    ensures Owners(Selected(s), c) == 1 ==> OwnerId(Selected(Cutover(s)), c) == OwnerId(Selected(s), c)
  {
    SameClaimants(s, c.id);
  }

  lemma CutTwice(s: State, c: Credential)
    ensures CutCredential(Selected(Cutover(s)), CutCredential(Selected(s), c)) == CutCredential(Selected(s), c)
    ensures !CredentialTargetOf(Selected(Cutover(s)), CutCredential(Selected(s), c)).changed || !HasOwner(Selected(s), c)
    ensures HasOwner(Selected(Cutover(s)), CutCredential(Selected(s), c)) == HasOwner(Selected(s), c)
  {
    SameOwner(s, CutCredential(Selected(s), c));
    SameOwner(s, c);
    assert Owners(Selected(s), CutCredential(Selected(s), c)) == Owners(Selected(s), c);
  }

  lemma KeysKept<T(!new), K(!new)>(rows: seq<T>, key: T -> K, f: T -> T)
    requires UniqueBy(rows, key) && forall x :: x in rows ==> key(f(x)) == key(x)
    ensures UniqueBy(MapRows(rows, f), key)
  {
    assert forall i :: 0 <= i < |rows| ==> rows[i] in rows;
  }

  lemma CutLiveAccount(s: State, id: string, adapter: Adapter)
    ensures LiveAccount(Selected(s), id, adapter) ==> LiveAccount(Selected(Cutover(s)), id, adapter)
  {
    if LiveAccount(Selected(s), id, adapter) {
      var c :| c in s.credentials && c.id == id && c.adapter == adapter && IsLive(c);
      CutCredentialRow(s, c);
      assert CutCredential(Selected(s), c).adapter == adapter;
    }
  }

  lemma CutBindings(s: State, crypto: Crypto)
    requires Accepted(Selected(s), crypto)
    ensures forall q :: q in Selected(Cutover(s)).providers ==> BindingSound(Selected(Cutover(s)), q)
  {
    PlannerAcceptsRows(Selected(s), crypto, true);
    SelectedCutover(s);
    var sel := Selected(s);
    forall i | 0 <= i < |sel.providers|
      ensures BindingSound(Selected(Cutover(s)), CutProvider(s.defaults, sel.providers[i]))
    {
      var p := sel.providers[i];
      assert p in sel.providers && BindingSound(sel, p);
      if !p.status.Deleted? && Truthy(Binding(s.defaults, p)) {
        CutLiveAccount(s, Binding(s.defaults, p).value, p.adapter);
      }
    }
  }

  lemma CutProviderFound(s: State, p: Provider)
    requires UniqueBy(Selected(s).providers, ProviderKey) && p in Selected(s).providers
    ensures Find(Selected(Cutover(s)).providers, ProviderKey, p.id) == Some(CutProvider(s.defaults, p))
  {
    SelectedCutover(s);
    var sel, again := Selected(s).providers, Selected(Cutover(s)).providers;
    KeysKept(sel, ProviderKey, p => CutProvider(s.defaults, p));
    var i :| 0 <= i < |sel| && sel[i] == p;
    assert again[i] == CutProvider(s.defaults, p);
    FindUnique(again, ProviderKey, again[i]);
  }

  lemma AcceptedCredential(s: State, crypto: Crypto, c: Credential)
    requires Accepted(s, crypto) && c in s.credentials
    ensures CredentialFault(s.providers, crypto, true, c).None?
  {
  }

  lemma CutCredentialSound(s: State, crypto: Crypto, c: Credential)
    requires Accepted(Selected(s), crypto) && c in s.credentials
    ensures CredentialFault(Selected(Cutover(s)).providers, crypto, true, CutCredential(Selected(s), c)).None?
  {
    var sel := Selected(s);
    var d := CutCredential(sel, c);
    AcceptedCredential(sel, crypto, c);
    AcceptedKeys(sel, crypto);
    assert EnvelopeFault(d, crypto) == EnvelopeFault(c, crypto);
    if IsLive(c) {
      var p := OwnerOf(sel, crypto, c);
      CutProviderFound(s, p);
    } else if Truthy(c.providerId) {
      CutProviderFound(s, Find(sel.providers, ProviderKey, c.providerId.value).value);
    }
  }

  lemma CutInjective(s: State, crypto: Crypto)
    requires Accepted(Selected(s), crypto)
    ensures Injective(Selected(Cutover(s)))
  {
    var again := Selected(Cutover(s));
    assert Injective(Selected(s)) by {
      PlannerAcceptsRows(Selected(s), crypto, true);
    }
    forall p, q, id | p in again.providers && q in again.providers && Claims([], p, id) && Claims([], q, id)
      ensures p == q
    {
      var o := CutFrom(s, p, id);
      var r := CutFrom(s, q, id);
      assert o == r;
    }
  }

  /** A claim after the cutover was a claim before it. */
  lemma CutFrom(s: State, q: Provider, id: string) returns (p: Provider)
    requires q in Selected(Cutover(s)).providers && Claims([], q, id)
    ensures p in Selected(s).providers && q == CutProvider(s.defaults, p) && Claims(s.defaults, p, id)
  {
    SelectedCutover(s);
    var i :| 0 <= i < |Selected(s).providers| && Selected(Cutover(s)).providers[i] == q;
    p := Selected(s).providers[i];
    assert p in Selected(s).providers;
  }

  lemma CutCovering(s: State, crypto: Crypto)
    requires Accepted(Selected(s), crypto)
    ensures Covering(Selected(Cutover(s)))
  {
    var again := Selected(Cutover(s));
    forall d | d in again.credentials && IsLive(d) ensures exists p :: p in again.providers && Claims([], p, d.id) {
      var i :| 0 <= i < |s.credentials| && again.credentials[i] == d;
      CutClaimed(s, crypto, s.credentials[i]);
    }
  }

  lemma CutClaimed(s: State, crypto: Crypto, c: Credential)
    requires Accepted(Selected(s), crypto) && c in s.credentials && IsLive(c)
    ensures exists p :: p in Selected(Cutover(s)).providers && Claims([], p, c.id)
  {
    var p := OwnerOf(Selected(s), crypto, c);
    CutProviderRow(s, p);
    assert Claims([], CutProvider(s.defaults, p), c.id);
  }

  lemma CutSettled(s: State, crypto: Crypto)
    requires Accepted(Selected(s), crypto)
    ensures Settled(Selected(Cutover(s)))
  {
    IntakeSettled(Selected(s));
    SelectedCutover(s);
    KeysKept(Selected(s).providers, ProviderKey, p => CutProvider(s.defaults, p));
    KeysKept(s.credentials, CredentialKey, c => CutCredential(Selected(s), c));
  }

  lemma CutCredentialsSound(s: State, crypto: Crypto)
    requires Accepted(Selected(s), crypto)
    ensures CredentialsFaultless(Selected(Cutover(s)), crypto, true)
  {
    var again := Selected(Cutover(s));
    forall d | d in again.credentials ensures CredentialFault(again.providers, crypto, true, d).None? {
      var i :| 0 <= i < |s.credentials| && again.credentials[i] == d;
      CutCredentialSound(s, crypto, s.credentials[i]);
    }
  }

  /** Replanning the written tables succeeds. */
  lemma ReplanAccepted(s: State, crypto: Crypto)
    requires Accepted(Selected(s), crypto)
    ensures Accepted(Selected(Cutover(s)), crypto)
  {
    CutSettled(s, crypto);
    CutBindings(s, crypto);
    CutInjective(s, crypto);
    CutCovering(s, crypto);
    CutCredentialsSound(s, crypto);
    PlannerAcceptsRows(Selected(Cutover(s)), crypto, true);
  }

  lemma CutoverFixpoint(s: State)
    ensures Cutover(Cutover(s)) == Cutover(s)
  {
    var t := Cutover(s);
    forall i | 0 <= i < |s.credentials| ensures Cutover(t).credentials[i] == t.credentials[i] {
      CutTwice(s, s.credentials[i]);
    }
    forall i | 0 <= i < |s.providers| ensures Cutover(t).providers[i] == t.providers[i] {
    }
  }

  lemma NoProviderChanged(s: State)
    ensures PlanOf(Selected(Cutover(s))).providerRowsChanged == 0
  {
    var again := Selected(Cutover(s));
    SelectedCutover(s);
    forall i | 0 <= i < |again.providers| ensures !ProviderTargets(again)[i].changed {
      assert Selected(s).providers[i] in Selected(s).providers;
    }
    CountZero(ProviderTargets(again), (target: ProviderTarget) => target.changed);
  }

  lemma NoCredentialChanged(s: State)
    ensures PlanOf(Selected(Cutover(s))).credentialRowsChanged == 0
  {
    var again := Selected(Cutover(s));
    var owned := Owned(again, again.credentials);
    var targets := CredentialTargets(again, again.credentials);
    forall i | 0 <= i < |owned| ensures !targets[i].changed {
      assert owned[i] in owned;
      var j :| 0 <= j < |s.credentials| && again.credentials[j] == owned[i];
      CutTwice(s, s.credentials[j]);
    }
    CountZero(targets, (target: CredentialTarget) => target.changed);
  }

  /** Both runs fingerprint the same entries. */
  lemma ReplanSameEntries(s: State)
    ensures Entries(Selected(Cutover(s))) == Entries(Selected(s))
  {
    var sel, again := Selected(s), Selected(Cutover(s));
    SelectedCutover(s);
    assert MapRows(ProviderTargets(again), ProviderEntry) == MapRows(ProviderTargets(sel), ProviderEntry);
    forall i | 0 <= i < |s.credentials|
      ensures CredentialEntry(again.credentials[i], CutCredential(again, again.credentials[i]).providerId)
           == CredentialEntry(s.credentials[i], CutCredential(sel, s.credentials[i]).providerId)
    {
      CutTwice(s, s.credentials[i]);
    }
    assert MapRows(again.credentials, c => CredentialEntry(c, CutCredential(again, c).providerId))
        == MapRows(sel.credentials, c => CredentialEntry(c, CutCredential(sel, c).providerId));
  }

  /** A committed cutover can be run again: it succeeds, changes nothing and reports the same fingerprint. */
  lemma RerunIsNoOp(s: State, crypto: Crypto)
    requires Outcome(s, true, crypto).Success?
    ensures Outcome(Cutover(s), true, crypto).Success?
    ensures Outcome(Cutover(s), true, crypto).value.changedRows == 0
    ensures Outcome(Cutover(s), true, crypto).value.fingerprint == Outcome(s, true, crypto).value.fingerprint
    ensures Cutover(Cutover(s)) == Cutover(s)
  {
    OutcomeApplied(s, crypto);
    CutoverFixpoint(s);
    ReplanAccepted(s, crypto);
    RerunOf(s, Cutover(s), crypto);
  }

  lemma RerunOf(s: State, t: State, crypto: Crypto)
    requires t == Cutover(s) && Cutover(t) == t && Verified(t)
    requires Accepted(Selected(s), crypto) && Accepted(Selected(t), crypto)
    ensures Outcome(s, true, crypto).Success? && Outcome(t, true, crypto).Success?
    ensures Outcome(t, true, crypto).value.changedRows == 0
    ensures Outcome(t, true, crypto).value.fingerprint == Outcome(s, true, crypto).value.fingerprint
  {
    OutcomeApplied(s, crypto);
    OutcomeApplied(t, crypto);
    NoProviderChanged(s);
    NoCredentialChanged(s);
    ReplanSameEntries(s);
  }

  lemma OutcomeApplied(s: State, crypto: Crypto)
    ensures Outcome(s, true, crypto).Success? <==> Accepted(Selected(s), crypto) && Verified(Cutover(s))
    ensures Outcome(s, true, crypto).Success? ==>
              var r, plan := Outcome(s, true, crypto).value, PlanOf(Selected(s));
              && r.changedRows == plan.providerRowsChanged + plan.credentialRowsChanged + |s.defaults|
              && r.fingerprint == crypto.sha256(Preimage(Entries(Selected(s))))
  {
  }

  /** The plan's changed-row numbers are the numbers of rows that differ afterwards. */
  lemma PlanCountsChanges(s: State)
    ensures PlanOf(Selected(s)).providerRowsChanged == Count(s.providers, p => CutProvider(s.defaults, p) != p)
    ensures PlanOf(Selected(s)).credentialRowsChanged == Count(s.credentials, c => CutCredential(Selected(s), c) != c)
  {
    var sel := Selected(s);
    FilterMap(sel.providers, p => TargetOf(s.defaults, p),
              (p: Provider) => CutProvider(s.defaults, p) != p, (t: ProviderTarget) => t.changed);
    FilterFilter(s.providers, IsManaged, p => CutProvider(s.defaults, p) != p, p => CutProvider(s.defaults, p) != p);
    FilterMap(Owned(sel, s.credentials), c => CredentialTargetOf(sel, c),
              (c: Credential) => CutCredential(sel, c) != c, (t: CredentialTarget) => t.changed);
    FilterFilter(s.credentials, c => HasOwner(sel, c), c => CutCredential(sel, c) != c, c => CutCredential(sel, c) != c);
  }

  /** A successful dry run forecasts the apply run on the same tables: it fails only over a blank reference, and
      otherwise reports the same numbers and fingerprint. */
  lemma DryRunForecasts(s: State, crypto: Crypto)
    requires Outcome(s, false, crypto).Success?
    ensures Outcome(s, true, crypto).Success? <==> NoBlankReference(s)
    ensures NoBlankReference(s) ==>
              Outcome(s, true, crypto).value == Outcome(s, false, crypto).value.(applied := true)
  {
    CutoverVerified(s, crypto);
    SameReceipt(Selected(s), crypto);
  }

  lemma SameReceipt(selected: State, crypto: Crypto)
    ensures var plan, fingerprint := PlanOf(selected), crypto.sha256(Preimage(Entries(selected)));
      ReceiptOf(selected, plan, true, fingerprint) == ReceiptOf(selected, plan, false, fingerprint).(applied := true)
  {
  }

  /** A disconnected account with a blank owner: the planner and the dry run accept it, and only the verifier stops the
      apply run. No foreign key on owners is in force at this stage. */
  lemma BlankOwnerExample(crypto: Crypto)
    ensures var s := State([], [BlankOwner()], [], [], []);
      Outcome(s, false, crypto).Success? && Outcome(s, true, crypto) == Failure(VerificationFailed)
  {
    var s := State([], [BlankOwner()], [], [], []);
    BlankOwnerPlanned(crypto);
    CutoverVerified(s, crypto);
    assert BlankOwner() in s.credentials;
  }

  function BlankOwner(): Credential {
    Credential("c", Some(""), Codex, Disconnected, 1, 1, Some("c"), NO_BUNDLE, None)
  }

  lemma BlankOwnerPlanned(crypto: Crypto)
    ensures var s := State([], [BlankOwner()], [], [], []);
      Accepted(Selected(s), crypto)
  {
    var s := State([], [BlankOwner()], [], [], []);
    assert CredentialFault(Selected(s).providers, crypto, true, BlankOwner()).None?;
    PlannerAcceptsRows(Selected(s), crypto, true);
  }
}
