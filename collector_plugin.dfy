/**
 * The startup reconciliation pass of the device-attribute plugin: for every
 * realm, for every directory sub-configuration of type "LDAPv3*", check the
 * user object-class attribute and the user-attributes attribute and write
 * the required values to each one that is non-empty and lacks the required values. One handler
 * around the whole pass catches the store's exceptions, so the first fault
 * ends the pass and the writes made before it stay.
 */
module CollectorPlugin {
  import opened ServiceConfigStore
  import opened Realms
  import opened Reconciliation

  /**
   * How a pass ended: it ran to the end, the realm enumeration raised before
   * anything was visited, or the store raised while the pass was in the
   * realm at index `at` of the realm list.
   */
  datatype PassOutcome = Completed | EnumerationFailed | Aborted(at: nat)

  /** Visiting sub-configuration `id`, in state `c`, makes the store raise. */
  predicate EntryFaults(id: SubConfigId, c: SubConfig, faults: Faults) {
    || id in faults.subConfigs
    || (NeedsObjectClassWrite(c) && AttributeRef(id, UserObjectClassAttribute) in faults.writes)
    || (NeedsAttributesWrite(c) && AttributeRef(id, UserAttributesAttribute) in faults.writes)
  }

  /** Visiting `realm` makes the store raise: opening it, or one of its "LDAPv3*" sub-configurations. */
  predicate RealmFaults(entries: Entries, realm: string, faults: Faults) {
    || realm in faults.realms
    || exists id :: id in entries && id.realm == realm
         && MatchesTypePrefix(entries[id].schemaType, DirectoryTypePrefix)
         && EntryFaults(id, entries[id], faults)
  }

  /** The object-class step leaves the user-attributes attribute alone. */
  lemma ObjectClassStepKeepsAttributes(c: SubConfig, semantics: WriteSemantics)
    ensures AttributeValue(ReconcileObjectClass(c, semantics), UserAttributesAttribute)
         == AttributeValue(c, UserAttributesAttribute)
    ensures NeedsAttributesWrite(ReconcileObjectClass(c, semantics)) == NeedsAttributesWrite(c)
  {
  }

  /**
   * The state a visited sub-configuration is left in when the store raises
   * while visiting it. It is untouched when it cannot be read or its
   * object-class write is rejected. Otherwise the user-attributes write was
   * the one rejected, and the object-class step already made stays.
   */
  function StopState(id: SubConfigId, before: SubConfig, faults: Faults, semantics: WriteSemantics): SubConfig {
    if id in faults.subConfigs
       || (NeedsObjectClassWrite(before) && AttributeRef(id, UserObjectClassAttribute) in faults.writes)
    then before
    else ReconcileObjectClass(before, semantics)
  }

  /**
   * The store after a visit of `realm` that raised: nothing is written when the
   * realm cannot be opened; otherwise exactly one of its "LDAPv3*"
   * sub-configurations, `f`, raised and was left in its `StopState`, and every
   * other entry is untouched or is a sub-configuration of the realm that was
   * reconciled completely, without a fault, before `f`.
   */
  predicate StoppedInRealm(before: Entries, after: Entries, realm: string, faults: Faults, semantics: WriteSemantics) {
    if realm in faults.realms then after == before
    else exists f :: (
      && f in before && f in after && Selected(f, before[f], [realm])
      && EntryFaults(f, before[f], faults) && after[f] == StopState(f, before[f], faults, semantics)
      && forall id :: id in before && id != f ==> (
           && id in after
           && (|| after[id] == before[id]
               || (Selected(id, before[id], [realm]) && !EntryFaults(id, before[id], faults)
                   && after[id] == Reconcile(before[id], semantics)))))
  }

  /**
   * The body of the inner loop: check and write the object-class attribute,
   * then read again and check and write the user-attributes attribute. On a
   * fault it stops, keeping a write already made.
   */
  method ReconcileSubConfig(store: ConfigStore, id: SubConfigId) returns (ok: bool)
    requires id in store.entries
    modifies store
    ensures ok <==> !EntryFaults(id, old(store.entries)[id], store.faults)
    ensures ok ==> store.entries == old(store.entries)[id := Reconcile(old(store.entries)[id], store.semantics)]
    ensures id in store.entries && store.entries == old(store.entries)[id := store.entries[id]]
    ensures !ok ==> store.entries[id] == StopState(id, old(store.entries)[id], store.faults, store.semantics)
    ensures !ok && id in store.faults.subConfigs ==> store.entries == old(store.entries)
  {
    ghost var before := store.entries[id];
    var current := store.GetAttributeValue(id, UserObjectClassAttribute);
    if current.None? {
      return false;
    }
    if current.value != {} && DeviceAttributeContainer !in current.value {
      var updated := {DeviceAttributeContainer};
      ok := store.AddAttribute(id, UserObjectClassAttribute, updated);
      if !ok {
        return;
      }
    }
    assert store.entries[id] == ReconcileObjectClass(before, store.semantics);
    ObjectClassStepKeepsAttributes(before, store.semantics);

    var currentAttrs := store.GetAttributeValue(id, UserAttributesAttribute);
    assert currentAttrs.Some?;
    ok := true;
    if currentAttrs.value != {} && !(RequiredAttributes <= currentAttrs.value) {
      var updated := RequiredAttributes;
      ok := store.AddAttribute(id, UserAttributesAttribute, updated);
    }
  }

  /** RealmFaults looks only at the sub-configurations of that realm. */
  lemma RealmFaultsLocal(e1: Entries, e2: Entries, realm: string, faults: Faults)
    requires e1.Keys == e2.Keys
    requires forall id :: id in e1 && id.realm == realm ==> e1[id] == e2[id]
    ensures RealmFaults(e1, realm, faults) == RealmFaults(e2, realm, faults)
  {
  }

  /**
   * The body of the outer loop: open the realm's configuration, list its
   * "LDAPv3*" sub-configurations and reconcile each, stopping at the first fault.
   */
  method ReconcileRealm(store: ConfigStore, realm: string) returns (ok: bool)
    modifies store
    ensures store.entries.Keys == old(store.entries).Keys
    ensures ok <==> !RealmFaults(old(store.entries), realm, store.faults)
    ensures ok ==> store.entries == ReconciledStore(old(store.entries), [realm], store.semantics)
    ensures forall id :: id in old(store.entries) && !Selected(id, old(store.entries)[id], [realm]) ==>
      store.entries[id] == old(store.entries)[id]
    ensures !ok ==> StoppedInRealm(old(store.entries), store.entries, realm, store.faults, store.semantics)
  {
    ghost var before := store.entries;
    var subConfigNames := store.GetSubConfigNames(realm, DirectoryTypePrefix);
    if subConfigNames.None? {
      return false;
    }
    assert forall name :: name in subConfigNames.value ==>
      SubConfigId(realm, name) in before && Selected(SubConfigId(realm, name), before[SubConfigId(realm, name)], [realm]);
    var pending := subConfigNames.value;
    ghost var visited: set<string> := {};
    while pending != {}
      invariant pending !! visited && pending + visited == subConfigNames.value
      invariant store.entries.Keys == before.Keys
      invariant forall id :: id in before ==>
        store.entries[id] ==
          if id.realm == realm && id.name in visited then Reconcile(before[id], store.semantics) else before[id]
      invariant forall name :: name in visited ==>
        !EntryFaults(SubConfigId(realm, name), before[SubConfigId(realm, name)], store.faults)
      decreases pending
    {
      var name :| name in pending;
      var id := SubConfigId(realm, name);
      ok := ReconcileSubConfig(store, id);
      if !ok {
        assert id in before && id in store.entries && Selected(id, before[id], [realm]);
        return;
      }
      pending := pending - {name};
      visited := visited + {name};
    }
    ok := true;
  }

  /**
   * onStartup(StartupType): enumerate the realms, and in each realm reconcile
   * every "LDAPv3*" sub-configuration, in whatever order the store lists them.
   */
  method OnStartup(store: ConfigStore) returns (outcome: PassOutcome)
    modifies store
    ensures store.entries.Keys == old(store.entries).Keys
    ensures outcome.EnumerationFailed? <==> store.faults.enumeration
    ensures outcome.EnumerationFailed? ==> store.entries == old(store.entries)
    ensures outcome.Completed? <==>
      !store.faults.enumeration &&
      forall r :: r in RealmOrder(store.subOrganizations) ==> !RealmFaults(old(store.entries), r, store.faults)
    ensures outcome.Completed? ==>
      store.entries == ReconciledStore(old(store.entries), RealmOrder(store.subOrganizations), store.semantics)
    ensures outcome.Aborted? ==>
      var realms := RealmOrder(store.subOrganizations);
      && outcome.at < |realms|
      && RealmFaults(old(store.entries), realms[outcome.at], store.faults)
      && (forall j :: 0 <= j < outcome.at ==> !RealmFaults(old(store.entries), realms[j], store.faults))
      && (forall id :: id in old(store.entries) ==>
            if Selected(id, old(store.entries)[id], realms[..outcome.at])
            then store.entries[id] == Reconcile(old(store.entries)[id], store.semantics)
            else if Selected(id, old(store.entries)[id], [realms[outcome.at]])
            then || store.entries[id] == old(store.entries)[id]
                 || store.entries[id] == StopState(id, old(store.entries)[id], store.faults, store.semantics)
                 || store.entries[id] == Reconcile(old(store.entries)[id], store.semantics)
            else store.entries[id] == old(store.entries)[id])
      && StoppedInRealm(ReconciledStore(old(store.entries), realms[..outcome.at], store.semantics),
           store.entries, realms[outcome.at], store.faults, store.semantics)
  {
    var subOrganizations := store.GetSubOrganizationNames();
    if subOrganizations.None? {
      return EnumerationFailed;
    }
    var realms := GetRealms(subOrganizations.value);
    ghost var before := store.entries;
    var i := 0;
    while i < |realms|
      invariant i <= |realms|
      invariant store.entries.Keys == before.Keys
      invariant store.entries == ReconciledStore(before, realms[..i], store.semantics)
      invariant forall j :: 0 <= j < i ==> !RealmFaults(before, realms[j], store.faults)
    {
      var realm := realms[i];
      assert realms[..i + 1] == realms[..i] + [realm];
      assert realm !in realms[..i];
      ghost var reached := store.entries;
      RealmFaultsLocal(before, reached, realm, store.faults);
      var ok := ReconcileRealm(store, realm);
      if !ok {
        return Aborted(i);
      }
      PassExtend(before, realms[..i], realm, store.semantics);
      i := i + 1;
    }
    assert realms[..i] == realms;
    return Completed;
  }
}
