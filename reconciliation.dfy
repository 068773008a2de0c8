/**
 * What the reconciliation pass does to the store, as functions: the check and
 * write applied to one directory sub-configuration, and the whole pass as a
 * function of the store and the realm list. The imperative pass in
 * CollectorPlugin is proved to compute these; the lemmas here state what the
 * plugin promises about them.
 */
module Reconciliation {
  import opened ServiceConfigStore

  const UserAttributesAttribute: string := "sun-idrepo-ldapv3-config-user-attributes"
  const UserObjectClassAttribute: string := "sun-idrepo-ldapv3-config-user-objectclass"
  const DeviceAttributeContainer: string := "deviceAttributeContainer"
  const RequiredAttributes: set<string> := {"deviceAttributes"}
  /** The type pattern "LDAPv3*" of the sub-configurations the pass looks at. */
  const DirectoryTypePrefix: string := "LDAPv3"

  /** The object-class set is non-empty and lacks deviceAttributeContainer. */
  predicate NeedsObjectClassWrite(c: SubConfig) {
    var current := AttributeValue(c, UserObjectClassAttribute);
    current != {} && DeviceAttributeContainer !in current
  }

  /** The user-attributes set is non-empty and does not contain all required attributes. */
  predicate NeedsAttributesWrite(c: SubConfig) {
    var current := AttributeValue(c, UserAttributesAttribute);
    current != {} && !(RequiredAttributes <= current)
  }

  /** Neither check asks for a write. */
  predicate Settled(c: SubConfig) {
    !NeedsObjectClassWrite(c) && !NeedsAttributesWrite(c)
  }

  /** `a` has the same presence and value in both sub-configurations. */
  predicate SameAttribute(c: SubConfig, d: SubConfig, a: string) {
    (a in c.attributes <==> a in d.attributes) && (a in c.attributes ==> c.attributes[a] == d.attributes[a])
  }

  /** The object-class step: write {deviceAttributeContainer} when the check asks for it. */
  function ReconcileObjectClass(c: SubConfig, semantics: WriteSemantics): SubConfig {
    if NeedsObjectClassWrite(c)
    then WithAttribute(c, UserObjectClassAttribute, {DeviceAttributeContainer}, semantics)
    else c
  }

  /** The user-attributes step: write the required attributes when the check asks for it. */
  function ReconcileAttributes(c: SubConfig, semantics: WriteSemantics): SubConfig {
    if NeedsAttributesWrite(c)
    then WithAttribute(c, UserAttributesAttribute, RequiredAttributes, semantics)
    else c
  }

  /**
   * One sub-configuration after both steps. The attribute each step writes
   * holds its required values afterwards; an attribute whose check does not
   * ask for a write, and every other attribute, is as it was; the result
   * needs no further write.
   */
  function Reconcile(c: SubConfig, semantics: WriteSemantics): (r: SubConfig)
    ensures r.schemaType == c.schemaType
    ensures NeedsObjectClassWrite(c) ==>
      AttributeValue(r, UserObjectClassAttribute)
        == Written(semantics, AttributeValue(c, UserObjectClassAttribute), {DeviceAttributeContainer})
    ensures !NeedsObjectClassWrite(c) ==> SameAttribute(c, r, UserObjectClassAttribute)
    ensures NeedsAttributesWrite(c) ==>
      AttributeValue(r, UserAttributesAttribute)
        == Written(semantics, AttributeValue(c, UserAttributesAttribute), RequiredAttributes)
    ensures !NeedsAttributesWrite(c) ==> SameAttribute(c, r, UserAttributesAttribute)
    ensures forall a :: a != UserObjectClassAttribute && a != UserAttributesAttribute ==> SameAttribute(c, r, a)
    ensures Settled(r)
  {
    ReconcileAttributes(ReconcileObjectClass(c, semantics), semantics)
  }

  /** With the store's writes replacing the stored values, earlier values such as "top" are discarded. */
  lemma ReplaceOverwritesObjectClass(c: SubConfig)
    requires NeedsObjectClassWrite(c)
    ensures AttributeValue(Reconcile(c, Replace), UserObjectClassAttribute) == {DeviceAttributeContainer}
  {
  }

  /** With the store's writes replacing the stored values, the user attributes become exactly the required set. */
  lemma ReplaceOverwritesAttributes(c: SubConfig)
    requires NeedsAttributesWrite(c)
    ensures AttributeValue(Reconcile(c, Replace), UserAttributesAttribute) == RequiredAttributes
  {
  }

  /** With the store's writes adding to the stored values, nothing already present is lost. */
  lemma UnionKeepsEarlierValues(c: SubConfig)
    ensures AttributeValue(c, UserObjectClassAttribute) <= AttributeValue(Reconcile(c, Union), UserObjectClassAttribute)
    ensures AttributeValue(c, UserAttributesAttribute) <= AttributeValue(Reconcile(c, Union), UserAttributesAttribute)
  {
  }

  /**
   * Empty means skip: an attribute that is absent, or present with no values,
   * is not written, whatever the required values are.
   */
  lemma EmptyOrAbsentSkipped(c: SubConfig, semantics: WriteSemantics)
    ensures UserObjectClassAttribute !in c.attributes || c.attributes[UserObjectClassAttribute] == {} ==>
      ReconcileObjectClass(c, semantics) == c
    ensures UserAttributesAttribute !in c.attributes || c.attributes[UserAttributesAttribute] == {} ==>
      ReconcileAttributes(c, semantics) == c
  {
  }

  /** A sub-configuration that asks for no write is left exactly as it is. */
  lemma ReconcileSettledIsIdentity(c: SubConfig, semantics: WriteSemantics)
    requires Settled(c)
    ensures Reconcile(c, semantics) == c
  {
  }

  /** Reconciling twice is reconciling once. */
  lemma ReconcileIdempotent(c: SubConfig, semantics: WriteSemantics)
    ensures Reconcile(Reconcile(c, semantics), semantics) == Reconcile(c, semantics)
  {
  }

  /** The sub-configurations the pass visits: in a listed realm, with a schema type matching "LDAPv3*". */
  predicate Selected(id: SubConfigId, c: SubConfig, realms: seq<string>) {
    id.realm in realms && MatchesTypePrefix(c.schemaType, DirectoryTypePrefix)
  }

  /** The store after a pass over `realms` that raised nothing. */
  function ReconciledStore(entries: Entries, realms: seq<string>, semantics: WriteSemantics): Entries {
    map id | id in entries :: if Selected(id, entries[id], realms) then Reconcile(entries[id], semantics) else entries[id]
  }

  /**
   * Nothing else changes: the pass neither adds nor removes sub-configurations,
   * leaves every sub-configuration it does not visit as it was, and in one it
   * visits changes neither the schema type nor any attribute but the two it checks.
   */
  lemma PassFrame(entries: Entries, realms: seq<string>, semantics: WriteSemantics)
    ensures ReconciledStore(entries, realms, semantics).Keys == entries.Keys
    ensures forall id :: id in entries && !Selected(id, entries[id], realms) ==>
      ReconciledStore(entries, realms, semantics)[id] == entries[id]
    ensures forall id, a :: id in entries && a != UserObjectClassAttribute && a != UserAttributesAttribute ==>
      SameAttribute(entries[id], ReconciledStore(entries, realms, semantics)[id], a)
    ensures forall id :: id in entries ==>
      ReconciledStore(entries, realms, semantics)[id].schemaType == entries[id].schemaType
  {
  }

  /**
   * In every visited sub-configuration each of the two attributes is either
   * written with its required values, or (empty, absent or already compliant)
   * left untouched.
   */
  lemma PassWritesOnlyWhereNeeded(entries: Entries, realms: seq<string>, semantics: WriteSemantics, id: SubConfigId)
    requires id in entries && Selected(id, entries[id], realms)
    ensures var before, after := entries[id], ReconciledStore(entries, realms, semantics)[id];
      && (NeedsObjectClassWrite(before) ==>
            AttributeValue(after, UserObjectClassAttribute)
              == Written(semantics, AttributeValue(before, UserObjectClassAttribute), {DeviceAttributeContainer}))
      && (!NeedsObjectClassWrite(before) ==> SameAttribute(before, after, UserObjectClassAttribute))
      && (NeedsAttributesWrite(before) ==>
            AttributeValue(after, UserAttributesAttribute)
              == Written(semantics, AttributeValue(before, UserAttributesAttribute), RequiredAttributes))
      && (!NeedsAttributesWrite(before) ==> SameAttribute(before, after, UserAttributesAttribute))
  {
  }

  /** After a pass every visited sub-configuration is settled: a second pass would make no write. */
  lemma PassSettlesVisited(entries: Entries, realms: seq<string>, semantics: WriteSemantics)
    ensures forall id :: id in entries && Selected(id, entries[id], realms) ==>
      Selected(id, ReconciledStore(entries, realms, semantics)[id], realms) &&
      Settled(ReconciledStore(entries, realms, semantics)[id])
  {
  }

  /** Running the pass a second time leaves the store identical. */
  lemma PassIdempotent(entries: Entries, realms: seq<string>, semantics: WriteSemantics)
    ensures ReconciledStore(ReconciledStore(entries, realms, semantics), realms, semantics)
         == ReconciledStore(entries, realms, semantics)
  {
  }

  /** A pass over one more realm, not yet listed, is the pass so far followed by a pass over that realm. */
  lemma PassExtend(entries: Entries, realms: seq<string>, realm: string, semantics: WriteSemantics)
    requires realm !in realms
    ensures ReconciledStore(ReconciledStore(entries, realms, semantics), [realm], semantics)
         == ReconciledStore(entries, realms + [realm], semantics)
  {
  }
}
