/**
 * The service-management configuration store as the reconciliation pass sees it:
 * sub-configurations of the identity-repository service, keyed by realm and
 * sub-configuration name, each with a schema type tag and a map from attribute
 * name to a set of string values.
 *
 * The store is an external collaborator. `ConfigStore` has four methods for
 * the six backend calls the pass makes: opening a realm's configuration is
 * folded into listing its sub-configuration names, and fetching a
 * sub-configuration handle into reading or writing one of its attributes.
 * Its constant fields say where the real backend raises (an SMS or SSO
 * exception), fixed for the duration of one pass.
 */
module ServiceConfigStore {

  datatype Option<T> = None | Some(value: T)

  /** A directory sub-configuration is identified by its realm and its name. */
  datatype SubConfigId = SubConfigId(realm: string, name: string)

  /** One sub-configuration: its schema type (for example "LDAPv3ForAD") and its attributes. */
  datatype SubConfig = SubConfig(schemaType: string, attributes: map<string, set<string>>)

  type Entries = map<SubConfigId, SubConfig>

  /**
   * What a write of an attribute does with the values already stored. The
   * write goes through the backend's `addAttribute`, whose implementation is
   * outside this model: `Replace` stores exactly the given values, `Union`
   * adds them to the ones already there.
   */
  datatype WriteSemantics = Replace | Union

  /** An attribute of one sub-configuration, the unit a rejected write is keyed by. */
  datatype AttributeRef = AttributeRef(id: SubConfigId, attribute: string)

  /**
   * Where the backend raises during a pass: while obtaining the admin session
   * or enumerating realms, while opening a realm's configuration, while
   * reading a sub-configuration, or when a write to an attribute is rejected.
   */
  datatype Faults = Faults(
    enumeration: bool,
    realms: set<string>,
    subConfigs: set<SubConfigId>,
    writes: set<AttributeRef>)

  /** The value set of an attribute; an absent attribute reads as empty. */
  function AttributeValue(c: SubConfig, attribute: string): set<string> {
    if attribute in c.attributes then c.attributes[attribute] else {}
  }

  /** The value set an attribute holds after `values` is written over `current`. */
  function Written(semantics: WriteSemantics, current: set<string>, values: set<string>): (r: set<string>)
    ensures values <= r
  {
    match semantics
    case Replace => values
    case Union => current + values
  }

  /** The sub-configuration after `values` is written to `attribute`. */
  function WithAttribute(c: SubConfig, attribute: string, values: set<string>, semantics: WriteSemantics): (r: SubConfig)
    ensures r.schemaType == c.schemaType
    ensures r.attributes.Keys == c.attributes.Keys + {attribute}
    ensures AttributeValue(r, attribute) == Written(semantics, AttributeValue(c, attribute), values)
    ensures forall a :: a != attribute && a in c.attributes ==> r.attributes[a] == c.attributes[a]
  {
    c.(attributes := c.attributes[attribute := Written(semantics, AttributeValue(c, attribute), values)])
  }

  /** The type-pattern test of `getSubConfigNames`: a type pattern "P*" matches every type starting with P. */
  predicate MatchesTypePrefix(schemaType: string, prefix: string) {
    prefix <= schemaType
  }

  /** The names of the sub-configurations of `realm` whose schema type starts with `prefix`. */
  function SubConfigNames(entries: Entries, realm: string, prefix: string): (r: set<string>)
    ensures forall name :: name in r <==>
      SubConfigId(realm, name) in entries && MatchesTypePrefix(entries[SubConfigId(realm, name)].schemaType, prefix)
  {
    set id | id in entries && id.realm == realm && MatchesTypePrefix(entries[id].schemaType, prefix) :: id.name
  }

  /**
   * The configuration store. Only `entries` changes during a pass; the realm
   * list, the write semantics and the fault points are fixed.
   */
  class ConfigStore {
    var entries: Entries
    /** The sub-organisation (sub-realm) names, in the order the backend enumerates them. */
    const subOrganizations: seq<string>
    const semantics: WriteSemantics
    const faults: Faults

    constructor (entries: Entries, subOrganizations: seq<string>, semantics: WriteSemantics, faults: Faults)
      ensures this.entries == entries && this.subOrganizations == subOrganizations
      ensures this.semantics == semantics && this.faults == faults
    {
      this.entries := entries;
      this.subOrganizations := subOrganizations;
      this.semantics := semantics;
      this.faults := faults;
    }

    /** getSubOrganizationNames("*", true) behind an admin session; `None` when either raises. */
    method GetSubOrganizationNames() returns (r: Option<seq<string>>)
      ensures faults.enumeration <==> r.None?
      ensures r.Some? ==> r.value == subOrganizations
    {
      if faults.enumeration {
        r := None;
      } else {
        r := Some(subOrganizations);
      }
    }

    /** getOrganizationConfig(realm, null).getSubConfigNames("*", prefix + "*"); `None` when it raises. */
    method GetSubConfigNames(realm: string, prefix: string) returns (r: Option<set<string>>)
      ensures realm in faults.realms <==> r.None?
      ensures r.Some? ==> forall name :: name in r.value <==>
        SubConfigId(realm, name) in entries && MatchesTypePrefix(entries[SubConfigId(realm, name)].schemaType, prefix)
    {
      if realm in faults.realms {
        r := None;
      } else {
        r := Some(SubConfigNames(entries, realm, prefix));
      }
    }

    /** getSubConfig(name).getAttributeValue(attribute); `None` when it raises. */
    method GetAttributeValue(id: SubConfigId, attribute: string) returns (r: Option<set<string>>)
      requires id in entries
      ensures id in faults.subConfigs <==> r.None?
      ensures r.Some? ==> r.value == AttributeValue(entries[id], attribute)
    {
      if id in faults.subConfigs {
        r := None;
      } else {
        r := Some(AttributeValue(entries[id], attribute));
      }
    }

    /** getSubConfig(name).addAttribute(attribute, values); `false` when it raises, and then nothing is written. */
    method AddAttribute(id: SubConfigId, attribute: string, values: set<string>) returns (ok: bool)
      requires id in entries
      modifies this
      ensures ok <==> id !in faults.subConfigs && AttributeRef(id, attribute) !in faults.writes
      ensures ok ==> entries == old(entries)[id := WithAttribute(old(entries)[id], attribute, values, semantics)]
      ensures !ok ==> entries == old(entries)
    {
      ok := id !in faults.subConfigs && AttributeRef(id, attribute) !in faults.writes;
      if ok {
        entries := entries[id := WithAttribute(entries[id], attribute, values, semantics)];
      }
    }
  }
}
