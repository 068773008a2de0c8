/**
 * Four concrete passes, as a caller of the startup pass sees them through its
 * contract alone.
 */
module Scenarios {
  import opened ServiceConfigStore
  import opened Reconciliation
  import opened Realms
  import opened CollectorPlugin

  /**
   * Realm "/" holds "ldap1" with object classes {"top"} and no user attributes,
   * and "ldap2", already compliant. Only ldap1's object classes are rewritten,
   * and "top" is lost when the store replaces values.
   */
  method CompliantAndPartialConnectors() {
    var ldap1 := SubConfigId("/", "ldap1");
    var ldap2 := SubConfigId("/", "ldap2");
    var c1 := SubConfig("LDAPv3ForOpenDS", map[UserObjectClassAttribute := {"top"}, UserAttributesAttribute := {}]);
    var c2 := SubConfig("LDAPv3ForAD",
      map[UserObjectClassAttribute := {"top", DeviceAttributeContainer}, UserAttributesAttribute := {"cn", "deviceAttributes"}]);
    var store := new ConfigStore(map[ldap1 := c1, ldap2 := c2], [], Replace, Faults(false, {}, {}, {}));
    var outcome := OnStartup(store);
    assert outcome == Completed;
    assert store.entries[ldap1].attributes[UserObjectClassAttribute] == {DeviceAttributeContainer};
    assert store.entries[ldap1].attributes[UserAttributesAttribute] == {};
    assert store.entries[ldap2] == c2;
  }

  /**
   * Realm "/sales" cannot be opened. The pass stops there: "/" was reconciled
   * before it, and "/marketing", listed after it, is never visited.
   */
  method FaultInOneRealmStopsThePass() {
    var root := SubConfigId("/", "ldap");
    var marketing := SubConfigId("/marketing", "ldap");
    var c := SubConfig("LDAPv3", map[UserObjectClassAttribute := {"top"}]);
    var store := new ConfigStore(map[root := c, marketing := c], ["/sales", "/marketing"], Replace,
      Faults(false, {"/sales"}, {}, {}));
    ghost var entries := store.entries;
    assert RealmOrder(["/sales", "/marketing"]) == ["/", "/sales", "/marketing"];
    assert !RealmFaults(entries, "/", store.faults) && RealmFaults(entries, "/sales", store.faults);
    var outcome := OnStartup(store);
    assert outcome.Aborted? && outcome.at != 0 && outcome.at != 2;
    assert outcome == Aborted(1);
    assert ["/", "/sales", "/marketing"][..1] == ["/"];
    assert store.entries[root].attributes[UserObjectClassAttribute] == {DeviceAttributeContainer};
    assert store.entries[marketing] == c;
  }

  /**
   * Realm "/" holds two "LDAPv3" sub-configurations whose user-attributes write
   * is rejected. The pass stops at the first one it visits, so at most one of
   * them gets its object-class write.
   */
  method RejectedWriteStopsInsideTheRealm() {
    var a := SubConfigId("/", "a");
    var b := SubConfigId("/", "b");
    var c := SubConfig("LDAPv3", map[UserObjectClassAttribute := {"top"}, UserAttributesAttribute := {"cn"}]);
    var store := new ConfigStore(map[a := c, b := c], [], Replace,
      Faults(false, {}, {}, {AttributeRef(a, UserAttributesAttribute), AttributeRef(b, UserAttributesAttribute)}));
    ghost var entries := store.entries;
    assert RealmOrder([]) == ["/"];
    assert RealmFaults(entries, "/", store.faults);
    var outcome := OnStartup(store);
    assert outcome == Aborted(0);
    assert ["/"][..0] == [];
    assert store.entries[a] == c || store.entries[b] == c;
  }

  /**
   * Realm "/" holds one "LDAPv3" sub-configuration whose user-attributes write
   * is rejected. The pass stops there, and the object-class write made before
   * the rejected one stays.
   */
  method ObjectClassWriteSurvivesLaterFault() {
    var a := SubConfigId("/", "a");
    var c := SubConfig("LDAPv3", map[UserObjectClassAttribute := {"top"}, UserAttributesAttribute := {"cn"}]);
    var store := new ConfigStore(map[a := c], [], Replace, Faults(false, {}, {}, {AttributeRef(a, UserAttributesAttribute)}));
    ghost var entries := store.entries;
    assert RealmOrder([]) == ["/"];
    assert RealmFaults(entries, "/", store.faults);
    var outcome := OnStartup(store);
    assert outcome == Aborted(0);
    assert ["/"][..0] == [];
    assert store.entries[a].attributes[UserObjectClassAttribute] == {DeviceAttributeContainer};
    assert store.entries[a].attributes[UserAttributesAttribute] == {"cn"};
  }
}
