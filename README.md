# Device-attribute schema reconciliation, modelled in Dafny

This project models the startup reconciliation pass of the ForgeRock
device-attribute authentication-node plugin, `DeviceAttributeCollectorPlugin`.
When the plugin starts, it does the following:

- It lists the realms: "/" first, then every sub-organisation.
- In each realm it lists the identity-repository sub-configurations whose type matches `LDAPv3*`.
- In each such sub-configuration it checks two attributes:
  - `sun-idrepo-ldapv3-config-user-objectclass`: when the value set is non-empty and lacks `deviceAttributeContainer`, it is written with `{deviceAttributeContainer}`.
  - `sun-idrepo-ldapv3-config-user-attributes`: when the value set is non-empty and does not contain `deviceAttributes`, it is written with `{deviceAttributes}`.
- One `catch` around the whole pass swallows the store's exceptions.

Files:

- `service_config_store.dfy` (module `ServiceConfigStore`): the configuration store.
  It is a class whose mutable state is a map from (realm, sub-configuration name) to a sub-configuration.
  A sub-configuration is a schema type tag plus a map from attribute name to `set<string>`.
  The pass makes six backend calls; the class has four methods for them.
  Opening a realm's configuration is folded into listing its sub-configuration names.
  Fetching a sub-configuration handle is folded into reading or writing one of its attributes.
  Its constant fields say where the backend raises during the pass.
- `realms.dfy` (module `Realms`): `getRealms` as a loop that builds an insertion-ordered set.
  It is proved equal to the specification function `RealmOrder`.
- `reconciliation.dfy` (module `Reconciliation`): the check-and-write on one sub-configuration (`Reconcile`).
  It also has the fault-free pass as a function of the store and the realm list (`ReconciledStore`).
  The lemmas cover replacement, the frame, idempotence and composition.
- `collector_plugin.dfy` (module `CollectorPlugin`): the pass as nested loops over the store object.
  The methods are proved to compute `ReconciledStore` when nothing raises.
  When something raises, they are proved to stop with earlier writes kept.
- `scenarios.dfy` (module `Scenarios`): four client methods that call `OnStartup` on concrete stores.
  They assert what its contract gives for those stores.

Points worth knowing about the code and the model:

- **Errors end the whole pass.** The `try` at lines 140-170 wraps both loops, so nothing isolates one realm from the others.
  The first `SMSException` or `SSOException` ends the pass, and writes already made stay.
  Inside the realm that raised, the pass stops at the one sub-configuration that raised.
  That sub-configuration is left in its `StopState`. It is untouched when it cannot be read, or when its object-class write is rejected.
  When only its user-attributes write is rejected, it keeps the object-class write already made.
  The ones visited before it are fully reconciled, and the rest are untouched.
  A realm that cannot be opened gets no write at all.
  `OnStartup` states this.
  `Scenarios.FaultInOneRealmStopsThePass` shows "/marketing" left unvisited after "/sales" raises.
  `Scenarios.RejectedWriteStopsInsideTheRealm` shows the stop inside a realm.
  `Scenarios.ObjectClassWriteSurvivesLaterFault` shows the object-class write kept after a rejected user-attributes write.
- **Write semantics.** `ServiceConfig.addAttribute` is outside this model, so whether it replaces or adds values is the parameter `WriteSemantics`.
  Every property that does not name a write semantics (`Reconcile`, the pass lemmas, the method contracts) is proved for both.
  Under `Replace` the attribute becomes exactly the required set, so "top" or "cn" is discarded.
  Under `Union` nothing already stored is lost.
- **No report.** The code builds no report, and none is modelled.
  The model's `PassOutcome` (completed / enumeration failed / aborted in realm i) exists only to state the contract.

## Model

| member | source | states |
|---|---|---|
| `Realms.GetRealms` | src/main/java/org/forgerock/openam/auth/nodes/DeviceAttributeCollectorPlugin.java:115-121 | the realm list equals the ordered set built from "/" and the sub-organisation names: "/" first, no duplicates, and a realm is listed iff it is "/" or a sub-organisation |
| `Realms.AddAllKeepsOrderedSet` | src/main/java/org/forgerock/openam/auth/nodes/DeviceAttributeCollectorPlugin.java:118-119 | `addAll` on an insertion-ordered set keeps the existing elements in place as a prefix, adds no duplicate, and holds exactly the old elements and the added names |
| `Realms.RealmOrderIsOrderedSet` | src/main/java/org/forgerock/openam/auth/nodes/DeviceAttributeCollectorPlugin.java:118-120 | the realm order starts with "/", has no duplicates, and holds exactly "/" and the sub-organisations |
| `Reconciliation.Reconcile` | src/main/java/org/forgerock/openam/auth/nodes/DeviceAttributeCollectorPlugin.java:147-164 | an attribute whose value set is non-empty and lacks its required values is written with them. An empty, absent or compliant attribute is left as it was, and so is every other attribute and the schema type. The result asks for no further write |
| `Reconciliation.ReplaceOverwritesObjectClass` | src/main/java/org/forgerock/openam/auth/nodes/DeviceAttributeCollectorPlugin.java:149-155 | with replacing writes, a non-empty object-class set lacking `deviceAttributeContainer` becomes exactly `{deviceAttributeContainer}`, so earlier classes such as "top" are lost |
| `Reconciliation.ReplaceOverwritesAttributes` | src/main/java/org/forgerock/openam/auth/nodes/DeviceAttributeCollectorPlugin.java:157-164 | with replacing writes, a non-empty user-attribute set not containing `deviceAttributes` becomes exactly `{deviceAttributes}` |
| `Reconciliation.EmptyOrAbsentSkipped` | src/main/java/org/forgerock/openam/auth/nodes/DeviceAttributeCollectorPlugin.java:149-160 | an object-class or user-attributes attribute that is absent, or present but empty, is not written: each step returns the sub-configuration unchanged. An absent attribute is treated like an empty one by the null-safe emptiness test |
| `Reconciliation.UnionKeepsEarlierValues` | src/main/java/org/forgerock/openam/auth/nodes/DeviceAttributeCollectorPlugin.java:149-164 | with adding writes, both attributes keep every value they held before |
| `Reconciliation.ReconcileSettledIsIdentity` | src/main/java/org/forgerock/openam/auth/nodes/DeviceAttributeCollectorPlugin.java:149-160 | a sub-configuration whose two checks both ask for no write is left exactly as it is |
| `Reconciliation.ReconcileIdempotent` | src/main/java/org/forgerock/openam/auth/nodes/DeviceAttributeCollectorPlugin.java:147-164 | reconciling a sub-configuration twice gives the same result as reconciling it once |
| `Reconciliation.PassFrame` | src/main/java/org/forgerock/openam/auth/nodes/DeviceAttributeCollectorPlugin.java:143-164 | the pass adds and removes no sub-configuration. Sub-configurations outside the listed realms or not of type `LDAPv3*` are unchanged. In visited ones, only the two attributes change; every other attribute and the type stay |
| `Reconciliation.PassWritesOnlyWhereNeeded` | src/main/java/org/forgerock/openam/auth/nodes/DeviceAttributeCollectorPlugin.java:146-164 | in each visited sub-configuration, each of the two attributes is written with its required values when non-empty and lacking them, and untouched otherwise |
| `Reconciliation.PassSettlesVisited` | src/main/java/org/forgerock/openam/auth/nodes/DeviceAttributeCollectorPlugin.java:143-166 | after a pass, every visited sub-configuration is still visited by the next pass and asks for no write there |
| `Reconciliation.PassIdempotent` | src/main/java/org/forgerock/openam/auth/nodes/DeviceAttributeCollectorPlugin.java:143-167 | a second fault-free pass over the same realms leaves the store identical |
| `Reconciliation.PassExtend` | src/main/java/org/forgerock/openam/auth/nodes/DeviceAttributeCollectorPlugin.java:143-167 | for a realm not yet processed, the pass over the realms so far followed by a pass over that realm is the pass over the longer list |
| `CollectorPlugin.ObjectClassStepKeepsAttributes` | src/main/java/org/forgerock/openam/auth/nodes/DeviceAttributeCollectorPlugin.java:147-160 | the object-class write does not change the user-attributes value that the second read at line 157 sees, so the second check is the same as on the original sub-configuration |
| `CollectorPlugin.ReconcileSubConfig` | src/main/java/org/forgerock/openam/auth/nodes/DeviceAttributeCollectorPlugin.java:147-164 | succeeds iff the store raises nothing on this sub-configuration, and then the entry becomes `Reconcile` of it. On a fault, the entry is left in its `StopState`: untouched when it cannot be read or its object-class write is rejected, and with the object-class write kept when only its user-attributes write is rejected. No other entry changes |
| `CollectorPlugin.ReconcileRealm` | src/main/java/org/forgerock/openam/auth/nodes/DeviceAttributeCollectorPlugin.java:144-166 | succeeds iff neither the realm nor any of its `LDAPv3*` sub-configurations raises, and then every such sub-configuration is reconciled. A realm that cannot be opened gets no write. Otherwise, on a fault, exactly one faulting sub-configuration is left in its `StopState` (untouched after an unreadable entry or a rejected object-class write; object-class write kept after a rejected user-attributes write). Every other entry is untouched or was fully reconciled without a fault. Entries outside the realm never change |
| `CollectorPlugin.OnStartup` | src/main/java/org/forgerock/openam/auth/nodes/DeviceAttributeCollectorPlugin.java:136-171 | if enumeration raises, nothing changes. The pass completes iff no listed realm raises, and the store then equals `ReconciledStore` over `RealmOrder`. On an abort in realm i, realm i is the first realm that raises. Earlier realms are reconciled, and later realms are untouched. Realm i is left as `ReconcileRealm` describes for a fault: no write if it cannot be opened, otherwise a stop at one faulting sub-configuration, left in its `StopState`. Each entry of realm i is untouched, reconciled, or in its `StopState` |
| `ServiceConfigStore.ConfigStore.GetSubOrganizationNames` | src/main/java/org/forgerock/openam/auth/nodes/DeviceAttributeCollectorPlugin.java:116-119 | yields the sub-organisation names unless the admin session or enumeration raises |
| `ServiceConfigStore.ConfigStore.GetSubConfigNames` | src/main/java/org/forgerock/openam/auth/nodes/DeviceAttributeCollectorPlugin.java:144-145 | unless the realm raises, yields exactly the names of that realm's sub-configurations whose type starts with the prefix |
| `ServiceConfigStore.ConfigStore.GetAttributeValue` | src/main/java/org/forgerock/openam/auth/nodes/DeviceAttributeCollectorPlugin.java:147-148 | unless the sub-configuration raises, yields the attribute's value set, empty when absent |
| `ServiceConfigStore.ConfigStore.AddAttribute` | src/main/java/org/forgerock/openam/auth/nodes/DeviceAttributeCollectorPlugin.java:153-154 | succeeds iff neither the sub-configuration nor this write is rejected. It then changes that one attribute of that one entry by the store's write semantics; a rejected write changes nothing |
| `ServiceConfigStore.WithAttribute` | src/main/java/org/forgerock/openam/auth/nodes/DeviceAttributeCollectorPlugin.java:161-163 | a write leaves the type and every other attribute unchanged, and the written attribute then holds at least the written values |
| `ServiceConfigStore.SubConfigNames` | src/main/java/org/forgerock/openam/auth/nodes/DeviceAttributeCollectorPlugin.java:145 | a name is listed iff its sub-configuration is in the realm and its type starts with the prefix (`"LDAPv3*"`) |

## Left out

- The plugin lifecycle glue is not modelled: `getNodesByVersion`, `onInstall`, `onStartup()`, `upgrade`, `getPluginVersion`, and the call `super.onStartup(startupType)` at line 138. That call registers the nodes and can throw a `PluginException` before the `try` is entered. These are host callbacks and node registration with no logic of their own. The unused `currentVersion` constant is left out too.
- The authentication node classes registered by the plugin are not part of this model.
- Admin-token acquisition is a privileged call into code outside the repository. So is building the `ServiceConfigManager`. Only its possible failure is kept, as `Faults.enumeration`, which aborts the pass before any write.
- The real `OrganizationConfigManager`, `ServiceConfigManager` and `ServiceConfig` backends are not modelled, and neither is the recursive realm search. The sub-organisation names are given as a sequence in the order the backend returns them.
- Wildcards: the name pattern `"*"` selects every name, and the type pattern `"LDAPv3*"` is modelled as a prefix test. General wildcard matching is not modelled.
- Exception types: `SMSException` and `SSOException` are not told apart. Each is a fault that ends the pass, as the single `catch` makes them.
- Faults are fixed for the duration of a pass. A sub-configuration either raises on every read or on none, so a read that fails only on its second attempt (line 157) is not modelled. A rejected write is modelled per attribute, so a pass can stop between the two writes of one sub-configuration.
- A `null` from `getOrganizationConfig` or `getSubConfig` is not modelled. It would end `onStartup` with a `NullPointerException`, which the `catch` does not handle.
- Concurrent changes to the store during a pass are not modelled: the pass is the only writer. Logging is not modelled either; the code has none.
- The order in which the realm's sub-configurations are visited is left open, as the set iteration in the code does. Every contract holds for any order.
