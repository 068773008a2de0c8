/**
 * The realm list the pass walks: the root realm "/" followed by the
 * sub-organisation names, kept as an insertion-ordered set (a value already
 * present is not added again).
 */
module Realms {

  const RootRealm: string := "/"

  predicate NoDuplicates(s: seq<string>) {
    forall i, j :: 0 <= i < j < |s| ==> s[i] != s[j]
  }

  /** Adding each of `names` in turn to the ordered set `acc`. */
  function AddAll(acc: seq<string>, names: seq<string>): seq<string>
    decreases |names|
  {
    if names == [] then acc
    else AddAll(if names[0] in acc then acc else acc + [names[0]], names[1..])
  }

  /** The ordered realm set: "/" first, then every sub-organisation name not yet present. */
  function RealmOrder(subOrganizations: seq<string>): seq<string> {
    AddAll([RootRealm], subOrganizations)
  }

  /** Adding to an ordered set keeps what was there, in place, and adds no duplicate. */
  lemma {:induction false} AddAllKeepsOrderedSet(acc: seq<string>, names: seq<string>)
    requires NoDuplicates(acc)
    ensures |acc| <= |AddAll(acc, names)|
    ensures AddAll(acc, names)[..|acc|] == acc
    ensures NoDuplicates(AddAll(acc, names))
    ensures forall x :: x in AddAll(acc, names) <==> x in acc || x in names
    decreases |names|
  {
    if names != [] {
      var next := if names[0] in acc then acc else acc + [names[0]];
      assert NoDuplicates(next);
      AddAllKeepsOrderedSet(next, names[1..]);
      assert next[..|acc|] == acc;
      assert AddAll(acc, names)[..|acc|] == AddAll(acc, names)[..|next|][..|acc|];
      assert forall x :: x in names <==> x == names[0] || x in names[1..];
    }
  }

  /** The realm list starts with "/", has no duplicates and holds exactly "/" and the sub-organisations. */
  lemma RealmOrderIsOrderedSet(subOrganizations: seq<string>)
    ensures |RealmOrder(subOrganizations)| > 0 && RealmOrder(subOrganizations)[0] == RootRealm
    ensures NoDuplicates(RealmOrder(subOrganizations))
    ensures forall r :: r in RealmOrder(subOrganizations) <==> r == RootRealm || r in subOrganizations
  {
    AddAllKeepsOrderedSet([RootRealm], subOrganizations);
  }

  /** getRealms: start the ordered set with "/" and add the sub-organisation names one by one. */
  method GetRealms(subOrganizations: seq<string>) returns (realms: seq<string>)
    ensures realms == RealmOrder(subOrganizations)
    ensures |realms| > 0 && realms[0] == RootRealm
    ensures NoDuplicates(realms)
    ensures forall r :: r in realms <==> r == RootRealm || r in subOrganizations
  {
    realms := [RootRealm];
    var i := 0;
    while i < |subOrganizations|
      invariant i <= |subOrganizations|
      invariant AddAll(realms, subOrganizations[i..]) == RealmOrder(subOrganizations)
      invariant |realms| > 0 && realms[0] == RootRealm
      invariant NoDuplicates(realms)
      invariant forall r :: r in realms <==> r == RootRealm || r in subOrganizations[..i]
    {
      assert subOrganizations[i..][1..] == subOrganizations[i + 1..];
      assert subOrganizations[..i + 1] == subOrganizations[..i] + [subOrganizations[i]];
      if subOrganizations[i] !in realms {
        realms := realms + [subOrganizations[i]];
      }
      i := i + 1;
    }
    assert subOrganizations[..i] == subOrganizations;
  }
}
