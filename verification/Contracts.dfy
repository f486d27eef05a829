/** The declarations of a contract that a lock pins (pkg/contract/contract.go). */
module Contracts {
  import opened Basics

  /** One policy or configuration: `ref` is empty when it carries an inline schema. */
  datatype Declaration = Declaration(name: string, ref: string)

  datatype Contract = Contract(version: string, policies: seq<Declaration>, configurations: seq<Declaration>)

  const POLICY := "policy"
  const CONFIG := "config"

  datatype ReferenceRef = ReferenceRef(kind: string, name: string, ref: string)

  datatype Duplicate = Duplicate(kind: string, name: string, index: nat, first: nat)

  /** The declarations of one kind that carry a ref, in order. */
  function Referring(kind: string, ds: seq<Declaration>): seq<ReferenceRef> {
    if ds == [] then []
    else
      var d := ds[|ds| - 1];
      Referring(kind, ds[..|ds| - 1]) + if d.ref != "" then [ReferenceRef(kind, d.name, d.ref)] else []
  }

  function References(c: Contract): seq<ReferenceRef> {
    Referring(POLICY, c.policies) + Referring(CONFIG, c.configurations)
  }

  // ---- what is listed, by the contract's own declarations -------------------

  /** The contract declares `r`, as a policy or as a configuration, with a ref. */
  predicate Refers(c: Contract, r: ReferenceRef) {
    && r.ref != ""
    && ((r.kind == POLICY && Declaration(r.name, r.ref) in c.policies) || (r.kind == CONFIG && Declaration(r.name, r.ref) in c.configurations))
  }

  /** `out` lists what is declared at `places`: every place with a ref, in order, once. */
  ghost predicate Lists(kind: string, ds: seq<Declaration>, out: seq<ReferenceRef>, places: seq<nat>) {
    && |places| == |out|
    && (forall i, j | 0 <= i < j < |places| :: places[i] < places[j])
    && (forall i | 0 <= i < |places| :: places[i] < |ds| && out[i] == ReferenceRef(kind, ds[places[i]].name, ds[places[i]].ref))
    && (forall p: nat | p < |ds| :: p in places <==> ds[p].ref != "")
  }

  /** Policies first, then configurations, each as declared. */
  ghost predicate ListsBoth(c: Contract, out: seq<ReferenceRef>, ps: seq<nat>, cs: seq<nat>) {
    |ps| <= |out| && Lists(POLICY, c.policies, out[..|ps|], ps) && Lists(CONFIG, c.configurations, out[|ps|..], cs)
  }

  lemma {:induction false} ListsTake(kind: string, ds: seq<Declaration>, out: seq<ReferenceRef>, places: seq<nat>, d: Declaration)
    requires Lists(kind, ds, out, places) && d.ref != ""
    ensures Lists(kind, ds + [d], out + [ReferenceRef(kind, d.name, d.ref)], places + [|ds|])
  {
    forall p: nat | p < |ds| + 1 ensures p in places + [|ds|] <==> (ds + [d])[p].ref != "" {
      assert p in places + [|ds|] <==> p in places || p == |ds|;
    }
  }

  lemma {:induction false} ListsSkip(kind: string, ds: seq<Declaration>, out: seq<ReferenceRef>, places: seq<nat>, d: Declaration)
    requires Lists(kind, ds, out, places) && d.ref == ""
    ensures Lists(kind, ds + [d], out, places)
  {
    assert |ds| !in places;
  }

  lemma {:induction false} ReferringListed(kind: string, ds: seq<Declaration>) returns (places: seq<nat>)
    ensures Lists(kind, ds, Referring(kind, ds), places)
  {
    if ds == [] {
      places := [];
    } else {
      var init, d := ds[..|ds| - 1], ds[|ds| - 1];
      var before := ReferringListed(kind, init);
      assert ds == init + [d];
      if d.ref != "" {
        ListsTake(kind, init, Referring(kind, init), before, d);
        places := before + [|init|];
      } else {
        ListsSkip(kind, init, Referring(kind, init), before, d);
        places := before;
        assert Referring(kind, ds) == Referring(kind, init);
      }
    }
  }

  lemma {:induction false} ListsIff(kind: string, ds: seq<Declaration>, out: seq<ReferenceRef>, places: seq<nat>, r: ReferenceRef)
    requires Lists(kind, ds, out, places)
    ensures r in out <==> r.kind == kind && r.ref != "" && Declaration(r.name, r.ref) in ds
  {
    if r in out {
      var i :| 0 <= i < |out| && out[i] == r;
      assert places[i] in places && ds[places[i]] == Declaration(r.name, r.ref);
    }
    if r.kind == kind && r.ref != "" && Declaration(r.name, r.ref) in ds {
      var p: nat :| p < |ds| && ds[p] == Declaration(r.name, r.ref);
      assert p in places;
      var i :| 0 <= i < |places| && places[i] == p;
      assert out[i] == r;
    }
  }

  lemma {:induction false} ReferencesListed(c: Contract) returns (ps: seq<nat>, cs: seq<nat>)
    ensures ListsBoth(c, References(c), ps, cs)
  {
    ps := ReferringListed(POLICY, c.policies);
    cs := ReferringListed(CONFIG, c.configurations);
    assert References(c)[..|ps|] == Referring(POLICY, c.policies) && References(c)[|ps|..] == Referring(CONFIG, c.configurations);
  }

  /** Exactly the references a contract declares. */
  lemma {:induction false} ReferencesAreDeclared(c: Contract, r: ReferenceRef)
    ensures r in References(c) <==> Refers(c, r)
  {
    var ps, cs := ReferencesListed(c);
    var out := References(c);
    assert out == out[..|ps|] + out[|ps|..];
    ListsIff(POLICY, c.policies, out[..|ps|], ps, r);
    ListsIff(CONFIG, c.configurations, out[|ps|..], cs, r);
  }

  /** Every declaration with a ref and nothing else, policies first, in the order declared. */
  method ReferenceRefs(c: Contract) returns (out: seq<ReferenceRef>)
    ensures out == References(c)
    ensures exists ps, cs :: ListsBoth(c, out, ps, cs)
    ensures forall r :: r in out <==> Refers(c, r)
  {
    out := [];
    for i := 0 to |c.policies|
      invariant out == Referring(POLICY, c.policies[..i])
    {
      assert c.policies[..i + 1][..i] == c.policies[..i];
      if c.policies[i].ref != "" {
        out := out + [ReferenceRef(POLICY, c.policies[i].name, c.policies[i].ref)];
      }
    }
    assert c.policies[..|c.policies|] == c.policies;
    for i := 0 to |c.configurations|
      invariant out == Referring(POLICY, c.policies) + Referring(CONFIG, c.configurations[..i])
    {
      assert c.configurations[..i + 1][..i] == c.configurations[..i];
      if c.configurations[i].ref != "" {
        out := out + [ReferenceRef(CONFIG, c.configurations[i].name, c.configurations[i].ref)];
      }
    }
    assert c.configurations[..|c.configurations|] == c.configurations;
    ReferencesMean(c);
  }

  lemma {:induction false} ReferencesMean(c: Contract)
    ensures (exists ps, cs :: ListsBoth(c, References(c), ps, cs)) && forall r :: r in References(c) <==> Refers(c, r)
  {
    var ps, cs := ReferencesListed(c);
    forall r ensures r in References(c) <==> Refers(c, r) {
      ReferencesAreDeclared(c, r);
    }
  }

  predicate DistinctNames(ds: seq<Declaration>) {
    forall i, j | 0 <= i < j < |ds| :: ds[i].name != ds[j].name
  }

  predicate NoDuplicates(c: Contract) {
    DistinctNames(c.policies) && DistinctNames(c.configurations)
  }

  /** The nearest declaration of `ds` called `name`, from the end. */
  function LastNamed(ds: seq<Declaration>, name: string): (r: Option<nat>)
    ensures r.None? <==> forall k | 0 <= k < |ds| :: ds[k].name != name
    ensures r.Some? ==> r.value < |ds| && ds[r.value].name == name
    ensures r.Some? ==> forall k | r.value < k < |ds| :: ds[k].name != name
  {
    if ds == [] then None
    else if ds[|ds| - 1].name == name then Some(|ds| - 1)
    else LastNamed(ds[..|ds| - 1], name)
  }

  /** Every declaration that repeats a name, with the nearest earlier one it repeats. */
  function Repeated(kind: string, ds: seq<Declaration>): seq<Duplicate> {
    if ds == [] then []
    else
      var i := |ds| - 1;
      Repeated(kind, ds[..i]) +
      match LastNamed(ds[..i], ds[i].name)
      case Some(first) => [Duplicate(kind, ds[i].name, i, first)]
      case None => []
  }

  method RepeatedNames(kind: string, ds: seq<Declaration>) returns (out: seq<Duplicate>)
    ensures out == Repeated(kind, ds)
  {
    out := [];
    var seen: map<string, nat> := map[];
    for i := 0 to |ds|
      invariant forall s :: (if s in seen then Some(seen[s]) else None) == LastNamed(ds[..i], s)
      invariant out == Repeated(kind, ds[..i])
    {
      assert ds[..i + 1][..i] == ds[..i];
      var name := ds[i].name;
      if name in seen {
        out := out + [Duplicate(kind, name, i, seen[name])];
      }
      seen := seen[name := i];
    }
    assert ds[..|ds|] == ds;
  }

  function Duplicates(c: Contract): seq<Duplicate> {
    Repeated(POLICY, c.policies) + Repeated(CONFIG, c.configurations)
  }

  /** Policies first, then configurations: uniqueness is per kind. */
  method DuplicateDeclarations(c: Contract) returns (out: seq<Duplicate>)
    ensures out == Duplicates(c)
    ensures forall d :: d in out <==> Repeats(POLICY, c.policies, d) || Repeats(CONFIG, c.configurations, d)
    ensures out == [] <==> NoDuplicates(c)
  {
    RepeatedAreRepeats(POLICY, c.policies);
    RepeatedAreRepeats(CONFIG, c.configurations);
    DuplicatesIffNotDistinct(c);
    var policies := RepeatedNames(POLICY, c.policies);
    var configurations := RepeatedNames(CONFIG, c.configurations);
    out := policies + configurations;
  }

  /** `d` tells of a declaration and the nearest earlier one of its name. */
  predicate Repeats(kind: string, ds: seq<Declaration>, d: Duplicate) {
    && d.kind == kind && d.first < d.index < |ds| && ds[d.first].name == ds[d.index].name == d.name
    && forall k | d.first < k < d.index :: ds[k].name != d.name
  }

  /** Every repeat is reported, once, in order, and nothing else is. */
  lemma {:induction false} RepeatedAreRepeats(kind: string, ds: seq<Declaration>)
    ensures forall d :: d in Repeated(kind, ds) <==> Repeats(kind, ds, d)
    ensures forall i, j | 0 <= i < j < |Repeated(kind, ds)| :: Repeated(kind, ds)[i].index < Repeated(kind, ds)[j].index
  {
    if ds != [] {
      var n := |ds| - 1;
      var init := ds[..n];
      RepeatedAreRepeats(kind, init);
      forall d ensures d in Repeated(kind, ds) <==> Repeats(kind, ds, d) {
        if d.index < n {
          assert Repeats(kind, ds, d) <==> Repeats(kind, init, d);
        } else if Repeats(kind, ds, d) {
          assert LastNamed(init, d.name) == Some(d.first);
        }
      }
      forall i, j | 0 <= i < j < |Repeated(kind, ds)| ensures Repeated(kind, ds)[i].index < Repeated(kind, ds)[j].index {
        if i < |Repeated(kind, init)| {
          assert Repeated(kind, init)[i] in Repeated(kind, init);
        }
      }
    }
  }

  lemma {:induction false} RepeatedIffNotDistinct(kind: string, ds: seq<Declaration>)
    ensures Repeated(kind, ds) == [] <==> DistinctNames(ds)
  {
    RepeatedAreRepeats(kind, ds);
    if Repeated(kind, ds) != [] {
      assert Repeats(kind, ds, Repeated(kind, ds)[0]);
    }
    if !DistinctNames(ds) {
      var i, j :| 0 <= i < j < |ds| && ds[i].name == ds[j].name;
      var first := LastNamed(ds[..j], ds[j].name).value;
      assert Repeats(kind, ds, Duplicate(kind, ds[j].name, j, first));
    }
  }

  /** A contract is refused exactly when some kind declares one name twice, inline schemas included. */
  lemma DuplicatesIffNotDistinct(c: Contract)
    ensures Duplicates(c) == [] <==> NoDuplicates(c)
  {
    RepeatedIffNotDistinct(POLICY, c.policies);
    RepeatedIffNotDistinct(CONFIG, c.configurations);
  }

  // ---- a (kind, name) names one declaration ----------------------------------

  lemma {:induction false} ReferringComesFrom(kind: string, ds: seq<Declaration>, r: ReferenceRef)
    requires r in Referring(kind, ds)
    ensures r.kind == kind
    ensures exists k :: 0 <= k < |ds| && ds[k] == Declaration(r.name, r.ref)
  {
    var l := |ds| - 1;
    if r in Referring(kind, ds[..l]) {
      ReferringComesFrom(kind, ds[..l], r);
      var k :| 0 <= k < l && ds[..l][k] == Declaration(r.name, r.ref);
      assert ds[k] == Declaration(r.name, r.ref);
    } else {
      assert ds[l] == Declaration(r.name, r.ref);
    }
  }

  /** In a contract without duplicates, a kind and a name are one reference. */
  lemma OneDeclaration(c: Contract, i: nat, j: nat)
    requires NoDuplicates(c)
    requires i < |References(c)| && j < |References(c)|
    requires References(c)[i].kind == References(c)[j].kind && References(c)[i].name == References(c)[j].name
    ensures References(c)[i] == References(c)[j]
  {
    var a, b := References(c)[i], References(c)[j];
    forall r | r in References(c)
      ensures r.kind == POLICY || r.kind == CONFIG
      ensures var ds := if r.kind == POLICY then c.policies else c.configurations;
              exists k :: 0 <= k < |ds| && ds[k] == Declaration(r.name, r.ref)
    {
      if r in Referring(POLICY, c.policies) {
        ReferringComesFrom(POLICY, c.policies, r);
      } else {
        ReferringComesFrom(CONFIG, c.configurations, r);
      }
    }
    assert a in References(c) && b in References(c);
    var ds := if a.kind == POLICY then c.policies else c.configurations;
    var k :| 0 <= k < |ds| && ds[k] == Declaration(a.name, a.ref);
    var l :| 0 <= l < |ds| && ds[l] == Declaration(b.name, b.ref);
    assert k == l;
  }
}
