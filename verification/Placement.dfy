// VPC placement inherited from the components a handler is bound to. Neither the order of
// the link graph's edges nor the order of the components may show in the result.
module Placement {
  import opened Blueprint
  import opened Ordering
  import opened Sequences
  import opened SelectorKeys
  import opened Absorption

  datatype Edge = Edge(source: string, sourceType: string, target: string, selectorKeys: seq<string>)

  const VPC_TYPE := "celerity/vpc"

  // An API, consumer or schedule the handler is bound to, with its cascading annotations,
  // empty when absent.
  datatype Component = Component(name: string, subnetType: string, egress: string)

  datatype InheritedPlacement = InheritedPlacement(
    vpc: string,
    parent: string,
    subnetType: string,
    egress: string,
    labels: LabelMap
  )

  function PlacementsFrom(c: Component, graph: seq<Edge>): seq<InheritedPlacement> {
    if graph == [] then []
    else
      var e := graph[|graph| - 1];
      PlacementsFrom(c, graph[..|graph| - 1]) +
      if e.target == c.name && e.sourceType == VPC_TYPE
      then [InheritedPlacement(e.source, c.name, c.subnetType, c.egress, ParseAll(e.selectorKeys))] else []
  }

  function Placements(components: seq<Component>, graph: seq<Edge>): seq<InheritedPlacement> {
    if components == [] then []
    else
      var n := |components| - 1;
      Placements(components[..n], graph) + PlacementsFrom(components[n], graph)
  }

  predicate PlacedBy(p: InheritedPlacement, c: Component, e: Edge) {
    && e.target == c.name && e.sourceType == VPC_TYPE
    && p == InheritedPlacement(e.source, c.name, c.subnetType, c.egress, ParseAll(e.selectorKeys))
  }

  ghost predicate PlacedAmong(p: InheritedPlacement, components: seq<Component>, graph: seq<Edge>) {
    exists c, e :: c in components && e in graph && PlacedBy(p, c, e)
  }

  lemma {:induction false} PlacementsFromMembers(c: Component, graph: seq<Edge>, p: InheritedPlacement)
    ensures p in PlacementsFrom(c, graph) <==> exists e :: e in graph && PlacedBy(p, c, e)
  {
    if graph != [] {
      var n := |graph| - 1;
      PlacementsFromMembers(c, graph[..n], p);
      assert graph == graph[..n] + [graph[n]];
      assert graph[n] in graph;
    }
  }

  lemma {:induction false} PlacementMembers(components: seq<Component>, graph: seq<Edge>, p: InheritedPlacement)
    ensures p in Placements(components, graph) <==> PlacedAmong(p, components, graph)
  {
    if components != [] {
      var n := |components| - 1;
      PlacementMembers(components[..n], graph, p);
      PlacementsFromMembers(components[n], graph, p);
      assert components == components[..n] + [components[n]];
    }
  }

  // A component is placed by each link from a VPC to it, with its own subnet type and reach
  // and the labels of the link.
  lemma PlacementsExact(components: seq<Component>, graph: seq<Edge>, p: InheritedPlacement)
    ensures p in Placements(components, graph) <==>
            exists c, e :: c in components && e in graph && PlacesAs(p, c, e)
  {
    PlacementMembers(components, graph, p);
    forall c, e ensures PlacesAs(p, c, e) <==> PlacedBy(p, c, e) { }
  }

  predicate PlacesAs(p: InheritedPlacement, c: Component, e: Edge) {
    && e.target == c.name && e.sourceType == "celerity/vpc" && p.vpc == e.source && p.parent == c.name
    && p.subnetType == c.subnetType && p.egress == c.egress && p.labels == ParseAll(e.selectorKeys)
  }

  predicate ByParent(p: InheritedPlacement, q: InheritedPlacement) {
    LexLe(p.parent, q.parent)
  }

  // Two components name different VPCs, or one names two.
  predicate Conflicting(ps: seq<InheritedPlacement>) {
    exists p, q :: p in ps && q in ps && p.vpc != q.vpc
  }

  predicate First(p: InheritedPlacement, ps: seq<InheritedPlacement>) {
    p in ps && forall q :: q in ps ==> LexLe(p.parent, q.parent)
  }

  function VpcOf(p: InheritedPlacement): string {
    p.vpc
  }

  method ConflictingPlacements(ps: seq<InheritedPlacement>) returns (conflict: bool)
    ensures conflict <==> Conflicting(ps)
  {
    var sources: set<string> := {};
    for i := 0 to |ps|
      invariant IsImage(sources, ps[..i], VpcOf)
    {
      ImageExtends(sources, ps, i, VpcOf);
      sources := sources + {VpcOf(ps[i])};
    }
    assert ps[..|ps|] == ps;
    ImageHasTwo(sources, ps, VpcOf);
    conflict := |sources| >= 2;
    if Conflicting(ps) {
      var p, q :| p in ps && q in ps && p.vpc != q.vpc;
      assert VpcOf(p) != VpcOf(q);
    }
  }

  // Sorting promises nothing about placements with the same parent.
  method SortPlacements(ps: seq<InheritedPlacement>) returns (sorted: seq<InheritedPlacement>)
    ensures SortedBy(sorted, ByParent) && multiset(sorted) == multiset(ps)
  {
    sorted := Sort(ps, ByParent);
    ByParentPreorder();
    SortSorted(ps, ByParent);
  }

  lemma ByParentPreorder()
    ensures Preorder(ByParent)
  {
    LexPreorder();
  }

  class Target {
    var vpc: Option<string>
    var inheritedFrom: string
    var subnetType: string
    var egress: string
    var labels: LabelMap

    constructor (direct: Option<string>)
      ensures vpc == direct && inheritedFrom == "" && subnetType == "" && egress == "" && labels == map[]
    {
      vpc, inheritedFrom, subnetType, egress, labels := direct, "", "", "", map[];
    }

    ghost predicate Inherits(p: InheritedPlacement)
      reads this
    {
      vpc == Some(p.vpc) && inheritedFrom == p.parent && subnetType == p.subnetType
      && egress == p.egress && labels == p.labels
    }

    method CollectPlacements(components: seq<Component>, graph: seq<Edge>) returns (ps: seq<InheritedPlacement>)
      ensures ps == Placements(components, graph)
    {
      ps := [];
      for i := 0 to |components|
        invariant ps == Placements(components[..i], graph)
      {
        assert components[..i + 1][..i] == components[..i];
        var c := components[i];
        ghost var before := ps;
        for j := 0 to |graph|
          invariant ps == before + PlacementsFrom(c, graph[..j])
        {
          assert graph[..j + 1][..j] == graph[..j];
          var e := graph[j];
          if e.target == c.name && e.sourceType == VPC_TYPE {
            var labels := SelectorLabels(e.selectorKeys);
            ps := ps + [InheritedPlacement(e.source, c.name, c.subnetType, c.egress, labels)];
          }
        }
        assert graph[..|graph|] == graph;
      }
      assert components[..|components|] == components;
    }

    // A direct link wins; conflicting placements are an error; otherwise the placement of
    // the first component by name is taken over.
    method ResolveInherited(components: seq<Component>, graph: seq<Edge>) returns (ok: bool)
      modifies this
      ensures ok <==> old(vpc).Some? || !Conflicting(Placements(components, graph))
      ensures !ok || old(vpc).Some? || Placements(components, graph) == [] ==>
                vpc == old(vpc) && inheritedFrom == old(inheritedFrom) && subnetType == old(subnetType)
                && egress == old(egress) && labels == old(labels)
      ensures ok && old(vpc).None? && Placements(components, graph) != [] ==>
                exists p :: First(p, Placements(components, graph)) && Inherits(p)
    {
      if vpc.Some? {
        return true;
      }
      var ps := CollectPlacements(components, graph);
      if ps == [] {
        return true;
      }
      var sorted := SortPlacements(ps);
      SameMembers(sorted, ps);
      var conflict := ConflictingPlacements(sorted);
      assert Conflicting(sorted) <==> Conflicting(ps);
      if conflict {
        return false;
      }
      var p := sorted[0];
      vpc, inheritedFrom, subnetType, egress, labels := Some(p.vpc), p.parent, p.subnetType, p.egress, p.labels;
      ok := true;
      assert First(p, ps) by {
        LexPreorder();
        forall q | q in ps ensures LexLe(p.parent, q.parent) {
          var j :| 0 <= j < |sorted| && sorted[j] == q;
          assert j == 0 || ByParent(sorted[0], sorted[j]);
        }
        assert p in sorted;
      }
      assert Inherits(p);
    }
  }

  // Component names are unique and each is placed by at most one VPC.
  ghost predicate PlacedOnce(components: seq<Component>, graph: seq<Edge>) {
    (forall c, d :: c in components && d in components && c.name == d.name ==> c == d) &&
    (forall d, e :: d in graph && e in graph && d.sourceType == VPC_TYPE && e.sourceType == VPC_TYPE && d.target == e.target ==> d == e)
  }

  // The choice and the conflict do not depend on the order of components or edges.
  lemma PlacementDeterministic(components: seq<Component>, graph: seq<Edge>, components': seq<Component>, graph': seq<Edge>,
                               p: InheritedPlacement, q: InheritedPlacement)
    requires multiset(components) == multiset(components') && multiset(graph) == multiset(graph')
    ensures Conflicting(Placements(components, graph)) <==> Conflicting(Placements(components', graph'))
    ensures PlacedOnce(components, graph) && First(p, Placements(components, graph)) && First(q, Placements(components', graph')) ==>
              p == q
  {
    SameMembers(components, components');
    SameMembers(graph, graph');
    var ps, qs := Placements(components, graph), Placements(components', graph');
    forall r ensures r in ps <==> r in qs {
      PlacementMembers(components, graph, r);
      PlacementMembers(components', graph', r);
      SameSourcesSamePlacements(components, graph, components', graph', r);
    }
    if PlacedOnce(components, graph) && First(p, ps) && First(q, qs) {
      LexAntisymmetric(p.parent, q.parent);
      PlacementMembers(components, graph, p);
      PlacementMembers(components, graph, q);
    }
  }

  lemma SameSourcesSamePlacements(components: seq<Component>, graph: seq<Edge>, components': seq<Component>, graph': seq<Edge>,
                                  r: InheritedPlacement)
    requires forall c :: c in components <==> c in components'
    requires forall e :: e in graph <==> e in graph'
    ensures PlacedAmong(r, components, graph) <==> PlacedAmong(r, components', graph')
  {
  }

  // The error arises exactly when two links into the handler's components come from
  // different VPCs.
  lemma ConflictNeedsTwoVpcs(components: seq<Component>, graph: seq<Edge>)
    ensures Conflicting(Placements(components, graph)) <==>
            exists c, d, e, f :: c in components && e in components && d in graph && f in graph
              && d.target == c.name && d.sourceType == VPC_TYPE && f.target == e.name && f.sourceType == VPC_TYPE
              && d.source != f.source
  {
    var ps := Placements(components, graph);
    if Conflicting(ps) {
      var p, q :| p in ps && q in ps && p.vpc != q.vpc;
      PlacementMembers(components, graph, p);
      PlacementMembers(components, graph, q);
    }
    forall c, d, e, f | c in components && e in components && d in graph && f in graph
      && d.target == c.name && d.sourceType == VPC_TYPE && f.target == e.name && f.sourceType == VPC_TYPE
      && d.source != f.source
      ensures Conflicting(ps)
    {
      var p := InheritedPlacement(d.source, c.name, c.subnetType, c.egress, ParseAll(d.selectorKeys));
      var q := InheritedPlacement(f.source, e.name, e.subnetType, e.egress, ParseAll(f.selectorKeys));
      assert PlacedBy(p, c, d) && PlacedBy(q, e, f);
      PlacementMembers(components, graph, p);
      PlacementMembers(components, graph, q);
      assert p.vpc != q.vpc;
    }
  }

  // The selector of the VPC a handler inherits selects its function: the edge's keys print
  // labels of that selector, and they are carried onto the function.
  lemma InheritedVpcSelectsFunction(h: ResolvedHandler, e: Edge, vpcSelector: LabelMap, key: string)
    requires h.inheritedLabels == ParseAll(e.selectorKeys)
    requires forall i :: 0 <= i < |e.selectorKeys| ==>
               exists k :: k in vpcSelector && e.selectorKeys[i] == PrintKey(k, vpcSelector[k]) && PrintableKey(k)
    requires PrintableKey(key) && !Internal(key) && key in vpcSelector && PrintKey(key, vpcSelector[key]) in e.selectorKeys
    ensures Selects(vpcSelector, EmittedLabels(h))
  {
    var i :| 0 <= i < |e.selectorKeys| && e.selectorKeys[i] == PrintKey(key, vpcSelector[key]);
    PrintedKeyParses(key, vpcSelector[key]);
    KeyGivesLabel(e.selectorKeys, i);
    forall k | k in h.inheritedLabels ensures k in vpcSelector && vpcSelector[k] == h.inheritedLabels[k] {
      ParsedLabelHasKey(e.selectorKeys, k);
      var j :| 0 <= j < |e.selectorKeys| && ParseKey(e.selectorKeys[j]) == Some((k, h.inheritedLabels[k]));
      var m :| m in vpcSelector && e.selectorKeys[j] == PrintKey(m, vpcSelector[m]) && PrintableKey(m);
      PrintedKeyParses(m, vpcSelector[m]);
    }
    InheritedPlacementEffective(h, vpcSelector, key);
  }
}
