// Execution roles. Links put their grants into whichever role a function references, so
// handlers may share one only when they need the same permissions.
module Roles {
  import opened Blueprint
  import opened Text
  import opened Ordering
  import opened Sequences
  import opened Grants
  import opened RolePlans

  // What role collection reads of a handler: its name and its memoised plan.
  datatype PlannedHandler = PlannedHandler(name: string, plan: RolePlan)

  // Stands for the truncated hash of a plan.
  type Hash = RolePlan -> string

  datatype RoleParent = RoleParent(
    fingerprint: string,
    name: string,
    sourceHandler: string,
    sharedBy: seq<string>,
    plan: RolePlan
  )

  function RoleName(fingerprint: string): string {
    "celerityLambdaExec_" + fingerprint
  }

  lemma RoleNamesDiffer(f: string, g: string)
    ensures RoleName(f) == RoleName(g) <==> f == g
  {
    PrefixCancel("celerityLambdaExec_", f, g);
  }

  // The names of the handlers with a fingerprint, in order.
  function NamesWith(handlers: seq<PlannedHandler>, fp: Hash, f: string): seq<string> {
    FlatMap(handlers, NameIfWith(fp, f))
  }

  function NameIfWith(fp: Hash, f: string): PlannedHandler -> seq<string> {
    (h: PlannedHandler) => if fp(h.plan) == f then [h.name] else []
  }

  predicate FirstWith(handlers: seq<PlannedHandler>, fp: Hash, f: string, k: nat) {
    k < |handlers| && fp(handlers[k].plan) == f && forall j :: 0 <= j < k ==> fp(handlers[j].plan) != f
  }

  // The role of a fingerprint: seeded from its first handler, annotated with all of them.
  ghost predicate RoleFor(role: RoleParent, handlers: seq<PlannedHandler>, fp: Hash) {
    && role.name == RoleName(role.fingerprint)
    && role.sharedBy == Sort(NamesWith(handlers, fp, role.fingerprint), LexLe)
    && Seeded(handlers, fp, role.fingerprint, role.plan, role.sourceHandler)
  }

  // The plan and name are those of the first handler with the fingerprint.
  ghost predicate Seeded(handlers: seq<PlannedHandler>, fp: Hash, f: string, plan: RolePlan, name: string) {
    exists k: nat :: FirstWith(handlers, fp, f, k) && plan == handlers[k].plan && name == handlers[k].name
  }

  ghost predicate HasRole(roles: seq<RoleParent>, f: string) {
    exists i :: 0 <= i < |roles| && roles[i].fingerprint == f
  }

  ghost predicate RolesOf(roles: seq<RoleParent>, handlers: seq<PlannedHandler>, fp: Hash) {
    && (forall i, j :: 0 <= i < j < |roles| ==> roles[i].fingerprint != roles[j].fingerprint)
    && (forall i :: 0 <= i < |roles| ==> RoleFor(roles[i], handlers, fp))
    && (forall h :: h in handlers ==> HasRole(roles, fp(h.plan)))
  }

  // The maps the collection fills in, over the handlers seen so far.
  datatype Groups = Groups(
    order: seq<string>,
    plans: map<string, RolePlan>,
    first: map<string, string>,
    sharers: map<string, seq<string>>
  )

  // What the maps hold for one fingerprint.
  ghost predicate GroupOk(g: Groups, handlers: seq<PlannedHandler>, fp: Hash, f: string) {
    if f in g.plans then
      && f in g.first && f in g.sharers
      && Seeded(handlers, fp, f, g.plans[f], g.first[f])
      && g.sharers[f] == NamesWith(handlers, fp, f)
    else f !in g.sharers && NamesWith(handlers, fp, f) == []
  }

  ghost predicate OrderOk(g: Groups) {
    && (forall f :: f in g.order <==> f in g.plans)
    && (forall j, k :: 0 <= j < k < |g.order| ==> g.order[j] != g.order[k])
  }

  ghost predicate Grouped(g: Groups, handlers: seq<PlannedHandler>, fp: Hash) {
    && OrderOk(g)
    && (forall f :: GroupOk(g, handlers, fp, f))
    && (forall h :: h in handlers ==> fp(h.plan) in g.plans)
  }

  lemma SeededLonger(handlers: seq<PlannedHandler>, h: PlannedHandler, fp: Hash, f: string, plan: RolePlan, name: string)
    requires Seeded(handlers, fp, f, plan, name)
    ensures Seeded(handlers + [h], fp, f, plan, name)
  {
    var k: nat :| FirstWith(handlers, fp, f, k) && plan == handlers[k].plan && name == handlers[k].name;
    assert (handlers + [h])[k] == handlers[k];
    assert FirstWith(handlers + [h], fp, f, k);
  }

  lemma NamesWithLast(handlers: seq<PlannedHandler>, h: PlannedHandler, fp: Hash, f: string)
    ensures NamesWith(handlers + [h], fp, f) ==
            if fp(h.plan) == f then NamesWith(handlers, fp, f) + [h.name] else NamesWith(handlers, fp, f)
  {
    assert (handlers + [h])[..|handlers|] == handlers;
  }

  // Appending to an absent list starts one.
  function SharersOf(g: Groups, f: string): seq<string> {
    if f in g.sharers then g.sharers[f] else []
  }

  function AddToGroups(g: Groups, h: PlannedHandler, f: string): Groups {
    var sharers := g.sharers[f := SharersOf(g, f) + [h.name]];
    if f in g.plans then g.(sharers := sharers)
    else Groups(g.order + [f], g.plans[f := h.plan], g.first[f := h.name], sharers)
  }

  lemma AddKeepsGroup(g: Groups, handlers: seq<PlannedHandler>, h: PlannedHandler, fp: Hash, e: string)
    requires GroupOk(g, handlers, fp, fp(h.plan)) && GroupOk(g, handlers, fp, e)
    requires forall k :: k in handlers ==> fp(k.plan) in g.plans
    ensures GroupOk(AddToGroups(g, h, fp(h.plan)), handlers + [h], fp, e)
  {
    NamesWithLast(handlers, h, fp, e);
    if e in g.plans {
      SeededLonger(handlers, h, fp, e, g.plans[e], g.first[e]);
    } else if e == fp(h.plan) {
      var all := handlers + [h];
      assert all[|handlers|] == h;
      assert forall j :: 0 <= j < |handlers| ==> all[j] == handlers[j] && handlers[j] in handlers;
      assert FirstWith(all, fp, e, |handlers|);
    }
  }

  lemma AddKeepsGrouped(g: Groups, handlers: seq<PlannedHandler>, h: PlannedHandler, fp: Hash)
    requires Grouped(g, handlers, fp)
    ensures Grouped(AddToGroups(g, h, fp(h.plan)), handlers + [h], fp)
  {
    assert GroupOk(g, handlers, fp, fp(h.plan));
    forall e ensures GroupOk(AddToGroups(g, h, fp(h.plan)), handlers + [h], fp, e) {
      AddKeepsGroup(g, handlers, h, fp, e);
    }
  }

  method CollectIamRoles(handlers: seq<PlannedHandler>, fp: Hash) returns (roles: seq<RoleParent>)
    ensures RolesOf(roles, handlers, fp)
  {
    var g := Groups([], map[], map[], map[]);
    for i := 0 to |handlers|
      invariant Grouped(g, handlers[..i], fp)
    {
      AddKeepsGrouped(g, handlers[..i], handlers[i], fp);
      assert handlers[..i] + [handlers[i]] == handlers[..i + 1];
      g := RecordHandler(g, handlers[i], fp(handlers[i].plan));
    }
    assert handlers[..|handlers|] == handlers;
    roles := EmitRoles(handlers, fp, g.order, g.plans, g.first, g.sharers);
  }

  // The body of the collection loop.
  method RecordHandler(g: Groups, h: PlannedHandler, f: string) returns (g': Groups)
    ensures g' == AddToGroups(g, h, f)
  {
    g' := g;
    if f !in g'.plans {
      g' := g'.(order := g'.order + [f]);
      g' := g'.(plans := g'.plans[f := h.plan]);
      g' := g'.(first := g'.first[f := h.name]);
    }
    g' := g'.(sharers := g'.sharers[f := SharersOf(g', f) + [h.name]]);
  }

  method EmitRoles(ghost handlers: seq<PlannedHandler>, ghost fp: Hash, fingerprints: seq<string>, plans: map<string, RolePlan>,
                   firstHandler: map<string, string>, sharers: map<string, seq<string>>) returns (roles: seq<RoleParent>)
    requires Grouped(Groups(fingerprints, plans, firstHandler, sharers), handlers, fp)
    ensures RolesOf(roles, handlers, fp)
  {
    roles := [];
    for i := 0 to |fingerprints|
      invariant |roles| == i
      invariant forall j :: 0 <= j < i ==> roles[j].fingerprint == fingerprints[j] && RoleFor(roles[j], handlers, fp)
    {
      var f := fingerprints[i];
      assert f in fingerprints;
      assert GroupOk(Groups(fingerprints, plans, firstHandler, sharers), handlers, fp, f);
      roles := roles + [RoleParent(f, RoleName(f), firstHandler[f], Sort(sharers[f], LexLe), plans[f])];
    }
    forall h | h in handlers ensures HasRole(roles, fp(h.plan)) {
      assert fp(h.plan) in fingerprints;
    }
  }

  // ---- Sharing ----

  // The truncated hash keeps the plans of these handlers apart.
  ghost predicate CollisionFree(handlers: seq<PlannedHandler>, fp: Hash) {
    forall h, k :: h in handlers && k in handlers && fp(h.plan) == fp(k.plan) ==> h.plan == k.plan
  }

  // The role a handler's function references.
  predicate References(h: PlannedHandler, fp: Hash, role: RoleParent) {
    role.name == RoleName(fp(h.plan))
  }

  // A function's role reference names exactly one emitted role.
  lemma RoleReferenceResolves(roles: seq<RoleParent>, handlers: seq<PlannedHandler>, fp: Hash, h: PlannedHandler)
    requires RolesOf(roles, handlers, fp) && h in handlers
    ensures exists i :: 0 <= i < |roles| && References(h, fp, roles[i])
    ensures forall i, j :: 0 <= i < |roles| && 0 <= j < |roles| ==>
              (References(h, fp, roles[i]) && References(h, fp, roles[j]) ==> i == j)
  {
    forall i | 0 <= i < |roles| ensures References(h, fp, roles[i]) <==> roles[i].fingerprint == fp(h.plan) {
      RoleNamesDiffer(roles[i].fingerprint, fp(h.plan));
      assert RoleFor(roles[i], handlers, fp);
    }
    assert HasRole(roles, fp(h.plan));
  }

  ghost predicate RolesFit(roles: seq<RoleParent>, handlers: seq<PlannedHandler>, fp: Hash) {
    forall i, h :: 0 <= i < |roles| && h in handlers && References(h, fp, roles[i]) ==> roles[i].plan == h.plan
  }

  lemma RoleHasSeed(role: RoleParent, handlers: seq<PlannedHandler>, fp: Hash) returns (h: PlannedHandler)
    requires RoleFor(role, handlers, fp)
    ensures h in handlers && fp(h.plan) == role.fingerprint && role.plan == h.plan && role.sourceHandler == h.name
    ensures fp(handlers[0].plan) == role.fingerprint ==> h == handlers[0]
  {
    var k: nat :| FirstWith(handlers, fp, role.fingerprint, k) && role.plan == handlers[k].plan
      && role.sourceHandler == handlers[k].name;
    h := handlers[k];
  }

  // Every function runs under a role with exactly its own permissions if and only if no two
  // different plans of the blueprint hash alike.
  lemma RolesFitIffCollisionFree(roles: seq<RoleParent>, handlers: seq<PlannedHandler>, fp: Hash)
    requires RolesOf(roles, handlers, fp)
    ensures RolesFit(roles, handlers, fp) <==> CollisionFree(handlers, fp)
  {
    if CollisionFree(handlers, fp) {
      forall i, h | 0 <= i < |roles| && h in handlers && References(h, fp, roles[i]) ensures roles[i].plan == h.plan {
        RoleNamesDiffer(roles[i].fingerprint, fp(h.plan));
        assert RoleFor(roles[i], handlers, fp);
        var seed := RoleHasSeed(roles[i], handlers, fp);
      }
    }
    if RolesFit(roles, handlers, fp) {
      forall h, k | h in handlers && k in handlers && fp(h.plan) == fp(k.plan) ensures h.plan == k.plan {
        RoleReferenceResolves(roles, handlers, fp, h);
        var i :| 0 <= i < |roles| && References(h, fp, roles[i]);
        assert References(k, fp, roles[i]);
      }
    }
  }

  lemma NamesWithMembers(handlers: seq<PlannedHandler>, fp: Hash, f: string, name: string)
    ensures name in NamesWith(handlers, fp, f) <==> exists h :: h in handlers && h.name == name && fp(h.plan) == f
  {
    FlatMapMember(handlers, NameIfWith(fp, f), name);
    if h :| h in handlers && h.name == name && fp(h.plan) == f {
      assert name in NameIfWith(fp, f)(h);
    }
  }

  ghost predicate DistinctNames(handlers: seq<PlannedHandler>) {
    forall i, j :: 0 <= i < j < |handlers| ==> handlers[i].name != handlers[j].name
  }

  lemma {:induction false} NamesWithOnce(handlers: seq<PlannedHandler>, fp: Hash, f: string, name: string)
    requires DistinctNames(handlers)
    ensures multiset(NamesWith(handlers, fp, f))[name] <= 1
  {
    if handlers != [] {
      var n := |handlers| - 1;
      NamesWithOnce(handlers[..n], fp, f, name);
      NamesWithMembers(handlers[..n], fp, f, name);
      var before := NamesWith(handlers[..n], fp, f);
      assert name in before <==> multiset(before)[name] > 0;
      if handlers[n].name == name {
        assert forall h :: h in handlers[..n] ==> h.name != name;
      }
    }
  }

  // The sharedBy lists partition the handlers: each is listed once, under its own role, and
  // nothing else is listed.
  lemma SharedByPartitions(roles: seq<RoleParent>, handlers: seq<PlannedHandler>, fp: Hash, h: PlannedHandler, i: nat)
    requires RolesOf(roles, handlers, fp) && DistinctNames(handlers) && h in handlers && i < |roles|
    ensures multiset(roles[i].sharedBy)[h.name] == if References(h, fp, roles[i]) then 1 else 0
    ensures forall name :: name in roles[i].sharedBy ==> exists k :: k in handlers && k.name == name
    ensures SortedBy(roles[i].sharedBy, LexLe)
  {
    assert RoleFor(roles[i], handlers, fp);
    SharedOnce(roles[i], handlers, fp, h);
    forall name | name in roles[i].sharedBy ensures exists k :: k in handlers && k.name == name {
      SharerIsAHandler(roles[i], handlers, fp, name);
    }
    LexPreorder();
    SortSorted(NamesWith(handlers, fp, roles[i].fingerprint), LexLe);
  }

  lemma SharedOnce(role: RoleParent, handlers: seq<PlannedHandler>, fp: Hash, h: PlannedHandler)
    requires RoleFor(role, handlers, fp) && DistinctNames(handlers) && h in handlers
    ensures multiset(role.sharedBy)[h.name] == if References(h, fp, role) then 1 else 0
  {
    var names := NamesWith(handlers, fp, role.fingerprint);
    RoleNamesDiffer(role.fingerprint, fp(h.plan));
    NamesWithMembers(handlers, fp, role.fingerprint, h.name);
    NamesWithOnce(handlers, fp, role.fingerprint, h.name);
    assert h.name in names <==> multiset(names)[h.name] > 0;
    if k :| k in handlers && k.name == h.name && fp(k.plan) == role.fingerprint {
      SameNameSameHandler(handlers, h, k);
    }
  }

  lemma SameNameSameHandler(handlers: seq<PlannedHandler>, h: PlannedHandler, k: PlannedHandler)
    requires DistinctNames(handlers) && h in handlers && k in handlers && h.name == k.name
    ensures h == k
  {
    var i := IndexOf(handlers, h);
    var j := IndexOf(handlers, k);
  }

  lemma SharerIsAHandler(role: RoleParent, handlers: seq<PlannedHandler>, fp: Hash, name: string)
    requires RoleFor(role, handlers, fp) && name in role.sharedBy
    ensures exists h :: h in handlers && h.name == name
  {
    SameMember(role.sharedBy, NamesWith(handlers, fp, role.fingerprint), name);
    NamesWithMembers(handlers, fp, role.fingerprint, name);
  }

  // The handlers arrive in map order; without a collision that order does not show in any
  // role's name, permissions or sharers.
  lemma RolesOrderIndependent(roles: seq<RoleParent>, handlers: seq<PlannedHandler>, roles': seq<RoleParent>,
                              handlers': seq<PlannedHandler>, fp: Hash, i: nat)
    requires RolesOf(roles, handlers, fp) && RolesOf(roles', handlers', fp)
    requires multiset(handlers) == multiset(handlers') && CollisionFree(handlers, fp) && i < |roles|
    ensures exists j :: 0 <= j < |roles'| && roles'[j].name == roles[i].name
              && roles'[j].plan == roles[i].plan && roles'[j].sharedBy == roles[i].sharedBy
  {
    SameMembers(handlers, handlers');
    assert RoleFor(roles[i], handlers, fp);
    var seed := RoleHasSeed(roles[i], handlers, fp);
    var f := fp(seed.plan);
    assert HasRole(roles', f);
    var j :| 0 <= j < |roles'| && roles'[j].fingerprint == f;
    assert RoleFor(roles'[j], handlers', fp);
    var seed' := RoleHasSeed(roles'[j], handlers', fp);
    FlatMapPermutes(handlers, handlers', NameIfWith(fp, f));
    SortStringsCanonical(NamesWith(handlers, fp, f), NamesWith(handlers', fp, f));
  }

  // ---- The source annotation ----

  // The one part of a role that follows the order is the annotation naming a source
  // handler: with two handlers of equal plans, swapping them changes it.
  lemma SourceAnnotationFollowsOrder(h: PlannedHandler, k: PlannedHandler, fp: Hash, role: RoleParent, role': RoleParent)
    requires h.plan == k.plan && h.name != k.name
    requires RoleFor(role, [h, k], fp) && RoleFor(role', [k, h], fp)
    requires role.fingerprint == role'.fingerprint
    ensures role.sourceHandler == h.name && role'.sourceHandler == k.name && role.sourceHandler != role'.sourceHandler
  {
    var seed := RoleHasSeed(role, [h, k], fp);
    var seed' := RoleHasSeed(role', [k, h], fp);
  }

  // The role of the fingerprint among those collected from the handlers in another order.
  ghost predicate RoleAfter(handlers: seq<PlannedHandler>, fp: Hash, f: string, handlers': seq<PlannedHandler>, roles': seq<RoleParent>, j: nat) {
    multiset(handlers') == multiset(handlers) && RolesOf(roles', handlers', fp) && j < |roles'| && roles'[j].fingerprint == f
  }

  // Whatever order the handlers come in, the role of the fingerprint names this source.
  ghost predicate SourceIsAlways(handlers: seq<PlannedHandler>, fp: Hash, f: string, source: string) {
    forall handlers': seq<PlannedHandler>, roles': seq<RoleParent>, j: nat ::
      RoleAfter(handlers, fp, f, handlers', roles', j) ==> roles'[j].sourceHandler == source
  }

  // The annotation of a role is stable exactly when one handler uses the role.
  lemma SourceAnnotationStableIff(roles: seq<RoleParent>, handlers: seq<PlannedHandler>, fp: Hash, i: nat)
    requires RolesOf(roles, handlers, fp) && DistinctNames(handlers) && i < |roles|
    ensures SourceIsAlways(handlers, fp, roles[i].fingerprint, roles[i].sourceHandler) <==> |roles[i].sharedBy| == 1
  {
    assert RoleFor(roles[i], handlers, fp);
    SharersCounted(roles[i], handlers, fp);
    if |roles[i].sharedBy| == 1 {
      forall handlers': seq<PlannedHandler>, roles': seq<RoleParent>, j: nat
        | RoleAfter(handlers, fp, roles[i].fingerprint, handlers', roles', j)
        ensures roles'[j].sourceHandler == roles[i].sourceHandler
      {
        SoleSharerIsSource(roles[i], handlers, fp, handlers', roles', j);
      }
    } else {
      var handlers', roles' := OtherSharerFirst(roles, handlers, fp, i);
    }
  }

  lemma SharersCounted(role: RoleParent, handlers: seq<PlannedHandler>, fp: Hash)
    requires RoleFor(role, handlers, fp)
    ensures |role.sharedBy| == |NamesWith(handlers, fp, role.fingerprint)|
  {
    SameMembers(role.sharedBy, NamesWith(handlers, fp, role.fingerprint));
  }

  lemma SoleSharerIsSource(role: RoleParent, handlers: seq<PlannedHandler>, fp: Hash,
                           handlers': seq<PlannedHandler>, roles': seq<RoleParent>, j: nat)
    requires RoleFor(role, handlers, fp) && |NamesWith(handlers, fp, role.fingerprint)| == 1
    requires RoleAfter(handlers, fp, role.fingerprint, handlers', roles', j)
    ensures roles'[j].sourceHandler == role.sourceHandler
  {
    assert RoleFor(roles'[j], handlers', fp);
    var seed := RoleHasSeed(role, handlers, fp);
    var seed' := RoleHasSeed(roles'[j], handlers', fp);
    SameMember(handlers', handlers, seed');
    NamesWithMembers(handlers, fp, role.fingerprint, seed.name);
    NamesWithMembers(handlers, fp, role.fingerprint, seed'.name);
    OnlyOne(NamesWith(handlers, fp, role.fingerprint), seed.name, seed'.name);
  }

  lemma OnlyOne<T>(s: seq<T>, x: T, y: T)
    requires |s| == 1 && x in s && y in s
    ensures x == y
  {
  }

  // Moving a sharer the annotation does not name to the front makes it the source.
  lemma OtherSharerFirst(roles: seq<RoleParent>, handlers: seq<PlannedHandler>, fp: Hash, i: nat)
    returns (handlers': seq<PlannedHandler>, roles': seq<RoleParent>)
    requires RolesOf(roles, handlers, fp) && DistinctNames(handlers) && i < |roles| && |roles[i].sharedBy| != 1
    ensures RoleAfter(handlers, fp, roles[i].fingerprint, handlers', roles', i)
    ensures roles'[i].sourceHandler != roles[i].sourceHandler
  {
    assert RoleFor(roles[i], handlers, fp);
    SharersCounted(roles[i], handlers, fp);
    var h := OtherSharer(roles[i], handlers, fp);
    var k := IndexOf(handlers, h);
    handlers' := [h] + Without(handlers, k);
    WithoutRestored(handlers, k);
    roles' := RolesAfterReorder(roles, handlers, handlers', fp);
    assert roles'[i].fingerprint == roles[i].fingerprint && RoleFor(roles'[i], handlers', fp);
    var seed := RoleHasSeed(roles'[i], handlers', fp);
    assert handlers'[0] == h;
  }

  // A role that several handlers share has a sharer the annotation does not name.
  lemma OtherSharer(role: RoleParent, handlers: seq<PlannedHandler>, fp: Hash) returns (h: PlannedHandler)
    requires RoleFor(role, handlers, fp) && DistinctNames(handlers)
    requires |NamesWith(handlers, fp, role.fingerprint)| != 1
    ensures h in handlers && fp(h.plan) == role.fingerprint && h.name != role.sourceHandler
  {
    var f := role.fingerprint;
    var names := NamesWith(handlers, fp, f);
    var seed := RoleHasSeed(role, handlers, fp);
    NamesWithMembers(handlers, fp, f, seed.name);
    NamesWithOnce(handlers, fp, f, names[0]);
    var name := AnotherName(names, role.sourceHandler);
    NamesWithMembers(handlers, fp, f, name);
    h :| h in handlers && h.name == name && fp(h.plan) == f;
  }

  lemma AnotherName(names: seq<string>, source: string) returns (name: string)
    requires |names| >= 2 && multiset(names)[names[0]] == 1
    ensures name in names && name != source
  {
    assert names == [names[0], names[1]] + names[2..];
    name := if names[0] == source then names[1] else names[0];
  }

  lemma FirstExists(handlers: seq<PlannedHandler>, fp: Hash, f: string, k: nat) returns (first: nat)
    requires k < |handlers| && fp(handlers[k].plan) == f
    ensures FirstWith(handlers, fp, f, first)
  {
    if j: nat :| j < k && fp(handlers[j].plan) == f {
      first := FirstExists(handlers, fp, f, j);
    } else {
      first := k;
    }
  }

  // The roles of reordered handlers, fingerprint by fingerprint.
  lemma {:induction false} RolesAfterReorder(roles: seq<RoleParent>, handlers: seq<PlannedHandler>, handlers': seq<PlannedHandler>, fp: Hash)
    returns (roles': seq<RoleParent>)
    requires RolesOf(roles, handlers, fp) && multiset(handlers') == multiset(handlers)
    ensures RolesOf(roles', handlers', fp) && |roles'| == |roles|
    ensures forall j :: 0 <= j < |roles| ==> roles'[j].fingerprint == roles[j].fingerprint
  {
    roles' := EachReordered(roles, handlers, handlers', fp);
    forall j | 0 <= j < |roles| ensures roles'[j].fingerprint == roles[j].fingerprint && RoleFor(roles'[j], handlers', fp) {
      assert Reordered(roles[j], roles'[j], handlers', fp);
    }
    forall h | h in handlers' ensures HasRole(roles', fp(h.plan)) {
      SameMember(handlers', handlers, h);
      assert HasRole(roles, fp(h.plan));
      SameFingerprints(roles, roles', fp(h.plan));
    }
  }

  ghost predicate Reordered(role: RoleParent, role': RoleParent, handlers': seq<PlannedHandler>, fp: Hash) {
    role'.fingerprint == role.fingerprint && RoleFor(role', handlers', fp)
  }

  lemma {:induction false} EachReordered(roles: seq<RoleParent>, handlers: seq<PlannedHandler>, handlers': seq<PlannedHandler>, fp: Hash)
    returns (roles': seq<RoleParent>)
    requires (forall j :: 0 <= j < |roles| ==> RoleFor(roles[j], handlers, fp)) && multiset(handlers') == multiset(handlers)
    ensures |roles'| == |roles| && forall j :: 0 <= j < |roles| ==> Reordered(roles[j], roles'[j], handlers', fp)
  {
    if roles == [] {
      roles' := [];
    } else {
      var n := |roles| - 1;
      var before := EachReordered(roles[..n], handlers, handlers', fp);
      var role := ReorderedRole(roles[n], handlers, handlers', fp);
      assert Reordered(roles[n], role, handlers', fp);
      roles' := before + [role];
      forall j | 0 <= j < |roles| ensures Reordered(roles[j], roles'[j], handlers', fp) {
        assert j < n ==> Reordered(roles[..n][j], before[j], handlers', fp);
      }
    }
  }

  lemma SameFingerprints(roles: seq<RoleParent>, roles': seq<RoleParent>, f: string)
    requires HasRole(roles, f) && |roles'| == |roles|
    requires forall j :: 0 <= j < |roles| ==> roles'[j].fingerprint == roles[j].fingerprint
    ensures HasRole(roles', f)
  {
    var j :| 0 <= j < |roles| && roles[j].fingerprint == f;
    assert roles'[j].fingerprint == f;
  }

  lemma ReorderedRole(role: RoleParent, handlers: seq<PlannedHandler>, handlers': seq<PlannedHandler>, fp: Hash) returns (role': RoleParent)
    requires RoleFor(role, handlers, fp) && multiset(handlers') == multiset(handlers)
    ensures RoleFor(role', handlers', fp) && role'.fingerprint == role.fingerprint
  {
    var f := role.fingerprint;
    var seed := RoleHasSeed(role, handlers, fp);
    SameMember(handlers', handlers, seed);
    var k := IndexOf(handlers', seed);
    var first := FirstExists(handlers', fp, f, k);
    role' := RoleParent(f, RoleName(f), handlers'[first].name, Sort(NamesWith(handlers', fp, f), LexLe), handlers'[first].plan);
    assert Seeded(handlers', fp, f, role'.plan, role'.sourceHandler);
  }

  // ---- Over the handlers of a blueprint ----

  function PlanOf(h: ResolvedHandler): PlannedHandler {
    PlannedHandler(h.name, Plan(h))
  }

  lemma NextPlan(handlers: seq<ResolvedHandler>, i: nat)
    requires i < |handlers|
    ensures Map(handlers[..i + 1], PlanOf) == Map(handlers[..i], PlanOf) + [PlannedHandler(handlers[i].name, Plan(handlers[i]))]
  {
    assert handlers[..i + 1][..i] == handlers[..i];
  }

  method CollectHandlerRoles(handlers: seq<ResolvedHandler>, fp: Hash) returns (roles: seq<RoleParent>)
    ensures RolesOf(roles, Map(handlers, PlanOf), fp)
  {
    var planned: seq<PlannedHandler> := [];
    for i := 0 to |handlers|
      invariant planned == Map(handlers[..i], PlanOf)
    {
      NextPlan(handlers, i);
      var plan := BuildRolePlan(handlers[i]);
      planned := planned + [PlannedHandler(handlers[i].name, plan)];
    }
    assert handlers[..|handlers|] == handlers;
    roles := CollectIamRoles(planned, fp);
  }

  // Two handlers share a role exactly when they need the same permissions, whatever order
  // the link graph gives their links in.
  lemma SharedRoleIffSamePermissions(handlers: seq<ResolvedHandler>, fp: Hash, h: ResolvedHandler, k: ResolvedHandler)
    requires h in handlers && k in handlers && CollisionFree(Map(handlers, PlanOf), fp)
    ensures RoleName(fp(Plan(h))) == RoleName(fp(Plan(k))) <==> SamePermissions(h, k)
  {
    MapMember(handlers, PlanOf, PlanOf(h));
    MapMember(handlers, PlanOf, PlanOf(k));
    PlansEqualIffSamePermissions(h, k);
    RoleNamesDiffer(fp(Plan(h)), fp(Plan(k)));
  }

  // The policy allows each action a poller needs on exactly the sources the emitted mappings
  // poll.
  ghost predicate AllowsWhatIsPolled(policies: seq<Policy>, bindings: seq<ConsumerBinding>) {
    forall action, arn ::
      Allows(policies, action, arn) <==>
      arn != "" && exists service :: Polled(bindings, Mapping(Some(service), arn)) && NeedsAction(service, action)
  }

  ghost predicate AllowsPolling(policies: seq<Policy>, m: Mapping) {
    m.service.Some? && forall action :: NeedsAction(m.service.value, action) ==> Allows(policies, action, m.arn)
  }

  ghost predicate AllowsPollers(policies: seq<Policy>, bindings: seq<ConsumerBinding>) {
    forall m :: Polled(bindings, m) && m.arn != "" ==> AllowsPolling(policies, m)
  }

  // Through the policies of its role, which others may share, a handler may do whatever a
  // poller of its emitted mappings needs to do; and it may do no more to any source exactly
  // when every source it declares keeps a mapping name.
  lemma GrantsMatchPollers(roles: seq<RoleParent>, handlers: seq<ResolvedHandler>, fp: Hash, i: nat, h: ResolvedHandler)
    requires RolesOf(roles, Map(handlers, PlanOf), fp) && CollisionFree(Map(handlers, PlanOf), fp)
    requires i < |roles| && h in handlers && References(PlanOf(h), fp, roles[i])
    requires forall b :: b in h.bindings ==> WellClassified(b)
    ensures AllowsPollers(Policies(roles[i].plan), h.bindings)
    ensures AllowsWhatIsPolled(Policies(roles[i].plan), h.bindings) <==> SourcesKeepNames(h.bindings)
  {
    RoleHasOwnPlan(roles, handlers, fp, i, h);
    PollersAreAllowed(h);
    AllowsWhatIsPolledIff(h);
  }

  lemma RoleHasOwnPlan(roles: seq<RoleParent>, handlers: seq<ResolvedHandler>, fp: Hash, i: nat, h: ResolvedHandler)
    requires RolesOf(roles, Map(handlers, PlanOf), fp) && CollisionFree(Map(handlers, PlanOf), fp)
    requires i < |roles| && h in handlers && References(PlanOf(h), fp, roles[i])
    ensures roles[i].plan == Plan(h)
  {
    RolesFitIffCollisionFree(roles, Map(handlers, PlanOf), fp);
    MapMember(handlers, PlanOf, PlanOf(h));
  }

  lemma PollersAreAllowed(h: ResolvedHandler)
    requires forall b :: b in h.bindings ==> WellClassified(b)
    ensures AllowsPollers(Policies(Plan(h)), h.bindings)
  {
    forall m | Polled(h.bindings, m) && m.arn != "" ensures AllowsPolling(Policies(Plan(h)), m) {
      PollersAreGranted(h.bindings, m);
      ScopedStatementExact(RoleSources(h.bindings), m.service.value, m.arn);
      SourceIsAllowed(h, m.service.value, m.arn);
    }
  }

  lemma SourceIsAllowed(h: ResolvedHandler, service: Service, arn: string)
    requires arn != "" && Source(service, arn) in RoleSources(h.bindings)
    ensures forall action :: NeedsAction(service, action) ==> Allows(Policies(Plan(h)), action, arn)
  {
    assert Source(service, arn) in Plan(h).sources;
    forall action | NeedsAction(service, action) ensures Allows(Policies(Plan(h)), action, arn) {
      AllowedExactly(Plan(h), action, arn);
    }
  }

  // The sources of a handler with an ARN are the ones its emitted mappings poll.
  ghost predicate SourcesArePolled(h: ResolvedHandler) {
    forall service, arn :: arn != "" ==>
      (Source(service, arn) in RoleSources(h.bindings) <==> Polled(h.bindings, Mapping(Some(service), arn)))
  }

  lemma SourcesArePolledIff(h: ResolvedHandler)
    requires forall b :: b in h.bindings ==> WellClassified(b)
    ensures SourcesArePolled(h) <==> SourcesKeepNames(h.bindings)
  {
    var statements := PolicyStatements(RoleSources(h.bindings));
    GrantsWhatIsPolledIff(h.bindings);
    forall service, arn
      ensures Scoped(Actions(service), arn) in statements <==> arn != "" && Source(service, arn) in RoleSources(h.bindings)
    {
      ScopedStatementExact(RoleSources(h.bindings), service, arn);
    }
    if SourcesArePolled(h) {
      assert GrantsWhatIsPolled(statements, h.bindings);
    }
    if GrantsWhatIsPolled(statements, h.bindings) {
      forall service, arn | arn != ""
        ensures Source(service, arn) in RoleSources(h.bindings) <==> Polled(h.bindings, Mapping(Some(service), arn))
      {
        assert Scoped(Actions(service), arn) in statements <==> Polled(h.bindings, Mapping(Some(service), arn));
      }
    }
  }

  lemma AllowedWhenPolled(h: ResolvedHandler, action: string, arn: string)
    requires SourcesArePolled(h)
    ensures Allows(Policies(Plan(h)), action, arn) <==>
            arn != "" && exists service :: Polled(h.bindings, Mapping(Some(service), arn)) && NeedsAction(service, action)
  {
    AllowedExactly(Plan(h), action, arn);
    if service :| arn != "" && Source(service, arn) in Plan(h).sources && NeedsAction(service, action) {
      assert Polled(h.bindings, Mapping(Some(service), arn));
    }
    if service :| arn != "" && Polled(h.bindings, Mapping(Some(service), arn)) && NeedsAction(service, action) {
      assert Source(service, arn) in Plan(h).sources;
    }
  }

  lemma AllowsWhenPolled(h: ResolvedHandler, policies: seq<Policy>)
    requires SourcesArePolled(h) && policies == Policies(Plan(h))
    ensures AllowsWhatIsPolled(policies, h.bindings)
  {
    forall action, arn
      ensures Allows(policies, action, arn) <==>
              arn != "" && exists service :: Polled(h.bindings, Mapping(Some(service), arn)) && NeedsAction(service, action)
    {
      AllowedWhenPolled(h, action, arn);
    }
  }

  // An action only pollers of the service need.
  function OwnAction(service: Service): (action: string)
    ensures NeedsAction(service, action)
  {
    match service
    case Sqs => "sqs:ReceiveMessage"
    case DynamoDbStream => "dynamodb:GetRecords"
    case KinesisStream => "kinesis:GetRecords"
  }

  lemma PolledWhenAllowed(h: ResolvedHandler, service: Service, arn: string)
    requires AllowsWhatIsPolled(Policies(Plan(h)), h.bindings) && arn != ""
    ensures Source(service, arn) in RoleSources(h.bindings) <==> Polled(h.bindings, Mapping(Some(service), arn))
  {
    var action := OwnAction(service);
    AllowedExactly(Plan(h), action, arn);
    forall other ensures NeedsAction(other, action) ==> other == service {
      if NeedsAction(other, action) {
        NeedsOfOneService(other, service, action);
      }
    }
    assert Allows(Policies(Plan(h)), action, arn) <==>
           exists other :: Polled(h.bindings, Mapping(Some(other), arn)) && NeedsAction(other, action);
    if Polled(h.bindings, Mapping(Some(service), arn)) {
      assert Allows(Policies(Plan(h)), action, arn);
    }
    if Source(service, arn) in RoleSources(h.bindings) {
      assert Source(service, arn) in Plan(h).sources;
      assert Allows(Policies(Plan(h)), action, arn);
    }
  }

  // Since no two services share an action, allowing the actions is granting the sources.
  lemma AllowsWhatIsPolledIff(h: ResolvedHandler)
    requires forall b :: b in h.bindings ==> WellClassified(b)
    ensures AllowsWhatIsPolled(Policies(Plan(h)), h.bindings) <==> SourcesKeepNames(h.bindings)
  {
    SourcesArePolledIff(h);
    if SourcesArePolled(h) {
      AllowsWhenPolled(h, Policies(Plan(h)));
    }
    if AllowsWhatIsPolled(Policies(Plan(h)), h.bindings) {
      forall service, arn | arn != ""
        ensures Source(service, arn) in RoleSources(h.bindings) <==> Polled(h.bindings, Mapping(Some(service), arn))
      {
        PolledWhenAllowed(h, service, arn);
      }
    }
  }
}
