// The label maps of a database's resources. Several resources share the author's map by
// reference, so marking the maintenance target writes through to all of them.
module SqlLabels {
  import opened Blueprint
  import opened ConcreteNames
  import opened SqlDatabase

  const MAINTENANCE_TARGET := "celerity.internal.sqldatabase.maintenanceTarget"
  const PROXY_TARGET := "celerity.internal.sqldatabase.proxyTarget"

  class LabelBox {
    var values: LabelMap

    constructor (values: LabelMap)
      ensures this.values == values
    {
      this.values := values;
    }
  }

  // A resource's metadata: its labels are a reference, possibly none.
  class Metadata {
    var labels: LabelBox?

    constructor (labels: LabelBox?)
      ensures this.labels == labels
    {
      this.labels := labels;
    }
  }

  predicate Carries(labels: LabelMap, key: string, value: string) {
    key in labels && labels[key] == value
  }

  // labelsWith: a copy of the labels plus one.
  method LabelsWith(labels: LabelBox?, key: string, value: string) returns (copy: LabelBox)
    ensures fresh(copy)
    ensures copy.values == (if labels == null then map[] else labels.values)[key := value]
  {
    copy := new LabelBox((if labels == null then map[] else labels.values)[key := value]);
  }

  method MarkMaintenanceTarget(resource: Metadata, name: string)
    modifies resource, resource.labels
    ensures resource.labels != null
    ensures resource.labels.values ==
            (if old(resource.labels) == null then map[] else old(resource.labels.values))[MAINTENANCE_TARGET := name]
    ensures if old(resource.labels) == null then fresh(resource.labels) else resource.labels == old(resource.labels)
  {
    if resource.labels == null {
      resource.labels := new LabelBox(map[]);
    }
    resource.labels.values := resource.labels.values[MAINTENANCE_TARGET := name];
  }

  // ---- Who carries the mark afterwards ----

  // The resources given the author's own label map rather than a copy.
  predicate SharesAuthorLabels(plan: Plan, p: Part) {
    Has(plan, p) &&
    match p
    case RdsCluster | RdsReader | RdsProxy => true
    case RdsInstance => plan.aurora
    case _ => false
  }

  predicate CopiesAuthorLabels(plan: Plan, p: Part) {
    Has(plan, p) && (p == AppUserSecret || (p == RdsInstance && !plan.aurora))
  }

  // author: the author's labels, None when the resource has no metadata labels at all.
  predicate Marked(plan: Plan, author: Option<LabelMap>, vpcLabels: LabelMap, p: Part) {
    p == Target(plan) ||
    (author.Some? && SharesAuthorLabels(plan, p)) ||
    (author.Some? && CopiesAuthorLabels(plan, p) && Carries(author.value, MAINTENANCE_TARGET, plan.name)) ||
    (p == MaintenanceRunner && Carries(vpcLabels, MAINTENANCE_TARGET, plan.name))
  }

  ghost function LabelsOf(m: Metadata): LabelMap
    reads m, m.labels
  {
    if m.labels == null then map[] else m.labels.values
  }

  // A copy of a map that may be empty: an empty one leaves the resource without labels.
  method CopyOf(values: LabelMap) returns (m: Metadata)
    ensures fresh(m) && (m.labels != null ==> fresh(m.labels))
    ensures LabelsOf(m) == values
  {
    if values == map[] {
      m := new Metadata(null);
    } else {
      var box := new LabelBox(values);
      m := new Metadata(box);
    }
  }

  // The labels the builders give a resource, before anything is marked.
  function LabelsBuilt(plan: Plan, author: Option<LabelMap>, vpcLabels: LabelMap, p: Part): LabelMap {
    var own := if author.Some? then author.value else map[];
    match p
    case RdsInstance => if plan.aurora then own else own[PROXY_TARGET := plan.logicalName]
    case RdsCluster | RdsReader | RdsProxy | AppUserSecret => own
    case MaintenanceRunner => vpcLabels
    case _ => map[]
  }

  method BuildMetadata(plan: Plan, author: LabelBox?, vpcLabels: LabelMap, p: Part) returns (m: Metadata)
    ensures fresh(m)
    ensures if SharesAuthorLabels(plan, p) then m.labels == author else m.labels != null ==> fresh(m.labels)
    ensures Has(plan, p) ==> LabelsOf(m) == LabelsBuilt(plan, if author == null then None else Some(author.values), vpcLabels, p)
  {
    if SharesAuthorLabels(plan, p) {
      m := new Metadata(author);
      return;
    }
    match p {
      case RdsInstance =>
        var copy := LabelsWith(author, PROXY_TARGET, plan.logicalName);
        m := new Metadata(copy);
      case AppUserSecret =>
        m := CopyOf(if author == null then map[] else author.values);
      case MaintenanceRunner =>
        m := CopyOf(vpcLabels);
      case _ =>
        m := new Metadata(null);
    }
  }

  // Every resource has metadata of its own; the label map is shared where the builder
  // passes the author's on.
  ghost predicate Separate(plan: Plan, author: LabelBox?, parts: map<Part, Metadata>)
    reads parts.Values
  {
    (forall p, q :: p in parts && q in parts && p != q ==> parts[p] != parts[q]) &&
    (forall p :: p in parts ==> (SharesAuthorLabels(plan, p) ==> parts[p].labels == author)) &&
    (forall p :: p in parts ==> (!SharesAuthorLabels(plan, p) ==> parts[p].labels == null || parts[p].labels != author))
  }

  method BuildLabels(plan: Plan, author: LabelBox?, vpcLabels: LabelMap, order: seq<Part>) returns (parts: map<Part, Metadata>)
    requires forall p :: p in order <==> Has(plan, p)
    requires forall i, j :: 0 <= i < j < |order| ==> order[i] != order[j]
    ensures forall p :: p in parts <==> Has(plan, p)
    ensures forall p :: p in parts ==> fresh(parts[p])
    ensures Separate(plan, author, parts)
    ensures var own := if author == null then None else Some(author.values);
            forall p :: p in parts ==> LabelsOf(parts[p]) == LabelsBuilt(plan, own, vpcLabels, p)
  {
    parts := map[];
    ghost var own := if author == null then None else Some(author.values);
    for i := 0 to |order|
      invariant forall p :: p in parts <==> p in order[..i]
      invariant forall p :: p in parts ==> fresh(parts[p])
      invariant Separate(plan, author, parts)
      invariant forall p :: p in parts ==> LabelsOf(parts[p]) == LabelsBuilt(plan, own, vpcLabels, p)
    {
      var m := BuildMetadata(plan, author, vpcLabels, order[i]);
      assert forall p :: p in parts ==> parts[p] != m;
      parts := parts[order[i] := m];
    }
    assert order[..|order|] == order;
  }

  // Builds the labels of every resource, then marks the target the runner connects through.
  // Writing the mark into the author's own map marks every resource sharing it.
  method LabelResources(plan: Plan, author: LabelBox?, vpcLabels: LabelMap, order: seq<Part>) returns (parts: map<Part, Metadata>)
    requires forall p :: p in order <==> Has(plan, p)
    requires forall i, j :: 0 <= i < j < |order| ==> order[i] != order[j]
    modifies author
    ensures forall p :: p in parts <==> Has(plan, p)
    ensures var own := if author == null then None else Some(old(author.values));
            forall p :: p in parts ==>
              (Carries(LabelsOf(parts[p]), MAINTENANCE_TARGET, plan.name) <==> Marked(plan, own, vpcLabels, p)) &&
              LabelsOf(parts[p]) - {MAINTENANCE_TARGET} == LabelsBuilt(plan, own, vpcLabels, p) - {MAINTENANCE_TARGET}
    ensures author != null ==> author.values == old(author.values)[MAINTENANCE_TARGET := plan.name]
  {
    parts := BuildLabels(plan, author, vpcLabels, order);
    var target := parts[Target(plan)];
    label Built:
    MarkMaintenanceTarget(target, plan.name);
    forall p | p in parts && p != Target(plan) && (author == null || !SharesAuthorLabels(plan, p))
      ensures LabelsOf(parts[p]) == old@Built(LabelsOf(parts[p]))
    {
    }
    KeysDiffer();
  }

  // The runner carries the labels its VPC selects members by and no others. The servers, the
  // proxy and the secret carry the author's, a standalone instance also the proxy's target.
  lemma LabelsBuiltExact(plan: Plan, author: Option<LabelMap>, vpcLabels: LabelMap, p: Part, key: string, value: string)
    ensures Carries(LabelsBuilt(plan, author, vpcLabels, p), key, value) <==>
            match p
            case MaintenanceRunner => Carries(vpcLabels, key, value)
            case RdsInstance =>
              if !plan.aurora && key == "celerity.internal.sqldatabase.proxyTarget" then value == plan.logicalName
              else author.Some? && Carries(author.value, key, value)
            case RdsCluster | RdsReader | RdsProxy | AppUserSecret => author.Some? && Carries(author.value, key, value)
            case _ => false
  {
  }

  lemma KeysDiffer()
    ensures MAINTENANCE_TARGET != PROXY_TARGET
  {
    assert MAINTENANCE_TARGET[30] != PROXY_TARGET[30];
  }

  // The marking is meant to single out the resource the runner connects through. It does
  // so exactly when the target's label map is nobody else's: the author wrote no labels, or
  // the path is standalone without replicas (and no copied map carries the mark already).
  lemma OnlyTargetMarkedIff(plan: Plan, author: Option<LabelMap>, vpcLabels: LabelMap)
    ensures (forall p :: Has(plan, p) && Marked(plan, author, vpcLabels, p) ==> p == Target(plan)) <==>
            !Carries(vpcLabels, MAINTENANCE_TARGET, plan.name) &&
            (author.None? || (!plan.aurora && !plan.readReplicas && !Carries(author.value, MAINTENANCE_TARGET, plan.name)))
  {
    if author.Some? && plan.aurora {
      assert Has(plan, RdsInstance) && Marked(plan, author, vpcLabels, RdsInstance);
    }
    if author.Some? && plan.readReplicas {
      assert Has(plan, RdsReader) && Marked(plan, author, vpcLabels, RdsReader);
    }
    if author.Some? && !plan.aurora && Carries(author.value, MAINTENANCE_TARGET, plan.name) {
      assert Has(plan, RdsInstance) && Marked(plan, author, vpcLabels, RdsInstance);
    }
    if Carries(vpcLabels, MAINTENANCE_TARGET, plan.name) {
      assert Has(plan, MaintenanceRunner) && Marked(plan, author, vpcLabels, MaintenanceRunner);
    }
  }

  // An Aurora database whose author wrote a label: the cluster is the target, and its
  // instance is marked too.
  lemma AuroraInstanceIsMarked()
    ensures var plan := Plan("orders", "orders", "network", true, false, false);
            Target(plan) == RdsCluster && Has(plan, RdsInstance) && Marked(plan, Some(map["team" := "payments"]), map[], RdsInstance)
  {
  }
}
