// The names of the security groups a VPC provisions, which both the VPC and the
// resources placed in it derive from the same function.
module SecurityGroupNames {
  import opened Text

  datatype GroupRole = CacheRole | DatabaseRole | ProxyRole

  function RoleText(role: GroupRole): string {
    match role
    case CacheRole => "cache"
    case DatabaseRole => "db"
    case ProxyRole => "proxy"
  }

  function GroupName(resource: string, role: GroupRole): string {
    resource + "-" + RoleText(role)
  }

  // No two resources, and no two roles of one resource, share a group, whatever hyphens
  // the resource names hold.
  lemma GroupNamesUnique(resource: string, role: GroupRole, other: string, otherRole: GroupRole)
    ensures GroupName(resource, role) == GroupName(other, otherRole) <==> resource == other && role == otherRole
  {
    var a, b := RoleText(role), RoleText(otherRole);
    assert '-' !in a && '-' !in b;
    if GroupName(resource, role) == GroupName(other, otherRole) {
      assert "-" == ['-'];
      LastSplitUnique(resource, a, other, b, '-');
      assert |a| == |b|;
    }
  }

  lemma GroupNameTexts(resource: string)
    ensures GroupName(resource, CacheRole) == resource + "-cache"
    ensures GroupName(resource, DatabaseRole) == resource + "-db"
    ensures GroupName(resource, ProxyRole) == resource + "-proxy"
  {
    assert "-cache" == "-" + "cache" && "-db" == "-" + "db" && "-proxy" == "-" + "proxy";
  }
}
