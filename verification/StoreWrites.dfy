// What each claim leaves in the finished store: a group that was written stays whole, a
// single value stays until a clashing group takes its key.
module StoreWrites {
  import opened Store
  import opened StoreLaws

  // The claim finds its key free.
  predicate Written(claims: seq<Claim>, i: nat) {
    i < |claims| && Probe(claims[i]) !in ApplyAll(map[], claims[..i])
  }

  ghost predicate AllWellFormed(claims: seq<Claim>) {
    forall c :: c in claims ==> WellFormed(c)
  }

  predicate Gives(entries: map<string, StoreValue>, base: string, f: StoreField, v: StoreValue) {
    Composite(base, f) in entries && entries[Composite(base, f)] == v
  }

  // No part of a group without its host.
  ghost predicate GroupsWhole(entries: map<string, StoreValue>) {
    forall base, f, v :: Gives(entries, base, f, v) && !SingleReference(v) ==> Composite(base, HostField) in entries
  }

  // Apart from single values, the entries of c's group are c's own.
  ghost predicate ShowsGroup(entries: map<string, StoreValue>, c: Claim)
    requires c.GroupClaim?
  {
    Probe(c) in entries && forall f, v :: !SingleReference(v) ==> (Gives(entries, c.base, f, v) <==> Pair(f, v) in c.pairs)
  }

  ghost predicate ShowsSingle(entries: map<string, StoreValue>, c: Claim)
    requires c.SingleClaim?
  {
    c.base in entries && (SingleReference(entries[c.base]) ==> entries[c.base] == c.value)
  }

  ghost predicate Shows(entries: map<string, StoreValue>, c: Claim) {
    if c.SingleClaim? then ShowsSingle(entries, c) else ShowsGroup(entries, c)
  }

  // A group's key under a base is one of its own fields under its own base.
  lemma KeyOfGroup(c: Claim, base: string, f: StoreField)
    requires c.GroupClaim?
    ensures HasKey(c, Composite(base, f)) <==> base == c.base && exists j: nat :: j < |c.pairs| && c.pairs[j].field == f
  {
    forall j: nat | j < |c.pairs| ensures HasPair(c, Composite(base, f), j) <==> base == c.base && c.pairs[j].field == f {
      CompositeUnique(base, f, c.base, c.pairs[j].field);
    }
  }

  lemma PairIsProvided(c: Claim, f: StoreField, v: StoreValue)
    requires c.GroupClaim?
    ensures Pair(f, v) in c.pairs <==> Provides(c, Composite(c.base, f), v)
  {
    var k := Composite(c.base, f);
    if Pair(f, v) in c.pairs {
      var j: nat :| j < |c.pairs| && c.pairs[j] == Pair(f, v);
      assert HasPair(c, k, j);
    }
    if Provides(c, k, v) {
      var j: nat :| HasPair(c, k, j) && v == c.pairs[j].value;
      CompositeUnique(c.base, f, c.base, c.pairs[j].field);
      assert c.pairs[j] == Pair(f, v);
    }
  }

  // A key a claim writes gets a value the claim provides.
  lemma ApplyProvides(entries: map<string, StoreValue>, c: Claim, k: string)
    requires WellFormed(c) && Probe(c) !in entries && HasKey(c, k)
    ensures k in Apply(entries, c) && Provides(c, k, Apply(entries, c)[k])
  {
    ApplyExact(entries, c, k);
    if c.GroupClaim? {
      var j: nat :| HasPair(c, k, j);
      assert Provides(c, k, c.pairs[j].value);
    } else {
      assert Provides(c, k, c.value);
    }
  }

  lemma ApplyKeepsWhole(entries: map<string, StoreValue>, d: Claim)
    requires WellFormed(d) && GroupsWhole(entries)
    ensures GroupsWhole(Apply(entries, d))
  {
    var after := Apply(entries, d);
    if Probe(d) !in entries {
      forall base, f, v | Gives(after, base, f, v) && !SingleReference(v) ensures Composite(base, HostField) in after {
        ApplyExact(entries, d, Composite(base, f));
        ApplyExact(entries, d, Composite(base, HostField));
        if HasKey(d, Composite(base, f)) {
          ApplyProvides(entries, d, Composite(base, f));
          KeyOfGroup(d, base, f);
          ProbeIsKey(d);
        } else {
          assert Gives(entries, base, f, v);
        }
      }
    }
  }

  lemma ApplyWritesGroup(entries: map<string, StoreValue>, c: Claim)
    requires WellFormed(c) && c.GroupClaim? && GroupsWhole(entries) && Probe(c) !in entries
    ensures ShowsGroup(Apply(entries, c), c)
  {
    var after := Apply(entries, c);
    ApplyExact(entries, c, Probe(c));
    ProbeIsKey(c);
    forall f, v | !SingleReference(v) ensures Gives(after, c.base, f, v) <==> Pair(f, v) in c.pairs {
      WrittenPair(entries, c, f, v);
    }
  }

  lemma WrittenPair(entries: map<string, StoreValue>, c: Claim, f: StoreField, v: StoreValue)
    requires WellFormed(c) && c.GroupClaim? && GroupsWhole(entries) && Probe(c) !in entries && !SingleReference(v)
    ensures Gives(Apply(entries, c), c.base, f, v) <==> Pair(f, v) in c.pairs
  {
    var k := Composite(c.base, f);
    ApplyExact(entries, c, k);
    PairIsProvided(c, f, v);
    if Provides(c, k, v) {
      ProvidedIsKey(c, k, v);
    }
    if HasKey(c, k) {
      ApplyProvides(entries, c, k);
    } else {
      assert Gives(Apply(entries, c), c.base, f, v) <==> Gives(entries, c.base, f, v);
    }
  }

  lemma ProvidedIsKey(c: Claim, k: string, v: StoreValue)
    requires Provides(c, k, v)
    ensures HasKey(c, k)
  {
    if c.GroupClaim? {
      var j: nat :| HasPair(c, k, j) && v == c.pairs[j].value;
    }
  }

  // Only a single value, or a group under the same base, writes one of a group's keys.
  lemma KeyOfOther(c: Claim, d: Claim, f: StoreField)
    requires HasKey(d, Composite(c.base, f))
    ensures d.SingleClaim? || d.base == c.base
  {
    if d.GroupClaim? {
      KeyOfGroup(d, c.base, f);
    }
  }

  lemma ApplyKeepsGroup(entries: map<string, StoreValue>, c: Claim, d: Claim)
    requires WellFormed(c) && WellFormed(d) && c.GroupClaim? && ShowsGroup(entries, c)
    ensures ShowsGroup(Apply(entries, d), c)
  {
    var after := Apply(entries, d);
    ApplyKeeps(entries, d, Probe(c));
    if Probe(d) !in entries {
      forall f, v | !SingleReference(v) ensures Gives(after, c.base, f, v) <==> Gives(entries, c.base, f, v) {
        var k := Composite(c.base, f);
        ApplyExact(entries, d, k);
        if HasKey(d, k) {
          ApplyProvides(entries, d, k);
          KeyOfOther(c, d, f);
        }
      }
    }
  }

  lemma ApplyKeepsSingle(entries: map<string, StoreValue>, c: Claim, d: Claim)
    requires WellFormed(c) && WellFormed(d) && c.SingleClaim? && ShowsSingle(entries, c)
    ensures ShowsSingle(Apply(entries, d), c)
  {
    if Probe(d) !in entries {
      ApplyExact(entries, d, c.base);
      if HasKey(d, c.base) {
        ApplyProvides(entries, d, c.base);
      }
    }
  }

  lemma {:induction false} StoreIsWhole(claims: seq<Claim>)
    requires AllWellFormed(claims)
    ensures GroupsWhole(ApplyAll(map[], claims))
  {
    if claims != [] {
      var n := |claims| - 1;
      StoreIsWhole(claims[..n]);
      ApplyKeepsWhole(ApplyAll(map[], claims[..n]), claims[n]);
    }
  }

  // What a claim has written, no later claim takes apart.
  lemma {:induction false} WrittenStays(claims: seq<Claim>, i: nat)
    requires AllWellFormed(claims) && Written(claims, i)
    ensures Shows(ApplyAll(map[], claims), claims[i])
  {
    var n := |claims| - 1;
    var before := ApplyAll(map[], claims[..n]);
    if i < n {
      assert claims[..n][..i] == claims[..i];
      WrittenStays(claims[..n], i);
      if claims[i].SingleClaim? {
        ApplyKeepsSingle(before, claims[i], claims[n]);
      } else {
        ApplyKeepsGroup(before, claims[i], claims[n]);
      }
    } else if claims[i].GroupClaim? {
      StoreIsWhole(claims[..n]);
      ApplyWritesGroup(before, claims[n]);
    }
  }

  // Nothing is in the store that no written claim put there.
  lemma {:induction false} StoredIsWritten(claims: seq<Claim>, k: string) returns (i: nat)
    requires AllWellFormed(claims) && k in ApplyAll(map[], claims)
    ensures Written(claims, i) && Provides(claims[i], k, ApplyAll(map[], claims)[k])
  {
    var n := |claims| - 1;
    var before := ApplyAll(map[], claims[..n]);
    if Written(claims, n) {
      ApplyExact(before, claims[n], k);
      if HasKey(claims[n], k) {
        ApplyProvides(before, claims[n], k);
        i := n;
        return;
      }
    }
    i := StoredIsWritten(claims[..n], k);
    assert claims[..n][..i] == claims[..i];
  }

  // ---- Read off the claims ----

  // No claim has the group's host key.
  ghost predicate HostFree(claims: seq<Claim>, c: Claim) {
    forall j: nat :: j < |claims| ==> !HasKey(claims[j], Probe(c))
  }

  // A group that is the first to have its host key.
  ghost predicate Opens(claims: seq<Claim>, i: nat) {
    i < |claims| && claims[i].GroupClaim? && HostFree(claims[..i], claims[i])
  }

  ghost predicate GroupTakes(claims: seq<Claim>, k: string) {
    exists j: nat :: Opens(claims, j) && HasKey(claims[j], k)
  }

  ghost predicate SingleTakes(claims: seq<Claim>, k: string) {
    exists j: nat :: j < |claims| && claims[j].SingleClaim? && claims[j].base == k
  }

  // After these claims c still finds its key free.
  ghost predicate LandsAfter(claims: seq<Claim>, c: Claim) {
    if c.GroupClaim? then HostFree(claims, c) else !SingleTakes(claims, c.base) && !GroupTakes(claims, c.base)
  }

  ghost predicate Lands(claims: seq<Claim>, i: nat) {
    i < |claims| && LandsAfter(claims[..i], claims[i])
  }

  // And no group takes a single value's key from it.
  ghost predicate Remains(claims: seq<Claim>, i: nat) {
    Lands(claims, i) && (claims[i].SingleClaim? ==> !GroupTakes(claims, claims[i].base))
  }

  lemma ProbeInStore(claims: seq<Claim>, j: nat)
    requires AllWellFormed(claims) && j < |claims|
    ensures Probe(claims[j]) in ApplyAll(map[], claims)
  {
    ProbesAreStored(map[], claims, claims[j]);
  }

  lemma HostInStoreIff(claims: seq<Claim>, c: Claim)
    requires AllWellFormed(claims) && c.GroupClaim?
    ensures Probe(c) in ApplyAll(map[], claims) <==> !HostFree(claims, c)
  {
    if Probe(c) in ApplyAll(map[], claims) {
      var i := StoredIsWritten(claims, Probe(c));
      ProvidedIsKey(claims[i], Probe(c), ApplyAll(map[], claims)[Probe(c)]);
    }
    if j: nat :| j < |claims| && HasKey(claims[j], Probe(c)) {
      ProbeInStore(claims, j);
      if claims[j].GroupClaim? {
        KeyOfGroup(claims[j], c.base, HostField);
      }
    }
  }

  lemma OpensIffWritten(claims: seq<Claim>, i: nat)
    requires AllWellFormed(claims) && i < |claims| && claims[i].GroupClaim?
    ensures Written(claims, i) <==> Opens(claims, i)
  {
    HostInStoreIff(claims[..i], claims[i]);
  }

  // The keys of an opening group hold its values, which are no single values.
  lemma OpenedIsStored(claims: seq<Claim>, j: nat, k: string)
    requires AllWellFormed(claims) && Opens(claims, j) && HasKey(claims[j], k)
    ensures var store := ApplyAll(map[], claims); k in store && !SingleReference(store[k])
  {
    var c := claims[j];
    OpensIffWritten(claims, j);
    WrittenStays(claims, j);
    var p: nat :| HasPair(c, k, p);
    assert c in claims && WellFormed(c);
    assert c.pairs[p] == Pair(c.pairs[p].field, c.pairs[p].value) && c.pairs[p] in c.pairs;
    assert Gives(ApplyAll(map[], claims), c.base, c.pairs[p].field, c.pairs[p].value);
  }

  // A key holds another value than a single one exactly when an opening group has it.
  lemma GroupTakesIff(claims: seq<Claim>, k: string)
    requires AllWellFormed(claims)
    ensures var store := ApplyAll(map[], claims); k in store && !SingleReference(store[k]) <==> GroupTakes(claims, k)
  {
    var store := ApplyAll(map[], claims);
    if k in store && !SingleReference(store[k]) {
      var i := StoredIsWritten(claims, k);
      assert claims[i] in claims && WellFormed(claims[i]);
      ProvidedIsKey(claims[i], k, store[k]);
      OpensIffWritten(claims, i);
    }
    if j: nat :| Opens(claims, j) && HasKey(claims[j], k) {
      OpenedIsStored(claims, j, k);
    }
  }

  // A key is in the store exactly when a single value or an opening group has it.
  lemma KeyInStoreIff(claims: seq<Claim>, k: string)
    requires AllWellFormed(claims)
    ensures k in ApplyAll(map[], claims) <==> SingleTakes(claims, k) || GroupTakes(claims, k)
  {
    GroupTakesIff(claims, k);
    if k in ApplyAll(map[], claims) {
      var i := StoredIsWritten(claims, k);
      ProvidedIsKey(claims[i], k, ApplyAll(map[], claims)[k]);
      if claims[i].GroupClaim? {
        OpensIffWritten(claims, i);
      }
    }
    if j: nat :| j < |claims| && claims[j].SingleClaim? && claims[j].base == k {
      ProbeInStore(claims, j);
    }
  }

  lemma LandsAfterIff(claims: seq<Claim>, c: Claim)
    requires AllWellFormed(claims)
    ensures LandsAfter(claims, c) <==> Probe(c) !in ApplyAll(map[], claims)
  {
    if c.GroupClaim? {
      HostInStoreIff(claims, c);
    } else {
      KeyInStoreIff(claims, c.base);
    }
  }

  // Which claims are written, told from the claims alone, clash or no clash.
  lemma WrittenIffLands(claims: seq<Claim>, i: nat)
    requires AllWellFormed(claims)
    ensures Written(claims, i) <==> Lands(claims, i)
  {
    if i < |claims| {
      LandsAfterIff(claims[..i], claims[i]);
    }
  }

  // Without a clash, the claims that are written are the first on their keys.
  lemma {:induction false} WrittenIffFirst(claims: seq<Claim>, i: nat)
    requires AllWellFormed(claims) && !Clash(claims) && i < |claims|
    ensures Written(claims, i) <==> First(claims, i)
  {
    var upto := claims[..i + 1];
    assert upto[..i] == claims[..i];
    if Clash(claims[..i]) {
      ClashLonger(claims, i);
    }
    if Clash(upto) {
      ClashLonger(claims, i + 1);
    }
    NoClashFirstWins(claims[..i]);
    FirstLonger(claims, i + 1, i);
    if First(claims, i) {
      FirstClaimIsNew(upto, ApplyAll(map[], claims[..i]));
    } else {
      TakenByFirst(claims, i);
    }
  }

  lemma TakenByFirst(claims: seq<Claim>, i: nat)
    requires AllWellFormed(claims) && i < |claims| && !First(claims, i)
    requires FirstWins(claims[..i], ApplyAll(map[], claims[..i]))
    ensures Probe(claims[i]) in ApplyAll(map[], claims[..i])
  {
    var j: nat :| j < i && Compete(claims[j], claims[i]);
    ProbesAreStored(map[], claims[..i], claims[j]);
  }
}
