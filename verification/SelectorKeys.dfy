// The link graph prints each label a selector matched as "label::<key>:<value>"; the
// emitters parse those keys back into the labels a concrete resource must carry.
module SelectorKeys {
  import opened Blueprint
  import opened Text

  const LABEL_PREFIX := "label::"

  function PrintKey(key: string, value: string): string {
    LABEL_PREFIX + key + ":" + value
  }

  // What a selector key says, or nothing when it is not a well-formed label key.
  function ParseKey(selectorKey: string): Option<(string, string)> {
    if !HasPrefix(selectorKey, LABEL_PREFIX) then None
    else
      var pair := Cut(selectorKey[|LABEL_PREFIX|..], ':');
      if !pair.found || pair.before == "" then None else Some((pair.before, pair.after))
  }

  // A later key for the same label replaces an earlier one.
  function ParseAll(keys: seq<string>): LabelMap {
    if keys == [] then map[]
    else
      var labels := ParseAll(keys[..|keys| - 1]);
      match ParseKey(keys[|keys| - 1])
      case None => labels
      case Some(pair) => labels[pair.0 := pair.1]
  }

  predicate PrintableKey(key: string) {
    key != "" && ':' !in key
  }

  // The parser of the queue and config emitters, which strips the prefix and compares.
  method LabelsFromSelectorKeys(keys: seq<string>) returns (labels: LabelMap)
    ensures labels == ParseAll(keys)
  {
    labels := map[];
    for i := 0 to |keys|
      invariant labels == ParseAll(keys[..i])
    {
      assert keys[..i + 1][..i] == keys[..i];
      var trimmed := if HasPrefix(keys[i], LABEL_PREFIX) then keys[i][|LABEL_PREFIX|..] else keys[i];
      if trimmed != keys[i] {
        var pair := Cut(trimmed, ':');
        if pair.found && pair.before != "" {
          labels := labels[pair.before := pair.after];
        }
      }
    }
    assert keys[..|keys|] == keys;
  }

  // The parser of the inherited placement, which asks whether the prefix was found.
  method SelectorLabels(keys: seq<string>) returns (labels: LabelMap)
    ensures labels == ParseAll(keys)
  {
    labels := map[];
    for i := 0 to |keys|
      invariant labels == ParseAll(keys[..i])
    {
      assert keys[..i + 1][..i] == keys[..i];
      if !HasPrefix(keys[i], LABEL_PREFIX) {
        continue;
      }
      var pair := Cut(keys[i][|LABEL_PREFIX|..], ':');
      if !pair.found || pair.before == "" {
        continue;
      }
      labels := labels[pair.before := pair.after];
    }
    assert keys[..|keys|] == keys;
  }

  // A printed key reads back as its label exactly when the label key is printable.
  lemma PrintedKeyParses(key: string, value: string)
    ensures ParseKey(PrintKey(key, value)) == Some((key, value)) <==> PrintableKey(key)
  {
    assert PrintKey(key, value) == LABEL_PREFIX + (key + [':'] + value);
    PrefixOfConcat(LABEL_PREFIX, key + [':'] + value);
    if ':' !in key {
      CutAtFirst(key, value, ':');
    }
  }

  // Every key that parses is a printed label, so nothing else can contribute one.
  lemma ParsedKeyPrints(selectorKey: string)
    ensures match ParseKey(selectorKey) { case None => true
              case Some(p) => PrintableKey(p.0) && selectorKey == PrintKey(p.0, p.1) }
  {
    if ParseKey(selectorKey).Some? {
      var pair := Cut(selectorKey[|LABEL_PREFIX|..], ':');
      assert selectorKey == LABEL_PREFIX + selectorKey[|LABEL_PREFIX|..];
      assert selectorKey == LABEL_PREFIX + pair.before + ":" + pair.after;
    }
  }

  // keys names every label of the map, and every other key in it is not a label key.
  ghost predicate Lists(keys: seq<string>, labels: LabelMap) {
    (forall key :: key in labels ==> PrintKey(key, labels[key]) in keys) &&
    (forall i :: 0 <= i < |keys| && HasPrefix(keys[i], LABEL_PREFIX) ==>
       exists key :: key in labels && keys[i] == PrintKey(key, labels[key]))
  }

  lemma {:induction false} ParsedLabelHasKey(keys: seq<string>, name: string)
    requires name in ParseAll(keys)
    ensures exists i :: 0 <= i < |keys| && ParseKey(keys[i]) == Some((name, ParseAll(keys)[name]))
  {
    var init := keys[..|keys| - 1];
    var last := ParseKey(keys[|keys| - 1]);
    if last.Some? && last.value.0 == name {
      assert ParseKey(keys[|keys| - 1]) == Some((name, ParseAll(keys)[name]));
    } else {
      ParsedLabelHasKey(init, name);
      var i :| 0 <= i < |init| && ParseKey(init[i]) == Some((name, ParseAll(init)[name]));
      assert keys[i] == init[i];
    }
  }

  lemma {:induction false} KeyGivesLabel(keys: seq<string>, i: nat)
    requires i < |keys| && ParseKey(keys[i]).Some?
    ensures ParseKey(keys[i]).value.0 in ParseAll(keys)
  {
    if i < |keys| - 1 {
      KeyGivesLabel(keys[..|keys| - 1], i);
    }
  }

  lemma ParsedIsListed(keys: seq<string>, labels: LabelMap, name: string)
    requires Lists(keys, labels) && name in ParseAll(keys)
    ensures PrintableKey(name)
    ensures (forall key :: key in labels ==> PrintableKey(key)) ==> name in labels && labels[name] == ParseAll(keys)[name]
  {
    ParsedLabelHasKey(keys, name);
    var i :| 0 <= i < |keys| && ParseKey(keys[i]) == Some((name, ParseAll(keys)[name]));
    ParsedKeyPrints(keys[i]);
    var key :| key in labels && keys[i] == PrintKey(key, labels[key]);
    PrintedKeyParses(key, labels[key]);
  }

  lemma ListedIsParsed(keys: seq<string>, labels: LabelMap, key: string)
    requires Lists(keys, labels) && key in labels && PrintableKey(key)
    ensures key in ParseAll(keys)
  {
    var i :| 0 <= i < |keys| && keys[i] == PrintKey(key, labels[key]);
    PrintedKeyParses(key, labels[key]);
    KeyGivesLabel(keys, i);
  }

  // The labels print and parse back, over any list that names them, exactly when every
  // label key is non-empty and free of colons. Values are arbitrary.
  lemma SelectorKeysParseBack(keys: seq<string>, labels: LabelMap)
    requires Lists(keys, labels)
    ensures ParseAll(keys) == labels <==> forall key :: key in labels ==> PrintableKey(key)
  {
    if ParseAll(keys) == labels {
      forall key | key in labels ensures PrintableKey(key) {
        ParsedIsListed(keys, labels, key);
      }
    }
    if forall key :: key in labels ==> PrintableKey(key) {
      PrintableParseBack(keys, labels);
    }
  }

  lemma PrintableParseBack(keys: seq<string>, labels: LabelMap)
    requires Lists(keys, labels) && forall key :: key in labels ==> PrintableKey(key)
    ensures ParseAll(keys) == labels
  {
    forall name | name in ParseAll(keys) ensures name in labels && labels[name] == ParseAll(keys)[name] {
      ParsedIsListed(keys, labels, name);
    }
    forall key | key in labels ensures key in ParseAll(keys) {
      ListedIsParsed(keys, labels, key);
    }
    assert ParseAll(keys).Keys == labels.Keys;
  }

  lemma PrintedText(key: string, value: string)
    ensures PrintKey(key, value) == "label::" + key + ":" + value
  {
  }
}
