/** `verifyUniqueShapes`: walk the table's entries in property order, remember the
    first character recorded under each `type-variant` key, and report every later
    character that reuses a key. */
module UniqueShapes {
  import opened JsSemantics
  import opened Optional
  import opened CharacterShapes

  /** An element of `Object.entries(CHARACTER_SHAPE_MAP)`: a key and its definition. */
  type Entry = (string, ShapeDefinition)

  /** `Object.entries(CHARACTER_SHAPE_MAP)`, in the order of `ALL_CHARACTERS`. */
  function ShapeEntries(): (es: seq<Entry>)
    ensures |es| == |AllCharacters()|
    ensures forall i :: 0 <= i < |es| ==> es[i].0 == AllCharacters()[i] && Some(es[i].1) == ShapeMapGet(es[i].0)
  {
    AllCharactersAreTheKeys();
    var keys := AllCharacters();
    seq(|keys|, i requires 0 <= i < |keys| => (keys[i], ShapeMapGet(keys[i]).value))
  }

  /** A character and the key its shape is recorded under. */
  type Keyed = (string, string)

  /** The entries with each shape replaced by its `type-variant` key. */
  function KeyedEntries(es: seq<Entry>): (ks: seq<Keyed>)
    ensures |ks| == |es|
    ensures forall i :: 0 <= i < |es| ==> ks[i] == (es[i].0, ShapeKey(es[i].1.kind, es[i].1.variant))
  {
    seq(|es|, i requires 0 <= i < |es| => (es[i].0, ShapeKey(es[i].1.kind, es[i].1.variant)))
  }

  /** The text pushed for a character whose key was already taken. */
  function Message(later: string, first: string, key: string): string {
    later + " and " + first + " both use " + key
  }

  /** The `seen` map after the entries ks: each key, with the character it was first
      recorded for. */
  function Seen(ks: seq<Keyed>): map<string, string> {
    if ks == [] then map[]
    else
      var before := Seen(ks[..|ks| - 1]);
      var e := ks[|ks| - 1];
      if e.1 in before then before else before[e.1 := e.0]
  }

  /** The `duplicates` array after the entries ks. */
  function Duplicates(ks: seq<Keyed>): seq<string> {
    if ks == [] then []
    else
      var before := Seen(ks[..|ks| - 1]);
      var e := ks[|ks| - 1];
      if e.1 in before then Duplicates(ks[..|ks| - 1]) + [Message(e.0, before[e.1], e.1)]
      else Duplicates(ks[..|ks| - 1])
  }

  /** The position of the first entry with key k, or |ks| when there is none. */
  function FirstWithKey(ks: seq<Keyed>, k: string): (i: nat)
    ensures i <= |ks|
    ensures forall j :: 0 <= j < i ==> ks[j].1 != k
    ensures i < |ks| ==> ks[i].1 == k
  {
    if ks == [] then 0
    else if ks[0].1 == k then 0
    else 1 + FirstWithKey(ks[1..], k)
  }

  /** The messages a reader of the table would expect: for each entry whose key an
      earlier entry already has, one message naming it and that earliest entry. */
  function Reported(ks: seq<Keyed>): seq<string> {
    if ks == [] then []
    else
      var before := ks[..|ks| - 1];
      var e := ks[|ks| - 1];
      var f := FirstWithKey(before, e.1);
      if f < |before| then Reported(before) + [Message(e.0, before[f].0, e.1)]
      else Reported(before)
  }

  lemma {:induction false} FirstWithKeySnoc(ks: seq<Keyed>, e: Keyed, k: string)
    ensures var f := FirstWithKey(ks, k);
            FirstWithKey(ks + [e], k) == (if f < |ks| || e.1 == k then f else |ks| + 1)
    decreases |ks|
  {
    if ks != [] {
      assert (ks + [e])[1..] == ks[1..] + [e];
      FirstWithKeySnoc(ks[1..], e, k);
    }
  }

  /** A key is in `seen` exactly when some entry has it, and then it maps to the
      character of the first such entry. */
  lemma {:induction false} SeenFirst(ks: seq<Keyed>, k: string)
    ensures var f := FirstWithKey(ks, k);
            && (k in Seen(ks) <==> f < |ks|)
            && (k in Seen(ks) ==> Seen(ks)[k] == ks[f].0)
    decreases |ks|
  {
    if ks != [] {
      var before, e := ks[..|ks| - 1], ks[|ks| - 1];
      assert ks == before + [e];
      SeenFirst(before, k);
      FirstWithKeySnoc(before, e, k);
    }
  }

  /** The loop reports exactly the expected messages, in entry order. */
  lemma {:induction false} DuplicatesAreReported(ks: seq<Keyed>)
    ensures Duplicates(ks) == Reported(ks)
    decreases |ks|
  {
    if ks != [] {
      var before, e := ks[..|ks| - 1], ks[|ks| - 1];
      DuplicatesAreReported(before);
      SeenFirst(before, e.1);
    }
  }

  /** The keys of `seen` are the keys of the entries. */
  lemma {:induction false} SeenKeys(ks: seq<Keyed>)
    ensures Seen(ks).Keys == set i | 0 <= i < |ks| :: ks[i].1
    decreases |ks|
  {
    if ks != [] {
      var before := ks[..|ks| - 1];
      SeenKeys(before);
      assert forall i :: 0 <= i < |before| ==> before[i] == ks[i];
      assert (set i | 0 <= i < |ks| :: ks[i].1)
          == (set i | 0 <= i < |before| :: before[i].1) + {ks[|ks| - 1].1};
    }
  }

  /** Every entry either adds its key to `seen` or one message, never both: there are as
      many messages as entries beyond the distinct keys. */
  lemma {:induction false} DuplicateCount(ks: seq<Keyed>)
    ensures |Duplicates(ks)| + |Seen(ks)| == |ks|
    decreases |ks|
  {
    if ks != [] {
      DuplicateCount(ks[..|ks| - 1]);
    }
  }

  predicate KeysDistinct(ks: seq<Keyed>) {
    forall i, j :: 0 <= i < j < |ks| ==> ks[i].1 != ks[j].1
  }

  /** No message is pushed exactly when no two entries share a key. */
  lemma {:induction false} NoDuplicatesIffDistinct(ks: seq<Keyed>)
    ensures Duplicates(ks) == [] <==> KeysDistinct(ks)
    decreases |ks|
  {
    if ks != [] {
      var before, e := ks[..|ks| - 1], ks[|ks| - 1];
      NoDuplicatesIffDistinct(before);
      SeenFirst(before, e.1);
      if KeysDistinct(ks) {
        assert KeysDistinct(before);
        assert e.1 !in Seen(before);
      }
      if Duplicates(ks) == [] {
        assert Duplicates(before) == [];
        assert e.1 !in Seen(before);
        forall i, j | 0 <= i < j < |ks|
          ensures ks[i].1 != ks[j].1
        {
          if j < |ks| - 1 {
            assert before[i].1 != before[j].1;
          } else {
            assert ks[i] == before[i];
          }
        }
      }
    }
  }

  /** The loop of `verifyUniqueShapes` over the entries es. */
  method CollectDuplicates(es: seq<Entry>) returns (duplicates: seq<string>)
    ensures duplicates == Duplicates(KeyedEntries(es))
  {
    var seen: map<string, string> := map[];
    duplicates := [];
    ghost var ks := KeyedEntries(es);
    for i := 0 to |es|
      invariant seen == Seen(ks[..i])
      invariant duplicates == Duplicates(ks[..i])
    {
      WalkStep(ks, i);
      var (c, shape) := es[i];
      var key := ShapeKey(shape.kind, shape.variant);
      if key in seen {
        duplicates := duplicates + [Message(c, seen[key], key)];
      } else {
        seen := seen[key := c];
      }
    }
    assert ks[..|es|] == ks;
  }

  /** One more entry: the walk either records its key or pushes one message. */
  lemma WalkStep(ks: seq<Keyed>, i: nat)
    requires i < |ks|
    ensures var before, e := Seen(ks[..i]), ks[i];
            && Seen(ks[..i + 1]) == (if e.1 in before then before else before[e.1 := e.0])
            && Duplicates(ks[..i + 1])
               == (if e.1 in before then Duplicates(ks[..i]) + [Message(e.0, before[e.1], e.1)] else Duplicates(ks[..i]))
  {
    assert ks[..i + 1][..i] == ks[..i];
  }

  datatype UniquenessReport = UniquenessReport(isUnique: bool, duplicates: seq<string>)

  /** `verifyUniqueShapes()`: unique exactly when nothing was reported, and the shipped
      table is unique. */
  method VerifyUniqueShapes() returns (report: UniquenessReport)
    ensures report.isUnique <==> report.duplicates == []
    ensures report.duplicates == Duplicates(KeyedEntries(ShapeEntries()))
    ensures report.isUnique && report.duplicates == []
  {
    var duplicates := CollectDuplicates(ShapeEntries());
    ShippedKeysDistinct();
    NoDuplicatesIffDistinct(KeyedEntries(ShapeEntries()));
    report := UniquenessReport(|duplicates| == 0, duplicates);
  }

  /** No two characters of the table share a `type-variant` key. */
  lemma ShippedKeysDistinct()
    ensures KeysDistinct(KeyedEntries(ShapeEntries()))
  {
    var es := ShapeEntries();
    var ks := KeyedEntries(es);
    AllCharactersDistinct();
    AllCharactersAllowed();
    forall i, j | 0 <= i < j < |ks|
      ensures ks[i].1 != ks[j].1
    {
      var c, d := es[i].0[0], es[j].0[0];
      assert es[i].0 in AllCharacters() && es[j].0 in AllCharacters();
      assert es[i].0 == [c] && es[j].0 == [d];
      if ks[i].1 == ks[j].1 {
        ShapeKeyInjective(es[i].1.kind, es[i].1.variant, es[j].1.kind, es[j].1.variant);
        OwnerOfEntry(c);
        OwnerOfEntry(d);
      }
    }
  }
}
