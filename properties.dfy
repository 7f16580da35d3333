/**
 * `getFlinkProperties`: the FLINK_PROPERTIES blob, one "key: value\n" line per
 * entry of the cluster's property map. Go ranges over a map in an unspecified
 * order, so the blob is defined relative to an iteration order: any sequence
 * that lists every key exactly once.
 */
module FlinkProperties {
  import opened Text

  /** `order` lists every key of `m` exactly once. */
  predicate IsKeyOrder(order: seq<string>, m: map<string, string>) {
    && (forall i, j :: 0 <= i < j < |order| ==> order[i] != order[j])
    && (forall k :: k in order ==> k in m)
    && (forall k :: k in m ==> k in order)
  }

  /** One property's line: it starts with the key and ends with its only newline when neither part holds one. */
  function Line(key: string, value: string): (r: string)
    ensures |r| == |key| + |value| + 3 && r[..|key|] == key && r[|r| - 1] == '\n'
    ensures '\n' !in key && '\n' !in value ==> forall i :: 0 <= i < |r| - 1 ==> r[i] != '\n'
  {
    key + ": " + value + "\n"
  }

  /** The lines written for the keys of `order`, in that order. */
  function Lines(m: map<string, string>, order: seq<string>): (r: seq<string>)
    requires forall k :: k in order ==> k in m
    ensures |r| == |order|
    ensures forall i :: 0 <= i < |order| ==> r[i] == Line(order[i], m[order[i]])
  {
    if order == [] then []
    else Lines(m, order[..|order| - 1]) + [Line(order[|order| - 1], m[order[|order| - 1]])]
  }

  function Concat(parts: seq<string>): string {
    if parts == [] then "" else Concat(parts[..|parts| - 1]) + parts[|parts| - 1]
  }

  /** The blob `getFlinkProperties` builds when Go visits the keys in `order`. */
  function PropertiesText(m: map<string, string>, order: seq<string>): (r: string)
    requires forall k :: k in order ==> k in m
    ensures forall i :: 0 <= i < |order| ==> Contains(r, Line(order[i], m[order[i]]))
  {
    var lines := Lines(m, order);
    assert forall i :: 0 <= i < |order| ==> Contains(Concat(lines), lines[i]) by {
      forall i | 0 <= i < |order| {
        ConcatHasPart(lines, i);
      }
    }
    Concat(lines)
  }

  /**
   * The loop of `getFlinkProperties`: each round picks some key not yet
   * written (Go's unspecified iteration order) and appends its line.
   */
  method GetFlinkProperties(properties: map<string, string>) returns (text: string, ghost order: seq<string>)
    ensures IsKeyOrder(order, properties)
    ensures text == PropertiesText(properties, order)
    ensures forall k :: k in properties ==> Contains(text, Line(k, properties[k]))
  {
    text, order := "", [];
    var remaining := properties.Keys;
    while remaining != {}
      invariant forall i, j :: 0 <= i < j < |order| ==> order[i] != order[j]
      invariant forall k :: k in order ==> k in properties && k !in remaining
      invariant forall k :: k in properties ==> k in order || k in remaining
      invariant remaining <= properties.Keys
      invariant text == PropertiesText(properties, order)
      decreases remaining
    {
      var key :| key in remaining;
      PropertiesTextAppend(properties, order, key);
      text := text + Line(key, properties[key]);
      order := order + [key];
      remaining := remaining - {key};
    }
    EveryLineInText(properties, order);
  }

  /** Writing one more key appends its line to the blob. */
  lemma PropertiesTextAppend(m: map<string, string>, order: seq<string>, key: string)
    requires forall k :: k in order ==> k in m
    requires key in m
    ensures PropertiesText(m, order + [key]) == PropertiesText(m, order) + Line(key, m[key])
  {
    assert (order + [key])[..|order|] == order;
  }

  /** Each part of a concatenation occurs in it. */
  lemma {:induction false} ConcatHasPart(parts: seq<string>, i: nat)
    requires i < |parts|
    ensures Contains(Concat(parts), parts[i])
    decreases |parts|
  {
    var init, last := parts[..|parts| - 1], parts[|parts| - 1];
    var c := Concat(init);
    assert Concat(parts) == c + last;
    if i == |parts| - 1 {
      assert (c + last)[|c|..|c| + |last|] == last;
      assert OccursAt(c + last, last, |c|);
    } else {
      assert init[i] == parts[i];
      ConcatHasPart(init, i);
      var j :| 0 <= j <= |c| - |parts[i]| && OccursAt(c, parts[i], j);
      assert (c + last)[j..j + |parts[i]|] == c[j..j + |parts[i]|];
      assert OccursAt(c + last, parts[i], j);
    }
  }

  /** The blob holds the line of every property, whatever the order. */
  lemma EveryLineInText(m: map<string, string>, order: seq<string>)
    requires IsKeyOrder(order, m)
    ensures forall k :: k in m ==> Contains(PropertiesText(m, order), Line(k, m[k]))
  {
    forall k | k in m
      ensures Contains(PropertiesText(m, order), Line(k, m[k]))
    {
      var i :| 0 <= i < |order| && order[i] == k;
    }
  }

  /** In a sequence without repetitions every element occurs once. */
  lemma {:induction false} DistinctMultiplicity(s: seq<string>, x: string)
    requires forall i, j :: 0 <= i < j < |s| ==> s[i] != s[j]
    ensures multiset(s)[x] == if x in s then 1 else 0
  {
    if s != [] {
      var init := s[..|s| - 1];
      DistinctMultiplicity(init, x);
      assert s == init + [s[|s| - 1]];
      assert s[|s| - 1] !in init;
    }
  }

  /** Two iteration orders of one map are permutations of each other. */
  lemma KeyOrdersPermute(m: map<string, string>, o1: seq<string>, o2: seq<string>)
    requires IsKeyOrder(o1, m) && IsKeyOrder(o2, m)
    ensures multiset(o1) == multiset(o2)
  {
    forall x | true
      ensures multiset(o1)[x] == multiset(o2)[x]
    {
      DistinctMultiplicity(o1, x);
      DistinctMultiplicity(o2, x);
    }
  }

  lemma {:induction false} LinesAppend(m: map<string, string>, a: seq<string>, b: seq<string>)
    requires forall k :: k in a + b ==> k in m
    ensures Lines(m, a + b) == Lines(m, a) + Lines(m, b)
  {
    var whole, parts := Lines(m, a + b), Lines(m, a) + Lines(m, b);
    forall i | 0 <= i < |whole| ensures whole[i] == parts[i] {
      if i < |a| {
        assert (a + b)[i] == a[i];
      } else {
        assert (a + b)[i] == b[i - |a|];
      }
    }
  }

  /** Removing the same element from two permutations of each other leaves permutations. */
  lemma RemoveFromPermutation(o1: seq<string>, o2: seq<string>, i: nat)
    requires multiset(o1) == multiset(o2) && o1 != []
    requires i < |o2| && o2[i] == o1[|o1| - 1]
    ensures multiset(o1[..|o1| - 1]) == multiset(o2[..i] + o2[i + 1..])
  {
    var init, x, rest := o1[..|o1| - 1], o1[|o1| - 1], o2[..i] + o2[i + 1..];
    assert o1 == init + [x];
    assert o2 == o2[..i] + [x] + o2[i + 1..];
    forall y | true ensures multiset(init)[y] == multiset(rest)[y] {
      assert multiset(o1)[y] == multiset(o2)[y];
    }
  }

  /** The lines of an order split around one key. */
  lemma LinesAround(m: map<string, string>, o: seq<string>, i: nat)
    requires forall k :: k in o ==> k in m
    requires i < |o|
    ensures multiset(Lines(m, o)) == multiset(Lines(m, o[..i] + o[i + 1..])) + multiset{Line(o[i], m[o[i]])}
  {
    assert o == o[..i] + [o[i]] + o[i + 1..];
    LinesAppend(m, o[..i] + [o[i]], o[i + 1..]);
    LinesAppend(m, o[..i], [o[i]]);
    LinesAppend(m, o[..i], o[i + 1..]);
  }

  /** Orders with the same keys, counted with multiplicity, write the same lines. */
  lemma {:induction false} LinesRespectPermutation(m: map<string, string>, o1: seq<string>, o2: seq<string>)
    requires forall k :: k in o1 ==> k in m
    requires multiset(o1) == multiset(o2)
    ensures forall k :: k in o2 ==> k in m
    ensures multiset(Lines(m, o1)) == multiset(Lines(m, o2))
    decreases |o1|
  {
    forall k | k in o2 ensures k in m {
      assert k in multiset(o2);
    }
    if o1 != [] {
      var init, x := o1[..|o1| - 1], o1[|o1| - 1];
      assert x in multiset(o2) by { assert x in multiset(o1); }
      var i :| 0 <= i < |o2| && o2[i] == x;
      RemoveFromPermutation(o1, o2, i);
      LinesRespectPermutation(m, init, o2[..i] + o2[i + 1..]);
      LinesAround(m, o2, i);
      assert Lines(m, o1) == Lines(m, init) + [Line(x, m[x])];
    }
  }

  /**
   * Whatever order Go visits the map in, the blob consists of the same lines:
   * one per entry, each line once.
   */
  lemma SameLinesInEveryOrder(m: map<string, string>, o1: seq<string>, o2: seq<string>)
    requires IsKeyOrder(o1, m) && IsKeyOrder(o2, m)
    ensures multiset(Lines(m, o1)) == multiset(Lines(m, o2))
    ensures forall k :: k in m ==> Line(k, m[k]) in Lines(m, o1)
  {
    KeyOrdersPermute(m, o1, o2);
    LinesRespectPermutation(m, o1, o2);
    forall k | k in m ensures Line(k, m[k]) in Lines(m, o1) {
      var i :| 0 <= i < |o1| && o1[i] == k;
      assert Lines(m, o1)[i] == Line(k, m[k]);
    }
  }

  lemma ConcatPair(x: string, y: string)
    ensures Concat([x, y]) == x + y
  {
    assert [x, y][..1] == [x];
    assert [x][..0] == [];
    assert Concat([x]) == Concat([]) + x;
    assert Concat([x]) == x;
  }

  /** The blob for a two-key order. */
  lemma TwoKeyText(m: map<string, string>, a: string, b: string)
    requires a in m && b in m
    ensures PropertiesText(m, [a, b]) == Line(a, m[a]) + Line(b, m[b])
  {
    assert Lines(m, [a, b]) == [Line(a, m[a]), Line(b, m[b])];
    ConcatPair(Line(a, m[a]), Line(b, m[b]));
  }

  /**
   * The blob itself does depend on the order: two entries visited in the two
   * possible orders give two different strings.
   */
  lemma TextDependsOnOrder()
    ensures var m := map["a" := "1", "b" := "2"];
      && IsKeyOrder(["a", "b"], m) && IsKeyOrder(["b", "a"], m)
      && PropertiesText(m, ["a", "b"]) == Line("a", "1") + Line("b", "2")
      && PropertiesText(m, ["b", "a"]) == Line("b", "2") + Line("a", "1")
      && PropertiesText(m, ["a", "b"]) != PropertiesText(m, ["b", "a"])
  {
    var m := map["a" := "1", "b" := "2"];
    TwoKeyText(m, "a", "b");
    TwoKeyText(m, "b", "a");
    assert (Line("a", "1") + Line("b", "2"))[0] == 'a';
    assert (Line("b", "2") + Line("a", "1"))[0] == 'b';
  }
}
