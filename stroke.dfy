/**
 * Chord algebra: a chord (a stroke) is a set of keys of the English
 * Stenotype layout. Models `remap` and `decompose` of plover_vi/stroke.py.
 */
module Stroke {
  import opened Options

  /** The keys of the English Stenotype layout, in steno order:
      # S- T- K- P- W- H- R- A- O- * -E -U -F -R -P -B -L -G -T -S -D -Z */
  datatype Key =
    | Number | LS | LT | LK | LP | LW | LH | LR | A | O | Star
    | E | U | RF | RR | RP | RB | RL | RG | RT | RS | RD | RZ

  type Chord = set<Key>

  /** Renames every key of `c` through `keymap`; every key must have an image. */
  function Remap(c: Chord, keymap: map<Key, Key>): (r: Chord)
    requires c <= keymap.Keys
    ensures forall k :: k in c ==> keymap[k] in r
    ensures forall k' :: k' in r ==> exists k :: k in c && keymap[k] == k'
  {
    set k | k in c :: keymap[k]
  }

  /** A remapped chord uses only keys the map produces. */
  lemma RemapRange(c: Chord, keymap: map<Key, Key>)
    requires c <= keymap.Keys
    ensures Remap(c, keymap) <= keymap.Values
  {
    forall k' | k' in Remap(c, keymap) ensures k' in keymap.Values {
      var k :| k in c && keymap[k] == k';
    }
  }

  /** A key map that sends distinct keys to distinct keys. */
  predicate Injective(keymap: map<Key, Key>)
  {
    forall k1, k2 :: k1 in keymap && k2 in keymap && keymap[k1] == keymap[k2] ==> k1 == k2
  }

  /** A key map that another undoes is injective. */
  lemma UndoneIsInjective(forth: map<Key, Key>, back: map<Key, Key>)
    requires forall k :: k in forth ==> forth[k] in back && back[forth[k]] == k
    ensures Injective(forth)
  {
  }

  /** Remapping through an injective key map tells chords apart. */
  lemma RemapInjective(keymap: map<Key, Key>)
    requires Injective(keymap)
    ensures forall c1, c2 ::
      (c1 <= keymap.Keys && c2 <= keymap.Keys && Remap(c1, keymap) == Remap(c2, keymap)) ==> c1 == c2
  {
    forall c1, c2 | c1 <= keymap.Keys && c2 <= keymap.Keys && Remap(c1, keymap) == Remap(c2, keymap)
      ensures c1 == c2
    {
      forall k | k in c1 ensures k in c2 {
        var k2 :| k2 in c2 && keymap[k2] == keymap[k];
      }
      forall k | k in c2 ensures k in c1 {
        var k1 :| k1 in c1 && keymap[k1] == keymap[k];
      }
    }
  }

  /** `back` undoes `forth` on every key of `c`. */
  ghost predicate InvertsOn(forth: map<Key, Key>, back: map<Key, Key>, c: Chord)
  {
    c <= forth.Keys && forall k :: k in c ==> forth[k] in back && back[forth[k]] == k
  }

  /** Remapping through a map and then through its inverse gives the chord back. */
  lemma RemapInverse(c: Chord, forth: map<Key, Key>, back: map<Key, Key>)
    requires InvertsOn(forth, back, c)
    ensures Remap(c, forth) <= back.Keys
    ensures Remap(Remap(c, forth), back) == c
  {
    var m := Remap(c, forth);
    forall k' | k' in m ensures k' in back {
      var k :| k in c && forth[k] == k';
    }
    var r := Remap(m, back);
    forall k | k in c ensures k in r {
      assert forth[k] in m;
    }
    forall k | k in r ensures k in c {
      var k' :| k' in m && back[k'] == k;
      var j :| j in c && forth[j] == k';
    }
  }

  /** The union of the first `n` masks. */
  function UnionUpTo(masks: seq<Chord>, n: nat): Chord
    requires n <= |masks|
  {
    if n == 0 then {} else UnionUpTo(masks, n - 1) + masks[n - 1]
  }

  /** The union of all the masks. */
  function Union(masks: seq<Chord>): Chord
  {
    UnionUpTo(masks, |masks|)
  }

  /** The assertion that decompose makes on its masks: no mask meets the
      union of the masks before it. */
  predicate Separated(masks: seq<Chord>)
  {
    forall i :: 0 <= i < |masks| ==> masks[i] * UnionUpTo(masks, i) == {}
  }

  /** What decompose returns when its assertion holds: for each mask, the keys
      of the mask that are still in the chord, then what is left of the chord. */
  function Fields(chord: Chord, masks: seq<Chord>): (r: seq<Chord>)
  {
    seq(|masks| + 1, i requires 0 <= i <= |masks| =>
      if i < |masks| then (chord - UnionUpTo(masks, i)) * masks[i] else chord - Union(masks))
  }

  /** The loop of decompose: it slices off each mask in turn, asserting that it
      does not overlap the masks already consumed; None is the failed assertion. */
  method Decompose(chord: Chord, masks: seq<Chord>) returns (r: Option<seq<Chord>>)
    ensures r.Some? <==> Separated(masks)
    ensures r.Some? ==> r.value == Fields(chord, masks)
  {
    var stroke := chord;
    var combinedBefore: Chord := {};
    var result: seq<Chord> := [];
    for i := 0 to |masks|
      invariant combinedBefore == UnionUpTo(masks, i)
      invariant stroke == chord - combinedBefore
      invariant |result| == i
      invariant forall j :: 0 <= j < i ==> result[j] == (chord - UnionUpTo(masks, j)) * masks[j]
      invariant forall j :: 0 <= j < i ==> masks[j] * UnionUpTo(masks, j) == {}
    {
      var part := masks[i];
      result := result + [stroke * part];
      stroke := stroke - part;
      if combinedBefore * part != {} {
        assert !(masks[i] * UnionUpTo(masks, i) == {});
        return None;
      }
      combinedBefore := combinedBefore + part;
    }
    result := result + [stroke];
    assert |result| == |Fields(chord, masks)|;
    assert forall j :: 0 <= j < |result| ==> result[j] == Fields(chord, masks)[j];
    return Some(result);
  }

  /** A key is in the union of the first n masks exactly when one of them holds it. */
  lemma {:induction false} UnionMembers(masks: seq<Chord>, n: nat)
    requires n <= |masks|
    ensures forall k :: k in UnionUpTo(masks, n) <==> exists i :: 0 <= i < n && k in masks[i]
  {
    if n > 0 {
      UnionMembers(masks, n - 1);
    }
  }

  /** The assertion of decompose holds exactly when the masks are pairwise disjoint. */
  lemma SeparatedIffPairwiseDisjoint(masks: seq<Chord>)
    ensures Separated(masks) <==>
            forall i, j :: 0 <= i < j < |masks| ==> masks[i] * masks[j] == {}
  {
    if Separated(masks) {
      forall i, j | 0 <= i < j < |masks| ensures masks[i] * masks[j] == {} {
        UnionMembers(masks, j);
        forall k | k in masks[i] ensures k !in masks[j] {
          assert k in UnionUpTo(masks, j);
          assert k !in masks[j] * UnionUpTo(masks, j);
        }
      }
    }
    if forall i, j :: 0 <= i < j < |masks| ==> masks[i] * masks[j] == {} {
      forall j | 0 <= j < |masks| ensures masks[j] * UnionUpTo(masks, j) == {} {
        UnionMembers(masks, j);
        forall k | k in UnionUpTo(masks, j) ensures k !in masks[j] {
          var i :| 0 <= i < j && k in masks[i];
          assert k !in masks[i] * masks[j];
        }
      }
    }
  }

  /** decompose returns one field per mask and then the remainder; the fields are
      pairwise disjoint and together make up the chord, whatever the masks. */
  lemma FieldsPartition(chord: Chord, masks: seq<Chord>)
    ensures |Fields(chord, masks)| == |masks| + 1
    ensures forall i, j :: 0 <= i < j < |masks| + 1 ==> Fields(chord, masks)[i] * Fields(chord, masks)[j] == {}
    ensures forall k :: k in chord <==> exists i :: 0 <= i < |masks| + 1 && k in Fields(chord, masks)[i]
  {
    var f := Fields(chord, masks);
    forall j | 0 <= j <= |masks| {
      UnionMembers(masks, j);
    }
    forall i, j | 0 <= i < j < |masks| + 1 ensures f[i] * f[j] == {} {
      forall k | k in f[i] ensures k in UnionUpTo(masks, j) {
        assert k in masks[i];
      }
    }
    forall k | k in chord ensures exists i :: 0 <= i < |masks| + 1 && k in f[i] {
      if k in Union(masks) {
        var i := FirstHolder(masks, k);
        assert k in f[i];
      } else {
        assert k in f[|masks|];
      }
    }
  }

  /** The first mask that holds a key of the union. */
  function FirstHolder(masks: seq<Chord>, k: Key): (i: nat)
    requires k in Union(masks)
    ensures i < |masks| && k in masks[i] && k !in UnionUpTo(masks, i)
  {
    FirstHolderBelow(masks, k, |masks|)
  }

  function FirstHolderBelow(masks: seq<Chord>, k: Key, n: nat): (i: nat)
    requires n <= |masks| && k in UnionUpTo(masks, n)
    ensures i < n && k in masks[i] && k !in UnionUpTo(masks, i)
  {
    if k in UnionUpTo(masks, n - 1) then FirstHolderBelow(masks, k, n - 1) else n - 1
  }

  /** With disjoint masks, field i is the chord intersected with mask i, and the
      remainder is the chord minus every mask. */
  lemma FieldsOfSeparated(chord: Chord, masks: seq<Chord>, i: nat)
    requires Separated(masks)
    requires i < |masks|
    ensures Fields(chord, masks)[i] == chord * masks[i]
    ensures Fields(chord, masks)[|masks|] == chord - Union(masks)
  {
    var u := UnionUpTo(masks, i);
    forall k | k in masks[i] ensures k !in u {
      assert k !in masks[i] * u;
    }
  }

  /** Cutting a chord made of one part within each of disjoint masks gives
      back the parts, and nothing remains. */
  lemma FieldsOfJoin(parts: seq<Chord>, masks: seq<Chord>)
    requires Separated(masks) && |parts| == |masks|
    requires forall i :: 0 <= i < |parts| ==> parts[i] <= masks[i]
    ensures Fields(Union(parts), masks) == parts + [{}]
  {
    var f := Fields(Union(parts), masks);
    forall i | 0 <= i < |masks| ensures f[i] == parts[i] {
      FieldsOfSeparated(Union(parts), masks, i);
      JoinWithinMask(parts, masks, i);
    }
    JoinWithinUnion(parts, masks);
    assert f[|masks|] == {};
  }

  /** Of a chord made of one part within each of disjoint masks, mask i holds part i. */
  lemma JoinWithinMask(parts: seq<Chord>, masks: seq<Chord>, i: nat)
    requires Separated(masks) && |parts| == |masks| && i < |masks|
    requires forall i :: 0 <= i < |parts| ==> parts[i] <= masks[i]
    ensures Union(parts) * masks[i] == parts[i]
  {
    UnionMembers(parts, |parts|);
    SeparatedIffPairwiseDisjoint(masks);
    forall a, b, key | 0 <= a < |masks| && 0 <= b < |masks| && a != b && key in masks[a]
      ensures key !in masks[b]
    {
      if a < b {
        assert key !in masks[a] * masks[b];
      } else {
        assert key !in masks[b] * masks[a];
      }
    }
    forall k | k in Union(parts) * masks[i] ensures k in parts[i] {
      var j :| 0 <= j < |parts| && k in parts[j];
    }
    forall k | k in parts[i] ensures k in Union(parts) {
    }
  }

  /** The union of four parts, written out. */
  lemma UnionOfFour(a: Chord, b: Chord, c: Chord, d: Chord)
    ensures Union([a, b, c, d]) == a + b + c + d
  {
    var parts := [a, b, c, d];
    assert UnionUpTo(parts, 1) == a;
    assert UnionUpTo(parts, 2) == a + b;
    assert UnionUpTo(parts, 3) == a + b + c;
  }

  lemma UnionOfFive(a: Chord, b: Chord, c: Chord, d: Chord, e: Chord)
    ensures Union([a, b, c, d, e]) == a + b + c + d + e
  {
    var parts := [a, b, c, d, e];
    assert UnionUpTo(parts, 1) == a;
    assert UnionUpTo(parts, 2) == a + b;
    assert UnionUpTo(parts, 3) == a + b + c;
    assert UnionUpTo(parts, 4) == a + b + c + d;
  }

  /** A chord that meets a mask still meets it inside a larger chord. */
  lemma MeetsWithin(c: Chord, bigger: Chord, mask: Chord)
    requires c * mask != {} && c <= bigger
    ensures bigger * mask != {}
  {
    var k :| k in c * mask;
    assert k in bigger * mask;
  }

  /** A chord made of one part within each mask lies within the masks' union. */
  lemma JoinWithinUnion(parts: seq<Chord>, masks: seq<Chord>)
    requires |parts| == |masks|
    requires forall i :: 0 <= i < |parts| ==> parts[i] <= masks[i]
    ensures Union(parts) <= Union(masks)
  {
    UnionMembers(parts, |parts|);
    UnionMembers(masks, |masks|);
    forall k | k in Union(parts) ensures k in Union(masks) {
      var j :| 0 <= j < |parts| && k in parts[j];
    }
  }

  /** The example in the docstring of decompose: S-, T- and K- split by the masks
      {S-, -S} and {T-, -T}. */
  lemma DocstringExample()
    ensures Separated([{LS, RS}, {LT, RT}])
    ensures Fields({LS, LT, LK}, [{LS, RS}, {LT, RT}]) == [{LS}, {LT}, {LK}]
  {
    var masks: seq<Chord> := [{LS, RS}, {LT, RT}];
    assert UnionUpTo(masks, 1) == {LS, RS};
    assert Union(masks) == {LS, RS, LT, RT};
    var f := Fields({LS, LT, LK}, masks);
    assert f[0] == {LS} && f[1] == {LT} && f[2] == {LK};
  }
}
