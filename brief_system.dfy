/**
 * compression_sequence in construct_2_syllable_brief_system.py: the
 * partitions of the values of one syllable part (onsets, say) into fewer and
 * fewer groups, each with an index, so that a partition with 2^b groups fits
 * b bits of the chord.
 *
 * The function fills a list of n + 1 stages, stage n holding every key in a
 * group of its own and stage i - 1 being made from stage i by merging two
 * groups; stage i >= 2 is stored sorted by count.  The merge reads the list
 * as it was before sorting, so it always merges the first two groups of the
 * unsorted list (see Findings in README.md).  Each stage then becomes a
 * mapping from key to the index of its group.
 */
module BriefSystem {
  import opened Options
  import opened Sorting

  /** A group of keys merged into one, with their summed count. */
  type Group = (seq<string>, int)

  /** One stage: a MergedCounter. */
  type Stage = seq<Group>

  /** Sorting by non-increasing NegCount is Python's stable ascending sort
      by count, sorted(cur, key=itemgetter(1)). */
  function NegCount(g: Group): int
  {
    -g.1
  }

  function SortByCount(s: Stage): (r: Stage)
    ensures |r| == |s|
  {
    SortMembers(s, NegCount);
    SortDesc(s, NegCount)
  }

  /** Stage n before sorting: every key of the frequency table alone. */
  function Initial(frequency: seq<(string, int)>): Stage
  {
    seq(|frequency|, j requires 0 <= j < |frequency| => ([frequency[j].0], frequency[j].1))
  }

  /** The first two groups merged into one, in front of the others. */
  function Merge(cur: Stage): Stage
    requires |cur| >= 2
  {
    [(cur[0].0 + cur[1].0, cur[0].1 + cur[1].1)] + cur[2..]
  }

  /** The unsorted list after t merges. */
  function Unmerged(initial: Stage, t: nat): (r: Stage)
    requires t < |initial|
    ensures |r| == |initial| - t
  {
    if t == 0 then initial else Merge(Unmerged(initial, t - 1))
  }

  /** result[k] once the loop has finished: empty for k = 0, unsorted for
      k = 1, sorted by count above. */
  function Stored(frequency: seq<(string, int)>, k: nat): (r: Stage)
    requires k <= |frequency|
    ensures |r| == k
  {
    if k == 0 then []
    else
      var cur := Unmerged(Initial(frequency), |frequency| - k);
      if k == 1 then cur else SortByCount(cur)
  }

  /** The inner loop of the comprehension: every key of a group set to the
      group's index, later keys overwriting. */
  function AddKeys(m: map<string, int>, keys: seq<string>, index: int): map<string, int>
    decreases |keys|
  {
    if keys == [] then m else AddKeys(m[keys[0] := index], keys[1..], index)
  }

  /** The mapping of a stage: each key to the index of its group, a later
      group overwriting an earlier one. */
  function Mapping(stage: Stage): map<string, int>
  {
    if stage == [] then map[] else AddKeys(Mapping(stage[..|stage| - 1]), stage[|stage| - 1].0, |stage| - 1)
  }

  /** All the keys of a stage, group after group. */
  function Flatten(stage: Stage): seq<string>
  {
    if stage == [] then [] else stage[0].0 + Flatten(stage[1..])
  }

  /** The summed count of a stage. */
  function Total(stage: Stage): int
  {
    if stage == [] then 0 else stage[0].1 + Total(stage[1..])
  }

  /** The keys of the frequency table, in order. */
  function Keys(frequency: seq<(string, int)>): seq<string>
  {
    if frequency == [] then [] else [frequency[0].0] + Keys(frequency[1..])
  }

  /** The summed count of the frequency table. */
  function Sum(frequency: seq<(string, int)>): int
  {
    if frequency == [] then 0 else frequency[0].1 + Sum(frequency[1..])
  }

  /** construct_2_syllable_brief_system.py:56-75 as written.  With no keys
      the check len(result[1]) == 1 indexes past the list and fails, which is
      None here; otherwise both of its asserts hold. */
  method CompressionSequence(frequency: seq<(string, int)>) returns (r: Option<seq<map<string, int>>>)
    ensures r.None? <==> frequency == []
    ensures r.Some? ==> r.value == seq(|frequency| + 1, k requires 0 <= k <= |frequency| => Mapping(Stored(frequency, k)))
  {
    var n := |frequency|;
    var result := new Stage[n + 1](_ => []);
    result[n] := Initial(frequency);
    var i := n;
    while i > 1
      invariant 0 <= i <= n && (n >= 1 ==> i >= 1)
      invariant n >= 1 ==> result[i] == Unmerged(Initial(frequency), n - i)
      invariant forall k :: i < k <= n ==> result[k] == SortByCount(Unmerged(Initial(frequency), n - k))
      invariant forall k :: 0 <= k < i ==> result[k] == []
    {
      var cur := result[i];
      result[i] := SortByCount(cur);
      result[i - 1] := Merge(cur);
      i := i - 1;
    }
    if n == 0 {
      return None;
    }
    assert |result[1]| == 1;
    assert result[0] == [];
    var stages := result[..];
    assert forall k :: 0 <= k <= n ==> stages[k] == Stored(frequency, k);
    r := Some(seq(n + 1, k requires 0 <= k <= n => Mapping(stages[k])));
  }

  // ---------------------------------------------------------------------
  // Properties

  lemma {:induction false} FlattenAppend(a: Stage, b: Stage)
    ensures Flatten(a + b) == Flatten(a) + Flatten(b)
    ensures Total(a + b) == Total(a) + Total(b)
  {
    if a != [] {
      assert (a + b)[0] == a[0];
      assert (a + b)[1..] == a[1..] + b;
      FlattenAppend(a[1..], b);
    } else {
      assert a + b == b;
    }
  }

  /** A merge keeps the keys in their order and the summed count. */
  lemma MergeKeeps(cur: Stage)
    requires |cur| >= 2
    ensures Flatten(Merge(cur)) == Flatten(cur)
    ensures Total(Merge(cur)) == Total(cur)
  {
    var g, rest := (cur[0].0 + cur[1].0, cur[0].1 + cur[1].1), cur[2..];
    assert Merge(cur) == [g] + rest;
    assert cur == [cur[0], cur[1]] + rest;
    FlattenAppend([g], rest);
    FlattenAppend([cur[0], cur[1]], rest);
    FlattenPair(cur[0], cur[1]);
    FlattenPair(g, ([], 0));
  }

  lemma FlattenPair(a: Group, b: Group)
    ensures Flatten([a]) == a.0 && Total([a]) == a.1
    ensures Flatten([a, b]) == a.0 + b.0 && Total([a, b]) == a.1 + b.1
  {
    assert [a][1..] == [];
    assert [a, b][1..] == [b];
    assert [b][1..] == [];
  }

  lemma {:induction false} UnmergedKeys(initial: Stage, t: nat)
    requires t < |initial|
    ensures Flatten(Unmerged(initial, t)) == Flatten(initial)
  {
    if t > 0 {
      UnmergedKeys(initial, t - 1);
      MergeKeeps(Unmerged(initial, t - 1));
    }
  }

  lemma {:induction false} UnmergedTotal(initial: Stage, t: nat)
    requires t < |initial|
    ensures Total(Unmerged(initial, t)) == Total(initial)
  {
    if t > 0 {
      UnmergedTotal(initial, t - 1);
      MergeKeeps(Unmerged(initial, t - 1));
    }
  }

  /** The as-written merges fold the groups in input order: after t merges
      the first group holds the first t + 1 groups and the rest are
      untouched. */
  lemma {:induction false} UnmergedFolds(initial: Stage, t: nat)
    requires t < |initial|
    ensures Unmerged(initial, t)[0] == (Flatten(initial[..t + 1]), Total(initial[..t + 1]))
    ensures Unmerged(initial, t)[1..] == initial[t + 1..]
  {
    if t == 0 {
      assert initial[..1] == [initial[0]];
      FlattenPair(initial[0], initial[0]);
    } else {
      UnmergedFolds(initial, t - 1);
      var prev := Unmerged(initial, t - 1);
      assert prev[1] == prev[1..][0] == initial[t];
      assert prev[2..] == prev[1..][1..] == initial[t + 1..];
      assert Unmerged(initial, t) == Merge(prev);
      assert initial[..t + 1] == initial[..t] + [initial[t]];
      FlattenAppend(initial[..t], [initial[t]]);
      FlattenPair(initial[t], initial[t]);
    }
  }

  lemma {:induction false} InitialKeys(frequency: seq<(string, int)>)
    ensures Flatten(Initial(frequency)) == Keys(frequency)
  {
    if frequency != [] {
      assert Initial(frequency)[1..] == Initial(frequency[1..]);
      InitialKeys(frequency[1..]);
    }
  }

  lemma {:induction false} InitialTotal(frequency: seq<(string, int)>)
    ensures Total(Initial(frequency)) == Sum(frequency)
  {
    if frequency != [] {
      assert Initial(frequency)[1..] == Initial(frequency[1..]);
      InitialTotal(frequency[1..]);
    }
  }

  /** A key is in the flattened stage exactly when some group holds it. */
  lemma {:induction false} InFlatten(stage: Stage)
    ensures forall x :: x in Flatten(stage) ==> exists i :: 0 <= i < |stage| && x in stage[i].0
    ensures forall i, x :: 0 <= i < |stage| && x in stage[i].0 ==> x in Flatten(stage)
  {
    if stage != [] {
      InFlatten(stage[1..]);
      forall x | x in Flatten(stage) ensures exists i :: 0 <= i < |stage| && x in stage[i].0 {
        if x !in stage[0].0 {
          assert x in Flatten(stage[1..]);
          var i :| 0 <= i < |stage[1..]| && x in stage[1..][i].0;
          assert stage[i + 1] == stage[1..][i];
        }
      }
      forall i, x | 0 <= i < |stage| && x in stage[i].0 ensures x in Flatten(stage) {
        if i > 0 {
          assert stage[1..][i - 1] == stage[i];
        }
      }
    }
  }

  lemma {:induction false} InsertTotal(x: Group, s: Stage)
    ensures Total(InsertDesc(x, s, NegCount)) == x.1 + Total(s)
  {
    if s != [] && NegCount(x) < NegCount(s[0]) {
      InsertTotal(x, s[1..]);
    }
  }

  lemma {:induction false} SortTotal(s: Stage)
    ensures Total(SortByCount(s)) == Total(s)
  {
    if s != [] {
      SortTotal(s[1..]);
      InsertTotal(s[0], SortByCount(s[1..]));
    }
  }

  /** Every stage but stage 0 holds the whole count of the frequency table. */
  lemma StoredTotal(frequency: seq<(string, int)>, k: nat)
    requires 1 <= k <= |frequency|
    ensures Total(Stored(frequency, k)) == Sum(frequency)
  {
    UnmergedSum(frequency, k);
    if k >= 2 {
      SortTotal(Unmerged(Initial(frequency), |frequency| - k));
    }
  }

  /** The unsorted list with k groups holds the whole count. */
  lemma UnmergedSum(frequency: seq<(string, int)>, k: nat)
    requires 1 <= k <= |frequency|
    ensures Total(Unmerged(Initial(frequency), |frequency| - k)) == Sum(frequency)
  {
    InitialTotal(frequency);
    UnmergedTotal(Initial(frequency), |frequency| - k);
  }

  /** The unsorted list with k groups holds every key, in order. */
  lemma UnmergedKeysOf(frequency: seq<(string, int)>, k: nat)
    requires 1 <= k <= |frequency|
    ensures Flatten(Unmerged(Initial(frequency), |frequency| - k)) == Keys(frequency)
  {
    InitialKeys(frequency);
    UnmergedKeys(Initial(frequency), |frequency| - k);
  }

  /** A stage stored sorted runs by non-decreasing count. */
  lemma StoredAscending(frequency: seq<(string, int)>, k: nat)
    requires 2 <= k <= |frequency|
    ensures forall a, b :: 0 <= a < b < k ==> Stored(frequency, k)[a].1 <= Stored(frequency, k)[b].1
  {
    var cur := Unmerged(Initial(frequency), |frequency| - k);
    SortMembers(cur, NegCount);
    SortedDescending(cur, NegCount);
    var s := Stored(frequency, k);
    forall a, b | 0 <= a < b < k ensures s[a].1 <= s[b].1 {
      assert NegCount(s[a]) >= NegCount(s[b]);
    }
  }

  lemma {:induction false} AddKeysOf(m: map<string, int>, keys: seq<string>, index: int)
    ensures forall x :: x in keys ==> x in AddKeys(m, keys, index) && AddKeys(m, keys, index)[x] == index
    ensures forall x :: x !in keys ==> (x in AddKeys(m, keys, index) <==> x in m)
    ensures forall x :: x !in keys && x in m ==> AddKeys(m, keys, index)[x] == m[x]
    decreases |keys|
  {
    if keys != [] {
      AddKeysOf(m[keys[0] := index], keys[1..], index);
      assert keys == [keys[0]] + keys[1..];
    }
  }

  /** The mapping sends a key to a group that holds it. */
  lemma {:induction false} MappingSound(stage: Stage)
    ensures forall x :: x in Mapping(stage) ==> 0 <= Mapping(stage)[x] < |stage| && x in stage[Mapping(stage)[x]].0
  {
    if stage != [] {
      var init := stage[..|stage| - 1];
      MappingSound(init);
      AddKeysOf(Mapping(init), stage[|stage| - 1].0, |stage| - 1);
      forall x | x in Mapping(stage) ensures 0 <= Mapping(stage)[x] < |stage| && x in stage[Mapping(stage)[x]].0 {
        if x !in stage[|stage| - 1].0 {
          assert stage[Mapping(init)[x]] == init[Mapping(init)[x]];
        }
      }
    }
  }

  /** The mapping holds every key of every group. */
  lemma {:induction false} MappingComplete(stage: Stage)
    ensures forall i, x :: 0 <= i < |stage| && x in stage[i].0 ==> x in Mapping(stage)
  {
    if stage != [] {
      var init := stage[..|stage| - 1];
      MappingComplete(init);
      AddKeysOf(Mapping(init), stage[|stage| - 1].0, |stage| - 1);
      forall i, x | 0 <= i < |stage| && x in stage[i].0 ensures x in Mapping(stage) {
        if i < |stage| - 1 {
          assert init[i] == stage[i];
        }
      }
    }
  }

  /** Sorting keeps the keys of a stage. */
  lemma SortKeys(cur: Stage)
    ensures forall x :: x in Flatten(SortByCount(cur)) <==> x in Flatten(cur)
  {
    var s := SortByCount(cur);
    SortMembers(cur, NegCount);
    InFlatten(cur);
    InFlatten(s);
    forall x | x in Flatten(s) ensures x in Flatten(cur) {
      var i :| 0 <= i < |s| && x in s[i].0;
      assert s[i] in cur;
      var j :| 0 <= j < |cur| && cur[j] == s[i];
    }
    forall x | x in Flatten(cur) ensures x in Flatten(s) {
      var j :| 0 <= j < |cur| && x in cur[j].0;
      assert cur[j] in s;
      var i :| 0 <= i < |s| && s[i] == cur[j];
    }
  }

  /** A stored stage holds exactly the keys of the frequency table. */
  lemma StoredKeys(frequency: seq<(string, int)>, k: nat)
    requires 1 <= k <= |frequency|
    ensures forall x :: x in Flatten(Stored(frequency, k)) <==> x in Keys(frequency)
  {
    UnmergedKeysOf(frequency, k);
    if k >= 2 {
      SortKeys(Unmerged(Initial(frequency), |frequency| - k));
    }
  }

  /** For k >= 1 the mapping of stage k holds exactly the keys of the
      frequency table, each with an index below k naming a group that holds
      it. */
  lemma MappingIndexes(frequency: seq<(string, int)>, k: nat)
    requires 1 <= k <= |frequency|
    ensures var m, s := Mapping(Stored(frequency, k)), Stored(frequency, k);
            (forall x :: x in m <==> x in Keys(frequency)) &&
            (forall x :: x in m ==> 0 <= m[x] < k && x in s[m[x]].0)
  {
    var s := Stored(frequency, k);
    StoredKeys(frequency, k);
    InFlatten(s);
    MappingSound(s);
    MappingComplete(s);
    forall x | x in Mapping(s) ensures x in Keys(frequency) {
      assert x in s[Mapping(s)[x]].0;
    }
    forall x | x in Keys(frequency) ensures x in Mapping(s) {
      var i :| 0 <= i < |s| && x in s[i].0;
    }
  }

  /** Every group of the last stage is a single key. */
  lemma LastSingletons(frequency: seq<(string, int)>)
    requires |frequency| >= 1
    ensures forall i :: 0 <= i < |frequency| ==> |Stored(frequency, |frequency|)[i].0| == 1
  {
    var init := Initial(frequency);
    var s := Stored(frequency, |frequency|);
    if |frequency| >= 2 {
      SortMembers(init, NegCount);
      forall i | 0 <= i < |frequency| ensures |s[i].0| == 1 {
        assert s[i] in init;
        var j :| 0 <= j < |init| && init[j] == s[i];
      }
    }
  }

  /** The last mapping gives distinct keys distinct indexes. */
  lemma LastIndexesDistinct(frequency: seq<(string, int)>)
    requires |frequency| >= 1
    ensures var m := Mapping(Stored(frequency, |frequency|));
            forall x, y :: x in m && y in m && x != y ==> m[x] != m[y]
  {
    var s := Stored(frequency, |frequency|);
    var m := Mapping(s);
    LastSingletons(frequency);
    MappingSound(s);
    forall x, y | x in m && y in m && x != y ensures m[x] != m[y] {
      assert x in s[m[x]].0 && y in s[m[y]].0;
      assert s[m[x]].0 == [s[m[x]].0[0]];
      assert s[m[y]].0 == [s[m[y]].0[0]];
    }
  }

  // ---------------------------------------------------------------------
  // The evidently intended merge: the two least common groups

  /** The list after t merges when each merge takes the first two groups of
      the list sorted by count. */
  function IntendedUnmerged(initial: Stage, t: nat): (r: Stage)
    requires t < |initial|
    ensures |r| == |initial| - t
  {
    if t == 0 then initial
    else
      var prev := IntendedUnmerged(initial, t - 1);
      SortMembers(prev, NegCount);
      Merge(SortByCount(prev))
  }

  /** Stage k of the intended sequence, stored as the code stores it. */
  function IntendedStored(frequency: seq<(string, int)>, k: nat): (r: Stage)
    requires k <= |frequency|
    ensures |r| == k
  {
    if k == 0 then []
    else
      var cur := IntendedUnmerged(Initial(frequency), |frequency| - k);
      if k == 1 then cur else SortByCount(cur)
  }

  /** Each intended merge joins two groups of the previous list whose counts
      are no larger than that of any group left out, and keeps the others. */
  lemma IntendedMergesLeast(initial: Stage, t: nat)
    requires t + 1 < |initial|
    ensures var cur, sorted := IntendedUnmerged(initial, t), SortByCount(IntendedUnmerged(initial, t));
            |sorted| == |cur| && multiset(sorted) == multiset(cur) &&
            (forall j :: 2 <= j < |sorted| ==> sorted[0].1 <= sorted[j].1 && sorted[1].1 <= sorted[j].1) &&
            IntendedUnmerged(initial, t + 1) == [(sorted[0].0 + sorted[1].0, sorted[0].1 + sorted[1].1)] + sorted[2..]
  {
    var cur := IntendedUnmerged(initial, t);
    var sorted := SortByCount(cur);
    SortMembers(cur, NegCount);
    SortPermutes(cur, NegCount);
    SortedDescending(cur, NegCount);
    forall j | 2 <= j < |sorted| ensures sorted[0].1 <= sorted[j].1 && sorted[1].1 <= sorted[j].1 {
      assert NegCount(sorted[0]) >= NegCount(sorted[j]);
      assert NegCount(sorted[1]) >= NegCount(sorted[j]);
    }
  }

  /** With counts a: 5, b: 1, c: 1 the code's stage 2 merges a, the most
      common key, with b, where merging the least common groups joins b
      and c. */
  lemma MergesFirstNotLeast()
    ensures var frequency := [("a", 5), ("b", 1), ("c", 1)];
            Stored(frequency, 2) == [(["c"], 1), (["a", "b"], 6)] &&
            IntendedStored(frequency, 2) == [(["b", "c"], 2), (["a"], 5)]
  {
    var frequency := [("a", 5), ("b", 1), ("c", 1)];
    var init := Initial(frequency);
    assert init == [(["a"], 5), (["b"], 1), (["c"], 1)];
    assert Unmerged(init, 0) == init && IntendedUnmerged(init, 0) == init;
    assert init[2..] == [(["c"], 1)];
    assert Merge(init) == [(["a"] + ["b"], 5 + 1)] + init[2..];
    assert ["a"] + ["b"] == ["a", "b"];
    var written := Unmerged(init, 1);
    assert written == [(["a", "b"], 6), (["c"], 1)];
    assert SortByCount([(["c"], 1)]) == [(["c"], 1)];
    assert SortByCount(written) == [(["c"], 1), (["a", "b"], 6)];
    assert SortByCount([(["c"], 1)]) == [(["c"], 1)];
    assert SortByCount([(["b"], 1), (["c"], 1)]) == [(["b"], 1), (["c"], 1)];
    assert SortByCount(init) == [(["b"], 1), (["c"], 1), (["a"], 5)];
    assert Merge([(["b"], 1), (["c"], 1), (["a"], 5)]) == [(["b"] + ["c"], 1 + 1)] + [(["a"], 5)];
    assert ["b"] + ["c"] == ["b", "c"];
    var intended := IntendedUnmerged(init, 1);
    assert intended == [(["b", "c"], 2), (["a"], 5)];
    assert SortByCount([(["a"], 5)]) == [(["a"], 5)];
    assert SortByCount(intended) == [(["b", "c"], 2), (["a"], 5)];
  }
}
