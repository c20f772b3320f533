/**
 * generate in generate_brief.py: the table of two-syllable briefs.
 *
 * The frequency list is sorted by count, its entries are merged onto the
 * spellings of the word list (Counter), the merged words are visited from
 * the most frequent down and each two-syllable word whose syllables both
 * use the new tone placement is filed under "onset1 nucleus1 onset2"
 * (defaultdict(list)); then every list loses the capitalised variants of
 * words it also holds in lowercase, and the groups are sorted by size.
 *
 * Python dicts remember the order in which their keys were first inserted,
 * and both sorts are stable, so the order of the result is determined; an
 * OrderedMap is such a dict.  The reverse index is passed in as decompose
 * (ReverseIndex.Index() in the running system).
 */
module GenerateBrief {
  import opened Options
  import opened Casing
  import opened Sorting
  import opened ReverseIndex
  import Dictionary

  /** A Python dict: its keys in insertion order and the value of each. */
  datatype OrderedMap<V> = OrderedMap(order: seq<string>, at: map<string, V>)

  predicate Distinct(s: seq<string>)
  {
    forall i, j :: 0 <= i < j < |s| ==> s[i] != s[j]
  }

  predicate Valid<V>(m: OrderedMap<V>)
  {
    Distinct(m.order) &&
    (forall i :: 0 <= i < |m.order| ==> m.order[i] in m.at) &&
    (forall k :: k in m.at ==> k in m.order)
  }

  function Empty<V>(): (m: OrderedMap<V>)
    ensures Valid(m)
  {
    OrderedMap([], map[])
  }

  /** d[k] = v: a new key goes to the end of the order, an existing key keeps
      its place. */
  function Put<V>(m: OrderedMap<V>, k: string, v: V): OrderedMap<V>
  {
    if k in m.at then OrderedMap(m.order, m.at[k := v]) else OrderedMap(m.order + [k], m.at[k := v])
  }

  /** Storing a key keeps the dict well formed. */
  lemma PutValid<V>(m: OrderedMap<V>, k: string, v: V)
    requires Valid(m)
    ensures Valid(Put(m, k, v))
  {
  }

  function Get<V>(m: OrderedMap<V>, k: string, default: V): V
  {
    if k in m.at then m.at[k] else default
  }

  /** d.items(), in insertion order. */
  function Items<V>(m: OrderedMap<V>): (r: seq<(string, V)>)
    requires Valid(m)
    ensures |r| == |m.order| && DistinctFirsts(r)
    ensures forall i :: 0 <= i < |r| ==> r[i] == (m.order[i], m.at[m.order[i]])
  {
    seq(|m.order|, i requires 0 <= i < |m.order| => (m.order[i], m.at[m.order[i]]))
  }

  /** Every key of the dict has its item, and every item is a key's. */
  lemma ItemsOf<V>(m: OrderedMap<V>)
    requires Valid(m)
    ensures forall k :: k in m.at ==> (k, m.at[k]) in Items(m)
    ensures forall item :: item in Items(m) ==> item.0 in m.at && item.1 == m.at[item.0]
  {
    forall k | k in m.at ensures (k, m.at[k]) in Items(m) {
      var i :| 0 <= i < |m.order| && m.order[i] == k;
      assert Items(m)[i] == (k, m.at[k]);
    }
  }

  function Count(item: (string, int)): int
  {
    item.1
  }

  function Size(item: (string, seq<string>)): int
  {
    |item.1|
  }

  // ---------------------------------------------------------------------
  // The word list (generate_brief.py:20)

  /** {word.casefold(): word for word in words}: a later word replaces an
      earlier one with the same casefold. */
  function Spellings(words: seq<string>): map<string, string>
  {
    if words == [] then map[]
    else Spellings(words[..|words| - 1])[Casefold(words[|words| - 1]) := words[|words| - 1]]
  }

  /** Each word of the list is reachable through its casefold, and each entry
      is a word of the list with that casefold. */
  lemma {:induction false} SpellingsOfWords(words: seq<string>)
    ensures forall w :: w in words ==> Casefold(w) in Spellings(words)
    ensures forall k :: k in Spellings(words) ==> Spellings(words)[k] in words && Casefold(Spellings(words)[k]) == k
  {
    if words != [] {
      var init := words[..|words| - 1];
      SpellingsOfWords(init);
      assert words == init + [words[|words| - 1]];
    }
  }

  /** The entry for a casefold is the last word of the list with it. */
  lemma {:induction false} SpellingsLastWins(words: seq<string>, j: nat)
    requires j < |words|
    requires forall j' :: j < j' < |words| ==> Casefold(words[j']) != Casefold(words[j])
    ensures Casefold(words[j]) in Spellings(words) && Spellings(words)[Casefold(words[j])] == words[j]
  {
    if j < |words| - 1 {
      var init := words[..|words| - 1];
      SpellingsLastWins(init, j);
    }
  }

  // ---------------------------------------------------------------------
  // Merging the counts (generate_brief.py:19-27)

  /** An entry of the frequency list lands on the word-list spelling k. */
  predicate LandsOn(e: (string, int), spellings: map<string, string>, k: string)
  {
    Casefold(e.0) in spellings && spellings[Casefold(e.0)] == k
  }

  /** The Counter after the entries have been added, in order: an entry whose
      casefold is not in the word list is skipped (the KeyError), any other
      adds its count to its word-list spelling. */
  function Merged(entries: seq<(string, int)>, spellings: map<string, string>): OrderedMap<int>
  {
    if entries == [] then Empty()
    else
      var m := Merged(entries[..|entries| - 1], spellings);
      var (word, count) := entries[|entries| - 1];
      if Casefold(word) !in spellings then m
      else Put(m, spellings[Casefold(word)], Get(m, spellings[Casefold(word)], 0) + count)
  }

  lemma {:induction false} MergedValid(entries: seq<(string, int)>, spellings: map<string, string>)
    ensures Valid(Merged(entries, spellings))
  {
    if entries != [] {
      var m := Merged(entries[..|entries| - 1], spellings);
      MergedValid(entries[..|entries| - 1], spellings);
      var folded := Casefold(entries[|entries| - 1].0);
      if folded in spellings {
        PutValid(m, spellings[folded], Get(m, spellings[folded], 0) + entries[|entries| - 1].1);
      }
    }
  }

  /** The reference count of a spelling: the sum of the counts of the entries
      that land on it. */
  function CountFor(entries: seq<(string, int)>, spellings: map<string, string>, k: string): int
  {
    if entries == [] then 0
    else (if LandsOn(entries[0], spellings, k) then entries[0].1 else 0) + CountFor(entries[1..], spellings, k)
  }

  lemma {:induction false} CountForAppend(a: seq<(string, int)>, b: seq<(string, int)>, spellings: map<string, string>, k: string)
    ensures CountFor(a + b, spellings, k) == CountFor(a, spellings, k) + CountFor(b, spellings, k)
  {
    if a != [] {
      assert (a + b)[0] == a[0];
      assert (a + b)[1..] == a[1..] + b;
      CountForAppend(a[1..], b, spellings, k);
    } else {
      assert a + b == b;
    }
  }

  /** The words the Counter holds are exactly the spellings some entry lands
      on. */
  lemma {:induction false} MergedKeys(entries: seq<(string, int)>, spellings: map<string, string>)
    ensures forall k :: k in Merged(entries, spellings).at ==>
              exists i :: 0 <= i < |entries| && LandsOn(entries[i], spellings, k)
    ensures forall i :: 0 <= i < |entries| && Casefold(entries[i].0) in spellings ==>
              spellings[Casefold(entries[i].0)] in Merged(entries, spellings).at
  {
    if entries != [] {
      var init := entries[..|entries| - 1];
      MergedKeys(init, spellings);
      forall k | k in Merged(entries, spellings).at
        ensures exists i :: 0 <= i < |entries| && LandsOn(entries[i], spellings, k)
      {
        if k in Merged(init, spellings).at {
          var i :| 0 <= i < |init| && LandsOn(init[i], spellings, k);
          assert entries[i] == init[i];
        } else {
          assert LandsOn(entries[|entries| - 1], spellings, k);
        }
      }
      forall i | 0 <= i < |entries| && Casefold(entries[i].0) in spellings
        ensures spellings[Casefold(entries[i].0)] in Merged(entries, spellings).at
      {
        if i < |init| {
          assert entries[i] == init[i];
        }
      }
    }
  }

  /** Each word's merged count is the sum of the counts landing on it. */
  lemma {:induction false} MergedCounts(entries: seq<(string, int)>, spellings: map<string, string>)
    ensures forall k :: k in Merged(entries, spellings).at ==>
              Merged(entries, spellings).at[k] == CountFor(entries, spellings, k)
  {
    if entries != [] {
      var init, last := entries[..|entries| - 1], entries[|entries| - 1];
      MergedCounts(init, spellings);
      MergedKeys(init, spellings);
      assert entries == init + [last];
      forall k | k in Merged(entries, spellings).at
        ensures Merged(entries, spellings).at[k] == CountFor(entries, spellings, k)
      {
        CountForAppend(init, [last], spellings, k);
        assert [last][1..] == [];
        if k !in Merged(init, spellings).at {
          assert CountFor(init, spellings, k) == 0 by {
            NoneLand(init, spellings, k);
          }
        }
      }
    }
  }

  /** A spelling no entry lands on has count 0. */
  lemma {:induction false} NoneLand(entries: seq<(string, int)>, spellings: map<string, string>, k: string)
    requires forall i :: 0 <= i < |entries| ==> !LandsOn(entries[i], spellings, k)
    ensures CountFor(entries, spellings, k) == 0
  {
    if entries != [] {
      NoneLand(entries[1..], spellings, k);
    }
  }

  lemma {:induction false} CountForInsert(x: (string, int), s: seq<(string, int)>, spellings: map<string, string>, k: string)
    ensures CountFor(InsertDesc(x, s, Count), spellings, k) == CountFor([x] + s, spellings, k)
  {
    if s != [] && x.1 < s[0].1 {
      var tail := InsertDesc(x, s[1..], Count);
      assert InsertDesc(x, s, Count) == [s[0]] + tail;
      assert ([s[0]] + tail)[1..] == tail;
      CountForInsert(x, s[1..], spellings, k);
      assert ([x] + s[1..])[1..] == s[1..];
      assert ([x] + s)[1..] == s;
    }
  }

  /** Sorting the frequency list first changes no sum. */
  lemma {:induction false} CountForSorted(s: seq<(string, int)>, spellings: map<string, string>, k: string)
    ensures CountFor(SortDesc(s, Count), spellings, k) == CountFor(s, spellings, k)
  {
    if s != [] {
      CountForSorted(s[1..], spellings, k);
      CountForInsert(s[0], SortDesc(s[1..], Count), spellings, k);
      assert ([s[0]] + SortDesc(s[1..], Count))[1..] == SortDesc(s[1..], Count);
    }
  }

  /** One more entry of the frequency list. */
  lemma MergedStep(entries: seq<(string, int)>, spellings: map<string, string>, i: nat)
    requires i < |entries|
    ensures Casefold(entries[i].0) !in spellings ==>
              Merged(entries[..i + 1], spellings) == Merged(entries[..i], spellings)
    ensures Casefold(entries[i].0) in spellings ==>
              var m, k := Merged(entries[..i], spellings), spellings[Casefold(entries[i].0)];
              Merged(entries[..i + 1], spellings) == Put(m, k, Get(m, k, 0) + entries[i].1)
  {
    assert entries[..i + 1][..i] == entries[..i];
  }

  /** generate_brief.py:21-27 as written: the loop that fills the Counter. */
  method MergeCounts(frequencyList: seq<(string, int)>, spellings: map<string, string>)
    returns (tally: OrderedMap<int>)
    ensures tally == Merged(frequencyList, spellings)
  {
    tally := Empty();
    for i := 0 to |frequencyList|
      invariant tally == Merged(frequencyList[..i], spellings)
    {
      var word, count := frequencyList[i].0, frequencyList[i].1;
      var folded := Casefold(word);
      MergedStep(frequencyList, spellings, i);
      if folded in spellings {
        var spelling := spellings[folded];
        tally := Put(tally, spelling, Get(tally, spelling, 0) + count);
      }
    }
    assert frequencyList[..|frequencyList|] == frequencyList;
  }

  // ---------------------------------------------------------------------
  // Filing one word (generate_brief.py:29-46)

  /** [decompose[syllable.lower()] for syllable in syllables], or None when a
      syllable is missing (the KeyError). */
  function PartsOf(syllables: seq<string>, decompose: map<string, SyllableParts>): (r: Option<seq<SyllableParts>>)
    ensures r.Some? <==> forall i :: 0 <= i < |syllables| ==> Lower(syllables[i]) in decompose
    ensures r.Some? ==> (|r.value| == |syllables| &&
              forall i :: 0 <= i < |syllables| ==> r.value[i] == decompose[Lower(syllables[i])])
  {
    if syllables == [] then Some([])
    else if Lower(syllables[0]) !in decompose then None
    else
      match PartsOf(syllables[1..], decompose)
      case None => None
      case Some(rest) => Some([decompose[Lower(syllables[0])]] + rest)
  }

  /** The key generate files a merged word under, or None when it skips the
      word. */
  function FiledUnder(word: string, decompose: map<string, SyllableParts>): Option<string>
  {
    match PartsOf(Split(word), decompose)
    case None => None
    case Some(parts) =>
      if |parts| != 2 then None
      else if !parts[0].newTonePlacement || !parts[1].newTonePlacement then None
      else Some(Join([parts[0].onset, parts[0].nucleus, parts[1].onset]))
  }

  /** A word is filed exactly when it splits into two syllables that are both
      in the reverse index with the new tone placement, and it is filed under
      "onset1 nucleus1 onset2", the key lookup reads for those parts. */
  lemma FiledUnderCriteria(word: string, decompose: map<string, SyllableParts>)
    ensures FiledUnder(word, decompose).Some? <==>
              var syllables := Split(word);
              |syllables| == 2 && Lower(syllables[0]) in decompose && Lower(syllables[1]) in decompose &&
              decompose[Lower(syllables[0])].newTonePlacement && decompose[Lower(syllables[1])].newTonePlacement
    ensures FiledUnder(word, decompose).Some? ==>
              var first, second := decompose[Lower(Split(word)[0])], decompose[Lower(Split(word)[1])];
              FiledUnder(word, decompose).value == Dictionary.BriefKey(first.onset, first.nucleus, second.onset)
  {
    var parts := PartsOf(Split(word), decompose);
    if parts.Some? && |parts.value| == 2 {
      var a, b, c := parts.value[0].onset, parts.value[0].nucleus, parts.value[1].onset;
      calc {
        Join([a, b, c]);
        { assert [a, b, c][1..] == [b, c]; }
        a + " " + Join([b, c]);
        { assert [b, c][1..] == [c]; }
        a + " " + (b + " " + c);
        a + " " + b + " " + c;
      }
    }
  }

  /** A word and its lowercase form are filed alike: Split and the lookups
      of the syllables see the same lowercase syllables. */
  lemma FiledUnderLower(word: string, decompose: map<string, SyllableParts>)
    ensures FiledUnder(Lower(word), decompose) == FiledUnder(word, decompose)
  {
    var a, b := Split(word), Split(Lower(word));
    SplitLower(word);
    forall i | 0 <= i < |a| ensures Lower(b[i]) == Lower(a[i]) {
      LowerLowered(a[i]);
    }
    var pa, pb := PartsOf(a, decompose), PartsOf(b, decompose);
    assert pa.Some? <==> pb.Some?;
    if pa.Some? {
      assert pa.value == pb.value;
    }
  }

  /** A filed word is not empty, so filter drops none of them. */
  lemma FiledIsNotEmpty(word: string, decompose: map<string, SyllableParts>)
    requires FiledUnder(word, decompose).Some?
    ensures word != ""
  {
  }

  // ---------------------------------------------------------------------
  // Grouping (generate_brief.py:29-46)

  /** The defaultdict(list) after the merged words have been visited in
      order: a filed word is appended to the list of its key. */
  function Grouped(ranked: seq<(string, int)>, decompose: map<string, SyllableParts>): OrderedMap<seq<string>>
  {
    if ranked == [] then Empty()
    else
      var g := Grouped(ranked[..|ranked| - 1], decompose);
      var word := ranked[|ranked| - 1].0;
      match FiledUnder(word, decompose)
      case None => g
      case Some(key) => Put(g, key, Get(g, key, []) + [word])
  }

  lemma {:induction false} GroupedValid(ranked: seq<(string, int)>, decompose: map<string, SyllableParts>)
    ensures Valid(Grouped(ranked, decompose))
  {
    if ranked != [] {
      var g := Grouped(ranked[..|ranked| - 1], decompose);
      var word := ranked[|ranked| - 1].0;
      GroupedValid(ranked[..|ranked| - 1], decompose);
      match FiledUnder(word, decompose)
      case None =>
      case Some(key) => PutValid(g, key, Get(g, key, []) + [word]);
    }
  }

  /** No list is empty. */
  lemma {:induction false} GroupedNonEmpty(ranked: seq<(string, int)>, decompose: map<string, SyllableParts>)
    ensures forall k :: k in Grouped(ranked, decompose).at ==> Grouped(ranked, decompose).at[k] != []
  {
    if ranked != [] {
      GroupedNonEmpty(ranked[..|ranked| - 1], decompose);
    }
  }

  /** Every listed word is filed under its key. */
  lemma {:induction false} GroupedFiled(ranked: seq<(string, int)>, decompose: map<string, SyllableParts>)
    ensures forall k, w :: k in Grouped(ranked, decompose).at && w in Grouped(ranked, decompose).at[k] ==>
              FiledUnder(w, decompose) == Some(k)
  {
    if ranked != [] {
      GroupedFiled(ranked[..|ranked| - 1], decompose);
    }
  }

  /** Every listed word is one of the visited words. */
  lemma {:induction false} GroupedFrom(ranked: seq<(string, int)>, decompose: map<string, SyllableParts>)
    ensures forall k, w :: k in Grouped(ranked, decompose).at && w in Grouped(ranked, decompose).at[k] ==>
              exists i :: 0 <= i < |ranked| && ranked[i].0 == w
  {
    if ranked != [] {
      var init := ranked[..|ranked| - 1];
      var last := ranked[|ranked| - 1].0;
      GroupedFrom(init, decompose);
      var g, g' := Grouped(init, decompose), Grouped(ranked, decompose);
      forall k, w | k in g'.at && w in g'.at[k]
        ensures exists i :: 0 <= i < |ranked| && ranked[i].0 == w
      {
        if w == last {
          assert ranked[|ranked| - 1].0 == w;
        } else {
          assert k in g.at && w in g.at[k];
          var i :| 0 <= i < |init| && init[i].0 == w;
          assert ranked[i] == init[i];
        }
      }
    }
  }

  /** Every visited word that is filed is in the list of its key. */
  lemma {:induction false} GroupedComplete(ranked: seq<(string, int)>, decompose: map<string, SyllableParts>)
    ensures forall i :: 0 <= i < |ranked| && FiledUnder(ranked[i].0, decompose).Some? ==>
              var k := FiledUnder(ranked[i].0, decompose).value;
              k in Grouped(ranked, decompose).at && ranked[i].0 in Grouped(ranked, decompose).at[k]
  {
    if ranked != [] {
      var init := ranked[..|ranked| - 1];
      GroupedComplete(init, decompose);
      forall i | 0 <= i < |ranked| && FiledUnder(ranked[i].0, decompose).Some?
        ensures var k := FiledUnder(ranked[i].0, decompose).value;
                k in Grouped(ranked, decompose).at && ranked[i].0 in Grouped(ranked, decompose).at[k]
      {
        if i < |init| {
          assert ranked[i] == init[i];
        }
      }
    }
  }

  /** The counts never increase along the list. */
  predicate CountOrdered(l: seq<string>, count: map<string, int>)
  {
    (forall a :: 0 <= a < |l| ==> l[a] in count) &&
    (forall a, b :: 0 <= a < b < |l| ==> count[l[a]] >= count[l[b]])
  }

  lemma AppendOrdered(l: seq<string>, w: string, count: map<string, int>)
    requires CountOrdered(l, count) && w in count
    requires forall x :: x in l ==> count[x] >= count[w]
    ensures CountOrdered(l + [w], count)
  {
    var l' := l + [w];
    forall a, b | 0 <= a < b < |l'| ensures count[l'[a]] >= count[l'[b]] {
      assert l'[a] == l[a];
      if b < |l| {
        assert l'[b] == l[b];
      } else {
        assert l[a] in l;
      }
    }
  }

  lemma AppendDistinct(l: seq<string>, w: string)
    requires Distinct(l) && w !in l
    ensures Distinct(l + [w])
  {
    var l' := l + [w];
    forall a, b | 0 <= a < b < |l'| ensures l'[a] != l'[b] {
      assert l'[a] == l[a];
      if b < |l| {
        assert l'[b] == l[b];
      } else {
        assert l[a] in l;
      }
    }
  }

  lemma PrefixFirstsDistinct(s: seq<(string, int)>, n: nat)
    requires DistinctFirsts(s) && n <= |s|
    ensures DistinctFirsts(s[..n])
  {
    forall i, j | 0 <= i < n && 0 <= j < n && i != j ensures s[..n][i].0 != s[..n][j].0 {
      assert s[..n][i] == s[i] && s[..n][j] == s[j];
    }
  }

  /** Visiting distinct words appends no word twice to a list. */
  lemma {:induction false} GroupedDistinct(ranked: seq<(string, int)>, decompose: map<string, SyllableParts>)
    requires DistinctFirsts(ranked)
    ensures forall k :: k in Grouped(ranked, decompose).at ==> Distinct(Grouped(ranked, decompose).at[k])
  {
    if ranked != [] {
      var n := |ranked| - 1;
      var init, last := ranked[..n], ranked[n].0;
      PrefixFirstsDistinct(ranked, n);
      GroupedDistinct(init, decompose);
      GroupedFrom(init, decompose);
      var g := Grouped(init, decompose);
      match FiledUnder(last, decompose)
      case None =>
      case Some(key) =>
        var l := Get(g, key, []);
        forall x | x in l ensures x != last {
          assert key in g.at && x in g.at[key];
          var i :| 0 <= i < |init| && init[i].0 == x;
          assert ranked[i] == init[i];
        }
        AppendDistinct(l, last);
    }
  }

  /** The merged words are visited in non-increasing count, so each list is in
      non-increasing count as well. */
  lemma {:induction false} GroupedOrdered(ranked: seq<(string, int)>, decompose: map<string, SyllableParts>,
                                          count: map<string, int>)
    requires NonIncreasing(ranked, Count)
    requires forall i :: 0 <= i < |ranked| ==> ranked[i].0 in count && count[ranked[i].0] == ranked[i].1
    ensures forall k :: k in Grouped(ranked, decompose).at ==> CountOrdered(Grouped(ranked, decompose).at[k], count)
  {
    if ranked != [] {
      var n := |ranked| - 1;
      var init, last := ranked[..n], ranked[n].0;
      assert NonIncreasing(init, Count) by {
        forall i, j | 0 <= i < j < |init| ensures Count(init[i]) >= Count(init[j]) {
          assert init[i] == ranked[i] && init[j] == ranked[j];
        }
      }
      forall i | 0 <= i < |init| ensures init[i].0 in count && count[init[i].0] == init[i].1 {
        assert init[i] == ranked[i];
      }
      GroupedOrdered(init, decompose, count);
      GroupedFrom(init, decompose);
      var g := Grouped(init, decompose);
      match FiledUnder(last, decompose)
      case None =>
      case Some(key) =>
        var l := Get(g, key, []);
        forall x | x in l ensures count[x] >= count[last] {
          assert key in g.at && x in g.at[key];
          var i :| 0 <= i < |init| && init[i].0 == x;
          assert ranked[i] == init[i];
          assert Count(ranked[i]) >= Count(ranked[n]);
        }
        AppendOrdered(l, last, count);
    }
  }

  lemma GroupedStep(ranked: seq<(string, int)>, decompose: map<string, SyllableParts>, i: nat)
    requires i < |ranked|
    ensures FiledUnder(ranked[i].0, decompose).None? ==>
              Grouped(ranked[..i + 1], decompose) == Grouped(ranked[..i], decompose)
    ensures FiledUnder(ranked[i].0, decompose).Some? ==>
              var g, k := Grouped(ranked[..i], decompose), FiledUnder(ranked[i].0, decompose).value;
              Grouped(ranked[..i + 1], decompose) == Put(g, k, Get(g, k, []) + [ranked[i].0])
  {
    assert ranked[..i + 1][..i] == ranked[..i];
  }

  /** generate_brief.py:29-46 as written: the loop over most_common() that
      fills the defaultdict. */
  method GroupWords(ranked: seq<(string, int)>, decompose: map<string, SyllableParts>)
    returns (data: OrderedMap<seq<string>>)
    ensures data == Grouped(ranked, decompose)
  {
    data := Empty();
    for i := 0 to |ranked|
      invariant data == Grouped(ranked[..i], decompose)
    {
      GroupedStep(ranked, decompose, i);
      var word := ranked[i].0;
      var key := FiledUnder(word, decompose);
      if key.Some? {
        data := Put(data, key.value, Get(data, key.value, []) + [word]);
      }
    }
    assert ranked[..|ranked|] == ranked;
  }

  // ---------------------------------------------------------------------
  // Removing cased duplicates (generate_brief.py:48-52)

  /** The in-place pass sets w to None: w is not lowercase and its lowercase
      form is in the list. */
  predicate Replaced(w: string, l: seq<string>)
  {
    w != Lower(w) && Lower(w) in l
  }

  /** What filter(None, ...) keeps of the first n cells after the pass: the
      words not replaced, except empty strings, which are false as well. */
  function KeptUpTo(l: seq<string>, n: nat): seq<string>
    requires n <= |l|
  {
    if n == 0 then []
    else KeptUpTo(l, n - 1) + (if !Replaced(l[n - 1], l) && l[n - 1] != "" then [l[n - 1]] else [])
  }

  /** A list after the removal of cased duplicates. */
  function Deduped(l: seq<string>): seq<string>
  {
    KeptUpTo(l, |l|)
  }

  /** The kept cells are cells of the list, in order. */
  lemma {:induction false} KeptFrom(l: seq<string>, n: nat)
    requires n <= |l|
    ensures forall x :: x in KeptUpTo(l, n) ==> exists j :: 0 <= j < n && l[j] == x && !Replaced(x, l) && x != ""
  {
    if n > 0 {
      KeptFrom(l, n - 1);
    }
  }

  lemma {:induction false} KeptAll(l: seq<string>, n: nat)
    requires n <= |l|
    ensures forall j :: 0 <= j < n && !Replaced(l[j], l) && l[j] != "" ==> l[j] in KeptUpTo(l, n)
  {
    if n > 0 {
      KeptAll(l, n - 1);
    }
  }

  /** A word survives exactly when it is in the list, is not empty, and is
      lowercase or has no lowercase form in the list. */
  lemma DedupedMembers(l: seq<string>)
    ensures forall w :: w in Deduped(l) ==> w in l && w != "" && !Replaced(w, l)
    ensures forall w :: w in l && w != "" && !Replaced(w, l) ==> w in Deduped(l)
  {
    KeptFrom(l, |l|);
    KeptAll(l, |l|);
  }

  /** After the removal, no list holds a word together with a different
      lowercase form of it, and every non-empty lowercase word is still there. */
  lemma DedupedCleans(l: seq<string>)
    ensures forall w :: w in Deduped(l) && w != Lower(w) ==> Lower(w) !in Deduped(l)
    ensures forall w :: w in l && w != "" && w == Lower(w) ==> w in Deduped(l)
  {
    DedupedMembers(l);
  }

  lemma {:induction false} KeptOrdered(l: seq<string>, n: nat, count: map<string, int>)
    requires n <= |l| && CountOrdered(l, count)
    ensures CountOrdered(KeptUpTo(l, n), count)
  {
    if n > 0 {
      KeptOrdered(l, n - 1, count);
      KeptFrom(l, n - 1);
      forall x | x in KeptUpTo(l, n - 1) ensures count[x] >= count[l[n - 1]] {
        var j :| 0 <= j < n - 1 && l[j] == x && !Replaced(x, l) && x != "";
      }
      if !Replaced(l[n - 1], l) && l[n - 1] != "" {
        AppendOrdered(KeptUpTo(l, n - 1), l[n - 1], count);
      }
    }
  }

  lemma {:induction false} KeptDistinct(l: seq<string>, n: nat)
    requires n <= |l| && Distinct(l)
    ensures Distinct(KeptUpTo(l, n))
  {
    if n > 0 {
      KeptDistinct(l, n - 1);
      KeptFrom(l, n - 1);
      var kept := KeptUpTo(l, n - 1);
      forall a | 0 <= a < |kept| ensures kept[a] != l[n - 1] {
        assert kept[a] in kept;
        var j :| 0 <= j < n - 1 && l[j] == kept[a] && !Replaced(kept[a], l) && kept[a] != "";
      }
      if !Replaced(l[n - 1], l) && l[n - 1] != "" {
        AppendDistinct(KeptUpTo(l, n - 1), l[n - 1]);
      }
    }
  }

  /** A list with a word in it keeps one after the removal: a word's lowercase
      form is never replaced. */
  lemma DedupedNonEmpty(l: seq<string>)
    requires l != [] && forall w :: w in l ==> w != ""
    ensures Deduped(l) != []
  {
    DedupedMembers(l);
    var w := l[0];
    LowerLowered(w);
    if Replaced(w, l) {
      assert Lower(w) in Deduped(l);
    } else {
      assert w in Deduped(l);
    }
  }

  /** generate_brief.py:49-52 as written on one list: the pass over the cells,
      which replaces words by None in place, then filter(None, ...). */
  method DedupList(l: seq<string>) returns (r: seq<string>)
    ensures r == Deduped(l)
  {
    var cells := new Option<string>[|l|](i requires 0 <= i < |l| => Some(l[i]));
    for i := 0 to cells.Length
      invariant forall j :: 0 <= j < cells.Length ==>
                  cells[j] == if j < i && Replaced(l[j], l) then None else Some(l[j])
    {
      var word := cells[i].value;
      var lower := Lower(word);
      LowerLowered(word);
      assert Some(lower) in cells[..] <==> lower in l by {
        if lower in l {
          var j :| 0 <= j < |l| && l[j] == lower;
          assert cells[..][j] == Some(lower);
        }
      }
      if word != lower && Some(lower) in cells[..] {
        cells[i] := None;
      }
    }
    r := [];
    for i := 0 to cells.Length
      invariant r == KeptUpTo(l, i)
    {
      if cells[i].Some? && cells[i].value != "" {
        r := r + [cells[i].value];
      }
    }
  }

  /** Every list of the dict after the removal of cased duplicates. */
  function DedupAll(g: OrderedMap<seq<string>>): OrderedMap<seq<string>>
  {
    OrderedMap(g.order, map k | k in g.at :: Deduped(g.at[k]))
  }

  lemma DedupAllValid(g: OrderedMap<seq<string>>)
    requires Valid(g)
    ensures Valid(DedupAll(g))
  {
  }

  /** generate_brief.py:48-52 as written: each list of the dict, in order,
      replaced by its deduplicated contents. */
  method DedupGroups(data: OrderedMap<seq<string>>) returns (result: OrderedMap<seq<string>>)
    requires Valid(data)
    ensures result == DedupAll(data)
  {
    result := data;
    for i := 0 to |data.order|
      invariant DedupedUpTo(data, result, i)
    {
      var key := data.order[i];
      var l := DedupList(result.at[key]);
      DedupStep(data, result, i, l);
      result := Put(result, key, l);
    }
    DedupedAllKeys(data, result);
  }

  /** The state of DedupGroups after i lists: the same keys in the same order,
      the first i lists deduplicated and the others as they were. */
  ghost predicate DedupedUpTo(data: OrderedMap<seq<string>>, result: OrderedMap<seq<string>>, i: nat)
  {
    Valid(data) && result.order == data.order && (forall k :: k in result.at <==> k in data.at) &&
    forall j :: 0 <= j < |data.order| ==>
      data.order[j] in result.at &&
      result.at[data.order[j]] == if j < i then Deduped(data.at[data.order[j]]) else data.at[data.order[j]]
  }

  lemma DedupStep(data: OrderedMap<seq<string>>, result: OrderedMap<seq<string>>, i: nat, l: seq<string>)
    requires i < |data.order| && DedupedUpTo(data, result, i)
    requires l == Deduped(result.at[data.order[i]])
    ensures DedupedUpTo(data, Put(result, data.order[i], l), i + 1)
  {
    var key := data.order[i];
    var r := Put(result, key, l);
    assert r == OrderedMap(result.order, result.at[key := l]);
    forall j | 0 <= j < |data.order| && j != i ensures data.order[j] != key {
    }
  }

  lemma DedupedAllKeys(data: OrderedMap<seq<string>>, result: OrderedMap<seq<string>>)
    requires DedupedUpTo(data, result, |data.order|)
    ensures result == DedupAll(data)
  {
    forall k | k in data.at ensures result.at[k] == Deduped(data.at[k]) {
      var j :| 0 <= j < |data.order| && data.order[j] == k;
    }
  }

  // ---------------------------------------------------------------------
  // generate as a whole (generate_brief.py:15-54)

  /** The Counter: the frequency list sorted by count, merged onto the word
      list. */
  function Tally(frequency: seq<(string, int)>, words: seq<string>): OrderedMap<int>
  {
    Merged(SortDesc(frequency, Count), Spellings(words))
  }

  /** most_common(): the Counter's items by non-increasing count. */
  function Ranked(frequency: seq<(string, int)>, words: seq<string>): seq<(string, int)>
  {
    MergedValid(SortDesc(frequency, Count), Spellings(words));
    SortDesc(Items(Tally(frequency, words)), Count)
  }

  /** The defaultdict once every merged word has been filed. */
  function Groups(frequency: seq<(string, int)>, words: seq<string>, decompose: map<string, SyllableParts>)
    : OrderedMap<seq<string>>
  {
    Grouped(Ranked(frequency, words), decompose)
  }

  /** The result of generate: the deduplicated groups by non-increasing size,
      as (key, candidates) items. */
  function Briefs(frequency: seq<(string, int)>, words: seq<string>, decompose: map<string, SyllableParts>)
    : seq<(string, seq<string>)>
  {
    GroupedValid(Ranked(frequency, words), decompose);
    SortDesc(Items(DedupAll(Groups(frequency, words, decompose))), Size)
  }

  /** Every word the Counter holds is a spelling from the word list that some
      frequency entry casefolds to, and every entry whose casefold form is in
      the word list reaches the Counter under that list's spelling. */
  lemma TallyKeys(frequency: seq<(string, int)>, words: seq<string>)
    ensures forall k :: k in Tally(frequency, words).at ==>
              k in words && exists i :: 0 <= i < |frequency| && Casefold(frequency[i].0) == Casefold(k)
    ensures forall i :: 0 <= i < |frequency| && Casefold(frequency[i].0) in Spellings(words) ==>
              Spellings(words)[Casefold(frequency[i].0)] in Tally(frequency, words).at
  {
    var sorted, spellings := SortDesc(frequency, Count), Spellings(words);
    MergedKeys(sorted, spellings);
    SortMembers(frequency, Count);
    SpellingsOfWords(words);
    forall k | k in Tally(frequency, words).at
      ensures k in words && exists i :: 0 <= i < |frequency| && Casefold(frequency[i].0) == Casefold(k)
    {
      var j :| 0 <= j < |sorted| && LandsOn(sorted[j], spellings, k);
      assert sorted[j] in frequency;
      var i :| 0 <= i < |frequency| && frequency[i] == sorted[j];
    }
    forall i | 0 <= i < |frequency| && Casefold(frequency[i].0) in spellings
      ensures spellings[Casefold(frequency[i].0)] in Tally(frequency, words).at
    {
      assert frequency[i] in sorted;
      var j :| 0 <= j < |sorted| && sorted[j] == frequency[i];
    }
  }

  /** The count of a spelling is the sum of the counts of all entries of the
      frequency table that merge onto it, whatever order they came in. */
  lemma TallyCounts(frequency: seq<(string, int)>, words: seq<string>)
    ensures forall k :: k in Tally(frequency, words).at ==>
              Tally(frequency, words).at[k] == CountFor(frequency, Spellings(words), k)
  {
    var sorted, spellings := SortDesc(frequency, Count), Spellings(words);
    MergedCounts(sorted, spellings);
    forall k | k in Tally(frequency, words).at
      ensures Tally(frequency, words).at[k] == CountFor(frequency, spellings, k)
    {
      CountForSorted(frequency, spellings, k);
    }
  }

  /** most_common() lists each word of the Counter once, with its count, by
      non-increasing count. */
  lemma RankedOfTally(frequency: seq<(string, int)>, words: seq<string>)
    ensures var ranked, tally := Ranked(frequency, words), Tally(frequency, words);
            (forall i :: 0 <= i < |ranked| ==> ranked[i].0 in tally.at && tally.at[ranked[i].0] == ranked[i].1) &&
            (forall k :: k in tally.at ==> exists i :: 0 <= i < |ranked| && ranked[i].0 == k) &&
            NonIncreasing(ranked, Count) && DistinctFirsts(ranked)
  {
    MergedValid(SortDesc(frequency, Count), Spellings(words));
    var tally := Tally(frequency, words);
    var items := Items(tally);
    var ranked := SortDesc(items, Count);
    assert ranked == Ranked(frequency, words);
    SortMembers(items, Count);
    ItemsOf(tally);
    SortedDescending(items, Count);
    SortKeepsFirstsDistinct(items, Count);
    forall k | k in tally.at ensures exists i :: 0 <= i < |ranked| && ranked[i].0 == k {
      assert (k, tally.at[k]) in ranked;
      var i :| 0 <= i < |ranked| && ranked[i] == (k, tally.at[k]);
    }
    forall i | 0 <= i < |ranked| ensures ranked[i].0 in tally.at && tally.at[ranked[i].0] == ranked[i].1 {
      assert ranked[i] in items;
    }
  }

  /** The result holds one item per key of the defaultdict, with that key's
      deduplicated list. */
  lemma BriefsItems(frequency: seq<(string, int)>, words: seq<string>, decompose: map<string, SyllableParts>)
    ensures var briefs, groups := Briefs(frequency, words, decompose), Groups(frequency, words, decompose);
            (forall e :: e in briefs ==> e.0 in groups.at && e.1 == Deduped(groups.at[e.0])) &&
            (forall k :: k in groups.at ==> (k, Deduped(groups.at[k])) in briefs)
  {
    var groups := Groups(frequency, words, decompose);
    GroupedValid(Ranked(frequency, words), decompose);
    var deduped := DedupAll(groups);
    var items := Items(deduped);
    assert Briefs(frequency, words, decompose) == SortDesc(items, Size);
    ItemsOf(deduped);
    SortMembers(items, Size);
  }

  /** The keys of the result are distinct and its lists come by
      non-increasing length. */
  lemma BriefsBySize(frequency: seq<(string, int)>, words: seq<string>, decompose: map<string, SyllableParts>)
    ensures DistinctFirsts(Briefs(frequency, words, decompose))
    ensures NonIncreasing(Briefs(frequency, words, decompose), Size)
  {
    GroupedValid(Ranked(frequency, words), decompose);
    var items := Items(DedupAll(Groups(frequency, words, decompose)));
    SortKeepsFirstsDistinct(items, Size);
    SortedDescending(items, Size);
  }

  /** A word left in a deduplicated list of the defaultdict is a ranked word
      filed under that list's key. */
  lemma DedupedFiled(ranked: seq<(string, int)>, decompose: map<string, SyllableParts>, k: string, x: string)
    requires k in Grouped(ranked, decompose).at && x in Deduped(Grouped(ranked, decompose).at[k])
    ensures FiledUnder(x, decompose) == Some(k) && exists i :: 0 <= i < |ranked| && ranked[i].0 == x
  {
    DedupedMembers(Grouped(ranked, decompose).at[k]);
    GroupedFiled(ranked, decompose);
    GroupedFrom(ranked, decompose);
  }

  /** Every candidate is a counted spelling filed under the key it is listed
      with. */
  lemma BriefsFiled(frequency: seq<(string, int)>, words: seq<string>, decompose: map<string, SyllableParts>)
    ensures forall e, x :: e in Briefs(frequency, words, decompose) && x in e.1 ==>
              FiledUnder(x, decompose) == Some(e.0) && x in Tally(frequency, words).at
  {
    BriefsItems(frequency, words, decompose);
    RankedOfTally(frequency, words);
    ItemsFiled(Ranked(frequency, words), decompose, Tally(frequency, words).at, Briefs(frequency, words, decompose));
  }

  /** Items holding the deduplicated lists of the defaultdict list only ranked
      words, each under the key it files under. */
  lemma ItemsFiled(ranked: seq<(string, int)>, decompose: map<string, SyllableParts>,
                   count: map<string, int>, briefs: seq<(string, seq<string>)>)
    requires forall i :: 0 <= i < |ranked| ==> ranked[i].0 in count
    requires forall e :: e in briefs ==>
               e.0 in Grouped(ranked, decompose).at && e.1 == Deduped(Grouped(ranked, decompose).at[e.0])
    ensures forall e, x :: e in briefs && x in e.1 ==> FiledUnder(x, decompose) == Some(e.0) && x in count
  {
    forall e, x | e in briefs && x in e.1 ensures FiledUnder(x, decompose) == Some(e.0) && x in count {
      DedupedFiled(ranked, decompose, e.0, x);
    }
  }

  /** Every counted spelling that files under a key gives that key an item. */
  lemma BriefsCover(frequency: seq<(string, int)>, words: seq<string>, decompose: map<string, SyllableParts>)
    ensures forall x :: x in Tally(frequency, words).at && FiledUnder(x, decompose).Some? ==>
              exists e :: e in Briefs(frequency, words, decompose) && e.0 == FiledUnder(x, decompose).value
  {
    var ranked, groups := Ranked(frequency, words), Groups(frequency, words, decompose);
    BriefsItems(frequency, words, decompose);
    GroupedComplete(ranked, decompose);
    RankedOfTally(frequency, words);
    forall x | x in Tally(frequency, words).at && FiledUnder(x, decompose).Some?
      ensures exists e :: e in Briefs(frequency, words, decompose) && e.0 == FiledUnder(x, decompose).value
    {
      var i :| 0 <= i < |ranked| && ranked[i].0 == x;
      var k := FiledUnder(x, decompose).value;
      assert k in groups.at;
      assert (k, Deduped(groups.at[k])) in Briefs(frequency, words, decompose);
    }
  }

  /** A counted spelling filed under a key is listed there exactly when it is
      lowercase or its lowercase form was not counted: a capitalised spelling
      gives way to the lowercase one. */
  lemma BriefsPreferLowercase(frequency: seq<(string, int)>, words: seq<string>, decompose: map<string, SyllableParts>,
                              e: (string, seq<string>), x: string)
    requires e in Briefs(frequency, words, decompose)
    requires x in Tally(frequency, words).at && FiledUnder(x, decompose) == Some(e.0)
    ensures x in e.1 <==> x == Lower(x) || Lower(x) !in Tally(frequency, words).at
  {
    var ranked, groups, tally := Ranked(frequency, words), Groups(frequency, words, decompose), Tally(frequency, words);
    BriefsItems(frequency, words, decompose);
    GroupedComplete(ranked, decompose);
    GroupedFrom(ranked, decompose);
    RankedOfTally(frequency, words);
    var l := groups.at[e.0];
    assert e.1 == Deduped(l);
    var i :| 0 <= i < |ranked| && ranked[i].0 == x;
    assert x in l;
    assert x != "";
    DedupedMembers(l);
    if Lower(x) in tally.at {
      var j :| 0 <= j < |ranked| && ranked[j].0 == Lower(x);
      FiledUnderLower(x, decompose);
      assert Lower(x) in l;
    }
    if Lower(x) in l {
      var j :| 0 <= j < |ranked| && ranked[j].0 == Lower(x);
    }
  }

  /** A deduplicated list of the defaultdict is non-empty, names each word
      once and runs by non-increasing count, when the ranked words are
      distinct and come by non-increasing count. */
  lemma DedupedListShape(ranked: seq<(string, int)>, decompose: map<string, SyllableParts>,
                         count: map<string, int>, k: string)
    requires NonIncreasing(ranked, Count) && DistinctFirsts(ranked)
    requires forall i :: 0 <= i < |ranked| ==> ranked[i].0 in count && count[ranked[i].0] == ranked[i].1
    requires k in Grouped(ranked, decompose).at
    ensures var l := Deduped(Grouped(ranked, decompose).at[k]);
            l != [] && Distinct(l) && CountOrdered(l, count)
  {
    var l := Grouped(ranked, decompose).at[k];
    GroupedListShape(ranked, decompose, count, k);
    DedupedNonEmpty(l);
    KeptDistinct(l, |l|);
    KeptOrdered(l, |l|, count);
  }

  /** A list of the defaultdict is non-empty, names each word once, runs by
      non-increasing count and holds no empty word. */
  lemma GroupedListShape(ranked: seq<(string, int)>, decompose: map<string, SyllableParts>,
                         count: map<string, int>, k: string)
    requires NonIncreasing(ranked, Count) && DistinctFirsts(ranked)
    requires forall i :: 0 <= i < |ranked| ==> ranked[i].0 in count && count[ranked[i].0] == ranked[i].1
    requires k in Grouped(ranked, decompose).at
    ensures var l := Grouped(ranked, decompose).at[k];
            l != [] && Distinct(l) && CountOrdered(l, count) && forall w :: w in l ==> w != ""
  {
    var l := Grouped(ranked, decompose).at[k];
    GroupedNonEmpty(ranked, decompose);
    GroupedFiled(ranked, decompose);
    GroupedDistinct(ranked, decompose);
    GroupedOrdered(ranked, decompose, count);
    forall w | w in l ensures w != "" {
      FiledIsNotEmpty(w, decompose);
    }
  }

  /** Each list is non-empty, names each spelling once and runs by
      non-increasing count. */
  lemma BriefsLists(frequency: seq<(string, int)>, words: seq<string>, decompose: map<string, SyllableParts>)
    ensures forall e :: e in Briefs(frequency, words, decompose) ==>
              e.1 != [] && Distinct(e.1) && CountOrdered(e.1, Tally(frequency, words).at)
  {
    var ranked, tally := Ranked(frequency, words), Tally(frequency, words);
    BriefsItems(frequency, words, decompose);
    RankedOfTally(frequency, words);
    forall e | e in Briefs(frequency, words, decompose)
      ensures e.1 != [] && Distinct(e.1) && CountOrdered(e.1, tally.at)
    {
      DedupedListShape(ranked, decompose, tally.at, e.0);
    }
  }

  /** In items with distinct keys, where each word of a list is filed under
      that list's key, no word is in two lists. */
  lemma FiledOnce(briefs: seq<(string, seq<string>)>, decompose: map<string, SyllableParts>)
    requires DistinctFirsts(briefs)
    requires forall e, x :: e in briefs && x in e.1 ==> FiledUnder(x, decompose) == Some(e.0)
    ensures forall e1, e2, x :: (e1 in briefs && e2 in briefs && x in e1.1 && x in e2.1) ==> e1 == e2
  {
    forall e1, e2, x | e1 in briefs && e2 in briefs && x in e1.1 && x in e2.1 ensures e1 == e2 {
      assert FiledUnder(x, decompose) == Some(e1.0) && FiledUnder(x, decompose) == Some(e2.0);
      var i :| 0 <= i < |briefs| && briefs[i] == e1;
      var j :| 0 <= j < |briefs| && briefs[j] == e2;
    }
  }

  /** No spelling is a candidate for two keys. */
  lemma BriefsWordOnce(frequency: seq<(string, int)>, words: seq<string>, decompose: map<string, SyllableParts>)
    ensures forall e1, e2, x ::
              (e1 in Briefs(frequency, words, decompose) && e2 in Briefs(frequency, words, decompose) &&
               x in e1.1 && x in e2.1) ==> e1 == e2
  {
    BriefsFiled(frequency, words, decompose);
    BriefsBySize(frequency, words, decompose);
    FiledOnce(Briefs(frequency, words, decompose), decompose);
  }

  /** generate_brief.py:15-54 as written. */
  method Generate(frequency: seq<(string, int)>, words: seq<string>, decompose: map<string, SyllableParts>)
    returns (briefs: seq<(string, seq<string>)>)
    ensures briefs == Briefs(frequency, words, decompose)
  {
    var frequencyList := SortDesc(frequency, Count);
    var spellings := Spellings(words);
    var tally := MergeCounts(frequencyList, spellings);
    MergedValid(frequencyList, spellings);
    var ranked := SortDesc(Items(tally), Count);
    var data := GroupWords(ranked, decompose);
    GroupedValid(ranked, decompose);
    data := DedupGroups(data);
    DedupAllValid(Grouped(ranked, decompose));
    briefs := SortDesc(Items(data), Size);
  }
}
