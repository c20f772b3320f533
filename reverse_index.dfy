/**
 * The reverse index of decompose.py: every syllable construct can spell
 * (strictly, tolerant=false), mapped to the phonetic parts that spell it.
 *
 * The five nested loops of decompose.py:13-20 visit the combinations in a
 * fixed order; combination number i of that order is Combo(i), read off the
 * mixed-radix digits of i.  The index after the first k combinations is the
 * fold IndexUpTo(k), and BuildIndex, which runs the loops themselves, is
 * proved to produce IndexUpTo(Total).
 */
module ReverseIndex {
  import opened Options
  import opened Library

  /** SyllableParts (decompose.py:4-9). */
  datatype SyllableParts = SyllableParts(onset: string, nucleus: string, coda: string,
                                         tone: Tone, newTonePlacement: bool)

  predicate FromMasterLists(p: SyllableParts)
  {
    p.onset in Onsets && p.nucleus in Nucleuses && p.coda in Codas
  }

  /** The word construct spells from p, as decompose.py:18 calls it. */
  function Spelled(p: SyllableParts): Option<string>
    requires FromMasterLists(p)
  {
    Construct(p.onset, p.nucleus, p.coda, p.tone, p.newTonePlacement, false)
  }

  /** The number of combinations visited: two placements times the four lists. */
  const Total := 2 * 26 * 23 * 11 * 6

  lemma ListSizes()
    ensures |Onsets| == 26 && |Nucleuses| == 23 && |Codas| == 11 && |Tones| == 6
  {
  }

  /** Combination number i in loop order: placement False before True, then
      onsets, nucleuses, codas and tones in master-list order; i's mixed-radix
      digits are the list positions. */
  function Combo(i: nat): (p: SyllableParts)
    requires i < Total
    ensures FromMasterLists(p)
  {
    ListSizes();
    SyllableParts(Onsets[i / 6 / 11 / 23 % 26], Nucleuses[i / 6 / 11 % 23],
                  Codas[i / 6 % 11], Tones[i % 6], i / 6 / 11 / 23 / 26 == 1)
  }

  /** The loop-order number of the combination at these list positions. */
  function Position(placement: nat, o: nat, n: nat, c: nat, t: nat): nat
  {
    (((placement * 26 + o) * 23 + n) * 11 + c) * 6 + t
  }

  lemma DivStep(x: nat, r: nat, k: nat)
    requires k in {6, 11, 23, 26} && r < k
    ensures (x * k + r) / k == x && (x * k + r) % k == r
  {
    if k == 6 {} else if k == 11 {} else if k == 23 {} else {}
  }

  lemma ComboAt(placement: nat, o: nat, n: nat, c: nat, t: nat)
    requires placement < 2 && o < 26 && n < 23 && c < 11 && t < 6
    ensures Position(placement, o, n, c, t) < Total
    ensures Combo(Position(placement, o, n, c, t))
         == SyllableParts(Onsets[o], Nucleuses[n], Codas[c], Tones[t], placement == 1)
  {
    ListSizes();
    Digits(placement, o, n, c, t);
  }

  lemma Digits(placement: nat, o: nat, n: nat, c: nat, t: nat)
    requires placement < 2 && o < 26 && n < 23 && c < 11 && t < 6
    ensures var i := Position(placement, o, n, c, t);
            i < Total && i % 6 == t && i / 6 % 11 == c && i / 6 / 11 % 23 == n &&
            i / 6 / 11 / 23 % 26 == o && i / 6 / 11 / 23 / 26 == placement
  {
    DivStep(((placement * 26 + o) * 23 + n) * 11 + c, t, 6);
    DivStep((placement * 26 + o) * 23 + n, c, 11);
    DivStep(placement * 26 + o, n, 23);
    DivStep(placement, o, 26);
  }

  /** Every combination, in loop order. */
  function AllParts(): (r: seq<SyllableParts>)
    ensures |r| == Total && forall i :: 0 <= i < Total ==> r[i] == Combo(i)
  {
    seq(Total, i requires 0 <= i < Total => Combo(i))
  }

  /** What construct spells from each combination, in loop order. */
  function Words(): (r: seq<Option<string>>)
    ensures |r| == Total && forall i :: 0 <= i < Total ==> r[i] == Spelled(Combo(i))
  {
    seq(Total, i requires 0 <= i < Total => Spelled(Combo(i)))
  }

  /** decompose.py:19-20: a spelled word is (re)bound to its parts. */
  function Record(m: map<string, SyllableParts>, p: SyllableParts, word: Option<string>): map<string, SyllableParts>
  {
    match word
    case Some(w) => m[w := p]
    case None => m
  }

  /** The index once the first k combinations have been visited. */
  function IndexUpTo(parts: seq<SyllableParts>, words: seq<Option<string>>, k: nat): map<string, SyllableParts>
    requires k <= |parts| == |words|
  {
    if k == 0 then map[] else Record(IndexUpTo(parts, words, k - 1), parts[k - 1], words[k - 1])
  }

  /** The finished reverse index. */
  function Index(): map<string, SyllableParts>
  {
    IndexUpTo(AllParts(), Words(), Total)
  }

  /** index is the map once the first k combinations have been visited. */
  predicate Visited(index: map<string, SyllableParts>, k: nat)
  {
    k <= Total && index == IndexUpTo(AllParts(), Words(), k)
  }

  /** decompose.py:13-20 as written: five nested loops filling the map.  The
      four inner loops are the methods VisitOnsets, VisitNucleuses,
      VisitCodas and VisitTones, so that each loop is verified on its own. */
  method BuildIndex() returns (index: map<string, SyllableParts>)
    ensures index == Index()
  {
    index := map[];
    for placement := 0 to 2
      invariant Visited(index, Position(placement, 0, 0, 0, 0))
    {
      index := VisitOnsets(index, placement);
    }
    assert Position(2, 0, 0, 0, 0) == Total;
  }

  /** The loop over the onsets, for one placement. */
  method VisitOnsets(index: map<string, SyllableParts>, placement: nat)
    returns (index': map<string, SyllableParts>)
    requires placement < 2
    requires Visited(index, Position(placement, 0, 0, 0, 0))
    ensures Visited(index', Position(placement + 1, 0, 0, 0, 0))
  {
    ListSizes();
    index' := index;
    for o := 0 to |Onsets|
      invariant Visited(index', Position(placement, o, 0, 0, 0))
    {
      index' := VisitNucleuses(index', placement, o);
    }
    assert Position(placement, |Onsets|, 0, 0, 0) == Position(placement + 1, 0, 0, 0, 0);
  }

  /** The loop over the nucleuses, for one placement and onset. */
  method VisitNucleuses(index: map<string, SyllableParts>, placement: nat, o: nat)
    returns (index': map<string, SyllableParts>)
    requires placement < 2 && o < 26
    requires Visited(index, Position(placement, o, 0, 0, 0))
    ensures Visited(index', Position(placement, o + 1, 0, 0, 0))
  {
    ListSizes();
    index' := index;
    for n := 0 to |Nucleuses|
      invariant Visited(index', Position(placement, o, n, 0, 0))
    {
      index' := VisitCodas(index', placement, o, n);
    }
  }

  /** The loop over the codas, for one placement, onset and nucleus. */
  method VisitCodas(index: map<string, SyllableParts>, placement: nat, o: nat, n: nat)
    returns (index': map<string, SyllableParts>)
    requires placement < 2 && o < 26 && n < 23
    requires Visited(index, Position(placement, o, n, 0, 0))
    ensures Visited(index', Position(placement, o, n + 1, 0, 0))
  {
    ListSizes();
    index' := index;
    for c := 0 to |Codas|
      invariant Visited(index', Position(placement, o, n, c, 0))
    {
      index' := VisitTones(index', placement, o, n, c);
    }
  }

  /** The loop over the tones: construct the word and, if there is one, bind it. */
  method VisitTones(index: map<string, SyllableParts>, placement: nat, o: nat, n: nat, c: nat)
    returns (index': map<string, SyllableParts>)
    requires placement < 2 && o < 26 && n < 23 && c < 11
    requires Visited(index, Position(placement, o, n, c, 0))
    ensures Visited(index', Position(placement, o, n, c + 1, 0))
  {
    ListSizes();
    index' := index;
    var newTonePlacement := placement == 1;
    for t := 0 to |Tones|
      invariant Visited(index', Position(placement, o, n, c, t))
    {
      var parts := SyllableParts(Onsets[o], Nucleuses[n], Codas[c], Tones[t], newTonePlacement);
      var word := Construct(parts.onset, parts.nucleus, parts.coda, parts.tone,
                            parts.newTonePlacement, false);
      VisitStep(index', placement, o, n, c, t, word);
      if word.Some? {
        index' := index'[word.value := parts];
      }
    }
  }

  /** The combination the innermost loop visits at these list positions is
      the one numbered by its position. */
  lemma StepAt(placement: nat, o: nat, n: nat, c: nat, t: nat)
    requires placement < 2 && o < 26 && n < 23 && c < 11 && t < 6
    ensures var k := Position(placement, o, n, c, t);
            var p := SyllableParts(Onsets[o], Nucleuses[n], Codas[c], Tones[t], placement == 1);
            k < Total && AllParts()[k] == p && Words()[k] == Construct(p.onset, p.nucleus, p.coda, p.tone, p.newTonePlacement, false)
  {
    ComboAt(placement, o, n, c, t);
  }

  /** Visiting combination k binds its word, if any, to its parts. */
  lemma RecordNext(index: map<string, SyllableParts>, k: nat, p: SyllableParts, word: Option<string>)
    requires k < Total && AllParts()[k] == p && Words()[k] == word
    requires Visited(index, k)
    ensures Visited(Record(index, p, word), k + 1)
  {
  }

  /** One turn of the innermost loop records the next combination. */
  lemma VisitStep(index: map<string, SyllableParts>, placement: nat, o: nat, n: nat, c: nat, t: nat,
                  word: Option<string>)
    requires placement < 2 && o < 26 && n < 23 && c < 11 && t < 6
    requires Visited(index, Position(placement, o, n, c, t))
    requires word == Construct(Onsets[o], Nucleuses[n], Codas[c], Tones[t], placement == 1, false)
    ensures var p := SyllableParts(Onsets[o], Nucleuses[n], Codas[c], Tones[t], placement == 1);
            Visited(Record(index, p, word), Position(placement, o, n, c, t + 1))
  {
    StepAt(placement, o, n, c, t);
    var p := SyllableParts(Onsets[o], Nucleuses[n], Codas[c], Tones[t], placement == 1);
    RecordNext(index, Position(placement, o, n, c, t), p, word);
  }

  // ---------------------------------------------------------------------
  // Properties of the index
  // ---------------------------------------------------------------------

  /** parts[j] is the last of the first k combinations whose word is w. */
  ghost predicate LastSpelling(parts: seq<SyllableParts>, words: seq<Option<string>>, k: nat, w: string, j: nat)
  {
    j < k <= |parts| == |words| && words[j] == Some(w) &&
    forall j' :: j < j' < k ==> words[j'] != Some(w)
  }

  /** Every entry is bound to the last combination so far that spells it. */
  lemma {:induction false} EntriesAreLastSpellings(parts: seq<SyllableParts>, words: seq<Option<string>>,
                                                   k: nat, w: string)
    requires k <= |parts| == |words| && w in IndexUpTo(parts, words, k)
    ensures exists j: nat :: LastSpelling(parts, words, k, w, j) && IndexUpTo(parts, words, k)[w] == parts[j]
  {
    if words[k - 1] == Some(w) {
      assert LastSpelling(parts, words, k, w, k - 1);
    } else {
      assert w in IndexUpTo(parts, words, k - 1);
      EntriesAreLastSpellings(parts, words, k - 1, w);
      var j: nat :| LastSpelling(parts, words, k - 1, w, j) && IndexUpTo(parts, words, k - 1)[w] == parts[j];
      assert LastSpelling(parts, words, k, w, j);
    }
  }

  /** A word spelled by one of the first k combinations is indexed, and bound
      to the last such combination. */
  lemma {:induction false} SpellingsAreIndexed(parts: seq<SyllableParts>, words: seq<Option<string>>,
                                               k: nat, w: string, j: nat)
    requires k <= |parts| == |words| && j < k && words[j] == Some(w)
    ensures w in IndexUpTo(parts, words, k)
    ensures LastSpelling(parts, words, k, w, j) ==> IndexUpTo(parts, words, k)[w] == parts[j]
  {
    if j < k - 1 {
      SpellingsAreIndexed(parts, words, k - 1, w, j);
      if LastSpelling(parts, words, k, w, j) {
        assert LastSpelling(parts, words, k - 1, w, j);
      }
    }
  }

  /** Soundness (decompose.py:18-20): each entry's parts come from the master
      lists and spell the entry's word. */
  lemma IndexSound(w: string)
    requires w in Index()
    ensures FromMasterLists(Index()[w])
    ensures Spelled(Index()[w]) == Some(w)
  {
    EntriesAreLastSpellings(AllParts(), Words(), Total, w);
  }

  /** Completeness (decompose.py:13-20): every word construct spells from the
      master lists, with either placement, is indexed. */
  lemma IndexComplete(p: SyllableParts, w: string)
    requires FromMasterLists(p) && Spelled(p) == Some(w)
    ensures w in Index()
  {
    var j := ComboNumber(p);
    SpellingsAreIndexed(AllParts(), Words(), Total, w, j);
  }

  /** Later writes win (decompose.py:14-20): the entry is the last combination
      in loop order that spells the word. */
  lemma LastWriterWins(w: string, j: nat)
    requires j < Total && Spelled(Combo(j)) == Some(w)
    requires forall j' :: j < j' < Total ==> Spelled(Combo(j')) != Some(w)
    ensures w in Index() && Index()[w] == Combo(j)
  {
    SpellingsAreIndexed(AllParts(), Words(), Total, w, j);
  }

  /** The True placement is visited last, so it is preferred (decompose.py:13):
      a word spelled with the new tone placement is indexed with it. */
  lemma NewPlacementPreferred(p: SyllableParts, w: string)
    requires FromMasterLists(p) && p.newTonePlacement && Spelled(p) == Some(w)
    ensures w in Index() && Index()[w].newTonePlacement
  {
    var j := ComboNumber(p);
    SpellingsAreIndexed(AllParts(), Words(), Total, w, j);
    EntriesAreLastSpellings(AllParts(), Words(), Total, w);
    var j': nat :| LastSpelling(AllParts(), Words(), Total, w, j') && Index()[w] == AllParts()[j'];
    assert j' >= j;
    LaterPlacement(j, j');
  }

  /** Combinations from the True half stay in it. */
  lemma LaterPlacement(j: nat, j': nat)
    requires j <= j' < Total && Combo(j).newTonePlacement
    ensures Combo(j').newTonePlacement
  {
  }

  /** The loop-order number of p. */
  function ComboNumber(p: SyllableParts): (j: nat)
    requires FromMasterLists(p)
    ensures j < Total && Combo(j) == p
  {
    ListSizes();
    var o := IndexOf(Onsets, p.onset);
    var n := IndexOf(Nucleuses, p.nucleus);
    var c := IndexOf(Codas, p.coda);
    var t := ToneIndex(p.tone);
    var placement := if p.newTonePlacement then 1 else 0;
    ComboAt(placement, o, n, c, t);
    Position(placement, o, n, c, t)
  }

  function IndexOf(s: seq<string>, x: string): (i: nat)
    requires x in s
    ensures i < |s| && s[i] == x
  {
    if s[0] == x then 0 else 1 + IndexOf(s[1..], x)
  }

  function ToneIndex(t: Tone): (i: nat)
    ensures i < 6 && Tones[i] == t
  {
    match t
    case Level => 0
    case Acute => 1
    case Grave => 2
    case HookAbove => 3
    case Tilde => 4
    case DotBelow => 5
  }
}
