/**
 * The steno dictionary of plover_vi/dictionary.py: the key masks that cut a
 * chord into fields, the tables from fields to phonetic parts (built from
 * one another through the left/right mirror, as the source builds them), the
 * checks made on them when the module loads, and lookup.
 */
module Dictionary {
  import opened Options
  import opened Stroke
  import opened Library

  // ---------------------------------------------------------------------
  // Masks (dictionary.py:14-23)
  // ---------------------------------------------------------------------

  const VowelMask: Chord := {A, O, E, U}
  const LeftMask: Chord := {LT, LK, LP, LW, LH, LR}
  const LeftWMask: Chord := {LS}
  const RightMask: Chord := {RF, RR, RP, RB, RL, RG}
  const RightWMask: Chord := {RS}
  const StarMask: Chord := {Star}
  const RightCodaMask: Chord := {RF, RR, RP, RB}
  const RightToneMask: Chord := {RL, RG, RT, RS}
  const RightDisambiguationMask: Chord := {RT, RS}
  const VowelGlideMask: Chord := VowelMask + {LS}

  /** The explicit disambiguation offsets (dictionary.py:25-30). */
  const RightDisambiguationIndex: map<Chord, nat> := map[{} := 0, {RS} := 1, {RT} := 2, {RT, RS} := 3]

  // ---------------------------------------------------------------------
  // Mirror maps (dictionary.py:32-42)
  // ---------------------------------------------------------------------

  /** A left-hand consonant key and the right-hand key in the same finger position. */
  const LeftToRightMirror: map<Key, Key> := map[LT := RL, LK := RG, LP := RP, LW := RB, LH := RF, LR := RR]

  /** The inverse of LeftToRightMirror, written out pair by pair (the source swaps
      the pairs of LeftToRightMirror; MirrorDomains and LeftMirrorUndoesRight show
      that this is the map that swap builds). */
  const RightToLeftMirror: map<Key, Key> := map[RL := LT, RG := LK, RP := LP, RB := LW, RF := LH, RR := LR]

  /** The mirror pairs the six left consonant keys with the six right consonant keys. */
  lemma MirrorDomains()
    ensures LeftToRightMirror.Keys == LeftMask && LeftToRightMirror.Values == RightMask
    ensures RightToLeftMirror.Keys == RightMask && RightToLeftMirror.Values == LeftMask
  {
  }

  /** RightToLeftMirror undoes LeftToRightMirror. */
  lemma LeftMirrorUndoesRight()
    ensures forall k :: k in LeftToRightMirror ==>
      LeftToRightMirror[k] in RightToLeftMirror && RightToLeftMirror[LeftToRightMirror[k]] == k
  {
  }

  /** LeftToRightMirror undoes RightToLeftMirror. */
  lemma RightMirrorUndoesLeft()
    ensures forall k :: k in RightToLeftMirror ==>
      RightToLeftMirror[k] in LeftToRightMirror && LeftToRightMirror[RightToLeftMirror[k]] == k
  {
  }

  // ---------------------------------------------------------------------
  // Tables (dictionary.py:44-136)
  // ---------------------------------------------------------------------

  /** An entry of the right-hand builder table: one spelling used both as a
      coda and as an onset, or an onset spelling and a coda spelling. */
  datatype CodaEntry = Same(spelling: string) | OnsetCoda(onset: string, coda: string)

  function OnsetPart(e: CodaEntry): string
  {
    match e
    case Same(s) => s
    case OnsetCoda(o, _) => o
  }

  function CodaPart(e: CodaEntry): string
  {
    match e
    case Same(s) => s
    case OnsetCoda(_, c) => c
  }

  /** The right-hand consonant chords, usable both as coda and (mirrored) as onset. */
  const RightToCodaBuilder: map<Chord, CodaEntry> := map[
    {} := Same(""),
    {RP} := OnsetCoda("ng/ngh", "ng"),
    {RP, RB} := OnsetCoda("c/k", "c"),
    {RF, RR, RP} := Same("nh"),
    {RF, RR, RP, RB} := Same("ch"),
    {RF, RP} := Same("m"),
    {RF, RP, RB} := Same("p"),
    {RF} := Same("p"),
    {RR, RP} := Same("n"),
    {RR, RP, RB} := Same("t"),
    {RR, RB} := OnsetCoda("y", "i/y")]

  /** The right-hand field to coda: the builder's coda parts, plus -B for "o/u". */
  const RightToCoda: map<Chord, string> :=
    (map s | s in RightToCodaBuilder :: CodaPart(RightToCodaBuilder[s]))[{RB} := "o/u"]

  /** The builder's onset parts, still keyed by right-hand chords. */
  const RightToOnsetCommon: map<Chord, string> :=
    map s | s in RightToCodaBuilder :: OnsetPart(RightToCodaBuilder[s])

  /** The onsets that have no right-hand counterpart. */
  const LeftToConsonantOnsetOnly: map<Chord, string> := map[
    {LK, LP, LW} := "b",
    {LT, LK, LP} := "d",
    {LT, LK} := "đ",
    {LT, LK, LP, LW} := "g/gh",
    {LT, LK, LP, LW, LR} := "gi",
    {LT, LW} := "h",
    {LK, LP, LH} := "kh",
    {LH, LR} := "l",
    {LT, LP} := "ph",
    {LK, LW} := "q",
    {LR} := "r",
    {LK, LP, LR} := "s",
    {LT, LH} := "th",
    {LT, LR} := "tr",
    {LT, LP, LR} := "v",
    {LK, LP} := "x"]

  /** A table whose chords are carried through a key mirror: the dictionary
      comprehensions of dictionary.py:94 and dictionary.py:134. */
  function MirrorTable<V>(table: map<Chord, V>, mirror: map<Key, Key>): (r: map<Chord, V>)
    requires forall c :: c in table ==> c <= mirror.Keys
    requires Injective(mirror)
    ensures forall c :: c in table ==> Remap(c, mirror) in r && r[Remap(c, mirror)] == table[c]
    ensures forall c' :: c' in r ==> exists c :: c in table && Remap(c, mirror) == c'
  {
    RemapInjective(mirror);
    map c | c in table :: Remap(c, mirror) := table[c]
  }

  /** A mirrored table holds the same values, on chords made of the mirror's keys. */
  lemma MirrorTableEntries<V>(table: map<Chord, V>, mirror: map<Key, Key>)
    requires forall c :: c in table ==> c <= mirror.Keys
    requires Injective(mirror)
    ensures forall c' :: c' in MirrorTable(table, mirror) ==>
      c' <= mirror.Values && MirrorTable(table, mirror)[c'] in table.Values
  {
    var r := MirrorTable(table, mirror);
    forall c' | c' in r ensures c' <= mirror.Values && r[c'] in table.Values {
      var c :| c in table && Remap(c, mirror) == c';
      RemapRange(c, mirror);
    }
  }

  /** The builder's chords use only the right-hand coda keys. */
  lemma BuilderKeys()
    ensures forall s :: s in RightToCodaBuilder ==> s <= RightCodaMask
  {
  }

  /** The builder's chords can be mirrored to the left hand. */
  lemma OnsetCommonKeys()
    ensures forall s :: s in RightToOnsetCommon ==> s <= RightToLeftMirror.Keys
  {
    BuilderKeys();
    assert RightCodaMask <= RightToLeftMirror.Keys;
  }

  /** Each mirror sends distinct keys to distinct keys. */
  lemma MirrorsInjective()
    ensures Injective(LeftToRightMirror) && Injective(RightToLeftMirror)
  {
    LeftMirrorUndoesRight();
    RightMirrorUndoesLeft();
    UndoneIsInjective(LeftToRightMirror, RightToLeftMirror);
    UndoneIsInjective(RightToLeftMirror, LeftToRightMirror);
  }

  /** The onset-only chords use only left-hand consonant keys. */
  lemma OnsetOnlyKeys()
    ensures forall l :: l in LeftToConsonantOnsetOnly ==> l <= LeftMask
  {
  }

  /** Mirroring to the left hand lands on left-hand consonant keys. */
  lemma RightToLeftValues()
    ensures RightToLeftMirror.Values <= LeftMask
  {
  }

  /** Mirroring to the right hand lands on right-hand consonant keys. */
  lemma LeftToRightValues()
    ensures LeftToRightMirror.Values <= RightMask
  {
  }

  /** Left-hand consonant chords can be mirrored to the right hand. */
  lemma LeftToRightKeys()
    ensures LeftMask <= LeftToRightMirror.Keys
  {
  }

  /** The builder's onset parts, mirrored to the left hand. */
  function MirroredOnsetCommon(): (r: map<Chord, string>)
    ensures forall l :: l in r ==> l <= LeftMask && r[l] in RightToOnsetCommon.Values
  {
    RightToLeftValues();
    OnsetCommonKeys();
    MirrorsInjective();
    MirrorTableEntries(RightToOnsetCommon, RightToLeftMirror);
    MirrorTable(RightToOnsetCommon, RightToLeftMirror)
  }

  /** The onset of each left-hand field: the builder's onset parts, mirrored to
      the left hand, then the onset-only table (a later entry wins). */
  function LeftToConsonant(): map<Chord, string>
  {
    MirroredOnsetCommon() + LeftToConsonantOnsetOnly
  }

  /** Every left-hand field the onset table knows uses only left-hand consonant keys. */
  lemma LeftToConsonantKeys()
    ensures forall l :: l in LeftToConsonant() ==> l <= LeftMask
  {
    OnsetOnlyKeys();
  }

  /** The onset of each right-hand field, for the second word of a brief:
      the onset table mirrored to the right hand. */
  function RightToConsonant(): map<Chord, string>
  {
    LeftToConsonantKeys();
    LeftToRightKeys();
    MirrorsInjective();
    MirrorTable(LeftToConsonant(), LeftToRightMirror)
  }

  /** The vowel-and-glide field to nucleus. */
  const VowelGlideToNucleus: map<Chord, string> := map[
    {A} := "a",
    {A, E} := "/ă",
    {E} := "e",
    {A, O, E} := "ê",
    {E, U} := "i",
    {O} := "o",
    {O, E, U} := "ô",
    {O, E} := "ơ",
    {U} := "u",
    {A, O, U} := "ư",
    {A, E, U} := "/â",
    {A, O, E, U} := "ia/iê",
    {O, U} := "ưa/ươ",
    {A, U} := "ua/uô",
    {LS, A} := "oa",
    {LS, A, E} := "/oă",
    {LS, E} := "oe",
    {LS, A, O, E} := "uê",
    {LS, O} := "/oo",
    {LS, E, U} := "uy",
    {LS, O, E} := "uơ",
    {LS, A, E, U} := "/uâ",
    {LS, A, O, E, U} := "uya/uyê"]

  /** The right-hand tone field to tone. */
  const RightToTone: map<Chord, Tone> := map[
    {} := Level,
    {RG} := Acute,
    {RL} := Grave,
    {RG, RS} := DotBelow,
    {RL, RS} := HookAbove,
    {RL, RG} := Tilde]

  // ---------------------------------------------------------------------
  // Load-time checks (dictionary.py:88-89 and 145-159)
  // ---------------------------------------------------------------------

  /** The builder's onset parts are onsets of the master list. */
  lemma OnsetCommonValues()
    ensures forall s :: s in RightToOnsetCommon ==> RightToOnsetCommon[s] in Onsets
  {
  }

  /** The onset-only spellings are onsets of the master list. */
  lemma OnsetOnlyValues()
    ensures forall l :: l in LeftToConsonantOnsetOnly ==> LeftToConsonantOnsetOnly[l] in Onsets
  {
  }

  /** Every left-hand field maps to an onset of the master list (dictionary.py:145-147). */
  lemma LeftToConsonantValid()
    ensures forall l :: l in LeftToConsonant() ==> l <= LeftMask && LeftToConsonant()[l] in Onsets
  {
    LeftToConsonantKeys();
    OnsetCommonValues();
    OnsetOnlyValues();
  }

  /** Every right-hand field maps to an onset of the master list (dictionary.py:149-151). */
  lemma RightToConsonantValid()
    ensures forall r :: r in RightToConsonant() ==> r <= RightMask && RightToConsonant()[r] in Onsets
  {
    LeftToConsonantValid();
    LeftToRightValues();
    LeftToRightKeys();
    MirrorsInjective();
    MirrorTableEntries(LeftToConsonant(), LeftToRightMirror);
  }

  /** Every tone field is within the tone mask and names a tone (dictionary.py:153-155). */
  lemma RightToToneValid()
    ensures forall r :: r in RightToTone ==> r <= RightToneMask && RightToTone[r] in Tones
  {
  }

  /** Every vowel-and-glide field is within its mask and names a nucleus of the
      master list (dictionary.py:157-159). */
  lemma VowelGlideValid()
    ensures forall v :: v in VowelGlideToNucleus ==> v <= VowelGlideMask && VowelGlideToNucleus[v] in Nucleuses
  {
  }

  /** Every coda field is within the coda mask and names a coda of the master list
      (the source does not check this; lookup relies on it when it calls construct). */
  lemma RightToCodaValid()
    ensures forall r :: r in RightToCoda ==> r <= RightCodaMask && RightToCoda[r] in Codas
  {
    BuilderKeys();
  }

  /** The only onset-only chords made of mirrored coda keys are HR- and R-. */
  lemma OnsetOnlyWithinMirroredCoda(l: Chord)
    requires l in LeftToConsonantOnsetOnly && l <= {LH, LR, LP, LW}
    ensures l == {LH, LR} || l == {LR}
  {
    assert LT !in l && LK !in l;
  }

  /** The right-hand chord that mirrors onto a given left-hand chord. */
  lemma MirrorLeftPreimage(s: Chord, l: Chord)
    requires s <= RightToLeftMirror.Keys && Remap(s, RightToLeftMirror) == l
    ensures l <= LeftToRightMirror.Keys && s == Remap(l, LeftToRightMirror)
  {
    RightMirrorUndoesLeft();
    RemapInverse(s, RightToLeftMirror, LeftToRightMirror);
  }

  /** HR- and R- mirror onto -FR and -R. */
  lemma MirrorRightOfOnsetOnly()
    ensures {LH, LR} <= LeftToRightMirror.Keys && Remap({LH, LR}, LeftToRightMirror) == {RF, RR}
    ensures {LR} <= LeftToRightMirror.Keys && Remap({LR}, LeftToRightMirror) == {RR}
  {
    var hr := Remap({LH, LR}, LeftToRightMirror);
    forall k | k in hr ensures k == RF || k == RR {
      var k0 :| k0 in {LH, LR} && LeftToRightMirror[k0] == k;
    }
    var r := Remap({LR}, LeftToRightMirror);
    forall k | k in r ensures k == RR {
      var k0 :| k0 in {LR} && LeftToRightMirror[k0] == k;
    }
  }

  /** -FR and -R are not builder chords. */
  lemma NotBuilderChords()
    ensures {RF, RR} !in RightToOnsetCommon && {RR} !in RightToOnsetCommon
  {
    assert RP !in {RF, RR} && RB !in {RF, RR};
    assert RF !in {RR} && RP !in {RR} && RB !in {RR};
  }

  /** No mirrored builder chord is also an onset-only chord, so the onset table
      loses none of the builder's onsets (dictionary.py:88-89). */
  lemma NoOnsetConflict()
    ensures forall s :: s in RightToOnsetCommon && s <= RightToLeftMirror.Keys ==>
      Remap(s, RightToLeftMirror) !in LeftToConsonantOnsetOnly
  {
    BuilderKeys();
    forall s | s in RightToOnsetCommon && s <= RightToLeftMirror.Keys
      ensures Remap(s, RightToLeftMirror) !in LeftToConsonantOnsetOnly
    {
      var l := Remap(s, RightToLeftMirror);
      assert s <= RightCodaMask;
      assert l <= {LH, LR, LP, LW};
      if l in LeftToConsonantOnsetOnly {
        OnsetOnlyWithinMirroredCoda(l);
        MirrorLeftPreimage(s, l);
        MirrorRightOfOnsetOnly();
        NotBuilderChords();
        assert false;
      }
    }
  }

  /** Every builder onset survives, unchanged, in the onset table under its
      mirrored chord: the point of the check at dictionary.py:88-89. */
  lemma MirroredOnsetsKept()
    ensures forall s :: s in RightToOnsetCommon && s <= RightToLeftMirror.Keys ==>
      Remap(s, RightToLeftMirror) in LeftToConsonant() &&
      LeftToConsonant()[Remap(s, RightToLeftMirror)] == RightToOnsetCommon[s]
  {
    NoOnsetConflict();
    OnsetCommonKeys();
    MirrorsInjective();
  }

  // ---------------------------------------------------------------------
  // Lookup (dictionary.py:168-241)
  // ---------------------------------------------------------------------

  /** Why a lookup raised instead of returning: a failed assertion, or a key
      missing from one of the tables or from the brief mapping. */
  datatype FaultCause = AssertionFailure | MissingKey

  /** What lookup does with a stroke sequence: returns a word, returns None,
      or raises. */
  datatype LookupResult = Word(text: string) | NoMatch | Fault(cause: FaultCause)

  /** A stroke as plover hands it over: a chord, or None where the steno
      string does not parse. */
  type StrokeText = Option<Chord>

  /** The two-word brief mapping: "onset nucleus onset" to candidate words,
      most frequent first. */
  type BriefMapping = map<string, seq<string>>

  /** The masks that cut a brief stroke: consonant, vowel and glide, second
      consonant, star, disambiguation (dictionary.py:188-189). */
  const BriefMasks: seq<Chord> := [LeftMask, VowelGlideMask, RightMask, StarMask, RightDisambiguationMask]

  /** The masks that cut a syllable stroke: onset, vowel and glide, coda, tone
      (dictionary.py:222-223). */
  const SyllableMasks: seq<Chord> := [LeftMask, VowelGlideMask, RightCodaMask, RightToneMask]

  /** The assertion of decompose holds for both mask lists lookup uses. */
  lemma LookupMasksSeparated()
    ensures Separated(BriefMasks) && Separated(SyllableMasks)
  {
    BriefMasksSeparated();
    SyllableMasksSeparated();
  }

  lemma BriefMasksSeparated()
    ensures Separated(BriefMasks)
  {
    SeparatedIffPairwiseDisjoint(BriefMasks);
  }

  lemma SyllableMasksSeparated()
    ensures Separated(SyllableMasks)
  {
    SeparatedIffPairwiseDisjoint(SyllableMasks);
  }

  /** Every part of the disambiguation mask has an offset. */
  lemma DisambiguationIndexed(d: Chord)
    requires d <= RightDisambiguationMask
    ensures d in RightDisambiguationIndex
  {
    if RT in d {
      if RS in d { assert d == {RT, RS}; } else { assert d == {RT}; }
    } else {
      if RS in d { assert d == {RS}; } else { assert d == {}; }
    }
  }

  /** The key of the brief mapping for a consonant, a nucleus and a second
      consonant (dictionary.py:192-197). */
  function BriefKey(onset: string, nucleus: string, onset2: string): string
  {
    onset + " " + nucleus + " " + onset2
  }

  /** The five tables lookup reads. */
  datatype Tables = Tables(
    leftToConsonant: map<Chord, string>,
    vowelGlideToNucleus: map<Chord, string>,
    rightToCoda: map<Chord, string>,
    rightToTone: map<Chord, Tone>,
    rightToConsonant: map<Chord, string>)

  /** The tables of this module. */
  function DictionaryTables(): Tables
  {
    Tables(LeftToConsonant(), VowelGlideToNucleus, RightToCoda, RightToTone, RightToConsonant())
  }

  /** The checks the module makes when it loads (dictionary.py:145-159): every
      onset, tone and vowel-and-glide chord lies within the mask of its field,
      and every onset and nucleus spelling is in the master lists. */
  predicate LoadTimeChecks(tb: Tables)
  {
    (forall l :: l in tb.leftToConsonant ==> l <= LeftMask && tb.leftToConsonant[l] in Onsets) &&
    (forall v :: v in tb.vowelGlideToNucleus ==> v <= VowelGlideMask && tb.vowelGlideToNucleus[v] in Nucleuses) &&
    (forall r :: r in tb.rightToTone ==> r <= RightToneMask) &&
    (forall r :: r in tb.rightToConsonant ==> r <= RightMask && tb.rightToConsonant[r] in Onsets)
  }

  /** Two facts the module does not check but its own tables satisfy
      (VowelGlideHasVowel, RightToCodaValid): every vowel-and-glide chord holds
      a vowel key, and every coda chord lies within the coda mask and spells a
      master-list coda. */
  predicate UncheckedFacts(tb: Tables)
  {
    (forall v :: v in tb.vowelGlideToNucleus ==> v * VowelMask != {}) &&
    (forall r :: r in tb.rightToCoda ==> r <= RightCodaMask && tb.rightToCoda[r] in Codas)
  }

  /** The tables lookup is proved for: the load-time checks plus the two facts
      above. */
  predicate ValidTables(tb: Tables)
  {
    LoadTimeChecks(tb) && UncheckedFacts(tb)
  }

  /** Every vowel-and-glide chord holds a vowel key. */
  lemma VowelGlideHasVowel()
    ensures forall v :: v in VowelGlideToNucleus ==> v * VowelMask != {}
  {
    forall v | v in VowelGlideToNucleus ensures v * VowelMask != {} {
      if A in v {
        assert A in v * VowelMask;
      } else if O in v {
        assert O in v * VowelMask;
      } else {
        assert E in v || U in v;
        assert E in v * VowelMask || U in v * VowelMask;
      }
    }
  }

  /** The tables of this module pass the load-time checks and satisfy the two
      facts the module does not check. */
  lemma DictionaryTablesValid()
    ensures LoadTimeChecks(DictionaryTables()) && UncheckedFacts(DictionaryTables())
  {
    LeftToConsonantValid();
    VowelGlideValid();
    VowelGlideHasVowel();
    RightToCodaValid();
    RightToToneValid();
    RightToConsonantValid();
  }

  /** A stroke with a vowel and the star: a two-word brief, looked up in the
      brief mapping; the word picked is the disambiguation offset of the stroke
      plus that of the second stroke, when only one of them is set. */
  function LookupBrief(tb: Tables, stroke: Chord, index1: nat, briefs: BriefMapping): LookupResult
  {
    var f := Fields(stroke, BriefMasks);
    if f[5] != {} then NoMatch
    else if f[0] !in tb.leftToConsonant || f[1] !in tb.vowelGlideToNucleus || f[2] !in tb.rightToConsonant then
      Fault(MissingKey)
    else
      var key := BriefKey(tb.leftToConsonant[f[0]], tb.vowelGlideToNucleus[f[1]], tb.rightToConsonant[f[2]]);
      if key !in briefs then Fault(MissingKey)
      else if |briefs[key]| == 0 then Fault(AssertionFailure)
      else
        LookupMasksSeparated();
        FieldsOfSeparated(stroke, BriefMasks, 4);
        DisambiguationIndexed(f[4]);
        PickBrief(briefs[key], RightDisambiguationIndex[f[4]], index1)
  }

  /** The word of a non-empty candidate list that two disambiguation offsets
      pick: at most one of them may be set, and it must fall inside the list. */
  function PickBrief(words: seq<string>, index: nat, index1: nat): LookupResult
  {
    if index1 != 0 && index != 0 then NoMatch
    else if index + index1 >= |words| then NoMatch
    else Word(words[index + index1])
  }

  /** A stroke with a vowel and no star: one syllable, spelled by construct with
      the new tone placement, tolerating a missing tone after a stop coda. */
  function LookupSyllable(tb: Tables, stroke: Chord): LookupResult
    requires ValidTables(tb)
  {
    var f := Fields(stroke, SyllableMasks);
    if f[4] != {} then NoMatch
    else SyllableOfFields(tb, f[0], f[1], f[2], f[3])
  }

  /** The syllable of an onset, a vowel-and-glide, a coda and a tone field. */
  function SyllableOfFields(tb: Tables, l: Chord, v: Chord, cd: Chord, t: Chord): LookupResult
    requires ValidTables(tb)
  {
    if l !in tb.leftToConsonant || v !in tb.vowelGlideToNucleus || cd !in tb.rightToCoda || t !in tb.rightToTone then
      Fault(MissingKey)
    else
      Spelled(Construct(tb.leftToConsonant[l], tb.vowelGlideToNucleus[v], tb.rightToCoda[cd], tb.rightToTone[t], true, true))
  }

  /** What lookup returns for what construct returns. */
  function Spelled(w: Option<string>): LookupResult
  {
    match w
    case Some(text) => Word(text)
    case None => NoMatch
  }

  /** lookup, over given tables: one stroke, or a stroke followed by a
      disambiguation stroke. */
  function LookupWith(tb: Tables, strokes: seq<StrokeText>, briefs: BriefMapping): LookupResult
    requires ValidTables(tb)
  {
    if |strokes| != 1 && |strokes| != 2 then Fault(AssertionFailure)
    else if strokes[0].None? then NoMatch
    else if |strokes| == 2 && strokes[1].None? then NoMatch
    else if |strokes| == 2 && strokes[1].value !in RightDisambiguationIndex then NoMatch
    else
      var index1 := if |strokes| == 2 then RightDisambiguationIndex[strokes[1].value] else 0;
      if |strokes| == 2 && index1 == 0 then Fault(AssertionFailure)
      else
        var stroke := strokes[0].value;
        if stroke * VowelMask == {} then NoMatch
        else if stroke * StarMask != {} then LookupBrief(tb, stroke, index1, briefs)
        else if index1 != 0 then NoMatch
        else LookupSyllable(tb, stroke)
  }

  /** lookup, over the tables of this module. */
  function Lookup(strokes: seq<StrokeText>, briefs: BriefMapping): LookupResult
  {
    DictionaryTablesValid();
    LookupWith(DictionaryTables(), strokes, briefs)
  }

  // ---------------------------------------------------------------------
  // Properties of lookup
  // ---------------------------------------------------------------------

  /** The syllable masks leave out the star. */
  lemma StarOutsideSyllableMasks()
    ensures Star !in Union(SyllableMasks)
  {
    UnionMembers(SyllableMasks, |SyllableMasks|);
  }

  /** A stroke made of one part within each syllable mask, with a vowel: lookup
      takes the syllable path and decompose gives the parts back. */
  lemma SyllableChord(l: Chord, v: Chord, cd: Chord, t: Chord)
    requires l <= LeftMask && v <= VowelGlideMask && cd <= RightCodaMask && t <= RightToneMask
    requires v * VowelMask != {}
    ensures (l + v + cd + t) * VowelMask != {} && (l + v + cd + t) * StarMask == {}
    ensures Fields(l + v + cd + t, SyllableMasks) == [l, v, cd, t, {}]
  {
    var parts := [l, v, cd, t];
    UnionOfFour(l, v, cd, t);
    SyllableMasksSeparated();
    FieldsOfJoin(parts, SyllableMasks);
    JoinWithinUnion(parts, SyllableMasks);
    StarOutsideSyllableMasks();
    MeetsWithin(v, l + v + cd + t, VowelMask);
  }

  /** A stroke written from entries of the syllable tables, one per field, reads
      back as the syllable construct spells from those entries. */
  lemma SyllableStroke(tb: Tables, l: Chord, v: Chord, cd: Chord, t: Chord, briefs: BriefMapping)
    requires ValidTables(tb)
    requires l in tb.leftToConsonant && v in tb.vowelGlideToNucleus && cd in tb.rightToCoda && t in tb.rightToTone
    ensures InMasterLists(tb.leftToConsonant[l], tb.vowelGlideToNucleus[v], tb.rightToCoda[cd])
    ensures LookupWith(tb, [Some(l + v + cd + t)], briefs) ==
      Spelled(Construct(tb.leftToConsonant[l], tb.vowelGlideToNucleus[v], tb.rightToCoda[cd], tb.rightToTone[t], true, true))
  {
    SyllableChord(l, v, cd, t);
  }

  /** A stroke made of one part within each brief mask, with a vowel and the
      star: lookup takes the brief path and decompose gives the parts back. */
  lemma BriefChord(l: Chord, v: Chord, r: Chord, d: Chord)
    requires l <= LeftMask && v <= VowelGlideMask && r <= RightMask && d <= RightDisambiguationMask
    requires v * VowelMask != {}
    ensures (l + v + r + StarMask + d) * VowelMask != {} && (l + v + r + StarMask + d) * StarMask != {}
    ensures Fields(l + v + r + StarMask + d, BriefMasks) == [l, v, r, StarMask, d, {}]
  {
    var parts := [l, v, r, StarMask, d];
    UnionOfFive(l, v, r, StarMask, d);
    BriefMasksSeparated();
    FieldsOfJoin(parts, BriefMasks);
    MeetsWithin(v, l + v + r + StarMask + d, VowelMask);
    MeetsWithin(StarMask, l + v + r + StarMask + d, StarMask);
  }

  /** What a brief stroke gives once its parts are known: the candidates of its
      key, and the word the two offsets pick among them. */
  function BriefResult(key: string, index: nat, index1: nat, briefs: BriefMapping): LookupResult
  {
    if key !in briefs then Fault(MissingKey)
    else if |briefs[key]| == 0 then Fault(AssertionFailure)
    else PickBrief(briefs[key], index, index1)
  }

  /** A brief stroke written from table entries reads back as the candidate its
      disambiguation keys pick. */
  lemma BriefStroke(tb: Tables, l: Chord, v: Chord, r: Chord, d: Chord, briefs: BriefMapping)
    requires ValidTables(tb)
    requires l in tb.leftToConsonant && v in tb.vowelGlideToNucleus && r in tb.rightToConsonant
    requires d <= RightDisambiguationMask
    ensures d in RightDisambiguationIndex
    ensures var key := BriefKey(tb.leftToConsonant[l], tb.vowelGlideToNucleus[v], tb.rightToConsonant[r]);
      LookupWith(tb, [Some(l + v + r + StarMask + d)], briefs) ==
        BriefResult(key, RightDisambiguationIndex[d], 0, briefs)
  {
    DisambiguationIndexed(d);
    BriefChord(l, v, r, d);
  }

  /** The disambiguation keys of a brief may come as a second stroke instead,
      with the same result. */
  lemma BriefSecondStroke(tb: Tables, l: Chord, v: Chord, r: Chord, d: Chord, briefs: BriefMapping)
    requires ValidTables(tb)
    requires l in tb.leftToConsonant && v in tb.vowelGlideToNucleus && r in tb.rightToConsonant
    requires d <= RightDisambiguationMask && d != {}
    ensures LookupWith(tb, [Some(l + v + r + StarMask), Some(d)], briefs) ==
            LookupWith(tb, [Some(l + v + r + StarMask + d)], briefs)
  {
    DisambiguationIndexed(d);
    DisambiguationOffsets();
    var c0 := l + v + r + StarMask;
    var key := BriefKey(tb.leftToConsonant[l], tb.vowelGlideToNucleus[v], tb.rightToConsonant[r]);
    BriefChord(l, v, r, {});
    assert c0 + {} == c0;
    assert LookupWith(tb, [Some(c0), Some(d)], briefs) == LookupBrief(tb, c0, RightDisambiguationIndex[d], briefs);
    assert LookupBrief(tb, c0, RightDisambiguationIndex[d], briefs) ==
           BriefResult(key, 0, RightDisambiguationIndex[d], briefs);
    BriefStroke(tb, l, v, r, d, briefs);
  }

  /** Disambiguating a brief in the stroke and again in a second stroke matches
      nothing. */
  lemma BriefDisambiguatedTwice(tb: Tables, l: Chord, v: Chord, r: Chord, d: Chord, d2: Chord, briefs: BriefMapping)
    requires ValidTables(tb)
    requires l in tb.leftToConsonant && v in tb.vowelGlideToNucleus && r in tb.rightToConsonant
    requires d <= RightDisambiguationMask && d != {}
    requires d2 in RightDisambiguationIndex && d2 != {}
    ensures !LookupWith(tb, [Some(l + v + r + StarMask + d), Some(d2)], briefs).Word?
  {
    DisambiguationIndexed(d);
    DisambiguationOffsets();
    BriefChord(l, v, r, d);
  }

  /** The offsets of the disambiguation table: zero exactly for the empty chord. */
  lemma DisambiguationOffsets()
    ensures forall d :: d in RightDisambiguationIndex ==> (RightDisambiguationIndex[d] == 0 <==> d == {})
  {
  }

  /** Wrong arity is an assertion failure (dictionary.py:170). */
  lemma WrongArity(tb: Tables, strokes: seq<StrokeText>, briefs: BriefMapping)
    requires ValidTables(tb) && |strokes| != 1 && |strokes| != 2
    ensures LookupWith(tb, strokes, briefs) == Fault(AssertionFailure)
  {
  }

  /** A stroke that does not parse matches nothing (dictionary.py:173-182). */
  lemma UnparsedStroke(tb: Tables, strokes: seq<StrokeText>, i: nat, briefs: BriefMapping)
    requires ValidTables(tb) && (|strokes| == 1 || |strokes| == 2) && i < |strokes| && strokes[i].None?
    ensures LookupWith(tb, strokes, briefs) == NoMatch
  {
    if strokes[0].Some? {
      assert i == 1 && strokes[1].None?;
    }
  }

  /** A second stroke that is not a disambiguation chord matches nothing
      (dictionary.py:177-178). */
  lemma UnknownSecondStroke(tb: Tables, c: Chord, d: Chord, briefs: BriefMapping)
    requires ValidTables(tb) && d !in RightDisambiguationIndex
    ensures LookupWith(tb, [Some(c), Some(d)], briefs) == NoMatch
  {
  }

  /** An empty second stroke is an assertion failure (dictionary.py:179-180). */
  lemma EmptySecondStroke(tb: Tables, c: Chord, briefs: BriefMapping)
    requires ValidTables(tb)
    ensures LookupWith(tb, [Some(c), Some({})], briefs) == Fault(AssertionFailure)
  {
    DisambiguationOffsets();
  }

  /** A chord without vowel keys alone matches nothing (dictionary.py:232-241). */
  lemma NoVowelNoMatch(tb: Tables, c: Chord, briefs: BriefMapping)
    requires ValidTables(tb) && c * VowelMask == {}
    ensures LookupWith(tb, [Some(c)], briefs) == NoMatch
  {
  }

  /** A chord without vowel keys never gives a word, with a second stroke
      either (dictionary.py:232-241). */
  lemma NoVowelNoWord(tb: Tables, c: Chord, d: StrokeText, briefs: BriefMapping)
    requires ValidTables(tb) && c * VowelMask == {}
    ensures !LookupWith(tb, [Some(c), d], briefs).Word?
  {
  }

  /** A syllable chord followed by a disambiguation stroke matches nothing
      (dictionary.py:221). */
  lemma SyllableTakesNoSecondStroke(tb: Tables, c: Chord, d: Chord, briefs: BriefMapping)
    requires ValidTables(tb)
    requires c * VowelMask != {} && c * StarMask == {} && d in RightDisambiguationIndex && d != {}
    ensures LookupWith(tb, [Some(c), Some(d)], briefs) == NoMatch
  {
    DisambiguationOffsets();
  }

  /** The keys that no field of either path takes. */
  const UnusedKeys: Chord := {Number, RD, RZ}

  /** Neither path's masks take the number bar, -D or -Z. */
  lemma UnusedKeysOutsideMasks()
    ensures UnusedKeys * Union(SyllableMasks) == {} && UnusedKeys * Union(BriefMasks) == {}
  {
    UnionMembers(SyllableMasks, |SyllableMasks|);
    UnionMembers(BriefMasks, |BriefMasks|);
  }

  /** A chord with keys outside the fields leaves a remainder and matches
      nothing, on either path (dictionary.py:190 and 224). */
  lemma RemainderNoMatch(tb: Tables, c: Chord, briefs: BriefMapping)
    requires ValidTables(tb)
    requires c * UnusedKeys != {}
    ensures LookupWith(tb, [Some(c)], briefs) == NoMatch
  {
    RemainderFields(c);
    if c * VowelMask != {} {
      if c * StarMask != {} {
        assert LookupBrief(tb, c, 0, briefs) == NoMatch;
      } else {
        assert LookupSyllable(tb, c) == NoMatch;
      }
    }
  }

  /** A chord with an unused key leaves something over on both paths. */
  lemma RemainderFields(c: Chord)
    requires c * UnusedKeys != {}
    ensures Fields(c, SyllableMasks)[4] != {} && Fields(c, BriefMasks)[5] != {}
  {
    UnusedKeysOutsideMasks();
    SyllableMasksSeparated();
    BriefMasksSeparated();
    FieldsOfSeparated(c, SyllableMasks, 0);
    FieldsOfSeparated(c, BriefMasks, 0);
    var k :| k in c * UnusedKeys;
    assert k !in Union(SyllableMasks) && k !in Union(BriefMasks);
    assert k in Fields(c, SyllableMasks)[4];
    assert k in Fields(c, BriefMasks)[5];
  }

  /** A word of the syllable path is spelled by construct from master-list parts. */
  lemma SyllableWordOrigin(tb: Tables, stroke: Chord)
    requires ValidTables(tb) && LookupSyllable(tb, stroke).Word?
    ensures exists o, n, c, t ::
      InMasterLists(o, n, c) && Construct(o, n, c, t, true, true) == Some(LookupSyllable(tb, stroke).text)
  {
    var f := Fields(stroke, SyllableMasks);
    var o, n, c, t := tb.leftToConsonant[f[0]], tb.vowelGlideToNucleus[f[1]], tb.rightToCoda[f[2]], tb.rightToTone[f[3]];
    assert Construct(o, n, c, t, true, true) == Some(LookupSyllable(tb, stroke).text);
  }

  /** A word of the brief path is a candidate of the brief mapping. */
  lemma BriefWordOrigin(tb: Tables, stroke: Chord, index1: nat, briefs: BriefMapping)
    requires LookupBrief(tb, stroke, index1, briefs).Word?
    ensures exists key :: key in briefs && LookupBrief(tb, stroke, index1, briefs).text in briefs[key]
  {
    var f := Fields(stroke, BriefMasks);
    var key := BriefKey(tb.leftToConsonant[f[0]], tb.vowelGlideToNucleus[f[1]], tb.rightToConsonant[f[2]]);
    LookupMasksSeparated();
    FieldsOfSeparated(stroke, BriefMasks, 4);
    DisambiguationIndexed(f[4]);
    var picked := PickBrief(briefs[key], RightDisambiguationIndex[f[4]], index1);
    assert LookupBrief(tb, stroke, index1, briefs) == picked;
    PickedFromList(briefs[key], RightDisambiguationIndex[f[4]], index1);
    assert key in briefs && picked.text in briefs[key];
  }

  /** A word that PickBrief returns is one of its candidates. */
  lemma PickedFromList(words: seq<string>, index: nat, index1: nat)
    requires PickBrief(words, index, index1).Word?
    ensures PickBrief(words, index, index1).text in words
  {
  }

  /** Every word lookup gives is spelled by construct with the new tone
      placement from master-list parts, or is a candidate of the brief
      mapping. */
  lemma WordOrigin(tb: Tables, strokes: seq<StrokeText>, briefs: BriefMapping)
    requires ValidTables(tb) && LookupWith(tb, strokes, briefs).Word?
    ensures (|strokes| == 1 || |strokes| == 2) && strokes[0].Some? && strokes[0].value * VowelMask != {}
    ensures strokes[0].value * StarMask == {} ==>
      |strokes| == 1 &&
      exists o, n, c, t ::
        InMasterLists(o, n, c) && Construct(o, n, c, t, true, true) == Some(LookupWith(tb, strokes, briefs).text)
    ensures strokes[0].value * StarMask != {} ==>
      exists key :: key in briefs && LookupWith(tb, strokes, briefs).text in briefs[key]
  {
    var stroke := strokes[0].value;
    DisambiguationOffsets();
    if stroke * StarMask == {} {
      assert LookupWith(tb, strokes, briefs) == LookupSyllable(tb, stroke);
      SyllableWordOrigin(tb, stroke);
    } else {
      var index1 := if |strokes| == 2 then RightDisambiguationIndex[strokes[1].value] else 0;
      assert LookupWith(tb, strokes, briefs) == LookupBrief(tb, stroke, index1, briefs);
      BriefWordOrigin(tb, stroke, index1, briefs);
    }
  }
}
