/**
 * The Vietnamese syllable constructor of plover_vi/library.py: the master
 * phoneme lists, the tone-mark table standing for the Unicode name algebra
 * of add_tone/strip_tone, and construct, which spells onset + nucleus + coda
 * + tone as a syllable or rejects the combination.
 */
module Library {
  import opened Options

  // ---------------------------------------------------------------------
  // Tone marks (library.py:8-17)
  // ---------------------------------------------------------------------

  /** The vowel letters that can carry a tone mark. */
  const BaseVowels: string := "aăâeêioôơuưy"

  /** The five marked forms of a base vowel, in the order
      ACUTE, GRAVE, HOOK ABOVE, TILDE, DOT BELOW (precomposed code points). */
  function MarkedForms(c: char): (r: string)
    requires c in BaseVowels
  {
    if c == 'a' then "áàảãạ"
    else if c == 'ă' then "ắằẳẵặ"
    else if c == 'â' then "ấầẩẫậ"
    else if c == 'e' then "éèẻẽẹ"
    else if c == 'ê' then "ếềểễệ"
    else if c == 'i' then "íìỉĩị"
    else if c == 'o' then "óòỏõọ"
    else if c == 'ô' then "ốồổỗộ"
    else if c == 'ơ' then "ớờởỡợ"
    else if c == 'u' then "úùủũụ"
    else if c == 'ư' then "ứừửữự"
    else "ýỳỷỹỵ"
  }

  /** The column of a (non-level) tone in MarkedForms. */
  function MarkColumn(tone: Tone): (i: nat)
    requires tone != Level
    ensures i < 5 && Tones[i + 1] == tone
  {
    match tone
    case Acute => 0
    case Grave => 1
    case HookAbove => 2
    case Tilde => 3
    case DotBelow => 4
  }

  /** add_tone: the base vowel with the tone's mark; LEVEL leaves it unmarked. */
  function AddTone(c: char, tone: Tone): char
    requires c in BaseVowels
  {
    if tone == Level then c else MarkedForms(c)[MarkColumn(tone)]
  }

  /** strip_tone: a marked vowel loses its tone mark; any other character is kept. */
  function StripTone(c: char): char
  {
    if c == 'á' || c == 'à' || c == 'ả' || c == 'ã' || c == 'ạ' then 'a'
    else if c == 'ắ' || c == 'ằ' || c == 'ẳ' || c == 'ẵ' || c == 'ặ' then 'ă'
    else if c == 'ấ' || c == 'ầ' || c == 'ẩ' || c == 'ẫ' || c == 'ậ' then 'â'
    else if c == 'é' || c == 'è' || c == 'ẻ' || c == 'ẽ' || c == 'ẹ' then 'e'
    else if c == 'ế' || c == 'ề' || c == 'ể' || c == 'ễ' || c == 'ệ' then 'ê'
    else if c == 'í' || c == 'ì' || c == 'ỉ' || c == 'ĩ' || c == 'ị' then 'i'
    else if c == 'ó' || c == 'ò' || c == 'ỏ' || c == 'õ' || c == 'ọ' then 'o'
    else if c == 'ố' || c == 'ồ' || c == 'ổ' || c == 'ỗ' || c == 'ộ' then 'ô'
    else if c == 'ớ' || c == 'ờ' || c == 'ở' || c == 'ỡ' || c == 'ợ' then 'ơ'
    else if c == 'ú' || c == 'ù' || c == 'ủ' || c == 'ũ' || c == 'ụ' then 'u'
    else if c == 'ứ' || c == 'ừ' || c == 'ử' || c == 'ữ' || c == 'ự' then 'ư'
    else if c == 'ý' || c == 'ỳ' || c == 'ỷ' || c == 'ỹ' || c == 'ỵ' then 'y'
    else c
  }

  /** The tone a character is marked with (LEVEL for an unmarked one). */
  function ToneOf(c: char): Tone
  {
    var base := StripTone(c);
    if base == c then Level else ColumnTone(c, MarkedForms(base))
  }

  function ColumnTone(c: char, forms: string): Tone
    requires |forms| == 5
  {
    if c == forms[0] then Acute
    else if c == forms[1] then Grave
    else if c == forms[2] then HookAbove
    else if c == forms[3] then Tilde
    else DotBelow
  }

  /** add_tone and strip_tone agree: marking a vowel and stripping the mark gives
      the vowel back, and the mark records the tone; so AddTone is injective. */
  lemma ToneMarkRoundTrip(c: char, tone: Tone)
    requires c in BaseVowels
    ensures StripTone(AddTone(c, tone)) == c
    ensures ToneOf(AddTone(c, tone)) == tone
  {
    if c == 'a' { RoundTripA(tone); }
    else if c == 'ă' { RoundTripABreve(tone); }
    else if c == 'â' { RoundTripACircumflex(tone); }
    else if c == 'e' { RoundTripE(tone); }
    else if c == 'ê' { RoundTripECircumflex(tone); }
    else if c == 'i' { RoundTripI(tone); }
    else if c == 'o' { RoundTripO(tone); }
    else if c == 'ô' { RoundTripOCircumflex(tone); }
    else if c == 'ơ' { RoundTripOHorn(tone); }
    else if c == 'u' { RoundTripU(tone); }
    else if c == 'ư' { RoundTripUHorn(tone); }
    else { RoundTripY(tone); }
  }

  // One row of the table at a time.
  lemma RoundTripA(tone: Tone)
    ensures StripTone(AddTone('a', tone)) == 'a' && ToneOf(AddTone('a', tone)) == tone
  {}
  lemma RoundTripABreve(tone: Tone)
    ensures StripTone(AddTone('ă', tone)) == 'ă' && ToneOf(AddTone('ă', tone)) == tone
  {}
  lemma RoundTripACircumflex(tone: Tone)
    ensures StripTone(AddTone('â', tone)) == 'â' && ToneOf(AddTone('â', tone)) == tone
  {}
  lemma RoundTripE(tone: Tone)
    ensures StripTone(AddTone('e', tone)) == 'e' && ToneOf(AddTone('e', tone)) == tone
  {}
  lemma RoundTripECircumflex(tone: Tone)
    ensures StripTone(AddTone('ê', tone)) == 'ê' && ToneOf(AddTone('ê', tone)) == tone
  {}
  lemma RoundTripI(tone: Tone)
    ensures StripTone(AddTone('i', tone)) == 'i' && ToneOf(AddTone('i', tone)) == tone
  {}
  lemma RoundTripO(tone: Tone)
    ensures StripTone(AddTone('o', tone)) == 'o' && ToneOf(AddTone('o', tone)) == tone
  {}
  lemma RoundTripOCircumflex(tone: Tone)
    ensures StripTone(AddTone('ô', tone)) == 'ô' && ToneOf(AddTone('ô', tone)) == tone
  {}
  lemma RoundTripOHorn(tone: Tone)
    ensures StripTone(AddTone('ơ', tone)) == 'ơ' && ToneOf(AddTone('ơ', tone)) == tone
  {}
  lemma RoundTripU(tone: Tone)
    ensures StripTone(AddTone('u', tone)) == 'u' && ToneOf(AddTone('u', tone)) == tone
  {}
  lemma RoundTripUHorn(tone: Tone)
    ensures StripTone(AddTone('ư', tone)) == 'ư' && ToneOf(AddTone('ư', tone)) == tone
  {}
  lemma RoundTripY(tone: Tone)
    ensures StripTone(AddTone('y', tone)) == 'y' && ToneOf(AddTone('y', tone)) == tone
  {}

  // ---------------------------------------------------------------------
  // Master lists (library.py:20-29)
  // ---------------------------------------------------------------------

  const Onsets: seq<string> :=
    ["", "b", "p", "tr", "ch", "s", "x", "d", "gi", "r", "l", "h", "kh", "m", "n",
     "đ", "t", "th", "ph", "v", "q", "c/k", "g/gh", "nh", "ng/ngh", "y"]
  const NucleusesWithoutW: seq<string> :=
    ["a", "/ă", "e", "ê", "i", "o", "ô", "ơ", "u", "ư", "/â", "/oo", "ia/iê", "ưa/ươ", "ua/uô"]
  const NucleusesWithW: seq<string> :=
    ["oa", "/oă", "oe", "uê", "uy", "uơ", "/uâ", "uya/uyê"]
  const Codas: seq<string> := ["", "c", "ch", "m", "n", "ng", "nh", "p", "t", "o/u", "i/y"]
  /** The six tones, named after the Unicode combining mark each adds
      (LEVEL adds none). */
  datatype Tone = Level | Acute | Grave | HookAbove | Tilde | DotBelow

  const Tones: seq<Tone> := [Level, Acute, Grave, HookAbove, Tilde, DotBelow]
  const Nucleuses: seq<string> := NucleusesWithoutW + NucleusesWithW

  /** The codas that end in a stop consonant. */
  const StopCodas: seq<string> := ["c", "ch", "p", "t"]

  predicate NoDuplicates(s: seq<string>)
  {
    forall i, j :: 0 <= i < j < |s| ==> s[i] != s[j]
  }

  /** construct's precondition: every component comes from its master list. */
  predicate InMasterLists(onset: string, nucleus: string, coda: string)
  {
    onset in Onsets && nucleus in Nucleuses && coda in Codas
  }

  // ---------------------------------------------------------------------
  // construct (library.py:31-112)
  // ---------------------------------------------------------------------

  /** The text before the first '/' and the text after it. */
  function Alternatives(s: string): (r: (string, string))
    requires '/' in s
    ensures r.0 + "/" + r.1 == s && '/' !in r.0
  {
    if s[0] == '/' then ("", s[1..])
    else
      var rest := Alternatives(s[1..]);
      assert [s[0]] + rest.0 + "/" + rest.1 == [s[0]] + (rest.0 + "/" + rest.1);
      ([s[0]] + rest.0, rest.1)
  }

  /** `s.split('/')[1 if second else 0]` for a spelling with one '/'. */
  function Pick(s: string, second: bool): string
    requires '/' in s
  {
    if second then Alternatives(s).1 else Alternatives(s).0
  }

  /** Every letter is a vowel that can carry a tone mark. */
  predicate AllVowels(s: string)
  {
    forall i :: 0 <= i < |s| ==> s[i] in BaseVowels
  }

  /** The onset "gi" excludes three nucleus/coda pairs (library.py:38-41). */
  predicate GiExcluded(onset: string, nucleus: string, coda: string)
  {
    onset == "gi" &&
    ((nucleus == "i" && coda == "o/u") || (nucleus == "ia/iê" && coda == "") || (nucleus == "ê" && coda != ""))
  }

  /** The tone written with a coda (library.py:43-48): after a stop coda only
      ACUTE and DOT BELOW; LEVEL becomes ACUTE when tolerant, else is rejected. */
  function StopCodaTone(coda: string, tone: Tone, tolerant: bool): Option<Tone>
  {
    if coda !in StopCodas then Some(tone)
    else if tone == Level then (if tolerant then Some(Acute) else None)
    else if tone == Acute || tone == DotBelow then Some(tone)
    else None
  }

  /** The onset "q" needs a glide nucleus, or "ua/uô" before a coda (library.py:49-54). */
  predicate QExcluded(onset: string, nucleus: string, coda: string)
  {
    onset == "q" && !(nucleus in NucleusesWithW || (nucleus == "ua/uô" && coda != ""))
  }

  /** Codas that would repeat the nucleus's vowel sound (library.py:56-60). */
  predicate CodaCollision(nucleus: string, coda: string)
  {
    (coda == "o/u" && (nucleus == "o" || nucleus == "u")) ||
    (coda == "i/y" && (nucleus == "e" || nucleus == "ê" || nucleus == "ia/iê"))
  }

  /** A nucleus with spelling alternatives takes the second one before a coda (library.py:62-63). */
  function ResolveNucleus(nucleus: string, coda: string): string
  {
    if '/' in nucleus then Pick(nucleus, coda != "") else nucleus
  }

  /** The spelling of a coda with alternatives (library.py:70-82): the new
      nucleus and coda, or None for "i" + "i/y" without an onset. */
  function ResolveCoda(onset: string, nucleus: string, coda: string): (r: Option<(string, string)>)
    requires nucleus != ""
    ensures r.Some? ==> r.value.0 != "" && (AllVowels(nucleus) ==> AllVowels(r.value.0))
    ensures r.None? <==> coda == "i/y" && nucleus == "i" && onset == ""
    ensures '/' !in coda ==> r == Some((nucleus, coda))
    ensures r.Some? && onset != "q" && nucleus[0] != 'i' ==> r.value.0[0] != 'i'
  {
    var last := nucleus[|nucleus| - 1];
    if '/' !in coda then Some((nucleus, coda))
    else if last == 'ă' then
      var n := nucleus[..|nucleus| - 1] + "a";
      assert forall i :: 0 <= i < |n| - 1 ==> n[i] == nucleus[i];
      Some((n, [coda[|coda| - 1]]))
    else if coda == "o/u" then Some((nucleus, if last == 'a' || last == 'e' then "o" else "u"))
    else if coda == "i/y" then
      if nucleus == "i" then (if onset == "" then None else Some(("y", "")))
      else if nucleus == "uy" && onset == "q" then Some(("ui", ""))
      else Some((nucleus, if last == 'â' then "y" else "i"))
    else Some((nucleus, coda))
  }

  /** Which letter of the spelled nucleus carries the tone mark (library.py:95-102). */
  function TonePosition(onset: string, nucleus: string, coda: string, newTonePlacement: bool): (p: nat)
    requires nucleus != ""
    ensures p < |nucleus|
  {
    if |nucleus| == 1 then 0
    else if nucleus in NucleusesWithW then
      if !newTonePlacement && nucleus in ["oa", "oe", "uy"] && coda == "" && onset != "q" then 0 else 1
    else if coda != "" then |nucleus| - 1
    else |nucleus| - 2
  }

  /** A syllable spelled up to its tone mark: the letters of the onset, the
      nucleus, the index of the nucleus letter that takes the mark, the coda. */
  datatype Spelling = Spelling(onset: string, nucleus: string, tonePos: nat, coda: string)

  predicate WellFormed(sp: Spelling)
  {
    sp.tonePos < |sp.nucleus| && AllVowels(sp.nucleus)
  }

  /** The spelling rules of library.py:62-107 (everything but the tone). */
  function Spell(onset: string, nucleus: string, coda: string, newTonePlacement: bool, tolerant: bool): (r: Option<Spelling>)
    requires onset in Onsets && nucleus in Nucleuses && coda in Codas
    ensures r.Some? ==> WellFormed(r.value)
    ensures r.Some? && '/' !in coda ==> r.value.coda == coda
    ensures r.Some? && onset == "y" ==> r.value.onset == "" && r.value.nucleus[0] == 'y'
    ensures var n1 := ResolveNucleus(nucleus, coda);
            onset == "y" && n1 != "" && n1[0] != 'i' && !(tolerant && n1 in ["e", "ê"]) ==> r.None?
  {
    NucleusSpellings(nucleus, coda);
    var n1 := ResolveNucleus(nucleus, coda);
    if n1 == "" then None
    else
      var n2 := if tolerant && onset == "y" && (n1 == "e" || n1 == "ê") then "iê" else n1;
      assert AllVowels(n2);
      match ResolveCoda(onset, n2, coda)
      case None => None
      case Some((n3, c)) =>
        match RespellOnset(onset, n3, c)
        case None => None
        case Some((o, n4)) => Some(PlaceTone(o, n4, c, newTonePlacement))
  }

  /** The onset rewrites of library.py:84-93: "c/k" + "uy" before a coda is
      spelled "qui", an onset with alternatives is chosen by the nucleus's first
      letter, and the onset "y" merges into a nucleus starting with "i". */
  function RespellOnset(onset: string, nucleus: string, coda: string): (r: Option<(string, string)>)
    requires onset in Onsets && nucleus != ""
    ensures r.Some? ==> r.value.1 != "" && (AllVowels(nucleus) ==> AllVowels(r.value.1))
    ensures onset == "y" ==> (r.Some? <==> nucleus[0] == 'i')
    ensures onset == "y" && r.Some? ==> r.value.0 == "" && r.value.1[0] == 'y'
    ensures onset != "y" ==> r.Some?
  {
    var rewrite := nucleus == "uy" && onset == "c/k" && coda != "";
    var o1 := if rewrite then "q" else onset;
    var n1 := if rewrite then "ui" else nucleus;
    var o2 := ChooseOnset(o1, n1[0] in "eêiy");
    if o2 == "y" && n1[0] != 'i' then None
    else if o2 == "y" then
      Some(("", WithFirst('y', n1)))
    else Some((o2, n1))
  }

  /** s with its first letter replaced by c. */
  function WithFirst(c: char, s: string): (r: string)
    requires s != ""
    ensures |r| == |s| && r[0] == c
    ensures c in BaseVowels && AllVowels(s) ==> AllVowels(r)
  {
    var r := [c] + s[1..];
    assert forall i :: 1 <= i < |r| ==> r[i] == s[i];
    r
  }

  /** An onset with alternatives takes the second one before a front vowel
      (library.py:88-90); none of them is "y". */
  function ChooseOnset(onset: string, front: bool): (o: string)
    requires onset in Onsets
    ensures o == "y" <==> onset == "y"
  {
    if '/' in onset then OnsetAlternatives(onset, front); Pick(onset, front) else onset
  }

  lemma OnsetAlternatives(onset: string, second: bool)
    requires onset in Onsets && '/' in onset
    ensures onset != "y" && Pick(onset, second) != "y"
  {
    if onset == "c/k" {
      AlternativesAt(onset, 1);
    } else if onset == "g/gh" {
      AlternativesAt(onset, 1);
    } else {
      assert onset == "ng/ngh";
      AlternativesAt(onset, 2);
    }
  }

  /** The tone position (library.py:95-107); the onset "q" also writes the
      nucleus's first letter as "u". */
  function PlaceTone(onset: string, nucleus: string, coda: string, newTonePlacement: bool): (sp: Spelling)
    requires nucleus != "" && AllVowels(nucleus)
    ensures WellFormed(sp) && sp.onset == onset && sp.coda == coda
    ensures onset != "q" ==> sp.nucleus == nucleus
  {
    var p1 := TonePosition(onset, nucleus, coda, newTonePlacement);
    var p2 := if onset == "q" && nucleus == "ua" then 1 else p1;
    var n := if onset == "q" then WithFirst('u', nucleus) else nucleus;
    Spelling(onset, n, p2, coda)
  }

  /** Alternatives splits at the first '/'. */
  lemma {:induction false} AlternativesAt(s: string, k: nat)
    requires k < |s| && s[k] == '/' && '/' !in s[..k]
    ensures Alternatives(s) == (s[..k], s[k + 1..])
  {
    if k > 0 {
      assert s[1..][..k - 1] == s[1..k];
      assert s[k] in s[1..];
      AlternativesAt(s[1..], k - 1);
      assert [s[0]] + s[1..k] == s[..k];
    }
  }

  /** Both alternatives of a spelling whose two sides are vowels are vowels. */
  lemma PickVowels(s: string, k: nat, second: bool)
    requires k < |s| && s[k] == '/' && AllVowels(s[..k]) && AllVowels(s[k + 1..])
    ensures AllVowels(Pick(s, second))
  {
    assert '/' !in BaseVowels;
    AlternativesAt(s, k);
  }

  /** Every nucleus of the master list spells with vowels only. */
  lemma NucleusSpellings(nucleus: string, coda: string)
    requires nucleus in Nucleuses
    ensures AllVowels(ResolveNucleus(nucleus, coda))
  {
    if '/' in nucleus {
      assert nucleus in ["/ă", "/â", "/oo", "/oă", "/uâ", "ia/iê", "ưa/ươ", "ua/uô", "uya/uyê"];
      SlashNucleusSpellings(nucleus, coda != "");
    }
  }

  /** Both alternatives of every slash nucleus are vowels only. */
  lemma SlashNucleusSpellings(nucleus: string, second: bool)
    requires nucleus in ["/ă", "/â", "/oo", "/oă", "/uâ", "ia/iê", "ưa/ươ", "ua/uô", "uya/uyê"]
    ensures AllVowels(Pick(nucleus, second))
  {
    if nucleus == "/ă" {
      PickVowels("/ă", 0, second);
    } else if nucleus == "/â" {
      PickVowels("/â", 0, second);
    } else if nucleus == "/oo" {
      PickVowels("/oo", 0, second);
    } else if nucleus == "/oă" {
      PickVowels("/oă", 0, second);
    } else if nucleus == "/uâ" {
      PickVowels("/uâ", 0, second);
    } else if nucleus == "ia/iê" {
      PickVowels("ia/iê", 2, second);
    } else if nucleus == "ưa/ươ" {
      PickVowels("ưa/ươ", 2, second);
    } else if nucleus == "ua/uô" {
      PickVowels("ua/uô", 2, second);
    } else if nucleus == "uya/uyê" {
      PickVowels("uya/uyê", 3, second);
    }
  }

  /** The onset as Assemble writes it: less a last letter the nucleus repeats. */
  function Head(sp: Spelling): string
    requires WellFormed(sp)
  {
    var o := sp.onset;
    if o != "" && o[|o| - 1] == sp.nucleus[0] then o[..|o| - 1] else o
  }

  /** The final assembly (library.py:109-112): the onset loses a last letter that
      the nucleus repeats, and the marked nucleus is followed by the coda. */
  function Assemble(sp: Spelling, tone: Tone): string
    requires WellFormed(sp)
  {
    var n := sp.nucleus;
    Head(sp) + n[..sp.tonePos] + [AddTone(n[sp.tonePos], tone)] + n[sp.tonePos + 1..] + sp.coda
  }

  /** construct: the syllable spelled from its phonetic parts, or None when the
      combination is not written in Vietnamese. */
  function Construct(onset: string, nucleus: string, coda: string, tone: Tone,
                     newTonePlacement: bool, tolerant: bool): (r: Option<string>)
    requires InMasterLists(onset, nucleus, coda)
  {
    if GiExcluded(onset, nucleus, coda) then None
    else match StopCodaTone(coda, tone, tolerant)
      case None => None
      case Some(t) =>
        if QExcluded(onset, nucleus, coda) || CodaCollision(nucleus, coda) then None
        else match Spell(onset, nucleus, coda, newTonePlacement, tolerant)
          case None => None
          case Some(sp) => Some(Assemble(sp, t))
  }

  // ---------------------------------------------------------------------
  // Properties of construct
  // ---------------------------------------------------------------------

  /** The master lists hold no duplicates (library.py:28-29). */
  lemma MasterListsDistinct()
    ensures NoDuplicates(Onsets) && NoDuplicates(Nucleuses) && NoDuplicates(Codas)
    ensures forall i, j :: 0 <= i < j < |Tones| ==> Tones[i] != Tones[j]
  {
    OnsetsDistinct();
    NucleusRows0To8(); NucleusRows8To15(); NucleusRows15To23();
  }

  lemma OnsetsDistinct()
    ensures NoDuplicates(Onsets)
  {
    OnsetRows0To6(); OnsetRows6To12(); OnsetRows12To19(); OnsetRows19To26();
  }

  // The nuclei compared a few rows at a time.
  lemma NucleusRows0To8()
    ensures forall i, j :: 0 <= i < 8 && i < j < |Nucleuses| ==> Nucleuses[i] != Nucleuses[j]
  {
  }
  lemma NucleusRows8To15()
    ensures forall i, j :: 8 <= i < 15 && i < j < |Nucleuses| ==> Nucleuses[i] != Nucleuses[j]
  {
  }
  lemma NucleusRows15To23()
    ensures forall i, j :: 15 <= i < 23 && i < j < |Nucleuses| ==> Nucleuses[i] != Nucleuses[j]
  {
  }

  // The onsets compared a few rows at a time.
  lemma OnsetRows0To6()
    ensures forall i, j :: 0 <= i < 6 && i < j < |Onsets| ==> Onsets[i] != Onsets[j]
  {
  }
  lemma OnsetRows6To12()
    ensures forall i, j :: 6 <= i < 12 && i < j < |Onsets| ==> Onsets[i] != Onsets[j]
  {
  }
  lemma OnsetRows12To19()
    ensures forall i, j :: 12 <= i < 19 && i < j < |Onsets| ==> Onsets[i] != Onsets[j]
  {
  }
  lemma OnsetRows19To26()
    ensures forall i, j :: 19 <= i < 26 && i < j < |Onsets| ==> Onsets[i] != Onsets[j]
  {
  }

  /** After a stop coda only ACUTE and DOT BELOW are written; LEVEL is
      rejected unless tolerant (library.py:43-48). */
  lemma StopCodaTones(onset: string, nucleus: string, coda: string, tone: Tone,
                      newTonePlacement: bool, tolerant: bool)
    requires InMasterLists(onset, nucleus, coda) && coda in StopCodas
    ensures tone !in {Level, Acute, DotBelow} ==>
              Construct(onset, nucleus, coda, tone, newTonePlacement, tolerant) == None
    ensures tone == Level && !tolerant ==>
              Construct(onset, nucleus, coda, tone, newTonePlacement, tolerant) == None
  {
  }

  /** Tolerant construction reads a LEVEL stop syllable as ACUTE (library.py:43-46). */
  lemma TolerantLevelIsAcute(onset: string, nucleus: string, coda: string, newTonePlacement: bool)
    requires InMasterLists(onset, nucleus, coda) && coda in StopCodas
    ensures Construct(onset, nucleus, coda, Level, newTonePlacement, true)
         == Construct(onset, nucleus, coda, Acute, newTonePlacement, true)
  {
  }

  /** "q" needs a glide nucleus, or "ua/uô" and a coda (library.py:49-54). */
  lemma QOnsetGate(nucleus: string, coda: string, tone: Tone, newTonePlacement: bool, tolerant: bool)
    requires nucleus in Nucleuses && coda in Codas
    ensures nucleus !in NucleusesWithW && !(nucleus == "ua/uô" && coda != "") ==>
              Construct("q", nucleus, coda, tone, newTonePlacement, tolerant) == None
  {
  }

  /** A coda that would repeat the nucleus's vowel sound is rejected (library.py:56-60). */
  lemma CodaCollisions(onset: string, nucleus: string, coda: string, tone: Tone,
                       newTonePlacement: bool, tolerant: bool)
    requires InMasterLists(onset, nucleus, coda)
    ensures coda == "o/u" && nucleus in ["o", "u"] ==>
              Construct(onset, nucleus, coda, tone, newTonePlacement, tolerant) == None
    ensures coda == "i/y" && nucleus in ["e", "ê", "ia/iê"] ==>
              Construct(onset, nucleus, coda, tone, newTonePlacement, tolerant) == None
  {
  }

  /** The three exclusions after the onset "gi" (library.py:38-41). */
  lemma GiExclusions(nucleus: string, coda: string, tone: Tone, newTonePlacement: bool, tolerant: bool)
    requires nucleus in Nucleuses && coda in Codas
    ensures (nucleus == "i" && coda == "o/u") || (nucleus == "ia/iê" && coda == "")
            || (nucleus == "ê" && coda != "") ==>
              Construct("gi", nucleus, coda, tone, newTonePlacement, tolerant) == None
  {
  }

  /** A nucleus with alternatives whose chosen side is empty is rejected
      (library.py:62-65); the five nuclei written with a leading '/' have
      nothing to write without a coda. */
  lemma EmptyAlternative(onset: string, nucleus: string, coda: string, tone: Tone,
                         newTonePlacement: bool, tolerant: bool)
    requires InMasterLists(onset, nucleus, coda)
    ensures '/' in nucleus && Pick(nucleus, coda != "") == "" ==>
              Construct(onset, nucleus, coda, tone, newTonePlacement, tolerant) == None
    ensures nucleus in ["/ă", "/â", "/oo", "/oă", "/uâ"] && coda == "" ==>
              Construct(onset, nucleus, coda, tone, newTonePlacement, tolerant) == None
  {
    if nucleus in ["/ă", "/â", "/oo", "/oă", "/uâ"] && coda == "" {
      AlternativesAt(nucleus, 0);
    }
  }

  /** Onset "y" is written only before a nucleus spelled with a leading "i",
      and then becomes that nucleus's first letter (library.py:91-93). */
  lemma OnsetY(nucleus: string, coda: string, tone: Tone, newTonePlacement: bool, tolerant: bool)
    requires nucleus in Nucleuses && coda in Codas
    ensures var n1 := ResolveNucleus(nucleus, coda);
            n1 != "" && n1[0] != 'i' && !(tolerant && n1 in ["e", "ê"]) ==>
              Construct("y", nucleus, coda, tone, newTonePlacement, tolerant) == None
    ensures var r := Construct("y", nucleus, coda, tone, newTonePlacement, tolerant);
            r.Some? ==> r.value != "" && StripTone(r.value[0]) == 'y'
  {
    var r := Construct("y", nucleus, coda, tone, newTonePlacement, tolerant);
    if r.Some? {
      var t := StopCodaTone(coda, tone, tolerant).value;
      var sp := Spell("y", nucleus, coda, newTonePlacement, tolerant).value;
      assert r.value == Assemble(sp, t);
      AssembleStart(sp, t);
      RoundTripY(if sp.tonePos == 0 then t else Level);
    }
  }

  /** A coda written without alternatives ends the syllable (library.py:109-112). */
  lemma CodaEndsSyllable(onset: string, nucleus: string, coda: string, tone: Tone,
                         newTonePlacement: bool, tolerant: bool)
    requires InMasterLists(onset, nucleus, coda) && '/' !in coda
    ensures var r := Construct(onset, nucleus, coda, tone, newTonePlacement, tolerant);
            r.Some? ==> |coda| <= |r.value| && r.value[|r.value| - |coda|..] == coda
  {
    var r := Construct(onset, nucleus, coda, tone, newTonePlacement, tolerant);
    if r.Some? {
      var t := StopCodaTone(coda, tone, tolerant).value;
      var sp := Spell(onset, nucleus, coda, newTonePlacement, tolerant).value;
      assert r.value == Assemble(sp, t);
      AssembleEnds(sp, t);
    }
  }

  /** The tone only marks one letter (library.py:13-15, 109-112): away from a
      stop coda, a syllable is written with some tone iff it is written LEVEL,
      and then it is the LEVEL spelling with one unmarked vowel given the mark. */
  lemma ToneMarksOneVowel(onset: string, nucleus: string, coda: string, tone: Tone,
                          newTonePlacement: bool, tolerant: bool)
    requires InMasterLists(onset, nucleus, coda) && coda !in StopCodas
    ensures var r := Construct(onset, nucleus, coda, tone, newTonePlacement, tolerant);
            var r0 := Construct(onset, nucleus, coda, Level, newTonePlacement, tolerant);
            (r.Some? <==> r0.Some?) &&
            (r.Some? ==>
               |r.value| == |r0.value| &&
               exists p :: 0 <= p < |r0.value| && r0.value[p] in BaseVowels &&
                 r.value == r0.value[p := AddTone(r0.value[p], tone)])
  {
    var s := Unmarked(onset, nucleus, coda, newTonePlacement, tolerant);
    ConstructAwayFromStop(onset, nucleus, coda, tone, newTonePlacement, tolerant);
    ConstructAwayFromStop(onset, nucleus, coda, Level, newTonePlacement, tolerant);
    if s.Some? {
      MarkOneVowel(s.value, tone);
    }
  }

  /** The spelling Construct writes its tone into, before the tone is checked. */
  function Unmarked(onset: string, nucleus: string, coda: string,
                    newTonePlacement: bool, tolerant: bool): Option<Spelling>
    requires InMasterLists(onset, nucleus, coda)
  {
    if GiExcluded(onset, nucleus, coda) || QExcluded(onset, nucleus, coda) || CodaCollision(nucleus, coda) then None
    else Spell(onset, nucleus, coda, newTonePlacement, tolerant)
  }

  /** Away from a stop coda every tone is written as it is given. */
  lemma ConstructAwayFromStop(onset: string, nucleus: string, coda: string, tone: Tone,
                              newTonePlacement: bool, tolerant: bool)
    requires InMasterLists(onset, nucleus, coda) && coda !in StopCodas
    ensures var s := Unmarked(onset, nucleus, coda, newTonePlacement, tolerant);
            Construct(onset, nucleus, coda, tone, newTonePlacement, tolerant) ==
              if s.None? then None else Some(Assemble(s.value, tone))
  {
  }

  /** A spelling assembled with a tone is its LEVEL assembly with one vowel marked. */
  lemma MarkOneVowel(sp: Spelling, tone: Tone)
    requires WellFormed(sp)
    ensures var w0 := Assemble(sp, Level);
            |Assemble(sp, tone)| == |w0| &&
            exists p :: 0 <= p < |w0| && w0[p] in BaseVowels &&
              Assemble(sp, tone) == w0[p := AddTone(w0[p], tone)]
  {
    AssembleMark(sp, tone);
    var p := MarkIndex(sp);
    assert Assemble(sp, tone) == Assemble(sp, Level)[p := AddTone(Assemble(sp, Level)[p], tone)];
  }

  /** Where Assemble writes the marked vowel. */
  function MarkIndex(sp: Spelling): nat
    requires WellFormed(sp)
  {
    |Head(sp)| + sp.tonePos
  }

  /** Assemble writes the onset (less a repeated letter), then the nucleus
      with one letter marked: the result differs from the LEVEL one there only. */
  lemma AssembleMark(sp: Spelling, tone: Tone)
    requires WellFormed(sp)
    ensures var w, v, p := Assemble(sp, tone), Assemble(sp, Level), MarkIndex(sp);
            p < |w| == |v| && w[p] == AddTone(sp.nucleus[sp.tonePos], tone) && v[p] == sp.nucleus[sp.tonePos] &&
            forall i :: 0 <= i < |w| && i != p ==> w[i] == v[i]
  {
    var n, t := sp.nucleus, sp.tonePos;
    var x := Head(sp) + n[..t];
    var w, v := Assemble(sp, tone), Assemble(sp, Level);
    assert w == x + [AddTone(n[t], tone)] + (n[t + 1..] + sp.coda);
    assert v == x + [n[t]] + (n[t + 1..] + sp.coda);
    Splice(w, v, x, AddTone(n[t], tone), n[t], n[t + 1..] + sp.coda);
  }

  /** The coda ends what Assemble writes (library.py:112). */
  lemma AssembleEnds(sp: Spelling, tone: Tone)
    requires WellFormed(sp)
    ensures var w := Assemble(sp, tone);
            |sp.coda| <= |w| && w[|w| - |sp.coda|..] == sp.coda
  {
    var n, t := sp.nucleus, sp.tonePos;
    var x := Head(sp) + n[..t] + [AddTone(n[t], tone)] + n[t + 1..];
    Suffix(Assemble(sp, tone), x, sp.coda);
  }

  /** Without an onset, Assemble starts with the nucleus's first letter,
      marked when it carries the tone. */
  lemma AssembleStart(sp: Spelling, tone: Tone)
    requires WellFormed(sp) && sp.onset == ""
    ensures var w := Assemble(sp, tone);
            |w| > 0 && w[0] == if sp.tonePos == 0 then AddTone(sp.nucleus[0], tone) else sp.nucleus[0]
  {
    var n, t := sp.nucleus, sp.tonePos;
    var w, x := Assemble(sp, tone), n[..t];
    assert Head(sp) + x == x;
    Splice(w, w, x, AddTone(n[t], tone), AddTone(n[t], tone), n[t + 1..] + sp.coda);
    assert t > 0 ==> x[0] == n[0];
  }

  /** Two strings that differ in one letter. */
  lemma Splice(w: string, v: string, x: string, a: char, b: char, y: string)
    requires w == x + [a] + y && v == x + [b] + y
    ensures |w| == |v| && |x| < |w| && w[|x|] == a && v[|x|] == b && (|x| > 0 ==> w[0] == x[0])
    ensures forall i :: 0 <= i < |w| && i != |x| ==> w[i] == v[i]
  {
  }

  lemma Suffix(w: string, x: string, c: string)
    requires w == x + c
    ensures |c| <= |w| && w[|w| - |c|..] == c
  {
  }

  /** Worked example: "t" + "a" + ACUTE is "tá". */
  lemma ExampleTa()
    ensures Construct("t", "a", "", Acute, true, false) == Some("tá")
  {
    SpellTa("", false);
    AssembleTa("", "tá");
    assert !GiExcluded("t", "a", "") && !QExcluded("t", "a", "") && !CodaCollision("a", "");
  }

  /** Worked example: LEVEL after a stop coda is rejected, or read as ACUTE when tolerant. */
  lemma ExampleTac()
    ensures Construct("t", "a", "c", Level, true, false) == None
    ensures Construct("t", "a", "c", Level, true, true) == Some("tác")
  {
    SpellTa("c", true);
    AssembleTa("c", "tác");
  }

  /** The spelling of "t" + "a" with no coda or the coda "c". */
  lemma SpellTa(coda: string, tolerant: bool)
    requires coda == "" || coda == "c"
    ensures Spell("t", "a", coda, true, tolerant) == Some(Spelling("t", "a", 0, coda))
  {
    assert ResolveNucleus("a", coda) == "a";
    assert ResolveCoda("t", "a", coda) == Some(("a", coda));
    assert ChooseOnset("t", false) == "t";
    assert RespellOnset("t", "a", coda) == Some(("t", "a"));
    assert PlaceTone("t", "a", coda, true) == Spelling("t", "a", 0, coda);
  }

  lemma AssembleTa(coda: string, w: string)
    requires (coda == "" && w == "tá") || (coda == "c" && w == "tác")
    ensures Assemble(Spelling("t", "a", 0, coda), Acute) == w
  {
    var sp := Spelling("t", "a", 0, coda);
    assert Head(sp) == "t";
    assert AddTone('a', Acute) == 'á';
    assert Assemble(sp, Acute) == "t" + "" + ['á'] + "" + coda;
  }
}
