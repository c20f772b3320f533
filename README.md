# plover_vi in Dafny

A model of the core of plover_vi, a Plover plugin for writing Vietnamese on a
stenotype keyboard, with proofs about it. A chord (one stroke) is cut into an onset, a
vowel-and-glide field, a coda and a tone. The chord either spells one syllable or,
with the star key, picks one of the two-word briefs listed for a pair of
syllables. The model covers these parts:

- **Stroke** (`stroke.dfy`): chords as sets of the 23 keys of the English
  Stenotype layout. `remap` renames keys through a key map. `decompose`
  slices a chord into one field per mask plus a remainder, and asserts that
  the masks do not overlap.
- **Library** (`library.dfy`): the master lists of onsets, nuclei, codas and
  tones; `add_tone`/`strip_tone` as a finite table of 12 base vowels × 5 tone
  marks; and `construct`, the rule engine. `construct` spells onset + nucleus
  + coda + tone, or rejects the combination. It takes two flags: the tone
  placement convention and the tolerant flag.
- **ReverseIndex** (`reverse_index.dfy`): the five nested loops of
  `decompose.py` that map every spelled syllable back to its parts.
- **Dictionary** (`dictionary.dfy`): the key masks, the left/right mirror
  maps, the onset, nucleus, coda and tone tables, the checks made on them
  when the module loads, and `lookup`. `lookup` has two paths: a plain
  syllable, or a two-word brief picked by a disambiguation offset.
- **GenerateBrief** (`generate_brief.dfy`, with `sorting.dfy` for Python's
  stable `sorted` and `casing.dfy` for `str.lower`, `str.casefold` and
  `str.split`): `generate`, which builds the table of two-syllable briefs
  from a frequency table and a word list.
- **BriefSystem** (`brief_system.dfy`): `compression_sequence`, which merges the
  values of one syllable part into fewer and fewer groups.

The loops of the source are methods:

- `Stroke.Decompose`;
- `ReverseIndex.BuildIndex` and its inner loops;
- `GenerateBrief.MergeCounts`, `GroupWords`, `DedupList`, `DedupGroups` and `Generate`;
- `BriefSystem.CompressionSequence`.

Each method is proved equal to a specification function, and the properties are
proved about that function. Python dicts remember insertion order, so the dicts
that `generate` builds are `OrderedMap`s: a key order plus a map.

Two behaviours of the source worth knowing:

- `generate_brief.py:48-52` drops the capitalised variant of a word and keeps its
  all-lowercase form.
- `decompose.py:20` stores the word as `construct` returns it. `construct` only
  writes lowercase letters.

## Model

| member | source | states |
|---|---|---|
| Stroke.Remap | plover_vi/stroke.py:17-18 | every key of the chord appears renamed through the key map, and every key of the result is the image of a key of the chord |
| Stroke.RemapInjective | plover_vi/stroke.py:17-18 | through a key map that sends distinct keys to distinct keys, distinct chords stay distinct |
| Stroke.RemapInverse | plover_vi/stroke.py:17-18 | remapping through a map and then through a map that undoes it gives the chord back |
| Stroke.Decompose | plover_vi/stroke.py:20-38 | the loop reaches its end exactly when no mask meets the union of the masks before it (the assertion at line 35), and then returns Fields: one field per mask, then the remainder |
| Stroke.SeparatedIffPairwiseDisjoint | plover_vi/stroke.py:22-35 | the assertion of decompose holds exactly when the masks are pairwise disjoint |
| Stroke.FieldsPartition | plover_vi/stroke.py:30-38 | the result has one more entry than there are masks; its entries are pairwise disjoint and together make up the chord |
| Stroke.FieldsOfSeparated | plover_vi/stroke.py:32-37 | with disjoint masks, field i is the chord intersected with mask i, and the remainder is the chord minus every mask |
| Stroke.FieldsOfJoin | plover_vi/stroke.py:32-37 | a chord made of one part within each of disjoint masks decomposes into exactly those parts with an empty remainder |
| Stroke.JoinWithinMask | plover_vi/stroke.py:33 | in a chord made of one part per disjoint mask, mask i holds exactly part i |
| Stroke.DocstringExample | plover_vi/stroke.py:25-28 | {S-, T-, K-} cut by the masks {S-, -S} and {T-, -T} gives [{S-}, {T-}, {K-}] |
| Library.ToneMarkRoundTrip | plover_vi/library.py:10-17 | strip_tone undoes add_tone on every base vowel and tone, and the marked letter records which tone it carries, so add_tone is injective |
| Library.MarkColumn | plover_vi/library.py:24 | each non-level tone has a column of the mark table, which is its place after LEVEL in the tone list |
| Library.MasterListsDistinct | plover_vi/library.py:28-29 | the onset, nucleus, coda and tone lists each hold no duplicates |
| Library.Alternatives | plover_vi/library.py:62-63 | the two sides of a '/' spelling rejoin with '/' to the spelling, and the first side has no '/' |
| Library.NucleusSpellings | plover_vi/library.py:62-63 | whichever alternative a master-list nucleus resolves to is made of tone-bearing vowels only |
| Library.ResolveCoda | plover_vi/library.py:70-82 | the coda rewrite fails exactly for nucleus "i" with coda "i/y" and no onset; a coda without '/' is left alone; the nucleus stays non-empty and made of vowels; only "q" or a nucleus already starting with "i" can give a nucleus starting with "i" |
| Library.TonePosition | plover_vi/library.py:95-102 | the tone position is an index into the spelled nucleus, for every combination |
| Library.RespellOnset | plover_vi/library.py:84-93 | every onset but "y" passes; the onset "y" passes exactly when the nucleus starts with "i", and then leaves no onset and a nucleus starting with "y"; the nucleus stays non-empty, and made of vowels when it was |
| Library.ChooseOnset | plover_vi/library.py:88-89 | the chosen onset is "y" exactly when the onset is "y": picking a side of c/k, g/gh or ng/ngh never produces it |
| Library.OnsetAlternatives | plover_vi/library.py:88-89 | neither side of c/k, g/gh and ng/ngh is "y" |
| Library.WithFirst | plover_vi/library.py:93 | replacing the first letter of a nucleus keeps its length and keeps it made of vowels |
| Library.PlaceTone | plover_vi/library.py:95-107 | the mark goes on a letter of the nucleus; onset and coda are kept; only the onset "q" rewrites the nucleus |
| Library.Spell | plover_vi/library.py:62-107 | every spelling marks a vowel inside its nucleus; a coda without '/' is kept; the onset "y" leaves no onset and starts the nucleus with "y", and is rejected when the resolved nucleus does not start with "i" (except for the tolerant y + e/ê rewrite) |
| Library.StopCodaTones | plover_vi/library.py:43-48 | after c, ch, p or t, tones other than LEVEL, ACUTE and DOT BELOW give None, and LEVEL gives None unless tolerant |
| Library.TolerantLevelIsAcute | plover_vi/library.py:43-46 | with a stop coda and tolerant, LEVEL spells exactly what ACUTE spells |
| Library.QOnsetGate | plover_vi/library.py:49-54 | the onset "q" gives None unless the nucleus is a glide nucleus, or "ua/uô" with a coda |
| Library.CodaCollisions | plover_vi/library.py:56-60 | coda "o/u" after "o" or "u", and coda "i/y" after "e", "ê" or "ia/iê", give None |
| Library.GiExclusions | plover_vi/library.py:38-41 | the three nucleus/coda pairs excluded after "gi" give None |
| Library.EmptyAlternative | plover_vi/library.py:62-65 | a slash nucleus whose chosen side is empty gives None; the five nuclei with a leading '/' give None without a coda |
| Library.OnsetY | plover_vi/library.py:91-93 | the onset "y" gives None unless the resolved nucleus starts with "i" (or the tolerant rewrite applies), and every word it gives starts with a y, marked or not |
| Library.CodaEndsSyllable | plover_vi/library.py:109-112 | a word built with a coda that has no '/' ends with that coda |
| Library.ToneMarksOneVowel | plover_vi/library.py:109-112 | away from a stop coda a combination is written with a tone exactly when it is written LEVEL, and the toned word is the LEVEL word with one unmarked vowel replaced by its marked form |
| Library.ConstructAwayFromStop | plover_vi/library.py:43-48 | away from a stop coda the tone passes unchanged to the final assembly |
| Library.MarkOneVowel | plover_vi/library.py:109-112 | an assembled spelling with a tone is the LEVEL assembly with one vowel given the mark |
| Library.AssembleMark | plover_vi/library.py:109-112 | the assembly with a tone differs from the LEVEL one only at the marked letter, which is the nucleus letter at the tone position with the tone added |
| Library.AssembleEnds | plover_vi/library.py:112 | the assembly ends with the coda |
| Library.AssembleStart | plover_vi/library.py:110-111 | without an onset the assembly starts with the nucleus's first letter, marked when the tone position is 0 |
| Library.ExampleTa | plover_vi/library.py:31-112 | construct("t", "a", "", ACUTE, True) is "tá" |
| Library.ExampleTac | plover_vi/library.py:43-46 | construct("t", "a", "c", LEVEL, True) is None, and with tolerant it is "tác" |
| ReverseIndex.ListSizes | plover_vi/library.py:20-27 | the loops run over 26 onsets, 23 nuclei, 11 codas and 6 tones |
| ReverseIndex.Combo | plover_vi/decompose.py:13-17 | every combination the loops visit is taken from the master lists |
| ReverseIndex.ComboAt | plover_vi/decompose.py:13-17 | the combination at list positions (placement, o, n, c, t) is visited at loop step Position(placement, o, n, c, t) |
| ReverseIndex.ComboNumber | plover_vi/decompose.py:13-17 | every master-list combination, with either placement, is visited at some step of the loops |
| ReverseIndex.BuildIndex | plover_vi/decompose.py:11-20 | the five nested loops build exactly the index that binds each spelled word to the last combination spelling it |
| ReverseIndex.VisitTones | plover_vi/decompose.py:17-20 | the innermost loop records its six combinations in order |
| ReverseIndex.EntriesAreLastSpellings | plover_vi/decompose.py:19-20 | every entry is bound to the last combination so far that spells its word |
| ReverseIndex.SpellingsAreIndexed | plover_vi/decompose.py:19-20 | every word spelled so far is indexed, bound to the last combination that spells it |
| ReverseIndex.IndexSound | plover_vi/decompose.py:18-20 | each entry's parts come from the master lists, and strict construct spells the entry's word from them |
| ReverseIndex.IndexComplete | plover_vi/decompose.py:13-20 | every word strict construct spells from master-list parts, with either placement, is a key of the index |
| ReverseIndex.LastWriterWins | plover_vi/decompose.py:14-20 | the entry for a word is the last combination in loop order that spells it |
| ReverseIndex.NewPlacementPreferred | plover_vi/decompose.py:13-20 | a word spelled with the new tone placement is indexed with the new placement, because that placement is visited last |
| ReverseIndex.LaterPlacement | plover_vi/decompose.py:13 | every step after one with the new placement also has the new placement |
| Dictionary.MirrorDomains | plover_vi/dictionary.py:32-42 | the mirrors pair the six left consonant keys with the six right consonant keys |
| Dictionary.LeftMirrorUndoesRight | plover_vi/dictionary.py:40-42 | the right-to-left mirror undoes the left-to-right mirror |
| Dictionary.RightMirrorUndoesLeft | plover_vi/dictionary.py:40-42 | the left-to-right mirror undoes the right-to-left mirror |
| Dictionary.MirrorsInjective | plover_vi/dictionary.py:32-42 | each mirror sends distinct keys to distinct keys |
| Dictionary.MirrorTable | plover_vi/dictionary.py:133-136 | a table carried through a mirror holds each entry under the mirrored chord, and nothing else |
| Dictionary.MirrorTableEntries | plover_vi/dictionary.py:133-136 | a mirrored table uses only the mirror's image keys and holds only values of the original table |
| Dictionary.MirroredOnsetCommon | plover_vi/dictionary.py:93-95 | the mirrored onset parts of the right-hand builder sit on left consonant keys and are builder onsets |
| Dictionary.NoOnsetConflict | plover_vi/dictionary.py:88-89 | no right-hand builder chord mirrors onto a chord of the onset-only table |
| Dictionary.MirroredOnsetsKept | plover_vi/dictionary.py:93-95 | every builder onset survives unchanged in the onset table under its mirrored chord |
| Dictionary.LeftToConsonantKeys | plover_vi/dictionary.py:146 | every chord of the left onset table lies within the left mask |
| Dictionary.LeftToConsonantValid | plover_vi/dictionary.py:145-147 | every left onset chord lies within the left mask and maps to a master-list onset |
| Dictionary.RightToConsonantValid | plover_vi/dictionary.py:149-151 | every right onset chord lies within the right mask and maps to a master-list onset |
| Dictionary.RightToToneValid | plover_vi/dictionary.py:153-155 | every tone chord lies within the tone mask and names a tone |
| Dictionary.VowelGlideValid | plover_vi/dictionary.py:157-159 | every vowel-and-glide chord lies within its mask and names a master-list nucleus |
| Dictionary.VowelGlideHasVowel | plover_vi/dictionary.py:97-122 | every vowel-and-glide chord holds a vowel key, so lookup reaches it only with a vowel |
| Dictionary.RightToCodaValid | plover_vi/dictionary.py:60-63 | every coda chord lies within the coda mask and names a master-list coda |
| Dictionary.DictionaryTablesValid | plover_vi/dictionary.py:145-159 | the module's tables pass all the load-time checks, and also satisfy the two facts the module does not check: every vowel-and-glide chord holds a vowel, and every coda chord is valid |
| Dictionary.LookupMasksSeparated | plover_vi/dictionary.py:188-189 | both mask lists lookup passes to decompose satisfy its assertion |
| Dictionary.DisambiguationIndexed | plover_vi/dictionary.py:214 | every disambiguation field a brief stroke can carry has an offset |
| Dictionary.DisambiguationOffsets | plover_vi/dictionary.py:25-30 | an offset is 0 exactly for the empty chord |
| Dictionary.WrongArity | plover_vi/dictionary.py:170 | a stroke sequence of length other than 1 or 2 is an assertion failure |
| Dictionary.UnparsedStroke | plover_vi/dictionary.py:173-182 | a stroke that does not parse gives None |
| Dictionary.UnknownSecondStroke | plover_vi/dictionary.py:177-178 | a second stroke that is not a disambiguation chord gives None |
| Dictionary.EmptySecondStroke | plover_vi/dictionary.py:179-180 | an empty second stroke (offset 0) is an assertion failure |
| Dictionary.NoVowelNoMatch | plover_vi/dictionary.py:232-241 | a chord without vowel keys, alone, gives None |
| Dictionary.NoVowelNoWord | plover_vi/dictionary.py:232-241 | a chord without vowel keys never gives a word, with or without a second stroke |
| Dictionary.SyllableTakesNoSecondStroke | plover_vi/dictionary.py:221 | a plain-syllable chord followed by a disambiguation stroke gives None |
| Dictionary.UnusedKeysOutsideMasks | plover_vi/dictionary.py:188-189 | neither path's masks take the number bar, -D or -Z |
| Dictionary.RemainderNoMatch | plover_vi/dictionary.py:185-224 | a chord with a key outside every field leaves a remainder and gives None on either path |
| Dictionary.SyllableChord | plover_vi/dictionary.py:222-224 | a chord made of one part per syllable mask, with a vowel, takes the syllable path, and decompose gives the parts back |
| Dictionary.SyllableStroke | plover_vi/dictionary.py:222-231 | such a chord, written from table entries, reads back as construct of the mapped parts with the new tone placement and tolerant |
| Dictionary.BriefChord | plover_vi/dictionary.py:188-191 | a chord made of one part per brief mask, with a vowel and the star, takes the brief path, and decompose gives the parts back |
| Dictionary.BriefStroke | plover_vi/dictionary.py:188-218 | a brief chord written from table entries gives the candidate its embedded offset picks from the list of its "onset nucleus onset" key; a missing key is a KeyError and an empty list an assertion failure |
| Dictionary.BriefSecondStroke | plover_vi/dictionary.py:175-218 | giving the disambiguation keys as a second stroke instead of in the chord gives the same result |
| Dictionary.BriefDisambiguatedTwice | plover_vi/dictionary.py:215 | a brief disambiguated both in the chord and by a second stroke never gives a word |
| Dictionary.SyllableWordOrigin | plover_vi/dictionary.py:222-231 | a word of the syllable path is spelled by tolerant construct from master-list parts |
| Dictionary.BriefWordOrigin | plover_vi/dictionary.py:192-218 | a word of the brief path is one of the candidates of the brief mapping |
| Dictionary.PickedFromList | plover_vi/dictionary.py:214-218 | a word the offsets pick is one of the candidates |
| Dictionary.WordOrigin | plover_vi/dictionary.py:168-241 | every word lookup gives comes from a one- or two-stroke sequence whose first chord has a vowel; without the star it is a single stroke spelled by construct from master-list parts, with the star it is a candidate of the brief mapping |
| GenerateBrief.Empty | plover_vi/generate_brief.py:17 | the empty dict is well formed |
| GenerateBrief.PutValid | plover_vi/generate_brief.py:41-46 | storing a key keeps the dict's key order duplicate-free and in step with its keys |
| GenerateBrief.Items | plover_vi/generate_brief.py:48 | items() lists each key once, in insertion order, with its value |
| GenerateBrief.ItemsOf | plover_vi/generate_brief.py:48 | every key has its item, and every item carries its key's value |
| GenerateBrief.SpellingsOfWords | plover_vi/generate_brief.py:20 | every word of the list is reachable through its casefold, and every entry is a word of the list with that casefold |
| GenerateBrief.SpellingsLastWins | plover_vi/generate_brief.py:20 | the entry for a casefold is the last word of the list with it |
| GenerateBrief.MergedValid | plover_vi/generate_brief.py:21-27 | the Counter stays a well-formed dict |
| GenerateBrief.MergedKeys | plover_vi/generate_brief.py:22-27 | the Counter holds exactly the word-list spellings that some frequency entry casefolds onto; entries with no such spelling are dropped |
| GenerateBrief.MergedCounts | plover_vi/generate_brief.py:22-27 | each spelling's count is the sum of the counts of the entries that land on it |
| GenerateBrief.CountForSorted | plover_vi/generate_brief.py:19 | sorting the frequency items first changes no spelling's sum |
| GenerateBrief.MergeCounts | plover_vi/generate_brief.py:21-27 | the loop fills the Counter exactly as Merged describes |
| GenerateBrief.TallyKeys | plover_vi/generate_brief.py:19-27 | every counted word is in the word list and is the casefold match of some frequency entry; every entry with such a match reaches the Counter |
| GenerateBrief.TallyCounts | plover_vi/generate_brief.py:19-27 | a word's count is the total count of all frequency entries that merge onto it, whatever their order |
| GenerateBrief.PartsOf | plover_vi/generate_brief.py:31-33 | the parts list exists exactly when every lowercased syllable is in the reverse index, and then holds their entries in order |
| GenerateBrief.FiledUnderCriteria | plover_vi/generate_brief.py:30-46 | a word is filed exactly when it splits into two syllables, both in the reverse index with the new tone placement, and it is filed under "onset1 nucleus1 onset2", the key lookup builds |
| GenerateBrief.FiledUnderLower | plover_vi/generate_brief.py:31 | a word and its lowercase form are filed under the same key, or both skipped |
| GenerateBrief.FiledIsNotEmpty | plover_vi/generate_brief.py:52 | a filed word is not empty, so filter(None, ...) keeps it |
| GenerateBrief.RankedOfTally | plover_vi/generate_brief.py:29 | most_common() lists each counted word once, with its count, by non-increasing count |
| GenerateBrief.GroupedValid | plover_vi/generate_brief.py:41-46 | the defaultdict stays a well-formed dict |
| GenerateBrief.GroupedNonEmpty | plover_vi/generate_brief.py:41-46 | no list of the defaultdict is empty |
| GenerateBrief.GroupedFiled | plover_vi/generate_brief.py:41-46 | every listed word files under the key of its list |
| GenerateBrief.GroupedFrom | plover_vi/generate_brief.py:29-46 | every listed word is one of the visited words |
| GenerateBrief.GroupedComplete | plover_vi/generate_brief.py:29-46 | every visited word that files is in the list of its key |
| GenerateBrief.GroupedDistinct | plover_vi/generate_brief.py:29-46 | when the visited words are distinct, no list holds a word twice |
| GenerateBrief.GroupedOrdered | plover_vi/generate_brief.py:29-46 | words visited by non-increasing count give lists in non-increasing count |
| GenerateBrief.GroupWords | plover_vi/generate_brief.py:29-46 | the loop over most_common() fills the defaultdict exactly as Grouped describes |
| GenerateBrief.DedupedMembers | plover_vi/generate_brief.py:48-52 | a word survives exactly when it is in the list, is not empty, and is lowercase or its lowercase form is not in the list |
| GenerateBrief.DedupedCleans | plover_vi/generate_brief.py:48-52 | afterwards no list holds a word together with a different lowercase form of it, and no non-empty lowercase word was removed |
| GenerateBrief.DedupedNonEmpty | plover_vi/generate_brief.py:48-52 | a list of non-empty words keeps at least one word |
| GenerateBrief.KeptOrdered | plover_vi/generate_brief.py:52 | the filtered list keeps the count order |
| GenerateBrief.KeptDistinct | plover_vi/generate_brief.py:52 | the filtered list of a duplicate-free list is duplicate-free |
| GenerateBrief.DedupList | plover_vi/generate_brief.py:49-52 | the pass that overwrites cells with None, followed by filter(None, ...), leaves exactly Deduped of the list |
| GenerateBrief.DedupAllValid | plover_vi/generate_brief.py:48-52 | deduplicating every list keeps the dict well formed |
| GenerateBrief.DedupGroups | plover_vi/generate_brief.py:48-52 | the loop over the dict's items replaces every list by its deduplicated form and keeps the key order |
| GenerateBrief.BriefsItems | plover_vi/generate_brief.py:48-54 | the result holds one item per key of the defaultdict, carrying that key's deduplicated list |
| GenerateBrief.BriefsBySize | plover_vi/generate_brief.py:54 | the result's keys are distinct and its lists come by non-increasing length |
| GenerateBrief.BriefsFiled | plover_vi/generate_brief.py:41-46 | every candidate is a counted spelling filed under the key it is listed with |
| GenerateBrief.BriefsCover | plover_vi/generate_brief.py:29-46 | every counted spelling that files under a key gives that key an item |
| GenerateBrief.BriefsPreferLowercase | plover_vi/generate_brief.py:48-52 | a counted spelling filed under a key is listed there exactly when it is lowercase or its lowercase form was not counted |
| GenerateBrief.GroupedListShape | plover_vi/generate_brief.py:29-46 | each list of the defaultdict is non-empty, duplicate-free, in non-increasing count and free of empty words |
| GenerateBrief.DedupedListShape | plover_vi/generate_brief.py:29-52 | each list after deduplication is still non-empty, duplicate-free and in non-increasing count |
| GenerateBrief.BriefsLists | plover_vi/generate_brief.py:29-52 | each candidate list of the result is non-empty, names each spelling once and runs by non-increasing merged count |
| GenerateBrief.FiledOnce | plover_vi/generate_brief.py:41-46 | items with distinct keys whose words file under their own key share no word |
| GenerateBrief.BriefsWordOnce | plover_vi/generate_brief.py:21-46 | no spelling is a candidate under two keys |
| GenerateBrief.Generate | plover_vi/generate_brief.py:15-54 | generate, step by step: sort, merge, group, deduplicate and sort by size, giving exactly Briefs |
| Sorting.SortMembers | plover_vi/generate_brief.py:19 | sorted() keeps the length and the items |
| Sorting.SortPermutes | plover_vi/generate_brief.py:19 | sorted() returns a permutation of its input |
| Sorting.SortedDescending | plover_vi/generate_brief.py:54 | sorted(..., reverse=True) gives non-increasing keys |
| Sorting.SortStable | plover_vi/generate_brief.py:54 | items with equal keys keep their relative order |
| Sorting.SortKeepsFirstsDistinct | plover_vi/generate_brief.py:54 | sorting dict items keeps their keys distinct |
| Casing.LowerLowered | plover_vi/generate_brief.py:50 | lowercasing a lowercase string changes nothing |
| Casing.CasefoldLower | plover_vi/generate_brief.py:20-24 | a string and its lowercase form have the same casefold |
| Casing.Split | plover_vi/generate_brief.py:31 | str.split() yields non-empty pieces without whitespace |
| Casing.SplitLower | plover_vi/generate_brief.py:31 | splitting the lowercase form gives the lowercased pieces |
| Casing.SplitJoin | plover_vi/generate_brief.py:42-46 | splitting non-empty space-free words joined by single spaces gives the words back |
| BriefSystem.Unmerged | plover_vi/construct_2_syllable_brief_system.py:64-66 | each merge leaves one group fewer |
| BriefSystem.Stored | plover_vi/construct_2_syllable_brief_system.py:57-68 | stage k holds exactly k groups; stage 0 is empty |
| BriefSystem.CompressionSequence | plover_vi/construct_2_syllable_brief_system.py:56-75 | with no keys the function fails; otherwise it returns len(frequency) + 1 mappings, the k-th being the mapping of stored stage k |
| BriefSystem.MergeKeeps | plover_vi/construct_2_syllable_brief_system.py:66 | a merge keeps the keys in order and the total count |
| BriefSystem.UnmergedKeys | plover_vi/construct_2_syllable_brief_system.py:61-66 | after any number of merges the groups hold every key, in order |
| BriefSystem.UnmergedTotal | plover_vi/construct_2_syllable_brief_system.py:66 | after any number of merges the total count is unchanged |
| BriefSystem.UnmergedFolds | plover_vi/construct_2_syllable_brief_system.py:62-66 | as written, after t merges the first group holds the first t + 1 keys and the rest are untouched |
| BriefSystem.InitialKeys | plover_vi/construct_2_syllable_brief_system.py:58-60 | the last stage starts with each key in a group of its own, in input order |
| BriefSystem.InitialTotal | plover_vi/construct_2_syllable_brief_system.py:58-60 | the last stage starts with the whole count |
| BriefSystem.SortTotal | plover_vi/construct_2_syllable_brief_system.py:63 | sorting a stage keeps its total count |
| BriefSystem.SortKeys | plover_vi/construct_2_syllable_brief_system.py:63 | sorting a stage keeps its keys |
| BriefSystem.StoredTotal | plover_vi/construct_2_syllable_brief_system.py:61-68 | every stage but stage 0 holds the whole count of the frequency table |
| BriefSystem.StoredKeys | plover_vi/construct_2_syllable_brief_system.py:57-68 | every stage but stage 0 holds exactly the keys of the frequency table |
| BriefSystem.StoredAscending | plover_vi/construct_2_syllable_brief_system.py:63 | a stage of two or more groups is stored by non-decreasing count |
| BriefSystem.AddKeysOf | plover_vi/construct_2_syllable_brief_system.py:73 | the inner comprehension sets every key of a group to its index and leaves other keys alone |
| BriefSystem.MappingSound | plover_vi/construct_2_syllable_brief_system.py:69-75 | a mapping sends each key to the index of a group that holds it |
| BriefSystem.MappingComplete | plover_vi/construct_2_syllable_brief_system.py:69-75 | a mapping holds every key of every group |
| BriefSystem.MappingIndexes | plover_vi/construct_2_syllable_brief_system.py:69-75 | for k >= 1 the mapping of stage k holds exactly the keys, each with an index below k naming a group that holds it |
| BriefSystem.LastSingletons | plover_vi/construct_2_syllable_brief_system.py:58-63 | every group of the last stage is a single key |
| BriefSystem.LastIndexesDistinct | plover_vi/construct_2_syllable_brief_system.py:58-75 | the last mapping gives distinct keys distinct indexes |
| BriefSystem.IntendedUnmerged | plover_vi/construct_2_syllable_brief_system.py:62-66 | with the merge taken from the sorted list, each merge also leaves one group fewer |
| BriefSystem.IntendedStored | plover_vi/construct_2_syllable_brief_system.py:57-68 | intended stage k holds exactly k groups |
| BriefSystem.IntendedMergesLeast | plover_vi/construct_2_syllable_brief_system.py:62-66 | the intended merge joins two groups whose counts are no larger than that of any other group, and keeps the remaining groups |
| BriefSystem.MergesFirstNotLeast | plover_vi/construct_2_syllable_brief_system.py:62-66 | with counts a: 5, b: 1, c: 1, the code's stage 2 is [c], [a, b]; merging the least common groups would give [b, c], [a] |

## Left out

- Steno text and the key layout: `Stroke` is plover_stroke's `BaseStroke`, set up from `plover.system` (`stroke.py:3-9`). This is a foreign library. A chord is a set of an enumerated `Key`, and a stroke that does not parse (the `ValueError` caught at `dictionary.py:181`) is `None`.
- `subsets` (`stroke.py:12-15`): nothing in the core calls it.
- Stroke.Remap: a key missing from the map raises `KeyError` in Python. The model requires every key to have an image, which every caller guarantees.
- The Unicode name algebra of `add_tone`/`strip_tone` (`library.py:8-17`) relies on `unicodedata`. It is replaced by a table of the 12 base vowels × 5 marks, written as precomposed code points.
- Library.StripTone: it strips the marks of the table only. Every other character is returned as it is, which is all that `construct`'s output needs.
- `construct`'s guard `if None in (...)` (`library.py:32`) cannot arise with Dafny's non-null types.
- The asserts at `library.py:33-36` are the precondition `InMasterLists`. A `Tone` is by its type one of the six tones.
- The brief file and the `FileNotFoundError` fallback (`dictionary.py:161-166`): the brief mapping is a parameter of lookup.
- The `plover_textarea` suggestion window (`dictionary.py:200-212`) is an optional external display whose errors are swallowed. It does not change the result.
- `LONGEST_KEY` (`dictionary.py:12`, `library.py:1`) is plugin metadata for Plover.
- Dictionary.LookupWith: the lemmas about lookup hold over any tables that satisfy `ValidTables`. That is the load-time checks of `dictionary.py:145-159` (`LoadTimeChecks`) plus two facts the source does not check but its own tables satisfy (`UncheckedFacts`): every vowel-and-glide chord holds a vowel key, and every coda chord lies within the coda mask and spells a master-list coda. Tables that pass only the load-time checks are not covered. `Lookup` applies lookup to this module's own tables, which satisfy both (`DictionaryTablesValid`).
- Dictionary.WordOrigin: it does not state that a syllable word is a key of the reverse index. Lookup calls construct with `tolerant=True`, which also spells forms that strict construct rejects.
- The command-line part of `generate_brief.py` (lines 57-70) and of `construct_2_syllable_brief_system.py` (lines 16-48 and 77-174) are left out: argparse, file and stdin reads, JSON output, `random.shuffle`, timing and logs.
- GenerateBrief.Generate: the frequency dict is a sequence of (word, count) items in insertion order. It is not required to have distinct words. The reverse index is a parameter; in the running system it is `ReverseIndex.Index()`.
- GenerateBrief.DedupList: the in-place `l[i] = None` pass runs on an array of cells. The dict's lists are then replaced by value, so aliasing between the defaultdict and its lists is not modelled.
- Casing.Lower: `str.lower` and `str.casefold` use the full Unicode case tables. The model carries them for the Latin blocks Vietnamese uses (ASCII, Latin-1, Latin Extended-A, O/U with horn, Latin Extended Additional). `Casing.FoldChar` also carries the full foldings of those blocks: ß, ẞ, ſ, µ, İ, ŉ, ẖ, ẗ, ẘ, ẙ, ẚ and ẛ. There is one exception: `str.lower` turns İ (U+0130) into two characters, i and U+0307, and the model leaves it unchanged, because `Lower` maps one character to one character. Characters outside these blocks are left unchanged.
- BriefSystem.CompressionSequence: with no keys, the check at line 67 indexes past the list and raises `IndexError`. The method returns `None` for that case. Python's `Mapping` allows any mapping type, and the model takes the items of a dict.
- `plover_vi/bigram_frequency.py`, `plover_vi/bigram_filter.py` and `plover_vi/initialize_independent_script.py` are not part of this model. They are I/O scripts and plugin setup; the filtering they do is the frequency merge of `generate`.

## Findings

| source | as written | input that shows it | evidently intended | confidence | as-written member | corrected member |
|---|---|---|---|---|---|---|
| plover_vi/construct_2_syllable_brief_system.py:62-66 | `result[i]` is replaced by the sorted list, but the merge reads `cur`, the list as it was before sorting, so stage i - 1 merges the first two groups of the unsorted list | frequency {a: 5, b: 1, c: 1}: stage 2 is [c: 1], [a, b: 6] | merge the two least common groups, as the comment at line 2 says: stage 2 [b, c: 2], [a: 5] | high; not executed | BriefSystem.MergesFirstNotLeast | BriefSystem.IntendedMergesLeast |
