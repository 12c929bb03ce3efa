# PHP-Modernity-Signature, modelled in Dafny

PHP-Modernity-Signature gives a piece of PHP code a "modernity signature". This is a tuple with
one entry per PHP language level, from 5.2 to 8.2, that says how much of the code needs each
level. The code is parsed with PHP-Parser and then analysed in three passes. The first pass links
every node below the top level to its parent node (PHP-Parser's ParentConnectingVisitor). The
second pass stamps every AST node with the first language level that allows it (`from`) and, for deprecated
constructs, the last one (`to`). These levels come from a table of per-class rules; the rule for
a closure's `use` items reads the parent link. The third pass counts the nodes class by class and, for each class, slot by slot (a slot is a declared sub
node such as `expr` or `stmts`). Each counter turns its counts into a normalised tuple. These
tuples are weighted by how often their class or slot was met. For a directory, the file tuples
are weighted by file size.

This project models that core and proves properties of it:

- **Language levels** (`language_level.dfy`, `legacy_language_level.dfy`, `versions.dfy`): the
  thirteen levels in declaration order, `range`, `getMajor`, and the older enum.
- **Tuples and counters** (`tuple.dfy`, `counters.dfy`, `weighted.dfy`, `tuple_store.dfy`): the
  fixed-width tuple with `add`, `scale` and `normalize`; the two generations of level counters;
  the weighted sums the counters build; and the tuple store's encode/decode.
- **Node information** (`node_information.dfy`, `registry.dfy`, `sub_node_definitions.dfy`):
  the two-level mapping from class to information type to information, the language-level and
  fixed-level information objects, and sub node definitions and information with their builder
  calls.
- **Registrars** (`language_level_rules.dfy`, `language_level_registrar.dfy`,
  `sub_node_registrar.dfy`, `superclass_labels.dfy`, `superclass_registrar.dfy`, `quirks.dfy`): every
  from/to rule of the language-level table, the slot table, and the umbrella-class table.
- **Visitors and counters** (`language_level_visitor.dfy`, `sub_node_counter.dfy`,
  `node_counter.dfy`, `modernity_visitor.dfy`, `counting_visitor.dfy`): the stamping pass, the
  live counting pipeline ModernityVisitor → NodeCounter → SubNodeCounter, and the older
  SubNodeLanguageLevelCountingVisitor.
- **Analysis** (`parent_connecting.dfy`, `modernity.dfy`): the parent-connecting pass, the order
  of the passes in `getTupleForCode` and the directory roll-up.
- **Hierarchy scripts** (`hierarchy.dfy`): the algorithms of `scripts/determine_hierarchy.php`
  and `scripts/determine_subclasses.php`, over an abstract strict-subclass relation.

`php_values.dfy`, `php_classes.dfy`, `sorting.dfy` and `wrappers.dfy` are the supporting pieces:

- PHP values and nodes, with the conversions PHP applies to them.
- The PHP-Parser class hierarchy.
- `sort` and `array_unique`.
- `Result`/`Option`.

Exceptions are modelled as `Err`/`Fail` results. Where the code changes state in place it is
modelled by classes with `modifies` clauses. Each such class is proved against a function on
values, and the lemmas are stated about that function.

## Model

| member | source | states |
|---|---|---|
| `LanguageLevel.Index` | src/Enums/LanguageLevel.php:23-37 | each case has a declaration position below 13 |
| `LanguageLevel.At` | src/Enums/LanguageLevel.php:23-37 | the case at a declaration position is the one whose position that is |
| `LanguageLevel.AtIndex` | src/Enums/LanguageLevel.php:23-37 | a case is the case at its own position: positions name the cases one to one |
| `LanguageLevel.Cases` | src/Enums/LanguageLevel.php:23-37 | cases() lists the thirteen levels once each, in declaration order |
| `LanguageLevel.ValueShape` | src/Enums/LanguageLevel.php:23-37 | every backing value is a digit, a dot and a digit |
| `LanguageLevel.IndexFollowsDigits` | src/Enums/LanguageLevel.php:23-37 | declaration order is the order of major digit, then minor digit, of the value; equal positions only for equal cases |
| `LanguageLevel.CompareIsDeclarationOrder` | src/Enums/LanguageLevel.php:85-99 | version_compare makes isOlderThan exactly "declared earlier" and isNewerThan exactly "declared later" |
| `LanguageLevel.Converse` | src/Enums/LanguageLevel.php:85-99 | a.isOlderThan(b) iff b.isNewerThan(a); no level is older or newer than itself; two different levels are ordered one way |
| `LanguageLevel.Extremes` | src/Enums/LanguageLevel.php:17-21 | OLDEST (5.2) is older and NEWEST (8.2) newer than every other level |
| `LanguageLevel.IndexInjective` | src/Enums/LanguageLevel.php:23-37 | two cases share a position only when they are the same case |
| `LanguageLevel.InRangeIndex` | src/Enums/LanguageLevel.php:55-58 | the range filter keeps exactly the levels whose position lies between those of start and end |
| `LanguageLevel.SortKeepsAscending` | src/Enums/LanguageLevel.php:61-64 | usort with the older-than comparison leaves an ascending list as it is |
| `LanguageLevel.Span` | src/Enums/LanguageLevel.php:53-59 | the levels at positions lo to hi, each at its own position |
| `LanguageLevel.FilterCases` | src/Enums/LanguageLevel.php:53-59 | filtering a suffix of cases() keeps the stretch of it between start and end |
| `LanguageLevel.SpanSlice` | src/Enums/LanguageLevel.php:53-59 | positions lo to hi of cases() are exactly Span(lo, hi) |
| `LanguageLevel.FilterIsSlice` | src/Enums/LanguageLevel.php:53-59 | array_filter over cases() keeps the contiguous stretch from start to end |
| `LanguageLevel.SortKeepsSlice` | src/Enums/LanguageLevel.php:61-64 | usort leaves that stretch unchanged |
| `LanguageLevel.RangeIsFilterThenSort` | src/Enums/LanguageLevel.php:46-67 | range as written (reject, filter, usort) equals the closed form, and it fails exactly when start is newer than end |
| `LanguageLevel.RangeAt` | src/Enums/LanguageLevel.php:53-66 | a range from start to end has end - start + 1 levels and its i-th one is the level at position start + i |
| `LanguageLevel.RangeMembers` | src/Enums/LanguageLevel.php:53-66 | a level is in range(s, e) iff it lies between s and e |
| `LanguageLevel.RangeHolds` | src/Enums/LanguageLevel.php:53-59 | every level between start and end is in the range |
| `LanguageLevel.RangeOnlyHolds` | src/Enums/LanguageLevel.php:53-59 | only levels between start and end are in the range |
| `LanguageLevel.RangeAscending` | src/Enums/LanguageLevel.php:61-66 | a range is strictly ascending, so each level appears once |
| `LanguageLevel.RangeExamples` | tests/LanguageLevelTest.php:78-85 | range(5.2, 5.3) and range(5.2, 5.4) are the expected lists |
| `LanguageLevel.RangeExampleUpTo70` | tests/LanguageLevelTest.php:86-96 | range(5.2, 7.0) is the six levels 5.2 to 7.0 |
| `LanguageLevel.RangeRejectExample` | tests/LanguageLevelTest.php:100-106 | range(5.3, 5.2) fails with InvalidArgumentException "First language level 5.3 is newer than second language level 5.2" |
| `LanguageLevel.RangeSingleton` | tests/LanguageLevelTest.php:74-77 | range(v, v) is [v] for every level v |
| `LanguageLevel.RangeAll` | src/Enums/LanguageLevel.php:46 | range() with its defaults lists all thirteen levels in declaration order |
| `LanguageLevel.MajorValues` | src/Enums/LanguageLevel.php:74-77 | getMajor is 5 for the 5.x levels, 7 for 7.x and 8 for 8.x |
| `LegacyLanguageLevel.SameCases` | src/LanguageLevel.php:7-21 | the older enum has the same cases with the same values at the same positions as the newer one |
| `LegacyLanguageLevel.OrderIsDeclaration` | src/LanguageLevel.php:28-36 | the older enum's isOlderThan/isNewerThan order by declaration, agreeing with the newer enum |
| `LegacyLanguageLevel.Converse` | src/LanguageLevel.php:28-36 | isOlderThan and isNewerThan are strict converses and irreflexive |
| `LegacyLanguageLevel.MajorValues` | src/LanguageLevel.php:23-26 | getMajor is the digit before the dot (5, 7 or 8), as in the newer enum |
| `Versions.Before` | src/Enums/LanguageLevel.php:76 | substr up to strpos of '.': a prefix of the string without '.', ending where the first '.' stands |
| `Versions.PartsOfTwoDigits` | src/Enums/LanguageLevel.php:87 | version_compare splits a two-digit version "M.m" into the numeric parts M and m |
| `Versions.CompareTwoDigits` | src/Enums/LanguageLevel.php:85-99 | version_compare on two "M.m" versions compares the major digits, then the minor ones |
| `LanguageLevelTuples.Zero` | src/Data/LanguageLevelTuple.php:34-48 | a new tuple has one entry per level, all zero |
| `LanguageLevelTuples.Sum` | src/Data/LanguageLevelTuple.php:50-59 | the sum holds t[l] + o[l] at every level l |
| `LanguageLevelTuples.Scaled` | src/Data/LanguageLevelTuple.php:61-70 | the scaled tuple holds t[l] × k at every level l |
| `LanguageLevelTuples.LargestFrom` | src/Data/LanguageLevelTuple.php:74 | array_reduce with max from 0: at least the start and every entry, and equal to the start or to some entry |
| `LanguageLevelTuples.DivideByLargest` | src/Data/LanguageLevelTuple.php:76-77 | scaling by 1 / m divides by m and keeps an entry at most m at most 1; m itself becomes 1 |
| `LanguageLevelTuples.LargestIsOne` | src/Data/LanguageLevelTuple.php:74 | the largest entry of a list bounded by 1 that contains 1 is 1 |
| `LanguageLevelTuples.NormalizedEntry` | src/Data/LanguageLevelTuple.php:72-78 | with a positive largest entry m, each normalized entry is the old entry divided by m, at most 1, and exactly 1 where the old entry was m |
| `LanguageLevelTuples.NormalizeDividesByLargest` | src/Data/LanguageLevelTuple.php:72-78 | when the largest entry m is positive, normalize divides every entry by m and the result's largest entry is exactly 1 |
| `LanguageLevelTuples.NormalizeKeepsNonPositive` | src/Data/LanguageLevelTuple.php:74-78 | when no entry is positive, normalize returns an entry-wise equal tuple |
| `LanguageLevelTuples.NormalizeZero` | src/Data/LanguageLevelTuple.php:74-78 | the zero tuple has largest entry 0 and normalizes to itself |
| `LanguageLevelTuples.KeyOf` | src/Data/LanguageLevelTuple.php:25-32 | getKey accepts exactly the LanguageLevel cases and raises OutOfBoundsException for anything else |
| `LanguageLevelTuples.LanguageLevelTuple.constructor` | src/Data/LanguageLevelTuple.php:34-48 | a new tuple holds zero at every level and its position at the start |
| `LanguageLevelTuples.LanguageLevelTuple.Exists` | src/Data/LanguageLevelTuple.php:81-84 | offsetExists is true for every level and raises OutOfBoundsException for a non-level |
| `LanguageLevelTuples.LanguageLevelTuple.Get` | src/Data/LanguageLevelTuple.php:86-89 | offsetGet returns the entry of the level; a non-level offset raises OutOfBoundsException |
| `LanguageLevelTuples.LanguageLevelTuple.Set` | src/Data/LanguageLevelTuple.php:91-97 | a non-int/float value raises DomainException and changes nothing; a non-level offset raises OutOfBoundsException; otherwise exactly that one entry is written |
| `LanguageLevelTuples.LanguageLevelTuple.Unset` | src/Data/LanguageLevelTuple.php:99-102 | offsetUnset always raises BadMethodCallException |
| `LanguageLevelTuples.LanguageLevelTuple.Add` | src/Data/LanguageLevelTuple.php:50-59 | add returns a fresh tuple holding the entry-wise sum; neither operand changes |
| `LanguageLevelTuples.LanguageLevelTuple.Scale` | src/Data/LanguageLevelTuple.php:61-70 | scale returns a fresh tuple with every entry multiplied by the factor |
| `LanguageLevelTuples.LanguageLevelTuple.Normalize` | src/Data/LanguageLevelTuple.php:72-78 | normalize returns a fresh tuple, the values scaled by 1 / max or by 1 |
| `LanguageLevelTuples.LanguageLevelTuple.HasCurrent` | src/Data/LanguageLevelTuple.php:119-122 | valid holds exactly while the position is at one of the thirteen levels |
| `LanguageLevelTuples.LanguageLevelTuple.Current` | src/Data/LanguageLevelTuple.php:104-107 | current is the entry at the position; past the end it raises OutOfBoundsException |
| `LanguageLevelTuples.LanguageLevelTuple.Key` | src/Data/LanguageLevelTuple.php:114-117 | key is the level at the position, and null past the end |
| `LanguageLevelTuples.LanguageLevelTuple.Next` | src/Data/LanguageLevelTuple.php:109-112 | next advances the position by one and changes no entry |
| `LanguageLevelTuples.LanguageLevelTuple.Rewind` | src/Data/LanguageLevelTuple.php:124-127 | rewind puts the position back at the start and changes no entry |
| `LanguageLevelTuples.LanguageLevelTuple.Pairs` | src/Data/LanguageLevelTuple.php:104-133 | foreach over a tuple yields each level once, in declaration order, with its entry, and changes no entry |
| `LanguageLevelTuples.SameEntries` | src/Data/LanguageLevelTuple.php:19-20 | two tuples that agree at every level are equal |
| `Quirks.SuperGlobals` | src/Quirks.php:15-30 | isSuperGlobal holds exactly for the nine superglobal names, and not for 'this' |
| `Quirks.VisibilityIsLowBits` | src/Quirks.php:32-35 | flagsHaveVisibilityModifier(f) holds iff one of the bits PUBLIC (1), PROTECTED (2), PRIVATE (4) is set in f |
| `Quirks.ParameterNames` | src/Quirks.php:39 | array_map over the parameters succeeds iff every parameter's name can be read, with one name per parameter in order |
| `Quirks.GetParameterVariableNames` | src/Quirks.php:37-40 | a non-array argument is a TypeError; otherwise one name per parameter, same length and order |
| `LanguageLevelTupleStores.RangeIsCases` | src/Data/LanguageLevelTupleStore.php:19-21 | the store's keys are range()'s levels: all thirteen in declaration order |
| `LanguageLevelTupleStores.EncodedInRangeOrder` | src/Data/LanguageLevelTupleStore.php:47-56 | encode yields thirteen values, the tuple's entries in range() order |
| `LanguageLevelTupleStores.DecodingFrom` | src/Data/LanguageLevelTupleStore.php:62-64 | the decode loop from position i succeeds iff the values from i on are ints or floats, and then writes exactly those numbers |
| `LanguageLevelTupleStores.DecodedNumbers` | src/Data/LanguageLevelTupleStore.php:58-67 | decode succeeds iff the first thirteen values are ints or floats, and yields those numbers level by level; otherwise DomainException |
| `LanguageLevelTupleStores.DecodingFails` | src/Data/LanguageLevelTupleStore.php:63 | decode can fail only with offsetSet's DomainException |
| `LanguageLevelTupleStores.DecodeEncode` | src/Data/LanguageLevelTupleStore.php:47-67 | decode(encode(t)) equals t at every level |
| `LanguageLevelTupleStores.EncodeDecode` | src/Data/LanguageLevelTupleStore.php:47-67 | for thirteen or more numbers, encode(decode(values)) is the first thirteen of them |
| `LanguageLevelTupleStores.LanguageLevelTupleStore.constructor` | src/Data/LanguageLevelTupleStore.php:15-24 | a new store holds no tuple and its keys are range()'s levels |
| `LanguageLevelTupleStores.LanguageLevelTupleStore.Has` | src/Data/LanguageLevelTupleStore.php:26-29 | has(k) holds exactly when a tuple is stored under k |
| `LanguageLevelTupleStores.LanguageLevelTupleStore.Get` | src/Data/LanguageLevelTupleStore.php:31-38 | get(k) is null exactly when has(k) is false, and otherwise the stored tuple |
| `LanguageLevelTupleStores.LanguageLevelTupleStore.Set` | src/Data/LanguageLevelTupleStore.php:40-45 | after set(k, t), get(k) returns t itself (an overwrite for an existing key) and every other key is unchanged |
| `LanguageLevelTupleStores.LanguageLevelTupleStore.Encode` | src/Data/LanguageLevelTupleStore.php:47-56 | the loop yields the tuple's entry for each key in turn |
| `LanguageLevelTupleStores.LanguageLevelTupleStore.Decode` | src/Data/LanguageLevelTupleStore.php:58-67 | the loop fails exactly as decode does, and otherwise returns a fresh tuple with decode's values |
| `ClassHierarchy.KeptMembers` | scripts/determine_hierarchy.php:96-106 | findClasses keys each found subclass of the root once, and nothing else, besides the keys already there |
| `ClassHierarchy.BelowMembers` | scripts/determine_hierarchy.php:108-123 | a class's list holds exactly its strict subclasses among the classes, never the class itself, each once |
| `ClassHierarchy.Tidies` | scripts/determine_hierarchy.php:125-131 | after sort and array_unique a list is sorted, free of duplicates, and holds the same names |
| `ClassHierarchy.ClimbTopmost` | scripts/determine_hierarchy.php:133-150 | over exact subclass lists and single inheritance, findSuperclasses leaves no superclass exactly when the class has no ancestor, and otherwise the ancestor all its other ancestors descend from |
| `ClassHierarchy.ClassNameInverse` | scripts/determine_hierarchy.php:88-91 | translateClassName of a name in `PhpParser\` ends in `::class`, and putting the prefix back before the rest gives the name |
| `ClassHierarchy.BreaksAppend` | scripts/determine_hierarchy.php:48-68 | the line breaks of two joined texts are those of each |
| `ClassHierarchy.NoBreaks` | scripts/determine_hierarchy.php:70-86 | a text without a line break counts none |
| `ClassHierarchy.JoinOneLine` | scripts/determine_hierarchy.php:75 | implode of single-line names with ", " is a single line |
| `ClassHierarchy.OneLineAppend` | scripts/determine_hierarchy.php:70-86 | two single-line texts joined make one line |
| `ClassHierarchy.ClassNameOneLine` | scripts/determine_hierarchy.php:88-91 | a translated class name is one line when the name is |
| `ClassHierarchy.LineBreaks` | scripts/determine_hierarchy.php:73 | a mapping line holds exactly one line break, at its end |
| `ClassHierarchy.SubclassEntryOneLine` | scripts/determine_hierarchy.php:70-77 | the subclass mapping line of a class, without its break, is a single line |
| `ClassHierarchy.SuperclassEntryOneLine` | scripts/determine_hierarchy.php:79-86 | the superclass mapping line of a class, without its break, is a single line |
| `ClassHierarchy.SubclassTextLines` | scripts/determine_hierarchy.php:48-57 | the subclass mapping has one line per class |
| `ClassHierarchy.SuperclassTextLines` | scripts/determine_hierarchy.php:59-68 | the superclass mapping has one line per class |
| `ClassHierarchy.HierarchyDeterminator.constructor` | scripts/determine_hierarchy.php:18-22 | both maps start empty |
| `ClassHierarchy.HierarchyDeterminator.FindClasses` | scripts/determine_hierarchy.php:96-106 | the keys become Kept(found); each found subclass of the root gets an empty list and a null superclass; other keys are unchanged |
| `ClassHierarchy.HierarchyDeterminator.FindSubclasses` | scripts/determine_hierarchy.php:108-123 | each class's list gains Below(classes, c), its strict subclasses in key order |
| `ClassHierarchy.HierarchyDeterminator.CollectSubclasses` | scripts/determine_hierarchy.php:113-121 | the inner loop's list for c is its starting list followed by Below(classes, c): every other key that subclasses c, in key order |
| `ClassHierarchy.HierarchyDeterminator.RemoveDuplicates` | scripts/determine_hierarchy.php:125-131 | each list becomes Tidy of itself: sorted, then array_unique |
| `ClassHierarchy.HierarchyDeterminator.FindSuperclasses` | scripts/determine_hierarchy.php:133-150 | each class's superclass becomes Climb over the parents in key order, starting from its old value |
| `ClassHierarchy.HierarchyDeterminator.ClimbParents` | scripts/determine_hierarchy.php:138-148 | the inner loop's superclass for c is Climb from its starting value over the keys in order |
| `ClassHierarchy.HierarchyDeterminator.TranslatedSubclassMapping` | scripts/determine_hierarchy.php:48-57 | the text is the subclass mapping lines of the classes, in key order |
| `ClassHierarchy.HierarchyDeterminator.TranslatedSuperclassMapping` | scripts/determine_hierarchy.php:59-68 | the text is the superclass mapping lines of the classes in key order, a null superclass printed as the class itself |
| `ClassHierarchy.HierarchyDeterminator.Run` | scripts/determine_hierarchy.php:27-36 | the classes are the found subclasses of NodeAbstract; each list is sorted, duplicate-free and exactly the strict subclasses; under single inheritance each superclass is the topmost ancestor or null; the two texts are the mappings |
| `ClassHierarchy.HierarchyDeterminator.RunSubclasses` | scripts/determine_subclasses.php:24-35 | the classes are the found subclasses of Node, each list sorted, duplicate-free and exactly the strict subclasses, and the text is the subclass mapping |
| `ClassHierarchy.HierarchyDeterminator.SubclassSteps` | scripts/determine_subclasses.php:65-99 | findClasses, findSubclasses and removeDuplicates leave exact, sorted, duplicate-free lists and no superclass |
| `Hits.DistinctOccurrences` | src/Data/LanguageLevelCounter.php:37-39 | a list without repeats holds each of its levels exactly once and no other level |
| `Hits.RangeOccurrences` | src/Enums/LanguageLevel.php:53-66 | range(s, e) holds every level from s to e exactly once, and no other |
| `Hits.RangeLength` | src/Visitors/LanguageLevelCounter.php:41-48 | range(s, e) holds e - s + 1 levels |
| `DataCounter.HitValues` | src/Data/LanguageLevelCounter.php:37-39 | hitting each level of a list in turn keeps one entry per level |
| `DataCounter.HitValuesCount` | src/Data/LanguageLevelCounter.php:37-51 | hitting a list raises each level by the number of times it occurs there, and nothing else |
| `DataCounter.HitRangeValues` | src/Data/LanguageLevelCounter.php:33-40 | hitRange(s, e) raises every level from s to e by exactly 1 and leaves all others unchanged |
| `DataCounter.LanguageLevelCounter.constructor` | src/Data/LanguageLevelCounter.php:11-14 | a new counter holds a fresh tuple, zero at every level |
| `DataCounter.LanguageLevelCounter.Reset` | src/Data/LanguageLevelCounter.php:21-24 | reset replaces the tuple by a fresh zero tuple |
| `DataCounter.LanguageLevelCounter.Hit` | src/Data/LanguageLevelCounter.php:48-51 | hit(l) raises level l by exactly 1 in the counter's own tuple and changes nothing else |
| `DataCounter.LanguageLevelCounter.HitRange` | src/Data/LanguageLevelCounter.php:33-40 | hitRange(s, e) raises each level from s to e by 1; a start newer than end (or a null end) fails before any change |
| `DataCounter.LanguageLevelCounter.Get` | src/Data/LanguageLevelCounter.php:59-62 | get(l) is the current count of l |
| `DataCounter.LanguageLevelCounter.GetTuple` | src/Data/LanguageLevelCounter.php:67-70 | getTuple returns the counter's own tuple object |
| `DataCounter.TupleSeesLaterHits` | src/Data/LanguageLevelCounter.php:48-70 | a hit after getTuple shows in the tuple already handed out |
| `VisitorCounter.NameInjective` | src/Visitors/LanguageLevelCounter.php:29-31 | distinct levels have distinct names, so each level has its own count |
| `VisitorCounter.TotalAfterHit` | src/Visitors/LanguageLevelCounter.php:56-60 | one more for one level's count adds one to the sum of counts |
| `VisitorCounter.HitOnce` | src/Visitors/LanguageLevelCounter.php:56-60 | one hit raises one count by one and the total by one |
| `VisitorCounter.HitCountsCount` | src/Visitors/LanguageLevelCounter.php:45-47 | hitting a list raises each level's count by its number of occurrences there |
| `VisitorCounter.HitRangeCounts` | src/Visitors/LanguageLevelCounter.php:41-48 | hitRange(s, e) raises the count of every level from s to e by exactly 1 and leaves the others |
| `VisitorCounter.LanguageLevelCounter.constructor` | src/Visitors/LanguageLevelCounter.php:15-18 | a new counter has no hits and every level at zero |
| `VisitorCounter.LanguageLevelCounter.Reset` | src/Visitors/LanguageLevelCounter.php:25-32 | reset sets hits and every level's count to 0 |
| `VisitorCounter.LanguageLevelCounter.Hit` | src/Visitors/LanguageLevelCounter.php:56-60 | hit(l) adds 1 to l's count and 1 to hits, and the total stays the sum of the counts |
| `VisitorCounter.LanguageLevelCounter.HitEach` | src/Visitors/LanguageLevelCounter.php:45-47 | the loop hits each level of the list in turn |
| `VisitorCounter.LanguageLevelCounter.HitRange` | src/Visitors/LanguageLevelCounter.php:41-48 | hitRange(s, e) adds 1 to each level from s to e and the range's length to hits; a start newer than end fails before any change |
| `VisitorCounter.LanguageLevelCounter.Get` | src/Visitors/LanguageLevelCounter.php:68-71 | get(l) is l's count, looked up by the level's name |
| `VisitorCounter.LanguageLevelCounter.GetAll` | src/Visitors/LanguageLevelCounter.php:76-79 | getAll holds every count keyed by level name, and its keys are exactly the thirteen names reset writes |
| `VisitorCounter.LanguageLevelCounter.GetHits` | src/Visitors/LanguageLevelCounter.php:84-87 | getHits is the running total, which always equals the sum of all counts |
| `VisitorCounter.ZeroTotal` | src/Visitors/LanguageLevelCounter.php:27-31 | counts that are all zero sum to zero, matching hits = 0 after reset |
| `NodeInformation.GetFrom` | src/NodeInformation/LanguageLevelInformation.php:27-30 | an inspector error passes through; a null answer becomes PHP 5.2 and any level answered is returned unchanged |
| `NodeInformation.GetTo` | src/NodeInformation/LanguageLevelInformation.php:38-41 | without a to-inspector the answer is null; with one it is exactly that inspector's answer |
| `NodeInformation.DeprecatedWhateverToAnswers` | src/NodeInformation/LanguageLevelInformation.php:48-51 | isDeprecated looks only at whether a to-inspector exists: the class-method information is deprecated although its getTo is null for a method not named `__autoload` |
| `NodeInformation.FixedAgreesWithInspected` | src/NodeInformation.php:12-66 | the fixed-level holder answers getFrom, getTo and isDeprecated exactly as the inspector-based holder does with its levels as constant inspectors; `to` defaults to null and getClass gives the class it was built with |
| `NodeInformation.FixedIgnoresNode` | src/NodeInformation.php:47-61 | the fixed holder's levels do not depend on the node asked about |
| `Registry.MapThenGet` | src/NodeInformation/NodeInformationMapping.php:23-55 | after a successful map, get with the information's own type returns it, and every stored information stays under its own type |
| `Registry.MapRefusesDuplicate` | src/NodeInformation/NodeInformationMapping.php:29-35 | map throws exactly when get would already find information of that type on the class, with the message naming both |
| `Registry.TypesCoexist` | src/NodeInformation/NodeInformationMapping.php:25-37 | informations of two different types can both be mapped on one class, and get finds each |
| `Registry.MapChangesOneEntry` | src/NodeInformation/NodeInformationMapping.php:37 | map writes one (class, type) entry: every other pair is found exactly when it was found before, with the same information |
| `Registry.LookupErrors` | src/NodeInformation/NodeInformationMapping.php:40-55 | get fails with "node not registered" for an unknown class, with "type not registered" for a known class without that type, and succeeds otherwise |
| `Registry.NoAncestorFallback` | src/NodeInformation/NodeInformationMapping.php:42-47 | get looks up the exact class: information mapped on AssignOp is not found for AssignOp\Plus |
| `Registry.NodeInformationMapping.constructor` | src/NodeInformation/NodeInformationMapping.php:18-21 | the mapping starts empty |
| `Registry.NodeInformationMapping.Map` | src/NodeInformation/NodeInformationMapping.php:23-38 | on success the mapping becomes Mapped of the old one; on failure it is unchanged and the error is AlreadyRegistered |
| `Registry.MapOneMore` | src/NodeInformation/SuperclassInformationRegistrar.php:18-196 | on a mapping without information of the table's type, mapping one more table entry succeeds and yields the mapping with that entry added |
| `Registry.LookupAfterTable` | src/NodeInformation/SuperclassInformationRegistrar.php:18-196 | after a registrar maps its whole table, get finds each table entry for the classes it names and answers as before for all other classes |
| `Registry.TableKeepsOtherTypes` | src/NodeInformation/NodeInformationMappingFactory.php:11-13 | a registrar mapping its table leaves what the other registrars mapped where it was |
| `Registry.MapTable` | src/NodeInformation/SuperclassInformationRegistrar.php:18-196 | on a mapping without information of that type every map call succeeds and the mapping becomes the old one with the table added; it fails exactly when some class of the table already holds information of that type |
| `Registry.WithKeepsNamesDistinct` | src/NodeInformation/SubNodeInformation.php:56-67 | with succeeds exactly when the name is new, and the slot names stay distinct |
| `Registry.WithKeepsNormal` | src/NodeInformation/SubNodeInformation.php:56-67 | `with` of a normalised definition keeps the slot names distinct and every definition duplicate-free |
| `Registry.WithEachKeepsNormal` | src/NodeInformation/SubNodeInformation.php:69-76 | withMultiple keeps the slots normal, also when it stops at a duplicate |
| `Registry.IncludeEachKeepsNormal` | src/NodeInformation/SubNodeInformation.php:44-54 | include appends normalised copies only, so the slots stay normal, also when it stops |
| `Registry.AddedCount` | src/NodeInformation/SubNodeInformation.php:69-76 | withMultiple adds at most as many slots as it was given names |
| `Registry.WithEachAppends` | src/NodeInformation/SubNodeInformation.php:69-76 | withMultiple keeps the earlier slots and appends one slot per name it added, in order, all with the same definition |
| `Registry.WithEachStops` | src/NodeInformation/SubNodeInformation.php:69-76 | withMultiple succeeds exactly when it added every name, and otherwise fails with the duplicate error of the first name it could not add |
| `Registry.Each` | src/NodeInformation/SubNodeInformation.php:71-73 | the slots for a list of names: one per name, in order, each with the same definition |
| `Registry.EachConcat` | src/NodeInformation/SubNodeInformation.php:71-73 | the slots for two lists of names joined are the slots of each list, joined |
| `Registry.CopyKeepsNamesAndArray` | src/NodeInformation/SubNodeInformation.php:49-51 | the definition include passes back to with has the same class names and array flag, and is never nullable |
| `Registry.Copies` | src/NodeInformation/SubNodeInformation.php:49-51 | include appends one copy per slot of the other class |
| `Registry.CopiesAt` | src/NodeInformation/SubNodeInformation.php:49-51 | the i-th copy has the i-th slot's name and a copy of its definition |
| `Registry.IncludeCopiesAll` | src/NodeInformation/SubNodeInformation.php:44-54 | including a class whose slot names are all new appends a copy of each of its slots, in order, and succeeds |
| `Registry.IncludeStep` | src/NodeInformation/SubNodeInformation.php:49-51 | when the first slot name is new, include copies that slot and goes on with the rest |
| `Registry.TailStaysFresh` | src/NodeInformation/SubNodeInformation.php:49-51 | after one copy, the remaining slot names are still distinct and still new |
| `Registry.SubNodeInformation.constructor` | src/NodeInformation/SubNodeInformation.php:31-34 | a new builder has no slots and keeps the mapping it was given |
| `Registry.SubNodeInformation.With` | src/NodeInformation/SubNodeInformation.php:56-67 | a new name appends its slot with the normalised definition; a defined name fails with the duplicate error and changes nothing |
| `Registry.SubNodeInformation.WithMultiple` | src/NodeInformation/SubNodeInformation.php:69-76 | the slots and the outcome are those of WithEach, the with calls in turn up to the first duplicate |
| `Registry.SubNodeInformation.WithExpr` | src/NodeInformation/SubNodeInformation.php:78-81 | withMultiple of single Expr slots over the given names, 'expr' first by default |
| `Registry.SubNodeInformation.WithExprs` | src/NodeInformation/SubNodeInformation.php:83-86 | withMultiple of Expr arrays over the given names, 'exprs' first by default |
| `Registry.SubNodeInformation.WithStmts` | src/NodeInformation/SubNodeInformation.php:88-91 | withMultiple of Stmt slots, not marked as arrays, over the given names, 'stmts' first by default |
| `Registry.SubNodeInformation.WithParams` | src/NodeInformation/SubNodeInformation.php:93-96 | with on 'params': an array of Param |
| `Registry.SubNodeInformation.WithAttrGroups` | src/NodeInformation/SubNodeInformation.php:98-101 | with on 'attrGroups': an array of AttributeGroup |
| `Registry.SubNodeInformation.WithArgs` | src/NodeInformation/SubNodeInformation.php:103-106 | with on 'args': an array of Arg or VariadicPlaceholder |
| `Registry.SubNodeInformation.WithType` | src/NodeInformation/SubNodeInformation.php:108-114 | with on the given name, 'type' by default: a single null, Identifier, Name or ComplexType |
| `Registry.SubNodeInformation.WithReturn` | src/NodeInformation/SubNodeInformation.php:116-119 | withType on 'returnType' |
| `Registry.SubNodeInformation.Include` | src/NodeInformation/SubNodeInformation.php:44-54 | a class without sub node information fails with get's error and changes nothing; otherwise the slots and outcome are those of copying the registered slots in turn through with |
| `Registry.TypeSlotAccepts` | src/NodeInformation/SubNodeInformation.php:108-114 | a type slot accepts exactly null, Identifier, Name and ComplexType, and is not an array |
| `SubNodeDefinitions.StrLeTotalAt` | src/NodeInformation/SubNode/SubNodeDefinition.php:45 | sort()'s comparison of two non-numeric strings orders them one way or the other |
| `SubNodeDefinitions.StrLeTransitiveAt` | src/NodeInformation/SubNode/SubNodeDefinition.php:45 | sort()'s string comparison is transitive |
| `SubNodeDefinitions.StrLeAntisymmetricAt` | src/NodeInformation/SubNode/SubNodeDefinition.php:45 | two strings ordered both ways by sort()'s comparison are equal |
| `SubNodeDefinitions.StrLeOrders` | src/NodeInformation/SubNode/SubNodeDefinition.php:45 | the comparison is total and transitive, so sort() leaves a list ordered |
| `SubNodeDefinitions.Make` | src/NodeInformation/SubNode/SubNodeDefinition.php:30-48 | the class names are exactly the given ones plus 'null' when nullable, sorted and free of duplicates; both flags are kept |
| `SubNodeDefinitions.AcceptsGiven` | src/NodeInformation/SubNode/SubNodeDefinition.php:50-53 | a slot accepts exactly the names it was given, and 'null' when it is nullable |
| `SubNodeDefinitions.HeadFirst` | src/NodeInformation/SubNode/SubNodeDefinition.php:45 | the first name of a sorted list comes no later than any of its names |
| `SubNodeDefinitions.SameTails` | src/NodeInformation/SubNode/SubNodeDefinition.php:45-47 | two duplicate-free lists with the same names and the same head still have the same names after the head |
| `SubNodeDefinitions.SortedSetUnique` | src/NodeInformation/SubNode/SubNodeDefinition.php:45-47 | two sorted duplicate-free lists with the same names are the same list |
| `SubNodeDefinitions.MakeIsCanonical` | src/NodeInformation/SubNode/SubNodeDefinition.php:39-47 | the constructor forgets order and repetition: the same names give the same definition, and rebuilding from a definition's own names changes nothing |
| `SubNodeDefinitions.MakeLegacy` | src/NodeInformation/SubNodeDefinition.php:33-42 | the names are kept as given, isArray defaults to false, and null is allowed exactly when 'null' is among the names |
| `SubNodeDefinitions.LegacyKeepsOrder` | src/NodeInformation/SubNodeDefinition.php:39-41 | the older definition keeps repeated names that the newer one merges |
| `LanguageLevelRules.TypeName` | src/NodeInformation/LanguageLevel/LanguageLevelInformationRegistrar.php:473-477 | an Identifier or Name gives its toString(), a ComplexType gives '', and anything else is an UnhandledMatchError |
| `LanguageLevelRules.ReturnTypeLevel` | src/NodeInformation/LanguageLevel/LanguageLevelInformationRegistrar.php:479-495 | noreturn needs 8.1, object 7.2, void and iterable 7.1, and any other return type 7.0; each case holds exactly for its names |
| `LanguageLevelRules.ReturnTypeRule` | src/NodeInformation/LanguageLevel/LanguageLevelInformationRegistrar.php:472-496 | without a return type the rule answers null; with one it answers ReturnTypeLevel of the type's name, or TypeName's error |
| `LanguageLevelRules.ArrayDimFetchLevel` | src/NodeInformation/LanguageLevel/LanguageLevelInformationRegistrar.php:36-55 | dereferencing a call result needs 5.4; dereferencing an array or string literal needs 5.5; anything else needs nothing |
| `LanguageLevelRules.ArrayLevel` | src/NodeInformation/LanguageLevel/LanguageLevelInformationRegistrar.php:57-71 | an array needs 5.4 exactly when it uses the short syntax, and nothing otherwise |
| `LanguageLevelRules.AssignLevel` | src/NodeInformation/LanguageLevel/LanguageLevelInformationRegistrar.php:73-87 | an assignment needs 7.1 exactly when its target is a short list, and nothing otherwise |
| `LanguageLevelRules.ClassConstFetchLevel` | src/NodeInformation/LanguageLevel/LanguageLevelInformationRegistrar.php:94-108 | a class constant fetch needs 5.5 exactly when it is `X::class`, and nothing otherwise |
| `LanguageLevelRules.ClosureUseCases` | src/NodeInformation/LanguageLevel/LanguageLevelInformationRegistrar.php:111-137 | a closure use whose name is not a string answers null; a superglobal answers 7.0; no level other than 7.0 is ever answered |
| `LanguageLevelRules.ClosureUseNeedsParameter` | src/NodeInformation/LanguageLevel/LanguageLevelInformationRegistrar.php:111-137 | a 7.0 answer means a superglobal or a name among the parent function's own parameters |
| `LanguageLevelRules.ClosureUseOfParameter` | src/NodeInformation/LanguageLevel/LanguageLevelInformationRegistrar.php:128-132 | conversely, a string name among the names of a function-like parent's readable parameters answers 7.0 |
| `LanguageLevelRules.ClosureUseFailures` | src/NodeInformation/LanguageLevel/LanguageLevelInformationRegistrar.php:119-132 | a string name that is no superglobal fails with an Error when the parent is not function-like, and with getParameterVariableNames' exception when the parameters cannot be read; nothing else fails |
| `LanguageLevelRules.ConstFetchLevel` | src/NodeInformation/LanguageLevel/LanguageLevelInformationRegistrar.php:138-151 | fails exactly when the name's toString() fails; needs 5.3 exactly for E_USER_DEPRECATED and nothing otherwise |
| `LanguageLevelRules.EmptyLevel` | src/NodeInformation/LanguageLevel/LanguageLevelInformationRegistrar.php:152-166 | empty() needs 5.5 exactly when its argument is not a variable |
| `LanguageLevelRules.InstanceofLevel` | src/NodeInformation/LanguageLevel/LanguageLevelInformationRegistrar.php:173-194 | an arbitrary expression (not a variable) as the class needs 8.0; otherwise a constant on the left needs 7.3; otherwise nothing |
| `LanguageLevelRules.IssetSearch` | src/NodeInformation/LanguageLevel/LanguageLevelInformationRegistrar.php:202-208 | isset() needs 5.5 exactly when one of its arguments is a Variable, and nothing otherwise |
| `LanguageLevelRules.ListItemLevel` | src/NodeInformation/LanguageLevel/LanguageLevelInformationRegistrar.php:221-228 | a list item by reference needs 7.2; otherwise an item with a key needs 7.1; otherwise nothing |
| `LanguageLevelRules.ListSearch` | src/NodeInformation/LanguageLevel/LanguageLevelInformationRegistrar.php:219-230 | list() needs nothing exactly when none of its items needs anything |
| `LanguageLevelRules.ListSearchFirstMatch` | src/NodeInformation/LanguageLevel/LanguageLevelInformationRegistrar.php:219-230 | when list() needs something, it is what the first item that needs anything needs |
| `LanguageLevelRules.MethodCallLevel` | src/NodeInformation/LanguageLevel/LanguageLevelInformationRegistrar.php:235-251 | a method call needs 7.0 exactly when its name is an `Expr\Variable` whose own `name` is a string that is a semi-reserved keyword |
| `LanguageLevelRules.NewLevel` | src/NodeInformation/LanguageLevel/LanguageLevelInformationRegistrar.php:252-272 | `new` with an arbitrary class expression needs 8.0; an anonymous class needs 7.0; otherwise nothing |
| `LanguageLevelRules.SecondChar` | src/NodeInformation/LanguageLevel/LanguageLevelInformationRegistrar.php:354 | `$rawValue[1]` is the second character of a string, '' for a shorter string, and null for null |
| `LanguageLevelRules.NumericOnText` | src/NodeInformation/LanguageLevel/LanguageLevelInformationRegistrar.php:345-372 | with raw text: an octal 0o/0O literal needs 8.1; else a literal with '_' needs 7.4; else a binary literal needs 5.4; else nothing |
| `LanguageLevelRules.NumericWithoutText` | src/NodeInformation/LanguageLevel/LanguageLevelInformationRegistrar.php:345-372 | without raw text, a number needs 5.4 exactly when it is binary |
| `LanguageLevelRules.LNumberToCases` | src/NodeInformation/LanguageLevel/LanguageLevelInformationRegistrar.php:380-392 | the octal rule never fails on raw text and answers 7.0 exactly for a three-character octal literal whose first character is 4 to 7 |
| `LanguageLevelRules.LNumberToSkipsLeadingZero` | src/NodeInformation/LanguageLevel/LanguageLevelInformationRegistrar.php:380-392 | raw text beginning with '0' never triggers the octal rule |
| `LanguageLevelRules.CatchLevel` | src/NodeInformation/LanguageLevel/LanguageLevelInformationRegistrar.php:423-443 | catch without a variable needs 8.0; with one, several caught types need 7.1 and a single type needs nothing |
| `LanguageLevelRules.ClassConstOnFlags` | src/NodeInformation/LanguageLevel/LanguageLevelInformationRegistrar.php:444-464 | on integer flags a final constant needs 8.1; otherwise a visibility bit needs 7.1; otherwise nothing |
| `LanguageLevelRules.ClassConstNullFlags` | src/NodeInformation/LanguageLevel/LanguageLevelInformationRegistrar.php:444-464 | with null flags the rule fails with a TypeError |
| `LanguageLevelRules.MagicMethodLevel` | src/NodeInformation/LanguageLevel/LanguageLevelInformationRegistrar.php:503-509 | __invoke and __callStatic need 5.3, __debugInfo 5.6, __serialize and __unserialize 7.4, and every other name nothing |
| `LanguageLevelRules.ClassMethodLevel` | src/NodeInformation/LanguageLevel/LanguageLevelInformationRegistrar.php:468-511 | a declared return type decides; otherwise a semi-reserved method name needs 7.0 and a magic method its level |
| `LanguageLevelRules.ClassMethodToLevel` | src/NodeInformation/LanguageLevel/LanguageLevelInformationRegistrar.php:512-521 | a method is removed after 7.1 exactly when it is named __autoload |
| `LanguageLevelRules.ClassToLevel` | src/NodeInformation/LanguageLevel/LanguageLevelInformationRegistrar.php:523-537 | fails exactly when the name cannot be cast to a string; a class named void or iterable was allowed up to 7.0, one named object up to 7.1 |
| `LanguageLevelRules.NewValueSearch` | src/NodeInformation/LanguageLevel/LanguageLevelInformationRegistrar.php:545-549 | true exactly when one of the values is initialised with a `new` expression |
| `LanguageLevelRules.StmtConstLevel` | src/NodeInformation/LanguageLevel/LanguageLevelInformationRegistrar.php:538-554 | a const statement needs 8.1 exactly when one of its constants is initialised with `new` |
| `LanguageLevelRules.ForeachLevel` | src/NodeInformation/LanguageLevel/LanguageLevelInformationRegistrar.php:567-588 | list() as the loop value needs 5.5, a short list 7.1, and anything else nothing |
| `LanguageLevelRules.PropertyOnFlags` | src/NodeInformation/LanguageLevel/LanguageLevelInformationRegistrar.php:636-658 | on integer flags a readonly property needs 8.1; otherwise a declared type needs 7.4; otherwise nothing |
| `LanguageLevelRules.StaticVarLevel` | src/NodeInformation/LanguageLevel/LanguageLevelInformationRegistrar.php:661-675 | a static variable needs 8.1 exactly when its default is a `new` expression |
| `LanguageLevelRules.UseLevel` | src/NodeInformation/LanguageLevel/LanguageLevelInformationRegistrar.php:685-699 | `use function` needs 5.6 and every other use 5.3 |
| `LanguageLevelRules.ArgLevel` | src/NodeInformation/LanguageLevel/LanguageLevelInformationRegistrar.php:716-735 | a named argument needs 8.0; otherwise unpacking needs 5.6; otherwise nothing |
| `LanguageLevelRules.AttributeLevel` | src/NodeInformation/LanguageLevel/LanguageLevelInformationRegistrar.php:736-752 | an attribute needs 8.1 exactly when one of its arguments is a `new` expression, and 8.0 otherwise |
| `LanguageLevelRules.ConstLevel` | src/NodeInformation/LanguageLevel/LanguageLevelInformationRegistrar.php:754-773 | fails exactly when the name cannot be cast to a string; a semi-reserved name needs 7.0, else a non-scalar value 5.5, else nothing |
| `LanguageLevelRules.ParamTypeLevel` | src/NodeInformation/LanguageLevel/LanguageLevelInformationRegistrar.php:801-818 | object needs 7.2, iterable 7.1, int, float, string and bool 7.0, callable 5.4, and any other type nothing |
| `LanguageLevelRules.ParamLevel` | src/NodeInformation/LanguageLevel/LanguageLevelInformationRegistrar.php:780-828 | a `new` default needs 8.1; otherwise a known type decides; otherwise variadic needs 5.6; a type whose name cannot be read fails |
| `LanguageLevelRules.FixedAnswersItself` | src/Enums/LanguageLevel.php:101-104 | a LanguageLevel case used as an inspector answers itself for every node |
| `LanguageLevelRules.TotalInspectorsSucceed` | src/NodeInformation/LanguageLevel/LanguageLevelInformationRegistrar.php:36-752 | the inspectors without a failure path never fail |
| `LanguageLevelRegistrar.Map` | src/NodeInformation/LanguageLevel/LanguageLevelInformationRegistrar.php:16-32 | on a mapping without language-level information, map adds exactly the table, each entry built by addMapping; it fails exactly when a class of the table already holds language-level information |
| `LanguageLevelRegistrar.ConstantLevelsAnswer` | src/NodeInformation/LanguageLevel/LanguageLevelInformationRegistrar.php:25-32 | an entry made from fixed levels answers `from` for every node, `to` when given and null otherwise, and is deprecated exactly when `to` is given |
| `LanguageLevelRegistrar.ArrowFunctionRegistered` | src/NodeInformation/LanguageLevel/LanguageLevelInformationRegistrar.php:72 | arrow functions are introduced in 7.4 and never removed |
| `LanguageLevelRegistrar.MatchRegistered` | src/NodeInformation/LanguageLevel/LanguageLevelInformationRegistrar.php:234 | match is introduced in 8.0 and never removed |
| `LanguageLevelRegistrar.EnumRegistered` | src/NodeInformation/LanguageLevel/LanguageLevelInformationRegistrar.php:563 | enums are introduced in 8.1 and never removed |
| `LanguageLevelRegistrar.VariableRegistered` | src/NodeInformation/LanguageLevel/LanguageLevelInformationRegistrar.php:300 | a variable gets addMapping's defaults: from 5.2, never removed |
| `LanguageLevelRegistrar.ThrowStatementRegistered` | src/NodeInformation/LanguageLevel/LanguageLevelInformationRegistrar.php:679 | the throw statement is from 5.2 and removed after 7.4 |
| `LanguageLevelRegistrar.UnsetCastRegistered` | src/NodeInformation/LanguageLevel/LanguageLevelInformationRegistrar.php:306-310 | the (unset) cast is from 5.2 and removed after 7.1 |
| `LanguageLevelRegistrar.ClosuresRegistered` | src/NodeInformation/LanguageLevel/LanguageLevelInformationRegistrar.php:36-137 | ArrayDimFetch is registered with its inspector as `from`; ClosureUse has only a `to` inspector |
| `LanguageLevelVisitors.LevelInformation` | src/Visitors/LanguageLevelVisitor.php:22-25 | get's error passes through; it succeeds exactly when the class holds language-level information, and then returns that information |
| `LanguageLevelVisitors.KeyedFindsLevelInformation` | src/Visitors/LanguageLevelVisitor.php:25 | on a mapping that keeps every information under its own type, the lookup fails only when the entry is missing |
| `LanguageLevelVisitors.ToValue` | src/Visitors/LanguageLevelVisitor.php:28 | the attribute written as `to` is null exactly when getTo answers null, and the level otherwise |
| `LanguageLevelVisitors.StampWrites` | src/Visitors/LanguageLevelVisitor.php:20-29 | on success `from` is getFrom's level and `to` getTo's answer or null, written in that order; an unregistered class fails with nothing written; a failing getTo leaves `from` written |
| `LanguageLevelVisitors.StampedFromIsLevel` | src/Visitors/LanguageLevelVisitor.php:27-28 | after a successful leaveNode `from` is always a level and `to` a level or null |
| `LanguageLevelVisitors.FixedIgnoresStamps` | src/Enums/LanguageLevel.php:101-104 | a fixed level does not read the `from` and `to` attributes |
| `LanguageLevelVisitors.StampIdempotent` | src/Visitors/LanguageLevelVisitor.php:20-29 | leaving a stamped node again writes the same values, for information whose inspectors do not read the stamps |
| `LanguageLevelVisitors.AstNode.constructor` | src/Visitors/LanguageLevelVisitor.php:20 | the node object holds the node value it was made from |
| `LanguageLevelVisitors.AstNode.SetAttribute` | src/Visitors/LanguageLevelVisitor.php:27-28 | setAttribute changes the node exactly as writing the attribute into its value does |
| `LanguageLevelVisitors.LanguageLevelVisitor.constructor` | src/Visitors/LanguageLevelVisitor.php:15-18 | the visitor keeps the mapping it is given |
| `LanguageLevelVisitors.LanguageLevelVisitor.LeaveNode` | src/Visitors/LanguageLevelVisitor.php:20-29 | the node's new attributes and the outcome are exactly those of Stamp on the old node; the mapping is only read |
| `LanguageLevelVisitors.PlusNotStamped` | src/Visitors/LanguageLevelVisitor.php:22-25 | with the registered table, a `1 + 2` node (BinaryOp\Plus) is never stamped: leaveNode fails with "not registered" and the node is unchanged |
| `LanguageLevelVisitors.PlusUnregistered` | src/NodeInformation/LanguageLevel/LanguageLevelInformationRegistrar.php:90 | BinaryOp\Plus has no language-level entry of its own |
| `LanguageLevelVisitors.BinaryOpRegistered` | src/NodeInformation/LanguageLevel/LanguageLevelInformationRegistrar.php:90 | the abstract BinaryOp is registered with addMapping's defaults |
| `LanguageLevelVisitors.FirstRegistered` | src/Visitors/LanguageLevelVisitor.php:25 | the class found, if any, is among those given and holds information of the type; none is found exactly when none of them holds it |
| `LanguageLevelVisitors.NearestLevelInformation` | src/Visitors/LanguageLevelVisitor.php:22-25 | the corrected lookup agrees with the exact one for every registered class |
| `LanguageLevelVisitors.NearestAgreesWhenRegistered` | src/Visitors/LanguageLevelVisitor.php:20-29 | for a node of a registered class the corrected leaveNode does exactly what leaveNode does |
| `LanguageLevelVisitors.NearestIsParent` | src/Visitors/LanguageLevelVisitor.php:22-25 | an unregistered class whose parent is registered gets its parent's information from the corrected lookup |
| `LanguageLevelVisitors.PlusStampedByNearest` | src/Visitors/LanguageLevelVisitor.php:20-29 | with the corrected lookup, a `1 + 2` node gets BinaryOp's levels: from 5.2 and no `to` |
| `SuperclassRegistrar.Map` | src/NodeInformation/SuperclassInformationRegistrar.php:18-196 | on a mapping without superclass information, map adds exactly the table; it fails exactly when a class of the table already holds superclass information |
| `SuperclassLabels.RootsAreTheirOwnLabel` | src/NodeInformation/SuperclassInformationRegistrar.php:20-36 | every root node class is registered with itself as its superclass |
| `SuperclassLabels.OnlyBuilderUnlabelled` | src/NodeInformation/SuperclassInformationRegistrar.php:18-196 | the builder class EnumCase is the one class without an entry; every node class has one |
| `SuperclassLabels.LabelIsRoot` | src/NodeInformation/SuperclassInformationRegistrar.php:18-196 | every registered superclass is a root class |
| `SuperclassLabels.LabelsAreFixedPoints` | src/NodeInformation/SuperclassInformationRegistrar.php:18-196 | a registered superclass is registered with itself as superclass |
| `SuperclassLabels.ExpressionsCarryExpr` | src/NodeInformation/SuperclassInformationRegistrar.php:37-147 | every class below Expr, the AssignOp, BinaryOp, Cast, Scalar and MagicConst ones included, is registered with Expr |
| `SuperclassLabels.StatementsCarryStmt` | src/NodeInformation/SuperclassInformationRegistrar.php:148-196 | every class below Stmt, the ClassLike and TraitUseAdaptation ones included, is registered with Stmt |
| `SuperclassLabels.NamesCarryName` | src/NodeInformation/SuperclassInformationRegistrar.php:132-133 | FullyQualified and Relative names are registered with Name |
| `SuperclassLabels.ComplexTypesCarryComplexType` | src/NodeInformation/SuperclassInformationRegistrar.php:27-34 | the intersection, nullable and union types are registered with ComplexType |
| `SuperclassLabels.IdentifiersCarryIdentifier` | src/NodeInformation/SuperclassInformationRegistrar.php:35 | VarLikeIdentifier is registered with Identifier |
| `SuperclassRegistrar.SuperclassOf` | src/Data/SubNodeCounter.php:92-96 | get's error passes through; a superclass entry gives its class name |
| `SuperclassRegistrar.SuperclassOfRegistered` | src/Data/SubNodeCounter.php:92-96 | once the table is registered, every labelled class resolves to the class name of its registered superclass |
| `SuperclassRegistrar.SuperclassOfUnlabelled` | src/Data/SubNodeCounter.php:92-96 | registering the table leaves the answer for the unlabelled builder class EnumCase as it was |
| `SubNodeCounting.Start` | src/Data/SubNodeCounter.php:34-40 | a new counter has no hits and, for exactly the accepted class names, a zeroed level counter and an encounter count of 0 |
| `SubNodeCounting.GetClass` | src/Data/SubNodeCounter.php:77-100 | a non-node value is classified exactly when it is null, an int, a float or a string, and then as one of the four pseudo classes |
| `SubNodeCounting.CountedClass` | src/Data/SubNodeCounter.php:134-157 | the class a value is counted under is always one the definition accepts; getClass's failures pass through unchanged |
| `SubNodeCounting.HitOne` | src/Data/SubNodeCounter.php:122-163 | hitSingle adds exactly one to the hits whatever follows, and keeps one counter per accepted class |
| `SubNodeCounting.HitAs` | src/Data/SubNodeCounter.php:124-162 | once the class is known, the hit is still counted first, and the shape of the counters is kept |
| `SubNodeCounting.HitEach` | src/Data/SubNodeCounter.php:111-113 | hitting every element of an array keeps one counter per accepted class |
| `SubNodeCounting.HitValue` | src/Data/SubNodeCounter.php:102-120 | hit keeps one counter per accepted class, whether it succeeds or throws |
| `SubNodeCounting.Parts` | src/Data/SubNodeCounter.php:46-56 | getTuple has one term per class name: that class's counter, weighted by its encounters over the hits (0 without hits) |
| `SubNodeCounting.MassZero` | src/Data/SubNodeCounter.php:37 | a zeroed counter holds no hits |
| `SubNodeCounting.MassBump` | src/Data/SubNodeCounter.php:160 | raising one level of a counter by one raises its total by one |
| `SubNodeCounting.EncounteredZero` | src/Data/SubNodeCounter.php:38 | zero encounter counts add up to 0 |
| `SubNodeCounting.EncounteredBump` | src/Data/SubNodeCounter.php:161 | one more encounter of a listed class adds one to the total over a repeat-free list, of an unlisted class nothing |
| `SubNodeCounting.StartTracks` | src/Data/SubNodeCounter.php:34-40 | a new counter keeps the invariant: each counter holds as many hits as its encounter count, and encounters never exceed hits |
| `SubNodeCounting.HitOnce` | src/Data/SubNodeCounter.php:160 | the level counter's hit on one level raises exactly that entry by one |
| `SubNodeCounting.CountedShaped` | src/Data/SubNodeCounter.php:159-162 | counting a hit for an accepted class keeps one counter per accepted class |
| `SubNodeCounting.CountedCounts` | src/Data/SubNodeCounter.php:159-162 | after a counted hit every class's counter is still non-negative and holds exactly its encounter count |
| `SubNodeCounting.CountedEncountered` | src/Data/SubNodeCounter.php:124-162 | after a counted hit the encounters together still do not exceed the hits |
| `SubNodeCounting.CountedTracks` | src/Data/SubNodeCounter.php:124-162 | so a counted hit keeps the invariant |
| `SubNodeCounting.HitAsTracks` | src/Data/SubNodeCounter.php:122-163 | hitSingle keeps the invariant, whether it counts, skips or throws |
| `SubNodeCounting.HitOneTracks` | src/Data/SubNodeCounter.php:122-163 | hitSingle, classification included, keeps the invariant |
| `SubNodeCounting.HitEachTracks` | src/Data/SubNodeCounter.php:111-113 | hitting the elements of an array keeps the invariant, also when one of them throws |
| `SubNodeCounting.HitValueTracks` | src/Data/SubNodeCounter.php:102-120 | hit keeps the invariant, whether it succeeds or throws |
| `SubNodeCounting.HitEachSeesEach` | src/Data/SubNodeCounter.php:111-115 | each element reached adds one hit: a pass over n elements adds exactly n, a failed one between 1 and n |
| `SubNodeCounting.HitValueReturnsCount` | src/Data/SubNodeCounter.php:102-120 | an array in a non-array slot is refused before anything changes; otherwise hit returns the array's length or 1 and adds exactly that many hits; the hits never go down |
| `SubNodeCounting.ScalarsNotCounted` | src/Data/SubNodeCounter.php:126-162 | a scalar or null changes only the hits |
| `SubNodeCounting.OldestNotCounted` | src/Data/SubNodeCounter.php:130-159 | a node whose `from` is unset, falsy or the oldest level changes only the hits |
| `SubNodeCounting.CountedNodeRaisesOneLevel` | src/Data/SubNodeCounter.php:129-162 | an accepted node introduced after the oldest level raises its class's counter at its level by one and its encounters by one, and changes no other level and no other class |
| `SubNodeCounting.UmbrellaBeforeExactClass` | src/Data/SubNodeCounter.php:91-157 | a node counts under its umbrella class when that is accepted, otherwise under its exact class when that is, and is refused otherwise |
| `SubNodeCounting.PartsFactorSum` | src/Data/SubNodeCounter.php:46-56 | the weights of getTuple add up to the total encounters over the hits |
| `SubNodeCounting.PartsNonNegative` | src/Data/SubNodeCounter.php:46-56 | every term of getTuple has non-negative counts and a non-negative weight |
| `SubNodeCounting.TupleBounded` | src/Data/SubNodeCounter.php:42-59 | for a counter that keeps its invariant the weights add up to at most 1, so every entry of getTuple lies between 0 and 1 |
| `SubNodeCounting.TupleZeroWithoutHits` | src/Data/SubNodeCounter.php:51-53 | without hits getTuple is the zero tuple |
| `SubNodeCounting.SubNodeCounter.constructor` | src/Data/SubNodeCounter.php:34-40 | the new object holds the starting state for its definition and keeps its invariant |
| `SubNodeCounting.SubNodeCounter.HitSingle` | src/Data/SubNodeCounter.php:122-163 | the object's new state and outcome are HitOne's |
| `SubNodeCounting.SubNodeCounter.HitAt` | src/Data/SubNodeCounter.php:124-162 | the object's new state and outcome are HitAs's |
| `SubNodeCounting.SubNodeCounter.Record` | src/Data/SubNodeCounter.php:159-162 | the class's counter is raised at the level and its encounters by one; nothing else changes |
| `SubNodeCounting.SubNodeCounter.Hit` | src/Data/SubNodeCounter.php:102-120 | the object's new state and result are HitValue's, and the invariant is kept |
| `SubNodeCounting.SubNodeCounter.GetTuple` | src/Data/SubNodeCounter.php:42-59 | the loop returns the weighted sum over the class names, without changing the object |
| `NodeCounting.DeclaredSlots` | src/Data/NodeCounter.php:19-21 | the lookup's error passes through; it succeeds exactly when sub node information is registered for the class, and then gives its slots |
| `NodeCounting.Started` | src/Data/NodeCounter.php:16-24 | one new sub node counter per slot, in slot order, and nothing encountered |
| `NodeCounting.SlotHits` | src/Data/NodeCounter.php:61-63 | one outcome per slot, each keeping that slot's counter shape |
| `NodeCounting.HitFrom` | src/Data/NodeCounter.php:61-63 | the loop keeps the slots, and the counters of slots it has already passed |
| `NodeCounting.HitNode` | src/Data/NodeCounter.php:59-64 | hit keeps the slots and one counter per slot |
| `NodeCounting.SubTuples` | src/Data/NodeCounter.php:40 | one full-length tuple per slot |
| `NodeCounting.Weighted` | src/Data/NodeCounter.php:38-48 | getTuple's terms: each slot's tuple weighted by its hits over the total encountered |
| `NodeCounting.HitSumUpdate` | src/Data/NodeCounter.php:62 | replacing one slot's counter changes the hits together by the difference |
| `NodeCounting.StartedCounts` | src/Data/NodeCounter.php:16-24 | a new node counter keeps every invariant, is balanced and gives the zero tuple |
| `NodeCounting.HitSumZero` | src/Data/NodeCounter.php:11 | counters without hits add up to no hits |
| `NodeCounting.SlotHitsAt` | src/Data/NodeCounter.php:62 | slot k's outcome is what its counter's hit does with the node's property of the slot's name |
| `NodeCounting.SlotHitsStep` | src/Data/NodeCounter.php:62 | every slot's counter keeps its invariant and its hits grow by what hit returns |
| `NodeCounting.HitFromBalances` | src/Data/NodeCounter.php:61-63 | a passing loop leaves the encountered total equal to the counters' hits, a throwing one at most that |
| `NodeCounting.HitNodeCounts` | src/Data/NodeCounter.php:59-64 | hit keeps every slot's invariant; a passing hit is balanced again and a throwing one leaves the total at most the counters' hits |
| `NodeCounting.HitFromOutcome` | src/Data/NodeCounter.php:61-63 | the loop passes exactly when every remaining slot's hit succeeds; then each counter holds its hit's state, and in any case each holds its old or its new state |
| `NodeCounting.HitFromStep` | src/Data/NodeCounter.php:62 | at each slot the counter takes its new state; a throw stops the loop, otherwise the returned count is added and the loop goes on |
| `NodeCounting.WeightedFactorSum` | src/Data/NodeCounter.php:38-48 | the weights add up to the slots' hits over the total |
| `NodeCounting.SubTuplesBounded` | src/Data/NodeCounter.php:40 | every slot's tuple lies between 0 and 1 |
| `NodeCounting.NodeTupleBounded` | src/Data/NodeCounter.php:34-51 | for a balanced counter the weights add up to 1 once anything was encountered and to 0 before, and every entry of getTuple lies between 0 and 1 |
| `NodeCounting.NodeCounter.constructor` | src/Data/NodeCounter.php:16-24 | the new object holds the starting state for its slots and keeps its invariant |
| `NodeCounting.NodeCounter.Hit` | src/Data/NodeCounter.php:59-64 | the object's new state and outcome are HitNode's; the slot invariants always hold, and balance again after a pass |
| `NodeCounting.NodeCounter.Apply` | src/Data/NodeCounter.php:61-63 | the loop's new state and outcome are HitFrom's from slot 0 |
| `NodeCounting.NodeCounter.GetTuple` | src/Data/NodeCounter.php:34-51 | the loop returns the weighted sum over the slots, without changing the object |
| `SubNodeRegistrar.Included` | src/NodeInformation/SubNodeInformation.php:44-48 | include succeeds exactly when the class already has sub node information; otherwise it fails as the mapping's get does, naming the missing type or the unregistered class |
| `SubNodeRegistrar.StepsThen` | src/NodeInformation/SubNodeInformationRegistrar.php:29-190 | in a chain of builder calls, a call that passes hands its slots to the rest of the chain |
| `SubNodeRegistrar.WithApplies` | src/NodeInformation/SubNodeInformation.php:56-67 | with on a new name appends exactly one slot with the normalised definition |
| `SubNodeRegistrar.WithRefuses` | src/NodeInformation/SubNodeInformation.php:58-62 | with on a name already defined throws and leaves the slots as they were |
| `SubNodeRegistrar.IncludeApplies` | src/NodeInformation/SubNodeInformation.php:44-54 | including a registered class appends a copy of each of its slots, in order |
| `SubNodeRegistrar.IncludeRefuses` | src/NodeInformation/SubNodeInformation.php:44-48 | including an unregistered class throws the mapping's error and adds nothing |
| `SubNodeRegistrar.OneWith` | src/NodeInformation/SubNodeInformation.php:56-67 | a chain of one with yields exactly that one slot |
| `SubNodeRegistrar.SingleSlotRecipe` | src/NodeInformation/SubNodeInformationRegistrar.php:29-190 | a class registered with one with gets exactly that one slot |
| `SubNodeRegistrar.ArrayRegistered` | src/NodeInformation/SubNodeInformationRegistrar.php:37-38 | Expr\Array_ has the one slot items: an array of ArrayItem, null allowed |
| `SubNodeRegistrar.ListRegistered` | src/NodeInformation/SubNodeInformationRegistrar.php:113-114 | Expr\List_ has the one slot items: an array of ArrayItem, null allowed |
| `SubNodeRegistrar.ItemsAccept` | src/NodeInformation/SubNodeInformationRegistrar.php:38 | the items slot accepts exactly ArrayItem and null |
| `SubNodeRegistrar.VariableRegistered` | src/NodeInformation/SubNodeInformationRegistrar.php:181-182 | Expr\Variable has the one slot name, accepting exactly a string or an expression |
| `SubNodeRegistrar.WithEachOne` | src/NodeInformation/SubNodeInformation.php:69-76 | the loop over one new name appends that one slot |
| `SubNodeRegistrar.StepsDone` | src/NodeInformation/SubNodeInformationRegistrar.php:29-190 | a chain of one call is that call |
| `SubNodeRegistrar.ThreeSteps` | src/NodeInformation/SubNodeInformationRegistrar.php:236-239 | three calls that each append one slot yield those three slots in order |
| `SubNodeRegistrar.ClassLikeRecipe` | src/NodeInformation/SubNodeInformationRegistrar.php:236-239 | Stmt\ClassLike's chain is with name (Identifier or null), withStmts and withAttrGroups |
| `SubNodeRegistrar.ClassLikeRegistered` | src/NodeInformation/SubNodeInformationRegistrar.php:236-239 | Stmt\ClassLike gets the slots name, stmts and attrGroups, with distinct names |
| `SubNodeRegistrar.CopiesDefined` | src/NodeInformation/SubNodeInformation.php:49-51 | the copied slots define exactly the names the included class defines |
| `SubNodeRegistrar.CopyAccepts` | src/NodeInformation/SubNodeInformation.php:50 | a copied definition accepts exactly what the original accepts |
| `SubNodeRegistrar.IncludeThenTwo` | src/NodeInformation/SubNodeInformationRegistrar.php:248-251 | an include followed by two new slots yields the copies followed by those two slots |
| `SubNodeRegistrar.ClassRecipe` | src/NodeInformation/SubNodeInformationRegistrar.php:248-251 | Stmt\Class_'s chain is include ClassLike, with extends (Name or null) and with implements (array of Name) |
| `SubNodeRegistrar.ClassRegistered` | src/NodeInformation/SubNodeInformationRegistrar.php:248-251 | Stmt\Class_ gets ClassLike's slots copied, then extends and implements |
| `SubNodeRegistrar.ClassLikeLeavesClassNames` | src/NodeInformation/SubNodeInformationRegistrar.php:236-251 | ClassLike's slots are distinct and name neither extends nor implements, so Class_'s chain cannot throw |
| `SubNodeRegistrar.IncludeOnly` | src/NodeInformation/SubNodeInformationRegistrar.php:380-381 | a chain holding only an include yields the copied slots |
| `SubNodeRegistrar.TraitRecipe` | src/NodeInformation/SubNodeInformationRegistrar.php:380-381 | Stmt\Trait_'s chain is include ClassLike alone |
| `SubNodeRegistrar.TraitRegistered` | src/NodeInformation/SubNodeInformationRegistrar.php:380-381 | Stmt\Trait_ gets ClassLike's slots copied when ClassLike is registered, and throws the lookup's error when it is not |
| `SubNodeRegistrar.AdaptationRecipe` | src/NodeInformation/SubNodeInformationRegistrar.php:376-378 | Stmt\TraitUseAdaptation's chain is with trait (Name or null) and with method (Identifier) |
| `SubNodeRegistrar.AdaptationRegistered` | src/NodeInformation/SubNodeInformationRegistrar.php:376-378 | Stmt\TraitUseAdaptation gets the slots trait and method, with distinct names |
| `SubNodeRegistrar.AliasRecipe` | src/NodeInformation/SubNodeInformationRegistrar.php:402-405 | Alias's chain is include TraitUseAdaptation, with newModifier (int or null) and with newName (Identifier or null) |
| `SubNodeRegistrar.AliasRegistered` | src/NodeInformation/SubNodeInformationRegistrar.php:402-405 | Alias gets TraitUseAdaptation's slots copied, then newModifier and newName |
| `SubNodeRegistrar.PrecedenceRecipe` | src/NodeInformation/SubNodeInformationRegistrar.php:407-409 | Precedence's chain is include TraitUseAdaptation and with insteadof (array of Name) |
| `SubNodeRegistrar.PrecedenceRegistered` | src/NodeInformation/SubNodeInformationRegistrar.php:407-409 | Precedence gets TraitUseAdaptation's slots copied, then insteadof |
| `SubNodeRegistrar.AdaptationLeavesNames` | src/NodeInformation/SubNodeInformationRegistrar.php:376-409 | TraitUseAdaptation's slots name none of newModifier, newName and insteadof, so neither chain throws |
| `SubNodeRegistrar.RegisterAllKeeps` | src/NodeInformation/SubNodeInformationRegistrar.php:11-25 | registering keeps every class registered before; it adds only the listed classes, and all of them when it passes |
| `SubNodeRegistrar.ApplyKeepsNormal` | src/NodeInformation/SubNodeInformationRegistrar.php:29-190 | every builder call keeps a class's slots normal, whether it passes or throws |
| `SubNodeRegistrar.StepsKeepNormal` | src/NodeInformation/SubNodeInformationRegistrar.php:29-190 | a chain of builder calls keeps the slots normal |
| `SubNodeRegistrar.RegisterAllKeepsNormal` | src/NodeInformation/SubNodeInformationRegistrar.php:11-25 | registration keeps every registered class's slots normal: distinct names, duplicate-free class names |
| `SubNodeRegistrar.TableIsNormal` | src/NodeInformation/SubNodeInformationRegistrar.php:11-18 | the registrar's whole table has normal slots for every class, as the counters require |
| `SubNodeRegistrar.RegisterAllSplit` | src/NodeInformation/SubNodeInformationRegistrar.php:11-18 | registering two lists in turn is registering the first, then, unless it threw, the second |
| `SubNodeRegistrar.RegisterAllRefusesRepeat` | src/NodeInformation/SubNodeInformationRegistrar.php:20-25 | a class listed twice makes the registration throw |
| `SubNodeRegistrar.RegisteredStaysRefused` | src/NodeInformation/SubNodeInformationRegistrar.php:20-25 | listing a class that is already registered makes the registration throw |
| `SubNodeRegistrar.RegistrationsDistinct` | src/NodeInformation/SubNodeInformationRegistrar.php:11-18 | the registrar's own list names every class once, so none of its map calls is refused as a repeat |
| `SubNodeRegistrar.GroupSizes` | src/NodeInformation/SubNodeInformationRegistrar.php:27-410 | the five groups register 46, 2, 6, 49 and 13 classes |
| `SubNodeRegistrar.ClassLikeBeforeClass` | src/NodeInformation/SubNodeInformationRegistrar.php:236-249 | ClassLike is registered before Class_ includes it |
| `SubNodeRegistrar.ClassLikeBeforeTrait` | src/NodeInformation/SubNodeInformationRegistrar.php:236-381 | ClassLike is registered before Trait_ includes it |
| `SubNodeRegistrar.AdaptationBeforeAliasAndPrecedence` | src/NodeInformation/SubNodeInformationRegistrar.php:376-409 | TraitUseAdaptation is registered before Alias and Precedence include it |
| `SubNodeRegistrar.InNamed` | src/NodeInformation/SubNodeInformationRegistrar.php:11-18 | a class is among the registered names exactly when the list holds it |
| `SubNodeRegistrar.EnumCaseNodeUnregistered` | src/NodeInformation/SubNodeInformationRegistrar.php:281 | as written, the AST node Stmt\EnumCase is not listed and gets no sub node information |
| `SubNodeRegistrar.EnumCaseNodeNotListed` | src/NodeInformation/SubNodeInformationRegistrar.php:281 | the statement group lists the builder class EnumCase, imported at the top of the file, where the AST node belongs |
| `SubNodeRegistrar.EnumCaseRecipe` | src/NodeInformation/SubNodeInformationRegistrar.php:281-284 | the enum case's chain is with name (Identifier), with expr (Expr or null) and withAttrGroups |
| `SubNodeRegistrar.FixedListsEnumCaseNode` | src/NodeInformation/SubNodeInformationRegistrar.php:281 | the corrected list holds the AST node Stmt\EnumCase |
| `SubNodeRegistrar.FixedDropsBuilder` | src/NodeInformation/SubNodeInformationRegistrar.php:281 | the corrected list no longer holds the builder class |
| `SubNodeRegistrar.FixedStatementsDropBuilder` | src/NodeInformation/SubNodeInformationRegistrar.php:218-410 | the corrected statement group holds the builder class nowhere |
| `SubNodeRegistrar.EnumCaseNodeRegistered` | src/NodeInformation/SubNodeInformationRegistrar.php:281-284 | with the correction, a registration that passes gives Stmt\EnumCase sub node information |
| `SubNodeRegistrar.EnumCaseNodeSlots` | src/NodeInformation/SubNodeInformationRegistrar.php:281-284 | under the AST node the chain yields the slots name, expr and attrGroups |
| `SubNodeRegistrar.BareExpressions` | src/NodeInformation/SubNodeInformationRegistrar.php:157-212 | ShellExec and MagicConst are registered with no slots |
| `SubNodeRegistrar.BareNames` | src/NodeInformation/SubNodeInformationRegistrar.php:194-195 | Name\FullyQualified and Name\Relative are registered with no slots |
| `SubNodeRegistrar.BareName` | src/NodeInformation/SubNodeInformationRegistrar.php:440 | Name is registered with no slots |
| `SubNodeRegistrar.BareOthers` | src/NodeInformation/SubNodeInformationRegistrar.php:344-456 | Stmt\Nop, VarLikeIdentifier and VariadicPlaceholder are registered with no slots |
| `SubNodeRegistrar.BareRegistered` | src/NodeInformation/SubNodeInformationRegistrar.php:20-25 | a class registered bare gets an empty slot list |
| `SubNodeCountingVisiting.ZeroedNames` | src/Visitors/LanguageLevelCounter.php:25-32 | after reset's loop has passed position i, every level name before i counts 0 |
| `SubNodeCountingVisiting.NewTallyIsZero` | src/Visitors/LanguageLevelCounter.php:15-18 | a new counter has every level at 0 and no hits, and keeps the counter invariant |
| `SubNodeCountingVisiting.HitCountsTotal` | src/Visitors/LanguageLevelCounter.php:45-60 | hitting a list of levels keeps an entry per level and adds the list's length to the counts' sum |
| `SubNodeCountingVisiting.HitRange` | src/Visitors/LanguageLevelCounter.php:41-48 | hitRange that throws leaves the counter as it was |
| `SubNodeCountingVisiting.HitRangeCounts` | src/Visitors/LanguageLevelCounter.php:41-48 | a range whose start is not newer than its end raises every level from start to end by exactly one, leaves the others, and adds the range's length to the hits |
| `SubNodeCountingVisiting.HitRangeRefuses` | src/Visitors/LanguageLevelCounter.php:43 | a start newer than the end throws range()'s exception and counts nothing |
| `SubNodeCountingVisiting.PutAt` | src/Visitors/SubNodeLanguageLevelCountingVisitor.php:57-76 | storing one counter in the nesting creates exactly that triple and changes no other triple's counter |
| `SubNodeCountingVisiting.GetCounterCreates` | src/Visitors/SubNodeLanguageLevelCountingVisitor.php:57-76 | getCounter always leaves a counter for the triple: a new one the first time, otherwise the existing one with nothing changed |
| `SubNodeCountingVisiting.GetCounterSame` | src/Visitors/SubNodeLanguageLevelCountingVisitor.php:57-76 | a second getCounter of the same triple returns the same counter and changes nothing |
| `SubNodeCountingVisiting.PutSound` | src/Visitors/SubNodeLanguageLevelCountingVisitor.php:57-76 | storing a counter that keeps its invariant keeps every counter's invariant |
| `SubNodeCountingVisiting.ArrayRefusedNames` | src/Visitors/SubNodeLanguageLevelCountingVisitor.php:86-92 | the exception message names the parent class and then the sub node |
| `SubNodeCountingVisiting.ArrayNotAllowed` | src/Visitors/SubNodeLanguageLevelCountingVisitor.php:84-93 | an array in a slot that does not allow arrays throws, naming the parent and the slot, and counts nothing |
| `SubNodeCountingVisiting.ArrayOfOne` | src/Visitors/SubNodeLanguageLevelCountingVisitor.php:95-97 | an array of one element is hit as that element, nested arrays included |
| `SubNodeCountingVisiting.HitItemsAppend` | src/Visitors/SubNodeLanguageLevelCountingVisitor.php:95-97 | hitting the elements of a + b is hitting those of a, then, unless that threw, those of b |
| `SubNodeCountingVisiting.LeafCounted` | src/Visitors/SubNodeLanguageLevelCountingVisitor.php:114-120 | a single sub node whose from is not newer than its to raises its class's counter at each level from..to by one, leaves the others and adds the range's length to the hits |
| `SubNodeCountingVisiting.LeafRefused` | src/Visitors/SubNodeLanguageLevelCountingVisitor.php:114-120 | a from newer than its to throws range()'s exception after getCounter has created the counter |
| `SubNodeCountingVisiting.Classified` | src/Visitors/SubNodeLanguageLevelCountingVisitor.php:102-112 | null, ints, floats and strings, and nothing else that is not a node, get a pseudo class; a node gets its umbrella class; bools and enum cases are refused |
| `SubNodeCountingVisiting.ScalarCounted` | src/Visitors/SubNodeLanguageLevelCountingVisitor.php:121-124 | a classified scalar raises every level of its class's counter by one |
| `SubNodeCountingVisiting.NodeCounted` | src/Visitors/SubNodeLanguageLevelCountingVisitor.php:116-120 | a classified node is counted over its from..to levels (unset reads OLDEST and NEWEST), and throws range()'s exception when from is newer |
| `SubNodeCountingVisiting.HitSubNodeElsewhere` | src/Visitors/SubNodeLanguageLevelCountingVisitor.php:78-125 | hitSubNode changes only counters under its own parent and sub node |
| `SubNodeCountingVisiting.HitItemsElsewhere` | src/Visitors/SubNodeLanguageLevelCountingVisitor.php:95-97 | hitting an array's elements changes only counters under its own parent and sub node |
| `SubNodeCountingVisiting.HitSubNodeSound` | src/Visitors/SubNodeLanguageLevelCountingVisitor.php:78-125 | every counter keeps its invariant through hitSubNode, whether it passes or throws |
| `SubNodeCountingVisiting.HitItemsSound` | src/Visitors/SubNodeLanguageLevelCountingVisitor.php:95-97 | every counter keeps its invariant through the elements of an array |
| `SubNodeCountingVisiting.LeafSound` | src/Visitors/SubNodeLanguageLevelCountingVisitor.php:114-124 | every counter keeps its invariant through one single sub node |
| `SubNodeCountingVisiting.HitSlotsSound` | src/Visitors/SubNodeLanguageLevelCountingVisitor.php:52-54 | every counter keeps its invariant through leaveNode's loop, whether it passes or throws |
| `SubNodeCountingVisiting.HitSlotsElsewhere` | src/Visitors/SubNodeLanguageLevelCountingVisitor.php:52-54 | leaveNode touches only counters filed under the node's own class name |
| `SubNodeCountingVisiting.LeaveUnregistered` | src/Visitors/SubNodeLanguageLevelCountingVisitor.php:47-50 | a node whose class has no sub node information throws the mapping's exception and counts nothing |
| `SubNodeCountingVisiting.OtherTypesRefused` | src/Visitors/SubNodeLanguageLevelCountingVisitor.php:111 | a bool or an enum case throws and counts nothing |
| `SubNodeCountingVisiting.SubNodeLanguageLevelCountingVisitor.constructor` | src/Visitors/SubNodeLanguageLevelCountingVisitor.php:26-30 | a new visitor starts with no counters, the state `beforeTraverse` gives (the source leaves `$counters` unset until then; see Left out) |
| `SubNodeCountingVisiting.SubNodeLanguageLevelCountingVisitor.GetCounters` | src/Visitors/SubNodeLanguageLevelCountingVisitor.php:35-38 | returns the counters |
| `SubNodeCountingVisiting.SubNodeLanguageLevelCountingVisitor.BeforeTraverse` | src/Visitors/SubNodeLanguageLevelCountingVisitor.php:40-43 | every counter is forgotten |
| `SubNodeCountingVisiting.SubNodeLanguageLevelCountingVisitor.GetCounter` | src/Visitors/SubNodeLanguageLevelCountingVisitor.php:57-76 | the new counters and the returned counter are GetCounterOf's |
| `SubNodeCountingVisiting.SubNodeLanguageLevelCountingVisitor.HitSubNode` | src/Visitors/SubNodeLanguageLevelCountingVisitor.php:78-125 | the new counters and the outcome are HitSubNodeOf's |
| `SubNodeCountingVisiting.SubNodeLanguageLevelCountingVisitor.LeaveNode` | src/Visitors/SubNodeLanguageLevelCountingVisitor.php:45-55 | the new counters and the outcome are Leave's |
| `ModernityVisiting.Shares` | src/Visitors/ModernityVisitor.php:55-59 | one share per listed class: its encounters over the hits, 0 without hits |
| `ModernityVisiting.Weigh` | src/Visitors/ModernityVisitor.php:51-61 | getTuple's terms pair the i-th class's tuple with the i-th share |
| `ModernityVisiting.TotalBump` | src/Visitors/ModernityVisitor.php:80 | one more encounter of a listed class adds one to the encounters together; of an unlisted class nothing |
| `ModernityVisiting.GetUpdate` | src/Visitors/ModernityVisitor.php:76-80 | setting one class's encounter count leaves every other class's |
| `ModernityVisiting.TotalSame` | src/Visitors/ModernityVisitor.php:51-61 | the encounters together depend only on the listed classes' counts |
| `ModernityVisiting.ListedKeeps` | src/Visitors/ModernityVisitor.php:72-77 | listing a new class with a count of 0 keeps the list free of repeats, the keys in step with the list, and the total |
| `ModernityVisiting.SharesSum` | src/Visitors/ModernityVisitor.php:51-61 | the shares add up to the encounters together over the hits |
| `ModernityVisiting.AllCountingUpdate` | src/Visitors/ModernityVisitor.php:75-79 | storing a node counter that keeps its invariant keeps every counter's |
| `ModernityVisiting.Admit` | src/Visitors/ModernityVisitor.php:68-77 | when leaveNode gets past the constructor, the node's class has a counter |
| `ModernityVisiting.Made` | src/Visitors/ModernityVisitor.php:75 | new NodeCounter fails exactly when the class's sub node lookup fails, and otherwise starts from the class's slots |
| `ModernityVisiting.ClassTuples` | src/Visitors/ModernityVisitor.php:51-53 | one full-length tuple per listed class |
| `ModernityVisiting.VisitTupleOf` | src/Visitors/ModernityVisitor.php:47-64 | getTuple has one entry per language level |
| `ModernityVisiting.ResetVisiting` | src/Visitors/ModernityVisitor.php:38-45 | beforeTraverse leaves a state that keeps the visit's invariant, whose tuple is all zeros |
| `ModernityVisiting.AdmitBooks` | src/Visitors/ModernityVisitor.php:68-77 | after admitting a node the classes are listed once each, have a counter and an encounter count, and the hits are one ahead of the encounters |
| `ModernityVisiting.CreditBooks` | src/Visitors/ModernityVisitor.php:79-80 | a passing hit raises the class's encounters by one, bringing the hits and the encounters level again; a throwing one changes no encounter count |
| `ModernityVisiting.StepCounted` | src/Visitors/ModernityVisitor.php:66-81 | one leaveNode adds one hit, lists a new class last, and counts one encounter of the node's class exactly when the hit passes |
| `ModernityVisiting.StepBooks` | src/Visitors/ModernityVisitor.php:66-81 | a leaveNode that passes keeps the books |
| `ModernityVisiting.StepCounting` | src/Visitors/ModernityVisitor.php:75-79 | a leaveNode that passes keeps every node counter's invariant |
| `ModernityVisiting.MadeCounts` | src/Visitors/ModernityVisitor.php:75 | a new node counter keeps its invariant, since registered slots are normal |
| `ModernityVisiting.LeaveCounts` | src/Visitors/ModernityVisitor.php:66-81 | leaveNode, lookups included, is counted as StepCounted says |
| `ModernityVisiting.LeaveKeepsVisiting` | src/Visitors/ModernityVisitor.php:66-81 | a passing leaveNode keeps the visit's invariant |
| `ModernityVisiting.LeaveStep` | src/Visitors/ModernityVisitor.php:66-81 | leaveNode is counted and, when it passes, keeps the visit's invariant |
| `ModernityVisiting.LeaveAllKeepsVisiting` | src/Visitors/ModernityVisitor.php:66-81 | a traversal whose every leaveNode passes keeps the visit's invariant |
| `ModernityVisiting.LeaveAllHits` | src/Visitors/ModernityVisitor.php:70 | such a traversal adds one hit per node |
| `ModernityVisiting.LeaveAllNames` | src/Visitors/ModernityVisitor.php:72-73 | such a traversal lists the classes in the order they were first met |
| `ModernityVisiting.EncountersThen` | src/Visitors/ModernityVisitor.php:80 | one encounter of a class followed by those of the rest are the encounters of the whole list |
| `ModernityVisiting.LeaveAllEncounters` | src/Visitors/ModernityVisitor.php:80 | such a traversal counts each node once under its class, and nothing else |
| `ModernityVisiting.FirstSeenDistinct` | src/Visitors/ModernityVisitor.php:72-73 | the first-seen list holds each class once: exactly those listed before and those of the nodes |
| `ModernityVisiting.VisitTupleBounded` | src/Visitors/ModernityVisitor.php:47-64 | during a visit the class weights add up to 1 once a node was left and to 0 before, and every entry of getTuple lies between 0 and 1 |
| `ModernityVisiting.ModernityVisitor.constructor` | src/Visitors/ModernityVisitor.php:15-36 | a new visitor starts with the reset state and keeps its invariant |
| `ModernityVisiting.ModernityVisitor.BeforeTraverse` | src/Visitors/ModernityVisitor.php:38-45 | every count is forgotten and the invariant holds |
| `ModernityVisiting.ModernityVisitor.LeaveNode` | src/Visitors/ModernityVisitor.php:66-81 | the new state and outcome are Leave's, and a passing call keeps the invariant |
| `ModernityVisiting.ModernityVisitor.AdmitNode` | src/Visitors/ModernityVisitor.php:68-77 | the new state and outcome are Admit's |
| `ModernityVisiting.ModernityVisitor.CreditHit` | src/Visitors/ModernityVisitor.php:79-80 | the new state and outcome are Credit's with the node counter's hit |
| `ModernityVisiting.ModernityVisitor.GetTuple` | src/Visitors/ModernityVisitor.php:47-64 | the loop returns the weighted sum over the listed classes, without changing the visitor |
| `WeightedTuples.WeightedSum` | src/Data/SubNodeCounter.php:44-58 | the loop of adding normalized, scaled tuples gives one entry per language level |
| `WeightedTuples.Share` | src/Data/SubNodeCounter.php:51-53 | the guarded share is 0 without a positive total, otherwise count over total: never negative for a count, at most 1 for a part of the total |
| `WeightedTuples.NormalizedInUnit` | src/Data/LanguageLevelTuple.php:72-79 | normalizing a tuple of counts gives entries between 0 and 1 |
| `WeightedTuples.AddScaledWithin` | src/Data/LanguageLevelTuple.php:50-70 | adding a unit-bounded tuple scaled by f to one bounded by b gives one bounded by b + f |
| `WeightedTuples.WeightedSumBounds` | src/Data/NodeCounter.php:36-50 | with count tuples and no negative weight, every entry of the sum lies between 0 and the weights' sum |
| `WeightedTuples.WeightedSumOfZeroFactors` | src/Data/NodeCounter.php:43-45 | when every weight is 0 the sum is the zero tuple |
| `WeightedTuples.WeightedSumSingle` | src/Data/LanguageLevelTuple.php:50-79 | one term of weight 1 contributes exactly its normalized tuple |
| `WeightedTuples.ShareOfWhole` | src/Data/NodeCounter.php:43-45 | the whole over itself is 1, or 0 when there is nothing |
| `WeightedTuples.AddShares` | src/Data/NodeCounter.php:43-45 | shares of one total add up to the share of the summed counts |
| `Sorting.InsertPermutes` | src/NodeInformation/SubNode/SubNodeDefinition.php:45 | inserting one element adds exactly that element |
| `Sorting.SortPermutes` | src/NodeInformation/SubNode/SubNodeDefinition.php:45 | sort keeps the same elements, as often |
| `Sorting.InsertSorted` | src/NodeInformation/SubNode/SubNodeDefinition.php:45 | inserting into a sorted list under a total, transitive order keeps it sorted |
| `Sorting.SortSorted` | src/NodeInformation/SubNode/SubNodeDefinition.php:45 | under a total, transitive order sort's result is sorted |
| `Sorting.SortIdentity` | src/Enums/LanguageLevel.php:61-64 | sorting an already sorted list leaves it as it is |
| `Sorting.Unique` | src/NodeInformation/SubNode/SubNodeDefinition.php:47 | array_unique keeps exactly the values of its input, each once, and is no longer |
| `Sorting.UniqueIdentity` | src/NodeInformation/SubNode/SubNodeDefinition.php:47 | array_unique leaves a list without repeats unchanged |
| `Sorting.UniqueSorted` | src/NodeInformation/SubNode/SubNodeDefinition.php:45-47 | array_unique of a sorted list is still sorted |
| `PhpClasses.ClassesAreNotExpressions` | src/NodeInformation/LanguageLevel/LanguageLevelInformationRegistrar.php:260-267 | an anonymous class declaration is not an expression, so New_'s two checks cannot both apply |
| `ParentConnecting.ConnectItemsAt` | src/Modernity.php:58 | the parent pass traverses each item of an array below the array's parent |
| `ParentConnecting.ConnectPropsAt` | src/Modernity.php:58 | each sub node keeps its name and is traversed below its node |
| `ParentConnecting.LookupConnected` | src/Modernity.php:58 | reading a sub node of a connected node gives the connected sub node |
| `ParentConnecting.ConnectNode` | src/Modernity.php:58 | an entered node keeps its class and every other attribute; below the top level its `parent` is the node above it, at the top level `parent` is not written |
| `ParentConnecting.ConnectKeepsClasses` | src/Modernity.php:58 | the parent pass keeps the tree's nodes, class by class, in traversal order |
| `ParentConnecting.ConnectItemsKeepClasses` | src/Modernity.php:58 | the same for a list of values |
| `ParentConnecting.ConnectPropsKeepClasses` | src/Modernity.php:58 | the same for a node's sub nodes |
| `ParentConnecting.ConnectedKeepsClasses` | src/Modernity.php:58 | the connected AST has the parsed AST's nodes, class by class, in order |
| `ParentConnecting.ConnectGivesParents` | src/Modernity.php:58 | below a node, every node of the tree gets a node as its `parent` |
| `ParentConnecting.ConnectItemsGiveParents` | src/Modernity.php:58 | the same for a list of values below a node |
| `ParentConnecting.ConnectPropsGiveParents` | src/Modernity.php:58 | the same for a node's sub nodes |
| `ParentConnecting.ConnectedChildrenHaveParents` | src/Modernity.php:58 | every node below an entered node carries a node as its `parent` |
| `ParentConnecting.ConnectedUse` | src/Modernity.php:58 | a closure's connected `use` item is that item traversed below the closure as entered |
| `ParentConnecting.ClosureUsesConnected` | src/NodeInformation/LanguageLevel/LanguageLevelInformationRegistrar.php:128-130 | after the pass, a closure's `use` item has the closure as its parent: function-like, with the closure's own parameters |
| `ParentConnecting.ClosureUseNameConnected` | src/NodeInformation/LanguageLevel/LanguageLevelInformationRegistrar.php:119 | the `use` item's variable name is a string after the pass exactly when it was one before, and is unchanged |
| `ParentConnecting.ClosureUseLevelConnected` | src/NodeInformation/LanguageLevel/LanguageLevelInformationRegistrar.php:111-137 | after the pass the closure-use rule fails only when the closure's parameters cannot be read, and answers 7.0 for a name among them |
| `ModernityAnalysis.StampItems` | src/Modernity.php:128-133 | the stamping pass over a list keeps its length |
| `ModernityAnalysis.StampProps` | src/Modernity.php:128-133 | the stamping pass over a node's sub nodes keeps their names, in order |
| `PhpValues.SameClassesJoin` | src/Modernity.php:128-133 | joining two node lists with the same classes gives lists with the same classes |
| `ModernityAnalysis.StampValueStamps` | src/Modernity.php:128-133 | a stamping pass that returns leaves every node stamped and the same classes in the same order |
| `ModernityAnalysis.StampItemsStamps` | src/Modernity.php:128-133 | the same for a list of values |
| `ModernityAnalysis.StampPropsStamps` | src/Modernity.php:128-133 | the same for a node's sub nodes |
| `ModernityAnalysis.StampingStamps` | src/Visitors/LanguageLevelVisitor.php:15-29 | the level visitor's leaveNode keeps a node's class and sub nodes and stamps `from` when it returns |
| `ModernityAnalysis.TupleForCode` | src/Modernity.php:103-110 | the parent pass, the stamping pass and the counting pass run in that order; a tuple getTupleForCode returns has one entry per level, each between 0 and 1 |
| `ModernityAnalysis.CountsStampedNodes` | src/Modernity.php:57-133 | when getTupleForCode returns, the counting pass has seen every node of the parsed AST once, in order, already connected and stamped, and listed the classes in first-seen order |
| `ModernityAnalysis.LeaveAllStep` | src/Modernity.php:130-132 | a throwing leaveNode ends the counting pass; a passing one keeps the visit's invariant and hands on to the rest |
| `ModernityAnalysis.CountingThrows` | src/Modernity.php:103-110 | when the counting pass throws, that exception is the result |
| `ModernityAnalysis.CountingReturns` | src/Modernity.php:103-110 | when both passes return, the result is the counting visitor's tuple |
| `ModernityAnalysis.StampingThrows` | src/Modernity.php:128-133 | when the stamping pass throws, the counting pass never runs and that exception is the result |
| `ModernityAnalysis.FileParts` | src/Modernity.php:89-91 | one term per file: its tuple, weighted by its size over the total size |
| `ModernityAnalysis.RollUp` | src/Modernity.php:87-93 | the fold gives one entry per language level |
| `ModernityAnalysis.Analyzed` | src/Modernity.php:75-85 | when every file's analysis returns there is one result per file, each a tuple between 0 and 1 |
| `ModernityAnalysis.AddPartAt` | src/Modernity.php:89-91 | each step of the fold adds the file's normalized entry times its weight, level by level |
| `ModernityAnalysis.WeightedSumEntries` | src/Modernity.php:87-93 | the fold's entry for a level is the sum over the files of their weighted normalized entries |
| `ModernityAnalysis.RollUpEntries` | src/Modernity.php:87-93 | the directory tuple is, level by level, the sum over the files of the normalized entry times size over total size |
| `ModernityAnalysis.RollUpNoFiles` | src/Modernity.php:87-93 | without files the result is the zero tuple and no division happens |
| `ModernityAnalysis.RollUpEmptyFiles` | src/Modernity.php:90 | files whose sizes add up to 0 make the first share divide by zero |
| `ModernityAnalysis.RollUpOneFile` | src/Modernity.php:87-93 | one non-empty file gives that file's normalized tuple |
| `ModernityAnalysis.SharesAddUp` | src/Modernity.php:84-90 | the sizes over the total add up to the files' bytes over the total |
| `ModernityAnalysis.WeightsSumToOne` | src/Modernity.php:84-90 | with at least one byte the file weights add up to 1 |
| `ModernityAnalysis.RollUpBounded` | src/Modernity.php:87-93 | tuples of counts give a directory tuple whose every entry lies between 0 and 1 |
| `ModernityAnalysis.DirectoryTupleBounded` | src/Modernity.php:66-94 | a directory's tuple lies between 0 and 1 whenever every file's analysis returns and the files hold at least one byte |
| `ModernityAnalysis.Modernity.constructor` | src/Modernity.php:45-64 | the analyser holds the mapping and an empty AST |
| `ModernityAnalysis.Modernity.GetTupleForCode` | src/Modernity.php:103-110 | the result is TupleForCode's, and the AST is the stamped one when stamping returned, the connected one otherwise |
| `ModernityAnalysis.Modernity.CountedTuple` | src/Modernity.php:109 | once both passes have returned, the counting visitor's tuple is TupleForCode's result |
| `ModernityAnalysis.Modernity.Traverse` | src/Modernity.php:128-133 | each pass replaces the AST, the parent pass first; a throwing stamping pass is the result, otherwise the counting visitor ends as the counting pass leaves it |
| `ModernityAnalysis.Modernity.CountingPass` | src/Modernity.php:131 | the counting visitor's state and outcome are LeaveAll's from the reset state |
| `ModernityAnalysis.Modernity.LeaveNode` | src/Visitors/ModernityVisitor.php:66-81 | the visitor's state and outcome are Leave's, and the counting of any other nodes is unaffected |
| `ModernityAnalysis.Modernity.AnalyzeFile` | src/Modernity.php:96-101 | the result is TupleForCode's, and the files analysed before keep their results |
| `ModernityAnalysis.Modernity.GetTupleForDirectory` | src/Modernity.php:66-94 | the result is the directory tuple: each file analysed in turn, then the fold |
| `ModernityAnalysis.AnalyzedNext` | src/Modernity.php:75-85 | the loop's step appends the next file's result, or ends with its exception |
| `ModernityAnalysis.AnalyzedStops` | src/Modernity.php:75-85 | once a file's analysis throws, every longer run throws the same exception |

## Left out

- Parsing and lexing: the analysis starts from a parsed AST (a list of `Value`s).
- PhpValues.IntOperand and PhpValues.IntParameter: a numeric string such as `"4"` is a TypeError here, where PHP would convert it to a number. The values they read are parser flags, which are never strings.
- ParentConnectingVisitor belongs to PHP-Parser and is not part of this model's sources. It is modelled from its behaviour: enterNode writes the node on top of the stack as `parent`, at every depth below the top level. The `parent` value is the parent node as it was entered, before its sub nodes were traversed and stamped, not a shared object. The only rule that reads it reads the parent's class and its parameters' names, which no pass changes.
- Directory iteration, `filesize` and file reading are left out. `Modernity.GetTupleForDirectory` takes a list of files, each with its path, size and parsed AST. The unreadable-file exception of `getCodeFromFile` is not modelled.
- Nodes are values. The parent and stamping passes return a rebuilt tree instead of writing attributes onto shared node objects, so aliasing between nodes is not captured. When the stamping pass throws, the nodes it left before are stamped in place in the source; the model keeps the connected AST unstamped.
- PHP-Parser's traversal of nested arrays is modelled as a list walk over sub nodes in declaration order. Traversal hooks other than `leaveNode`/`beforeTraverse` are not modelled.
- The SubNodeCounters inside a NodeCounter, and the NodeCounters inside a ModernityVisitor, are held by value as their abstract state. Their own classes are proved against the same functions.
- NodeCounting.NodeCounter.Hit computes every slot's hit first and then applies them in slot order. Hits of slots after a throwing slot are computed but discarded, so the outcome and the new state match the source's loop.
- The counting pipeline requires `NormalSlots` of the mapping it reads: every registered class's slots have distinct names and duplicate-free class names. `SubNodeRegistrar.TableIsNormal` proves this of the slot table the registrar builds, as values. The registrar's `map` onto the mapping's information objects is not modelled, so the link from that table to the objects the counters read is this precondition.
- NodeCounting.HitNodeCounts: after a slot throws, `$subNodesEncountered` is at most the slot counters' hits, not equal to them. The source adds nothing for the slot that threw partway through an array.
- ModernityVisiting.ModernityVisitor.constructor: `$encounters` is uninitialised in the source until `beforeTraverse`. The model starts in the reset state.
- `get_class` keys are modelled as the `Cls` enumeration. PHP array insertion order is modelled as list order.
- SubNodeCountingVisiting.SubNodeLanguageLevelCountingVisitor.constructor: `$counters` is declared without a value (src/Visitors/SubNodeLanguageLevelCountingVisitor.php:26) and only `beforeTraverse` sets it (lines 40-43), so `getCounters` or `leaveNode` before `beforeTraverse` raises an Error for an uninitialised typed property. The model starts with no counters, the state `beforeTraverse` gives, and does not model that Error.
- `ServiceContainer` and the way the program wires its mappings are left out. `Modernity` (src/Modernity.php:55) and `LanguageLevelVisitor` (src/Visitors/LanguageLevelVisitor.php:15-18) each build their own mapping with `NodeInformationMappingFactory::withDefaultRegistrars()`, and the counters read the one cached by `ServiceContainer` (src/Data/NodeCounter.php:19, src/Data/SubNodeCounter.php:93-94). The model hands one mapping to all of them. As written, the factory maps only the LanguageLevel, Subclass and SubNode registrars (src/NodeInformation/NodeInformationMappingFactory.php:11-13) and not `SuperclassInformationRegistrar`, yet `SubNodeCounter` looks up `SuperclassInformation` (src/Data/SubNodeCounter.php:92-96); the model does not decide which mapping is used. Its theorems hold for any mapping whose sub node slots satisfy `NormalSlots`, and the superclass lookups are proved to succeed only on a mapping to which `SuperclassRegistrar.Map` has been applied (`SuperclassRegistrar.SuperclassOfRegistered`).
- Information types are keyed by kind, one `InfoType` per kind of information. The source's lookups name other classes than its registrars create: `NodeCounter` asks for `NodeInformation\SubNode\SubNodeInformation` (src/Data/NodeCounter.php:5-19) where `SubNodeInformationRegistrar` maps `NodeInformation\SubNodeInformation` (src/NodeInformation/SubNodeInformationRegistrar.php:20-25), and `SubNodeCounter` asks for `NodeInformation\Superclass\SuperclassInformation` (src/Data/SubNodeCounter.php:9-94) where `SuperclassInformationRegistrar` maps `NodeInformation\SuperclassInformation` (src/NodeInformation/SuperclassInformationRegistrar.php:20-196). `NodeInformationMapping::map` keys entries by `get_class` (src/NodeInformation/NodeInformationMapping.php:29), so as written both lookups would fail with "type not registered". The model treats each pair of same-named classes as one information type.
- SubNodeRegistrar.RegisterAll: that the registrar's whole list registers without an exception is not proved as one statement. `RegistrationsDistinct` rules out a refused repeat, and the per-class lemmas (`ClassRegistered`, `TraitRegistered`, `AliasRegistered`, ...) show the chains that include other classes pass. `RegisterAllKeeps` and `EnumCaseNodeRegistered` keep the pass as a hypothesis.
- `LanguageLevelTupleStore::save`/`load` (file and JSON I/O, including the save at the end of `set`) and float precision are left out. `decode` takes its values as a list, so the check of its `array` parameter type is not modelled.
- ModernityAnalysis.Analyzed states only that a run that returns has one bounded tuple per file. The file-by-file content is stated by AnalyzedNext and AnalyzedStops.
- ClassHierarchy: the class finder and `is_subclass_of` are parameters (a class list and a relation). Reading stubs and writing the generated files are left out.
- ClassHierarchy.HierarchyDeterminator.Run and ClassHierarchy.HierarchyDeterminator.RunSubclasses require a freshly constructed determinator, as the scripts use one.
- `sort()` on class names is modelled as byte-wise string order.
- `Quirks::isSemiReservedKeyword` is not defined in the repository's source and is a parameter.
- `SubNodeInformation::with` refers to an unqualified `SubNodeDefinition` whose constructor takes no `nullable`. The registrar passes `nullable:`, so the model follows the newer `SubNode\SubNodeDefinition`.
- Sorting.Unique: `array_unique` keeps the original keys, leaving gaps. The model renumbers the list, which matters only to code that indexes the result.
- PHP floats are modelled as exact reals. `(string)` of a float is not modelled and is reported as an error.

## Findings

| source | as written | input that shows it | evidently intended | confidence | as-written member | corrected member |
|---|---|---|---|---|---|---|
| src/NodeInformation/LanguageLevel/LanguageLevelInformationRegistrar.php:90 | language-level information is registered for the abstract class `Expr\BinaryOp`, but the visitor looks up the node's exact class | the AST of `1 + 2`, an `Expr\BinaryOp\Plus` node: leaveNode throws "not registered" | concrete binary operators inherit BinaryOp's levels (from 5.2, no `to`) | not executed | `LanguageLevelVisitors.PlusNotStamped` | `LanguageLevelVisitors.PlusStampedByNearest` |
| src/NodeInformation/SubNodeInformationRegistrar.php:6, 281 | the slot table registers the builder class `PhpParser\Builder\EnumCase` | an `enum` with a `case` (an `Stmt\EnumCase` node): the counting pass finds no sub node information for it and throws | the AST node `Stmt\EnumCase` gets the slots name, expr and attrGroups | not executed | `SubNodeRegistrar.EnumCaseNodeUnregistered` | `SubNodeRegistrar.EnumCaseNodeRegistered` |
