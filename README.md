# modeling — a Dafny model of the class-model pipeline

`modeling` turns the output of Universal Ctags into a model of a code base's classes. It then draws that model as PlantUML, Mermaid or Graphviz text, or counts the words in its identifiers. This project models that pipeline's core in Dafny and proves what each stage promises.

- **CocoStruct** (`coco_struct.dfy`) holds the records:
  - `MemberInfo`, `MethodInfo` and `ClassInfo`, with their constructors;
  - the `ParseOption` flags.
- **CtagsParser** (`ctags_parser.dfy`) holds the ctags tag-line parser. `Parser` is a class whose `classMap` the methods update in place, and it runs in two passes:
  - the first pass registers every class line under its name;
  - the second pass attaches member and method lines to the class named by the last segment of their qualifier. Along the way it derives each line's access marker, data type, parameters and line number;
  - `Classes` then sorts members, methods and classes by ASCII lower-case name and may merge names that are equal ignoring ASCII case.
- **Rendering** (`render.dfy`) holds the shared helpers:
  - the member and method line renderers, and the dependency map they fill;
  - the edge lines drawn from that map;
  - the set of known class names.
- **PlantUmlRender**, **MermaidRender** and **GraphvizRender** hold the three diagram writers. Each has a `Render` method proved equal to a `Document` function of the classes and the (ghost) hash-map iteration orders. Lemmas about those functions replay the repository's rendering tests.
- **FileFilter** (`file_filter.dfy`) holds the path filter: grep first, then packages, then file-name suffixes.
- **Concepting** (`concepting.dfy`) holds the word and identifier counting of the `concepting` binary, and the sort of counts for the CSV output.
- **Wrappers**, **Strings** and **Sorting** are support modules:
  - an `Option` type;
  - split, join, ASCII lower-casing, lexicographic order and substring search;
  - a stable insertion sort and `dedup_by`, which stand in for Rust's `sort_by` and `Vec::dedup_by`.

Rust's `HashMap` iteration order is unspecified. Each loop over a hash map therefore picks its next key with `:|`, and the method returns the order it used as a ghost out-parameter. The contracts hold for every such order: `Rendering.Enumerates(order, keys)` says the order lists each key exactly once.

## Model

| member | source | states |
|---|---|---|
| CocoStruct.DefaultOption | src/ctags/ctags_parser.rs:24-28 | a default parser's options have every flag off and an empty suffix |
| CocoStruct.NewMember | src/coco_struct.rs:13-21 | a new member keeps its name, access and type, with no pure type and line 0 |
| CocoStruct.NewMethod | src/coco_struct.rs:35-44 | a new method keeps its name, access, parameters and return type, with no pure return type and line 0 |
| CocoStruct.ParameterTooLong | src/coco_struct.rs:46-48 | a method's parameter list is too long exactly when it has six or more parameters |
| CocoStruct.NewClass | src/coco_struct.rs:64-75 | a new class has the given name, id 0, and empty package, file, language, parents, members and methods |
| CtagsParser.RemoveKeywords | src/ctags/ctags_parser.rs:260-266 | the loop deletes the first occurrence of each keyword in table order, which is `StripKeywords` over the keyword table |
| CtagsParser.StripKeywordsShrinks | src/ctags/ctags_parser.rs:260-266 | stripping only deletes characters, and at most the keywords' total length |
| CtagsParser.StripKeywordsAbsent | src/ctags/ctags_parser.rs:260-266 | a line that contains none of the keywords comes back unchanged |
| CtagsParser.StripKeywordsThen | src/ctags/ctags_parser.rs:260-266 | stripping a concatenated keyword list is stripping the first list, then the rest |
| CtagsParser.RemoveKeywordsOfPublic | src/ctags/ctags_parser.rs:355-357 | stripping the keywords from "public" leaves the empty string |
| CtagsParser.Decimal | src/ctags/ctags_parser.rs:169 | every number has a non-empty all-digit decimal spelling |
| CtagsParser.DecimalValueOfDecimal | src/ctags/ctags_parser.rs:169 | reading back a number's decimal spelling gives the number |
| CtagsParser.ParseLineNoRoundTrip | src/ctags/ctags_parser.rs:169 | the line-number digits parse to their value when it fits in an i32, and to 0 (the `unwrap_or` default) when it does not |
| CtagsParser.AccessMarker | src/ctags/ctags_parser.rs:171-180 | "+", "-" and "#" come exactly from public, private and protected; any other capture, or none, gives "" |
| CtagsParser.RustFirstWord | src/ctags/ctags_parser.rs:244-250 | when a field splits into several words, the first word is "pub" exactly when the field starts with "pub " |
| CtagsParser.ParseRustAccess | src/ctags/ctags_parser.rs:243-258 | a field without a space is private ("-"); "pub " in front makes it public ("+"); any other visibility word gives "#" |
| CtagsParser.PickParameterList | src/ctags/ctags_parser.rs:327-340 | no capture or an empty one gives no parameters; otherwise the comma-free pieces re-join to the capture, one more piece than commas |
| CtagsParser.OneParameter | src/ctags/ctags_parser.rs:374-380 | a comma-free, non-empty parameter capture gives exactly that one parameter |
| CtagsParser.ExtractType | src/ctags/ctags_parser.rs:186-223 | an unsupported language gives no type; a pure type or Rust access only comes from Rust; a Rust field gives its type, the pure type of that type and the field's own visibility marker; without a field, a Rust return type is the type, with `Self` naming the owner; the C-family type is read from the keyword-stripped line; Go and TypeScript take their pattern's capture or "" |
| CtagsParser.LineAccess | src/ctags/ctags_parser.rs:171-200 | a Rust line whose field pattern matches takes the field's visibility marker, overriding `access:`; every other line takes the `access:` marker |
| CtagsParser.RustFieldIsPublic | src/ctags/ctags_parser.rs:383-394 | a Rust struct line then its `pub name: String` field line give one class whose only member is `name`, public and typed `String`, whatever `access:` says |
| CtagsParser.ReadType | src/ctags/ctags_parser.rs:186-223 | the language dispatch in statement form computes `ExtractType` |
| CtagsParser.ClassFromLine | src/ctags/ctags_parser.rs:133-148 | a class line gives a class with the captured name and file and nothing else set; its parents are the comma-free pieces of the inherits capture, which re-join to it |
| CtagsParser.Attach | src/ctags/ctags_parser.rs:182-240 | attaching a line sets the class's package and language, keeps name, id, file and parents, and appends exactly one member, exactly one method, or nothing, by tag kind |
| CtagsParser.AttachTo | src/ctags/ctags_parser.rs:166-241 | the statement-level second half of the attach step computes `Attach` |
| CtagsParser.AttachLine | src/ctags/ctags_parser.rs:154-165 | a line with a known owner changes only that owner's record, to `Attach` of it; any other line changes nothing; the keys stay the same |
| CtagsParser.Parsed | src/ctags/ctags_parser.rs:98-113 | after both passes the parser's keys are exactly the names of the class lines |
| CtagsParser.Parser.constructor | src/ctags/ctags_parser.rs:24-28 | a new parser has default options and an empty class map |
| CtagsParser.Parser.ParseClass | src/ctags/ctags_parser.rs:133-152 | a class line stores its class under the captured name, replacing any earlier one; other lines change nothing |
| CtagsParser.Parser.LookupClassFromMap | src/ctags/ctags_parser.rs:268-297 | the qualifier's last dot-segment names the owner; it is found exactly when non-empty and registered, and then its package becomes the full qualifier; otherwise the map is unchanged |
| CtagsParser.Parser.ParseMethodMethods | src/ctags/ctags_parser.rs:154-241 | the new class map is `AttachLine` of the old one |
| CtagsParser.Parser.ParseStr | src/ctags/ctags_parser.rs:98-113 | the class pass over all shards runs before the attach pass, and the result is `Parsed` of the flattened lines |
| CtagsParser.Parser.FinalizedRecords | src/ctags/ctags_parser.rs:300-320 | one finalised record per registered class: each is its class with members and methods sorted (and merged when asked), and every class appears |
| CtagsParser.Parser.Classes | src/ctags/ctags_parser.rs:299-325 | one finalised record per registered class, every class present, sorted by ASCII lower-case name |
| CtagsParser.RegisterAllKeys | src/ctags/ctags_parser.rs:100-104 | the first pass registers exactly the names of the class lines |
| CtagsParser.RegisterAllNames | src/ctags/ctags_parser.rs:150 | every registered record is stored under its own name |
| CtagsParser.LastClassLineWins | src/ctags/ctags_parser.rs:150 | when a class name is seen more than once, the last class line decides the record |
| CtagsParser.AttachAllKeeps | src/ctags/ctags_parser.rs:106-110 | the attach pass keeps each class's name, id, file and parents, and only extends its members and methods |
| CtagsParser.AttachedMethodStays | src/ctags/ctags_parser.rs:232-240 | a method line attached to a class stays in that class's methods through the rest of the pass |
| CtagsParser.AttachedMemberStays | src/ctags/ctags_parser.rs:225-231 | a member line attached to a class stays in that class's members through the rest of the pass |
| CtagsParser.MethodBeforeClassAttaches | src/ctags/ctags_parser.rs:98-113 | a method line that comes before its class's line still ends up in that class, because registration finishes first |
| CtagsParser.FinalizeSorts | src/ctags/ctags_parser.rs:302-317 | finalising keeps a class's identity fields and sorts members and methods by ASCII lower-case name; without merging they are a permutation, with merging a sub-multiset |
| CtagsParser.FinalizeIsStable | src/ctags/ctags_parser.rs:303-308 | without merging, methods (and members) with the same ASCII lower-case name keep their original relative order |
| CtagsParser.FinalizeMergeKeepsFirst | src/ctags/ctags_parser.rs:310-317 | merging keeps, of each case-insensitive name, exactly its first entry |
| CtagsParser.MergeCollapsesDuplicates | src/ctags/ctags_parser.rs:516-536 | two methods that differ only in case stay two without merging and become the first one with merging |
| Sorting.SortBySorted | src/ctags/ctags_parser.rs:322 | the stable sort's output is sorted under a total preorder |
| Sorting.SortByPermutes | src/ctags/ctags_parser.rs:322 | the stable sort's output is a permutation of its input |
| Sorting.SortByStable | src/ctags/ctags_parser.rs:322 | elements that compare equal keep their relative order |
| Sorting.DedupKeepsFirst | src/ctags/ctags_parser.rs:310-317 | on grouped input, `dedup_by` keeps exactly the first element of each key |
| Sorting.DedupBySorted | src/ctags/ctags_parser.rs:310-317 | de-duplicating a sorted sequence leaves it sorted |
| Strings.JoinSplit | src/ctags/ctags_parser.rs:142-145 | joining the pieces of a split with the separator gives back the text |
| Strings.SplitJoin | src/ctags/ctags_parser.rs:142-145 | splitting a join of separator-free pieces gives back the pieces |
| Strings.SplitCount | src/ctags/ctags_parser.rs:244-249 | a split has one more piece than the text has separators |
| Strings.RemoveFirstRestores | src/ctags/ctags_parser.rs:262 | deleting the first occurrence leaves text that, with the pattern put back, is the original, and the deleted part had no earlier match |
| Rendering.DepKey | src/render/mod.rs:21-25 | the dependency key is the pure type when there is one, else the written type |
| Rendering.MemberLines | src/render/mod.rs:31-50 | one line per member, in order |
| Rendering.MethodLines | src/render/mod.rs:10-29 | one line per method, in order |
| Rendering.RenderMember | src/render/mod.rs:31-50 | the lines are `MemberLines`, and the dependency map gains exactly the members' typed dependency keys, each mapped to the class name |
| Rendering.RenderMethod | src/render/mod.rs:10-29 | the lines are `MethodLines`, and the dependency map gains exactly the methods' return-type keys, each mapped to the class name |
| Rendering.MemberTargetsOfOne | src/render/mod.rs:34-46 | an untyped member adds no dependency; a typed one adds its pure type, or failing that its type |
| Rendering.MethodTargetsOfOne | src/render/mod.rs:13-25 | a method without a return type adds no dependency; otherwise its pure return type, or failing that its return type |
| Rendering.FiledFromEmpty | src/render/plantuml_render.rs:21-27 | starting from an empty map, the dependency map's keys are the class's dependencies (member types, plus method types unless fields only), all owned by the class |
| Rendering.FieldOnlyIgnoresMethods | src/render/plantuml_render.rs:24-27 | with fields only, body and dependencies are those of the class with no methods |
| Rendering.EdgeTargets | src/render/plantuml_render.rs:39-49 | an edge target is a dependency that is not the class itself and is a known class |
| Rendering.EdgeLines | src/render/plantuml_render.rs:48 | one edge line per target, in iteration order |
| Rendering.DepEdges | src/render/plantuml_render.rs:39-49 | the loop over the dependency map walks the edge targets, each once, and emits `EdgeLines` for them |
| Rendering.EnumeratesSize | src/render/plantuml_render.rs:39 | a walk of a hash map visits as many keys as it holds |
| Rendering.KnownClasses | src/render/plantuml_render.rs:15-18 | the class map's keys are exactly the classes' names, all mapped to true |
| Rendering.NamesMembers | src/render/plantuml_render.rs:15-18 | a name is known exactly when some class has it |
| Rendering.AllEdgesMembers | src/render/plantuml_render.rs:20-50 | an edge is in the output exactly when some class's walk lists its target |
| Rendering.EdgesAreTargets | src/render/plantuml_render.rs:20-50 | an edge is in the output exactly when it joins some class to one of its edge targets |
| Rendering.EdgeLinesDistinct | src/render/plantuml_render.rs:39-49 | one class never emits the same edge twice |
| PlantUmlRender.ParentLines | src/render/plantuml_render.rs:31-35 | one inheritance line per parent, in order |
| PlantUmlRender.Blocks | src/render/plantuml_render.rs:31-37 | the parent lines (unless suppressed), then the class block |
| PlantUmlRender.RenderClass | src/render/plantuml_render.rs:21-49 | one class's blocks are `Blocks` and its edges walk its edge targets |
| PlantUmlRender.Render | src/render/plantuml_render.rs:11-57 | the output is `Document` of the classes for the walk orders it used, and every order enumerates its class's edge targets |
| PlantUmlRender.RenderEmpty | src/render/mod.rs:60-64 | no classes render as an empty @startuml/@enduml document |
| PlantUmlRender.RenderSingleEmptyClass | src/render/mod.rs:67-74 | one empty class renders as its empty block |
| PlantUmlRender.SelfReferencingBody | src/render/mod.rs:77-94 | the member and method lines of the sample class |
| PlantUmlRender.SelfReferenceHasNoEdge | src/render/mod.rs:77-94 | a class whose only dependency is itself draws no edge |
| PlantUmlRender.RenderMemberMethod | src/render/mod.rs:77-94 | the sample class with a field and a self-returning method renders as the expected document |
| PlantUmlRender.TwoClassEdges | src/render/mod.rs:97-114 | a class depending on a second known class draws exactly one edge to it |
| PlantUmlRender.RenderDeps | src/render/mod.rs:97-114 | the dependency test's document, edge included |
| PlantUmlRender.RenderArray | src/render/mod.rs:133-148 | an array return type draws its edge to the pure element type |
| PlantUmlRender.RenderParents | src/render/mod.rs:117-130 | two parents give two inheritance lines, then the class block |
| PlantUmlRender.FieldOnlyDropsMethods | src/render/plantuml_render.rs:24-27 | with fields only, methods affect neither the blocks nor the edges |
| PlantUmlRender.DocumentOfOne | src/render/plantuml_render.rs:52-56 | a single class without parents or edges renders as its block inside the document frame |
| MermaidRender.ProcessedNamesMembers | src/render/mermaid_render.rs:15-18 | the class map's keys are the processed names of the classes |
| MermaidRender.Blocks | src/render/mermaid_render.rs:29-43 | one comma-joined parent line (unless suppressed or none), then the indented class block |
| MermaidRender.RenderClass | src/render/mermaid_render.rs:20-55 | one class's blocks are `Blocks` and its indented edges walk its edge targets |
| MermaidRender.Render | src/render/mermaid_render.rs:10-59 | the output is `Document` of the classes for the walk orders it used |
| MermaidRender.RenderEmpty | src/render/mermaid_render.rs:58 | no classes render as a single newline |
| MermaidRender.BlocksIndented | src/render/mermaid_render.rs:32-43 | every block starts with the four-space indent |
| MermaidRender.EdgesIndented | src/render/mermaid_render.rs:54 | every edge starts with the four-space indent |
| MermaidRender.ParentLineLists | src/render/mermaid_render.rs:31-37 | the parent line lists the parents joined by commas, recoverable by splitting |
| MermaidRender.TwoParentsOneLine | src/render/mermaid_render.rs:31-37 | two parents share one inheritance line |
| MermaidRender.NoParentLine | src/render/mermaid_render.rs:31 | without parents, or with parents suppressed, only the class block is written |
| MermaidRender.FieldOnlyDropsMethods | src/render/mermaid_render.rs:24-27 | with fields only, methods affect neither the blocks nor the edges |
| GraphvizRender.ClustersAreLayers | src/render/graphviz_render.rs:24-37 | a cluster exists exactly for a layer with at least one class, and holds that layer's classes |
| GraphvizRender.ClusterMembers | src/render/graphviz_render.rs:24-37 | a name is in a layer's cluster exactly when it is a class name ending with the layer |
| GraphvizRender.ClusterKeepsOrder | src/render/graphviz_render.rs:20-37 | clusters list classes in input order |
| GraphvizRender.OnlyPopulatedClusters | src/render/graphviz_render.rs:24-37 | a layer gets a subgraph exactly when some class name ends with it |
| GraphvizRender.AtMostOneLayer | src/render/graphviz_render.rs:24-37 | no name ends with two of the three layer suffixes |
| GraphvizRender.UnsuffixedJoinsNone | src/render/graphviz_render.rs:24-37 | names ending in other words, such as "ServiceImpl" or "Ctrl", join no cluster |
| GraphvizRender.PlaceClass | src/render/graphviz_render.rs:24-37 | the statement-level placement equals `PlaceAll` |
| GraphvizRender.ClassEdges | src/render/graphviz_render.rs:39-54 | one class's edges walk its edge targets with the "->" arrow |
| GraphvizRender.SubgraphTexts | src/render/graphviz_render.rs:57-60 | one subgraph text per cluster, in iteration order |
| GraphvizRender.ClusterBlocks | src/render/graphviz_render.rs:57-60 | the loop over the cluster map walks every cluster once and writes `SubgraphTexts` |
| GraphvizRender.Render | src/render/graphviz_render.rs:11-71 | the output is `Document` of the classes for the walk orders it used |
| GraphvizRender.DocumentFrame | src/render/graphviz_render.rs:62-70 | the document opens with the digraph header and closes with a brace |
| FileFilter.FileName | src/file_filter.rs:100-104 | a path has a file name exactly when its last component is a normal one |
| FileFilter.DefaultFilter | src/file_filter.rs:16-24 | the default filter has no grep, packages or suffixes |
| FileFilter.NewFilter | src/file_filter.rs:26-32 | a new filter keeps its packages, suffixes and grep text |
| FileFilter.FilterByPackages | src/file_filter.rs:78-93 | accepts when no packages are given, else exactly when some path component is a package |
| FileFilter.FilterBySuffix | src/file_filter.rs:95-113 | accepts when no suffixes are given, else exactly when the file name contains a suffix |
| FileFilter.Allow | src/file_filter.rs:34-58 | grep decides when set (an invalid pattern rejects); else no criteria accept; else packages decide; else suffixes decide |
| FileFilter.SuffixAcceptsModel | src/file_filter.rs:121-126 | a path whose file name contains the suffix is accepted |
| FileFilter.SuffixRejectsController | src/file_filter.rs:129-136 | a file name without the suffix is rejected |
| FileFilter.PackageIsAComponent | src/file_filter.rs:149-164 | the package must be a whole directory component of the path |
| FileFilter.PackageIsNotASubstring | src/file_filter.rs:149-155 | package matching is exact and case-sensitive, not by substring |
| FileFilter.NoFileNameNoSuffix | src/file_filter.rs:100-102 | a path ending in ".." has no file name and is rejected by suffix |
| Concepting.ToParseOption | src/bin/concepting.rs:35-44 | the options the binary uses are the defaults |
| Concepting.CountText | src/bin/concepting.rs:112-115 | the counter of the text goes up by one from 0 or its old value; other counters are unchanged |
| Concepting.CountWords | src/bin/concepting.rs:117-130 | the map is the old map tallied with the segmented words not in either stop list |
| Concepting.CountWordsCounts | src/bin/concepting.rs:117-130 | a stop word's count is unchanged; any other word's count grows by its number of occurrences |
| Concepting.TallyCounts | src/bin/concepting.rs:112-115 | counting a sequence adds each element's number of occurrences to its counter |
| Concepting.TallyKeys | src/bin/concepting.rs:112-115 | after counting, the keys are the old keys plus the counted elements |
| Concepting.TallyConcat | src/bin/concepting.rs:92-106 | counting two sequences in turn equals counting their concatenation |
| Concepting.TotalTally | src/bin/concepting.rs:112-115 | counting a sequence raises the sum of the counters by its length |
| Concepting.KeptCounts | src/bin/concepting.rs:118-126 | a word survives the stop lists as often as it occurs, unless its lower-case form is a stop word |
| Concepting.CountClass | src/bin/concepting.rs:93-105 | one class counts its name, then its method names, then its member names |
| Concepting.ClassToIdentifyMap | src/bin/concepting.rs:86-110 | by-text counts every class, method and member name; by-word counts their kept words; the method count is the total number of methods |
| Concepting.AllNamesLength | src/bin/concepting.rs:92-106 | as many names are counted as there are classes, methods and members |
| Concepting.ClassNamesMembers | src/bin/concepting.rs:93-105 | a class contributes its own name and each method and member name |
| Concepting.ByTextTally | src/bin/concepting.rs:86-110 | by-text's keys are exactly the names, each counted by its occurrences, and the counts add up to classes plus methods plus members |
| Concepting.ByWordCounts | src/bin/concepting.rs:117-130 | by-word counts each kept segment of every name once: a word's count is its number of kept occurrences, and the counts add up to the number of kept segments |
| Concepting.ByWordTally | src/bin/concepting.rs:117-126 | no stop word is ever a by-word key |
| Concepting.RepeatedNames | src/bin/concepting.rs:86-115 | two classes named Demo, each with a Demo method, give the single count Demo: 4 |
| Concepting.SortRows | src/bin/concepting.rs:71-73 | the rows are exactly the map's entries, one per key, with counts non-increasing and equal counts in walk order |

## Left out

- The regular expressions are not modelled. `TagLine` carries what the line-level patterns capture (class, inherits, available, the class qualifier, access and language). The type-level patterns (C-family type, Rust field, pure Rust type, Rust return type, Go type, TypeScript type, parameters) are functions in `TypeRules` supplied by the caller.
- `CtagsParser::parse` reads a tags file twice. File I/O is out of scope, and `ParseStr` models the same two passes over lines already in memory.
- CtagsParser.Parser.ParseMethodMethods requires a language capture on every line that would attach. The source unwraps that capture and panics without one.
- FileFilter.Allow takes the grep outcome as a parameter (`GrepOutcome`). The grep searcher and regex compilation are external crates, so `grep_by_text` is not part of this model.
- Concepting.CountWords takes the word segmenter and the two stop-word lists as parameters. `segment` and the stop-word tables are not part of this model. Lower-casing is ASCII only, as in `Strings.Lower`.
- Concepting.CountText, Concepting.CountWords and Concepting.ClassToIdentifyMap count with unbounded `nat`, not `u32`. Overflow would take more than four billion identifiers.
- `map_to_csv` is modelled only up to the sorted rows (`SortRows`). The prettytable formatting and CSV file writing are I/O.
- Logging, `main`, command-line parsing and `output_by_dir` are left out; `by_dir` is not part of this model.
- MermaidRender.Render takes `process_name` as an uninterpreted `processName` parameter. Its definition is not part of this model.
- The renderers call the shared helpers with arities that `render/mod.rs` does not declare. PlantUML and Mermaid call `render_member` with five arguments; Graphviz calls it with four. Mermaid calls `render_method` with four arguments, while PlantUML and Graphviz use three. `render/mod.rs` declares three for both. The model uses the three-argument functions as declared, and extra effects of the undeclared wider signatures are not captured.
- `graphviz_render.rs` is not declared as a module in `render/mod.rs`. It is modelled as written.
- GraphvizRender clusters only names ending in "Repository", "Controller" or "Service", as the code does. Names ending in "Ctrl" or "ServiceImpl" join no cluster.
- `src/parse_option.rs` declares only a `merge_method` field, while the core reads six fields. `CocoStruct.ParseOption` carries the six fields the core uses.
- `lineNo` is an `i32` in the source. The model keeps it as an integer in the i32 range, via `ParseLineNo`, and does not model other i32 arithmetic.
- HashMap iteration order is not fixed. Every walk is existential, and the contracts hold for all orders, which are returned as ghost values.
- CtagsParser.Finalize and CtagsParser.Parser.Classes sort by the ASCII lower-case name (`Strings.Lower`). The source sorts by Unicode `to_lowercase` (`ctags_parser.rs` lines 305, 308 and 322), so names with non-ASCII capitals, such as "Ärger" and "ärger", may sort differently. Merging uses `eq_ignore_ascii_case` in the source, and the model's ASCII key matches it.
- FileFilter.FilterByPackages and FileFilter.FilterBySuffix treat path components as strings, so paths that are not valid UTF-8 cannot be represented. The source skips such components when matching packages (`to_str`, `file_filter.rs` line 84). It panics on such a file name when matching suffixes (`to_str().unwrap()`, line 104).
