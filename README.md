# docusaurus-vecto-search: post-build step and contextual search filters

This project models two parts of the docusaurus-vecto-search plugin.

- **The post-build step** of `src/server/utils/postBuildFactory.ts`. It runs once the site has been built:
  - it clears the configured vector space once;
  - it sends one record per content document of every documentation version to the vector space;
  - it then splits every version's scanned documents into search contexts (partitions);
  - it writes one local search index file per partition.
- **The contextual filter string** built by `useTypesenseContextualFilters` in `src/client/theme/SearchBar/index.tsx`.

The modules are:

- `Wrappers`: `Option` and `Nullable` (JavaScript's `null`).
- `Strings`: the string operations the code relies on:
  - `startsWith` and `indexOf`;
  - replacing every `/`;
  - `join`, plus a `split` used only to state round trips.
- `Interfaces`: the plugin's data.
  - A scanned document `Doc` keeps its one-letter fields `i t u h p b s`.
  - `Scanned` holds the three lists (titles, headings, contents).
  - `Options` holds the plugin options, and `VersionData` one version.
- `VectorRecords`: the record built for one content document.
  - Its page title and breadcrumb come from the first title document whose id is the content document's parent id.
- `Partitioning`: the context partitioner, in two forms.
  - An imperative form (`PlaceList`, `PlaceDocuments`, `Partition`) follows the nested loops, the `continue`, the sparse per-context arrays and the compaction pass.
  - A declarative form (`Partitions`) gives the same result as a function of the inputs.
  - The method is proved to compute exactly that function.
  - The lemmas then prove where every document ends up.
- `IndexFiles`: the index file name, which is the template with its first `{dir}` replaced by the partition's suffix. The module also models the name as the code computes it (see Findings).
- `PostBuild`: the whole step.
  - The vector space and the file system form a `World` object. It records every call as an event (`ClearVectorSpace`, `Ingest`, `WriteIndex`).
  - Any call may fail. The world's `failing` set gives the positions at which a call throws.
  - `PostBuild` is an imperative method with the source's loops.
  - Its contract: the events it leaves are the planned calls (`Expected`) up to and including the first failing one (`Run`). It completes exactly when no call fails.
- `SearchFilters`: the filter string, as pure functions.

Two facts about the code shape the model:

- The code clears the vector space once, before all versions (line 34 of `src/server/utils/postBuildFactory.ts`), not once per version.
- The code does not check that the user token is present. The token is an input here.

## Model

| member | source | states |
|---|---|---|
| Strings.StartsWith | src/server/utils/postBuildFactory.ts:89 | `startsWith`: the prefix is no longer than the text and equals its first characters; `Partitioning.ContextOfFirstMatch` and `Partitioning.FindContext` state what the two prefix tests decide |
| Strings.IndexOf | src/server/utils/postBuildFactory.ts:132-133 | the position found is an occurrence of the pattern and no earlier position is one; none means the pattern does not occur |
| Strings.ReplaceChar | src/server/utils/postBuildFactory.ts:134 | replacing every `/`: same length, each `/` becomes the new character, every other character is kept |
| Strings.Join | src/client/theme/SearchBar/index.tsx:18 | `join`: the parts with the separator between neighbours; `Strings.SplitJoin` and `Strings.JoinSplit` are its round trips and `SearchFilters.FiltersWithTags` its use |
| Strings.SplitJoin | src/client/theme/SearchBar/index.tsx:18 | joining non-empty-list parts that hold no comma with `,` and splitting at `,` gives the parts back |
| Strings.JoinSplit | src/client/theme/SearchBar/index.tsx:18 | splitting a text at a character and joining with it gives the text back |
| Interfaces.FlattenMembers | src/server/utils/postBuildFactory.ts:86-88 | a document is visited by the nested loops exactly when it is in one of the scanned lists |
| VectorRecords.FindTitle | src/server/utils/postBuildFactory.ts:47 | the title found is the first whose id equals the content document's parent id; none when no title has that id |
| VectorRecords.RecordFor | src/server/utils/postBuildFactory.ts:49-59 | the record's data and attributes.data are the document's text, title, url and hash are its `s`, `u` and `h`; page title and breadcrumb are null together |
| VectorRecords.RecordParent | src/server/utils/postBuildFactory.ts:47-57 | page title and breadcrumb are the `t` and `b` of the first matching title document, and null exactly when no title document matches |
| VectorRecords.NoParentIdNoTitle | src/server/utils/postBuildFactory.ts:47-57 | a content document without a parent id gets null page title and breadcrumb |
| VectorRecords.RecordIgnoresOtherTitles | src/server/utils/postBuildFactory.ts:47 | title documents that are not the parent, wherever they appear in the list, do not change the record |
| Partitioning.FindContext | src/server/utils/postBuildFactory.ts:91-93 | the context found is the first in configuration order the relative path equals or lies under (`c + "/"` prefix); none when no context matches |
| Partitioning.ContextOf | src/server/utils/postBuildFactory.ts:89-94 | the context a document goes under, or none; characterised in both directions by `Partitioning.ContextOfFirstMatch` and `Partitioning.ContextOfNone` |
| Partitioning.ContextOfFirstMatch | src/server/utils/postBuildFactory.ts:89-94 | a document goes under context `c` exactly when its URL starts with the base URL, `c` is the first context matching the rest of the URL, and `c` is not empty |
| Partitioning.ContextOfNone | src/server/utils/postBuildFactory.ts:89-94 | a document is unmatched exactly when its URL lacks the base URL prefix, no context matches, or the first match is the empty context |
| Partitioning.Select | src/server/utils/postBuildFactory.ts:88-110 | the documents of one scanned list a partition keeps, in scan order; characterised by `Partitioning.SelectMembers` and `Partitioning.SelectAppend` |
| Partitioning.SelectMembers | src/server/utils/postBuildFactory.ts:88-110 | a list of a partition holds exactly the documents of that type the partition keeps |
| Partitioning.SelectAppend | src/server/utils/postBuildFactory.ts:88-110 | selection distributes over concatenation, so documents keep their scan order within every list |
| Partitioning.SetSlot | src/server/utils/postBuildFactory.ts:100-103 | assigning slot `j` of a sparse array sets that slot, extends the length to `j + 1` when past the end, and leaves every other slot alone |
| Partitioning.Compact | src/server/utils/postBuildFactory.ts:115 | `v.filter((d) => !!d)`: the sparse array without its holes; characterised by `Partitioning.CompactMembers`, `Partitioning.CompactAppend`, `Partitioning.CompactFull` and `Partitioning.CompactPadded` |
| Partitioning.CompactMembers | src/server/utils/postBuildFactory.ts:115 | compaction keeps exactly the lists that fill a slot |
| Partitioning.CompactAppend | src/server/utils/postBuildFactory.ts:114-119 | compaction distributes over concatenation, so surviving lists keep their type order |
| Partitioning.CompactFull | src/server/utils/postBuildFactory.ts:87-119 | an array without holes, such as the root array, compacts to its own lists |
| Partitioning.CompactPadded | src/server/utils/postBuildFactory.ts:114-119 | holes past the end of a sparse array do not change its compaction |
| Partitioning.MatchedMembers | src/server/utils/postBuildFactory.ts:94-99 | a context is inserted into the map exactly when some document is placed under it |
| Partitioning.Dedup | src/server/utils/postBuildFactory.ts:95-99 | the map keys in insertion order: each context once, at its first insertion; characterised by `Partitioning.DedupMembers` and `Partitioning.DedupPrefix` |
| Partitioning.DedupMembers | src/server/utils/postBuildFactory.ts:95-99 | map keys are inserted once each, and every matched context becomes a key |
| Partitioning.DedupPrefix | src/server/utils/postBuildFactory.ts:95-99 | a key keeps the position of its first insertion; later documents only append keys |
| Partitioning.Partitions | src/server/utils/postBuildFactory.ts:73-122 | the finished map as a function of the scanned lists and the options; `Partitioning.Partition` proves the loops compute it and the lemmas below state where every document goes |
| Partitioning.PartitionKeys | src/server/utils/postBuildFactory.ts:79-121 | without contexts the only partition is `""` holding the scanned lists unchanged; with contexts `""` is a key exactly when the search bar is not hidden; no key occurs twice |
| Partitioning.ContextDocsMembers | src/server/utils/postBuildFactory.ts:94-119 | a context's compacted lists hold exactly the scanned documents placed under it |
| Partitioning.ContextKeysNonEmpty | src/server/utils/postBuildFactory.ts:94 | no context key is the empty string |
| Partitioning.MatchedIsKey | src/server/utils/postBuildFactory.ts:94-99 | a context some document matched is one of the map's keys |
| Partitioning.RootPlacement | src/server/utils/postBuildFactory.ts:82-110 | a document is in the root partition exactly when the root is emitted and the document is unmatched or matched documents are duplicated to the root |
| Partitioning.ContextPlacementSound | src/server/utils/postBuildFactory.ts:94-104 | a document found under a context key matched that context |
| Partitioning.ContextPlacementComplete | src/server/utils/postBuildFactory.ts:94-104 | a document that matched a context is found under that context's key |
| Partitioning.DocumentPlacement | src/server/utils/postBuildFactory.ts:82-110 | both placement facts together, for every key |
| Partitioning.ExactlyOnePartition | src/server/utils/postBuildFactory.ts:82-110 | with both flags false every document is in exactly one partition |
| Partitioning.HiddenUnmatched | src/server/utils/postBuildFactory.ts:82-110 | with the search bar hidden an unmatched document is in no partition |
| Partitioning.ContextDocsByType | src/server/utils/postBuildFactory.ts:100-119 | a context's lists are, in type order, the lists of the types that gave it a document, each exactly that type's selection; empty types leave no list |
| Partitioning.ContextKeysGrow | src/server/utils/postBuildFactory.ts:95-99 | scanning more lists only appends keys, so a key's position is fixed by the documents scanned first |
| Partitioning.PlaceList | src/server/utils/postBuildFactory.ts:87-112 | one pass of the inner loop extends the root array by that type's root list, puts that type's context lists in slot `docIndex`, and inserts newly matched contexts in order |
| Partitioning.PlaceDocuments | src/server/utils/postBuildFactory.ts:81-113 | the root array holds every type's root list; the map's keys are the contexts in first-match order; each context's slot for a type is that type's selection or a hole when empty |
| Partitioning.CompactRoot | src/server/utils/postBuildFactory.ts:87-119 | the compaction pass leaves the root array as it is |
| Partitioning.CompactContext | src/server/utils/postBuildFactory.ts:114-119 | the compaction pass turns a context's sparse array into its non-empty lists |
| Partitioning.CompactContexts | src/server/utils/postBuildFactory.ts:114-119 | the compaction pass turns every context's sparse array, in key order, into that context's non-empty lists |
| Partitioning.Partition | src/server/utils/postBuildFactory.ts:73-122 | the map the method builds, after compaction and in insertion order, is `Partitions` |
| IndexFiles.DirSuffix | src/server/utils/postBuildFactory.ts:134 | the partition suffix; characterised by `IndexFiles.DirSuffixEmpty`, `IndexFiles.DirSuffixNoSlash`, `IndexFiles.DirSuffixRoundTrip` and `IndexFiles.DirSuffixCollision` |
| IndexFiles.DirSuffixEmpty | src/server/utils/postBuildFactory.ts:134 | the suffix is empty exactly for the root key |
| IndexFiles.DirSuffixNoSlash | src/server/utils/postBuildFactory.ts:134 | the suffix never contains `/` |
| IndexFiles.DirSuffixRoundTrip | src/server/utils/postBuildFactory.ts:134 | for a non-empty key without `-` the suffix is `-` followed by a text from which the key is recovered by turning `-` back into `/` |
| IndexFiles.DirSuffixCollision | src/server/utils/postBuildFactory.ts:134 | the distinct keys `a/b` and `a-b` get the same suffix, so their indexes share a file name |
| IndexFiles.IndexFilename | src/server/utils/postBuildFactory.ts:132-135 | a template without `{dir}` is used unchanged; `IndexFiles.IndexFilenameParts` with `IndexFiles.PlaceholderSplit` gives the name for every template that has one |
| IndexFiles.PlaceholderAfter | src/server/utils/postBuildFactory.ts:132-133 | in `pre{dir}post` the placeholder found is the one after `pre` exactly when no placeholder starts inside `pre` |
| IndexFiles.NoBraceFirstPlaceholder | src/server/utils/postBuildFactory.ts:132-133 | a `pre` without `{` holds no placeholder start |
| IndexFiles.IndexFilenameParts | src/server/utils/postBuildFactory.ts:132-135 | for a template `pre{dir}post` whose first placeholder is the one after `pre`, the name is `pre`, the suffix, then `post` untouched, so a later `{dir}` stays |
| IndexFiles.PlaceholderSplit | src/server/utils/postBuildFactory.ts:132-133 | every template with a placeholder is such a `pre{dir}post` |
| IndexFiles.Substitute | src/server/utils/postBuildFactory.ts:132-135 | a replacement string as `String.prototype.replace` expands it; characterised by `IndexFiles.SubstituteLiteral` and `IndexFiles.SubstituteAmpersandLast` |
| IndexFiles.SubstituteLiteral | src/server/utils/postBuildFactory.ts:132-135 | a replacement text without `$` is inserted literally |
| IndexFiles.SubstituteAmpersandLast | src/server/utils/postBuildFactory.ts:132-135 | in a replacement text without `$` other than a final `$&`, the `$&` expands to the matched placeholder |
| IndexFiles.AsWrittenAgrees | src/server/utils/postBuildFactory.ts:132-135 | for a key without `$` the name the code computes is the intended one |
| IndexFiles.DollarKeySuffix | src/server/utils/postBuildFactory.ts:134 | the key `docs$&` has the suffix `-docs$&` |
| IndexFiles.AsWrittenDollarKey | src/server/utils/postBuildFactory.ts:132-135 | for the key `docs$&` the code's name re-inserts `{dir}` and differs from the intended name |
| PostBuild.World.Call | src/server/utils/postBuildFactory.ts:61 | each awaited call is recorded, and it throws exactly when its position is a failing one |
| PostBuild.Run | src/server/utils/postBuildFactory.ts:34-142 | the calls made are a prefix of the planned ones, never empty when a call is planned, and stop early only at a failing call |
| PostBuild.RunAll | src/server/utils/postBuildFactory.ts:34-142 | when no call fails, every planned call is made |
| PostBuild.RunFirstFailure | src/server/utils/postBuildFactory.ts:34-142 | when call `n` is the first to fail, the calls made are exactly the first `n + 1` |
| PostBuild.RunStops | src/server/utils/postBuildFactory.ts:34-142 | nothing after a failing call is made |
| PostBuild.Expected | src/server/utils/postBuildFactory.ts:34-142 | the planned calls: the clear, every version's ingests, every version's index writes; characterised by `PostBuild.ExpectedParts` and `PostBuild.ExpectedOrder` |
| PostBuild.VersionIngests | src/server/utils/postBuildFactory.ts:45-62 | a version makes one ingest call per content document |
| PostBuild.PlanWrites | src/server/utils/postBuildFactory.ts:124-142 | a version makes one index write per partition |
| PostBuild.ConcatAt | src/server/utils/postBuildFactory.ts:36-142 | call `k` of a version's calls sits right after the calls of all earlier versions |
| PostBuild.ConcatIndex | src/server/utils/postBuildFactory.ts:36-142 | every call of a phase belongs to the calls of one version |
| PostBuild.IngestStep | src/server/utils/postBuildFactory.ts:36-63 | each version appends its ingest calls |
| PostBuild.IngestAt | src/server/utils/postBuildFactory.ts:36-61 | the ingest for content document `k` of version `v` sits after all earlier versions' and documents' ingests and carries that document's record |
| PostBuild.WriteStep | src/server/utils/postBuildFactory.ts:67-142 | each version appends its index writes |
| PostBuild.WriteAt | src/server/utils/postBuildFactory.ts:67-142 | the writes of version `v` sit after those of earlier versions, in partition order |
| PostBuild.IngestKinds | src/server/utils/postBuildFactory.ts:36-63 | the ingestion phase makes only ingest calls |
| PostBuild.WriteKinds | src/server/utils/postBuildFactory.ts:67-142 | the writing phase makes only index writes |
| PostBuild.IngestCount | src/server/utils/postBuildFactory.ts:45-62 | there is one ingest call per content document over all versions |
| PostBuild.ExpectedParts | src/server/utils/postBuildFactory.ts:34-142 | the planned calls are the clear, then one ingest per content document, then only index writes |
| PostBuild.ExpectedOrder | src/server/utils/postBuildFactory.ts:34-63 | the vector space is cleared exactly once, first, and every index write comes after every ingest |
| PostBuild.ClearFailureStops | src/server/utils/postBuildFactory.ts:34 | a failing clear ends the step with the clear as the only call |
| PostBuild.IngestFailureNoWrites | src/server/utils/postBuildFactory.ts:34-142 | a failure while clearing or ingesting means no index file is written |
| PostBuild.NoContextsSingleIndex | src/server/utils/postBuildFactory.ts:120-139 | without contexts a version gets one index, under the template with `{dir}` removed, holding its three scanned lists |
| PostBuild.Step | src/server/utils/postBuildFactory.ts:129-139 | making the next planned call either extends the successful prefix or ends the run at that call |
| PostBuild.IngestVersion | src/server/utils/postBuildFactory.ts:45-62 | the inner loop makes one ingest per content document, carrying that document's record, or stops at the first failing one |
| PostBuild.IngestsPlaced | src/server/utils/postBuildFactory.ts:36-62 | the ingests of version `v` follow the clear and the earlier versions' ingests, one per content document in scan order |
| PostBuild.IngestVersions | src/server/utils/postBuildFactory.ts:36-63 | the ingestion loops make the ingest calls in version then document order, or stop at the first failing one |
| PostBuild.WriteVersion | src/server/utils/postBuildFactory.ts:124-142 | the inner loop writes one index per partition, under the partition's file name, or stops at the first failing one |
| PostBuild.WritesPlaced | src/server/utils/postBuildFactory.ts:67-142 | the index writes of version `v` follow the earlier versions' writes, one per partition in map order |
| PostBuild.WriteVersions | src/server/utils/postBuildFactory.ts:67-142 | the writing loops partition each version and make its index writes in partition order, or stop at the first failing one |
| PostBuild.PostBuild | src/server/utils/postBuildFactory.ts:24-144 | the calls made are the planned calls up to and including the first failing one, and the step completes exactly when none fails |
| SearchFilters.Truthy | src/client/theme/SearchBar/index.tsx:21 | `filter((e) => e)` keeps no more strings than parts, never an empty one, and a non-empty text exactly when it is present |
| SearchFilters.TruthyAppend | src/client/theme/SearchBar/index.tsx:21 | filtering a concatenation filters each half, so order and repetitions are kept |
| SearchFilters.TruthyOne | src/client/theme/SearchBar/index.tsx:21 | a single part is kept exactly when it is present and non-empty |
| SearchFilters.ContextualFilters | src/client/theme/SearchBar/index.tsx:12-22 | `useTypesenseContextualFilters` for a locale and tags; its value is given by `SearchFilters.FiltersNoTags` and `SearchFilters.FiltersWithTags` |
| SearchFilters.TruthyClauses | src/client/theme/SearchBar/index.tsx:14-21 | the language clause always survives the filter, first, followed by the tag clause when there are tags |
| SearchFilters.FiltersNoTags | src/client/theme/SearchBar/index.tsx:16-21 | with no tags the result is exactly `language:=` and the locale |
| SearchFilters.FiltersWithTags | src/client/theme/SearchBar/index.tsx:17-21 | with tags the result is the language clause, ` && `, and `docusaurus_tag:=[` with the tags joined by `,` and `]` |
| SearchFilters.FiltersStartWithLanguage | src/client/theme/SearchBar/index.tsx:14-21 | the result always starts with `language:=` and the locale |
| SearchFilters.FiltersTagOrder | src/client/theme/SearchBar/index.tsx:18-21 | the bracketed text splits at its commas back into the tags, in input order, when no tag holds a comma |

## Left out

- `src/client/utils/vectoApiUtils.ts` is not part of this model. The SDK client, the text blob and the JSON-encoded attributes are reduced to a `ClearVectorSpace` or `Ingest` event that may fail.
- `scanDocuments`, `processDocInfos`, `buildIndex`, `debugInfo`, `path.join`, the file write and `dotenv` are external.
  - The scanned lists of each version are inputs.
  - The scanner is assumed to return the same lists both times it is called for a version (lines 38 and 69).
  - `buildIndex` is uninterpreted: a `WriteIndex` event carries the output directory, the file name and the document lists handed to `buildIndex`.
  - The JSON text of the index is not modelled.
- The user token read from the environment is a string input. Its absence (`undefined` in the source) is not modelled.
- JavaScript's `undefined` and a missing property are both `None`. `null` is `Nullable.Null`.
- Map values are held by reference in the source: the root entry is the same array the loop fills. The model builds values, so aliasing is not captured. The result is the same because the array is complete before the map is read.
- `await`: the calls are sequential events in one trace. There is no concurrency.
- The React components (`DocSearch`, `SearchBar`), the search page and the search modal are left out: they are UI code without logic worth proving here.
- `useContextualSearchFilters` is a framework hook. Its locale and tags are the inputs of `SearchFilters.ContextualFilters`.
- PostBuild.PlanWrites: the planned writes name their files with the corrected `IndexFiles.IndexFilename`, not with the name line 132 computes. For a context key holding `$$`, `$&`, `` $` `` or `$'` the file name in the trace differs from the code's (see Findings); `IndexFiles.AsWrittenAgrees` proves the two agree for every key without `$`.
- PostBuild.World.Call: which calls fail is fixed in advance by the `failing` set of trace positions. The source's failures depend on the remote service and the file system.

## Findings

| source | as written | input that shows it | evidently intended | confidence | as-written member | corrected member |
|---|---|---|---|---|---|---|
| src/server/utils/postBuildFactory.ts:132-135 | the suffix is passed to `String.prototype.replace` as a replacement string, so `$$`, `$&`, `$'` and a `$` followed by a backquote in a context key are expanded as substitution patterns | template `search-index{dir}.json` with context `docs$&` gives `search-index-docs{dir}.json` | the key inserted literally: `search-index-docs$&.json` | low; not executed | IndexFiles.AsWrittenDollarKey | IndexFiles.IndexFilenameParts |

The post-build model (`PostBuild.PlanWrites`) uses the corrected `IndexFiles.IndexFilename`. `IndexFiles.AsWrittenAgrees` proves the two names are equal for every key without `$`.
