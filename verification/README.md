# sprite-generator, modelled in Dafny

The sprite generator is a build-time script. It reads every icon file of each
configured input group (a directory of SVG files). For each file, two
plug-in functions choose the sprite files and enum targets the file goes to;
a file for which either list is empty is skipped without being read. For
every sprite target, a `<symbol id="…" …>…</symbol>` fragment is appended to
that file's buffer (`spriteChunks`). For every enum target, a member line
`<indent><EnumName> = "<spriteName>",\n` is appended to a two-level buffer
(`enumChunks[path][name]`). At the end, each sprite file is written as root
tag + buffer + `</svg>`. Each enum file is written as one `export enum` block
per group, with the trailing separators trimmed. The options are the built-in
defaults deep-merged (`mergeDeep`) with the project's `config.js`.

The model has seven modules:

- `Wrappers`: `Option`.
- `Text`: the JavaScript string operations used, over `seq<char>`: `split`/`join` with a one-character separator, `indexOf`/`includes`, `replace` with a string pattern, `slice(0, -n)`, `repeat` and ASCII `toUpperCase`.
- `Ordered`: a JavaScript object as a map whose keys keep insertion order.
- `Util`: `util/util.ts`. It holds `isObject`; `mergeDeep` over a small JavaScript value type; the early-exit loops `forArr`, `forArrAsync`, `forObj` (which also stands for `forObjAsync`), `forMap` and `forRange`, each a method with loop invariants; `coalesceArr` and `coalesceObj` as methods proved equal to a left fold plus a final step; `clamp` with `snapPoint` 0; `clampAny`; and `generateRange`.
- `Generate`: `src/generate.ts`. It holds the default plug-ins and the builders of the symbol fragment, the member line and the file texts. The two buffers are the fields of the class `Generator`, whose methods process one directory entry and emit the files. Each method is proved equal to a value-level specification: `FileOutcome`, `Apply`, `RunEntries`, `RunInputs`, `Writes` and `Generated`. The method `Run` drives the whole pipeline.
- `GenerateProperties`: what the pipeline guarantees. This covers:
  - the skip rule;
  - abort conditions, including all-or-nothing behaviour;
  - the contents of each sprite and enum buffer after any sequence of appends;
  - the shape of the enum and sprite files and of the created directory;
  - the default enum name.
- `ProjectConfig`: the repository's `config.js`. It covers:
  - its plug-ins;
  - the `mergeDeep` of the defaults with it;
  - end-to-end facts, such as "a file is processed exactly when its base name contains `outline`" and "a run writes nothing, or exactly `dist/icons.svg` and `dist/Icons.ts`".

Plug-ins are function-valued fields of the datatype `Config`. A plug-in that
can throw returns `Call<T>` (`Returned(v)` or `Threw`). The file system is a
value: a listing per directory and the text of each file. The result of a run
is the sequence of writes it performs, or `None` when the run aborts.

Behaviours of the code that are easy to miss:

- The sprite loop never sets `state.output` (src/generate.ts:94-114). Only the enum loop sets it (src/generate.ts:118). So `getSpriteName` sees the enum target only while member lines are built.
- `spriteChunks` starts as `{}` and is appended to with `+=`. The first fragment written to a path is therefore stored after the text `undefined`, and the written sprite file contains that text. Enum buffers are initialised to `""` first.
- The member line is indented by `indentSize` spaces (3 by default).
- The default extractors throw when their pattern has no match, because `.join()` is called on `null`. This aborts the run. A missing id, by contrast, is a soft failure: `getSvgId` yields `undefined`, and the text `undefined` is written.
- The default `getEnumOutputs` returns `[input]`, a string. Destructuring `{ path, name }` from it gives `undefined` for both, so such lines are filed under path `undefined` and group `undefined`.

## Model

| member | source | states |
|---|---|---|
| `Text.Split` | src/generate.ts:79 | `split` yields one piece exactly when the separator does not occur |
| `Text.SplitPieces` | src/generate.ts:79 | no piece of a split contains the separator |
| `Text.JoinSplit` | src/generate.ts:131 | joining the pieces of `split(c)` with `c` gives back the string |
| `Text.FirstPiece` | src/generate.ts:79 | `split(c)[0]` is the longest prefix without `c`, followed by `c` when shorter than the string |
| `Text.IndexOf` | config.js:6 | `indexOf` finds an occurrence with none before it, or reports none anywhere |
| `Text.ContainsChar` | src/generate.ts:130 | `includes` of a one-character pattern is membership of that character |
| `Text.ReplaceFirst` | config.js:15 | `replace` with a string pattern rewrites only the first occurrence, and leaves a string without one unchanged |
| `Text.DropLast` | src/generate.ts:111 | `slice(0, -n)` is a prefix, `n` shorter, or empty when the string is shorter than `n` |
| `Text.Repeat` | src/generate.ts:123 | `" ".repeat(n)` has length `n` and only that character |
| `Text.Upper` | src/generate.ts:54 | `toUpperCase` keeps the length and upper-cases each letter |
| `Ordered.OrderedMap.Put` | src/generate.ts:113 | assigning to a key keeps its position, or appends a new key, and keeps the keys distinct |
| `Ordered.OrderedMap.Get` | src/generate.ts:121 | reading a key yields its value, or `undefined` when absent |
| `Ordered.PutTwice` | src/generate.ts:121-123 | assigning a key twice leaves only the second value, at the key's first position |
| `Util.IsObject` | util/util.ts:1-3 | a value is a record exactly when it is truthy, of type `object` and not an array |
| `Util.MergeDeep` | util/util.ts:5-23 | with no sources the target is returned as it is; a non-record target is never changed; a record stays a record |
| `Util.MergeInto` | util/util.ts:9-20 | merging leaves the target alone unless both are records |
| `Util.MergeIntoAt` | util/util.ts:10-19 | per key: an absent source key keeps the target value; a non-record source value replaces it; a record source value is merged into the target value, or into a fresh `{}` when that is falsy, and a truthy non-record target value is kept |
| `Util.MergeIntoKeys` | util/util.ts:10-19 | the merged record keeps the target's keys in place and appends the source's new keys in source order |
| `Util.MergeFieldsAt` | util/util.ts:10-19 | after the key loop has passed position `i`, each key holds its merged or its original value |
| `Util.FirstTruthy` | util/util.ts:29-31 | the first truthy result, with none before it, or none at all |
| `Util.ForArr` | util/util.ts:25-34 | with `breakOnReturn` the loop stops at and returns the first truthy result, having called the callback on exactly the items up to it; otherwise it calls it on every item and returns the last result |
| `Util.ForArrAsync` | util/util.ts:36-43 | as `forArr`, but it returns nothing when no result breaks the loop |
| `Util.ForObj` | util/util.ts:57-68 | as `forArr` over the object's values in key order; `forObjAsync` (util/util.ts:70-81) is the same loop |
| `Util.ForMap` | util/util.ts:45-55 | as `forObj` over a `Map`, returning nothing when no result breaks the loop |
| `Util.Range` | util/util.ts:84 | `from..to` inclusive, ascending, empty when `from > to` |
| `Util.ForRange` | util/util.ts:83-90 | visits `from..to` in order, stopping after the first truthy result when `breakOnReturn` |
| `Util.CoalesceArr` | util/util.ts:92-98 | the result is `then` applied to the left fold of `onLoop` over the items from `initial` |
| `Util.CoalesceObj` | util/util.ts:100-108 | the result is `then` applied to the left fold of `onLoop` over the values in key order from `initial` |
| `Util.Clamp` | util/util.ts:110-112 | below `min` gives `min`, above `max` gives `max`, otherwise `v`; within `[min, max]` when `min <= max` |
| `Util.ClampIdempotent` | util/util.ts:110-112 | clamping twice is clamping once |
| `Util.ClampAny` | util/util.ts:114-117 | `null` stays `null`; the result is `v` or a bound; a value within the truthy bounds is kept; each truthy bound is enforced when the bounds are ordered; falsy bounds (0, null) count as absent: with one bound falsy the result is `v` or the other bound |
| `Util.ClampAnyZeroBound` | util/util.ts:116 | `clampAny(-5, 0, 10)` is `-5`, because a zero bound is ignored |
| `Util.GenerateRange` | util/util.ts:123-129 | `from, from+k, …`, each `<= to`, with the next step past `to`; empty when `from > to` |
| `Generate.FirstIdMatch` | src/generate.ts:47-49 | the default id is the maximal run of id characters (ASCII letters, digits, underscore, vertical bar, dash) after the first `id="` that is followed by one, or `undefined` when there is none |
| `Generate.DefaultEnumName` | src/generate.ts:53-55 | the default enum name throws exactly when the base name has an empty `-` segment |
| `Generate.PascalName` | src/generate.ts:54 | splitting on `-` and capitalising each segment throws exactly when a segment is empty |
| `Generate.DefaultConfig` | src/generate.ts:40-71 | the defaults include the viewBox, exclude the dimensions and indent by 3; the built-in options have no `input` key, for which an empty table stands |
| `Generate.PresentAttrs` | src/generate.ts:108-110 | only non-empty viewBox, first and second dimension pieces are written, one each, in that order: the viewBox first, the first dimension next, the second dimension last |
| `Generate.BuildSymbol` | src/generate.ts:106-111 | the `let sprite` / `+=` / `slice(0, -1)` steps build `<symbol id="N"`, one space before each present attribute, then `>` data `</symbol>`, with no space before `>` |
| `Generate.SymbolFor` | src/generate.ts:95-111 | one turn of the sprite loop yields the symbol fragment, or throws when an enabled extractor throws; the two dimension pieces are `Dim1` and `Dim2`, the first and second pieces of the dimensions split at a space (src/generate.ts:103-104) |
| `Generate.EnumLine` | src/generate.ts:123 | a member line is `indentSize` spaces, the enum name, ` = "`, the sprite name and `",` plus a newline |
| `Generate.EnumLineFor` | src/generate.ts:117-120 | one turn of the enum loop sets `output`, then derives the sprite name and the enum name |
| `Generate.Lines` | src/generate.ts:116-124 | one member line per enum target, in order |
| `Generate.AppendSprite` | src/generate.ts:113 | appending keeps every sprite buffer starting with `undefined` |
| `Generate.AppendSprites` | src/generate.ts:94-114 | the sprite loop keeps that invariant |
| `Generate.AppendEnum` | src/generate.ts:121-123 | appending a member line keeps every enum group non-empty and every buffer ending in `,` plus a newline |
| `Generate.AppendEnums` | src/generate.ts:116-124 | the enum loop keeps that invariant |
| `Generate.ResetThenAppend` | src/generate.ts:122-123 | resetting a missing or empty buffer to `""` and appending is appending to the buffer, or to `""` |
| `Generate.BaseName` | src/generate.ts:79 | the base name is the entry's text before its first `.`, or the whole entry when it has none |
| `Generate.FileOutcome` | src/generate.ts:79-92 | what an entry contributes is made of member lines only |
| `Generate.IconOutcome` | src/generate.ts:94-124 | the same for a read icon |
| `Generate.Apply` | src/generate.ts:94-124 | applying an entry's outcome keeps both buffers valid |
| `Generate.RunEntries` | src/generate.ts:78-125 | processing a directory keeps both buffers valid |
| `Generate.RunInputs` | src/generate.ts:76-126 | processing the input groups keeps both buffers valid |
| `Generate.Generator.constructor` | src/generate.ts:73-74 | both records start empty |
| `Generate.Generator.AddEnumLine` | src/generate.ts:117-123 | the in-place enum step: create the path's record, reset a missing or empty buffer, append the line |
| `Generate.Generator.AddSprite` | src/generate.ts:94-113 | one turn of the sprite loop appends the symbol to its target, which reads as `undefined` when new, or fails and changes nothing when an extractor throws |
| `Generate.Generator.AddSprites` | src/generate.ts:94-114 | the in-place sprite loop appends the fragment to every target, or fails when the fragment throws |
| `Generate.Generator.AddEnumLines` | src/generate.ts:116-124 | the in-place enum loop appends every member line, or fails when a name throws |
| `Generate.Generator.ProcessFile` | src/generate.ts:79-124 | one entry changes the buffers exactly as its outcome says, and fails exactly when it aborts |
| `Generate.Generator.SpriteFiles` | src/generate.ts:128-134 | one write per sprite path, in key order |
| `Generate.Generator.EnumFiles` | src/generate.ts:136-144 | one write per enum path, in key order |
| `Generate.Generator.Emit` | src/generate.ts:128-144 | the sprite writes, then the enum writes |
| `Generate.EnumFileText` | src/generate.ts:137-139 | `coalesceObj` over the groups with `slice(0, -1)` at the end gives the enum file text |
| `Generate.Run` | src/generate.ts:76-144 | the whole script performs exactly the writes of `Generated`, or aborts |
| `GenerateProperties.SkipRule` | src/generate.ts:84-86 | an entry is skipped exactly when either target list is empty; a skip reads no file and changes no buffer |
| `GenerateProperties.DefaultsSkipNothing` | src/generate.ts:41-46 | with the default target plug-ins nothing is skipped: one sprite file per input group, and the one `undefined` enum target |
| `GenerateProperties.MissingFileAborts` | src/generate.ts:88 | an entry that is not skipped and cannot be read aborts the run |
| `GenerateProperties.RunEntriesAborts` | src/generate.ts:78-125 | a directory aborts exactly when one of its entries aborts |
| `GenerateProperties.RunInputsAborts` | src/generate.ts:76-126 | the loop aborts exactly when one input group's directory is missing or one of its entries aborts |
| `GenerateProperties.AllOrNothing` | src/generate.ts:76-144 | a run aborts, so none of its writes happen, exactly when some group's directory is missing or one of its entries aborts, since every write comes after the loop; a run that does not abort may still write nothing (see NothingWritten) |
| `GenerateProperties.RunEntriesSkipped` | src/generate.ts:86 | a directory whose entries are all skipped leaves the buffers as they were |
| `GenerateProperties.RunInputsSkipped` | src/generate.ts:76-126 | the same for every input group |
| `GenerateProperties.NothingWritten` | src/generate.ts:128-144 | when no file qualifies, no sprite or enum file is written |
| `GenerateProperties.SpriteBuffers` | src/generate.ts:94-114 | after the sprite loop, existing paths keep their position and new ones are appended; each path holds its old buffer, or `undefined`, followed by one copy of the fragment per occurrence among the targets; other paths are unchanged |
| `GenerateProperties.SpritesInOrder` | src/generate.ts:113 | two files sent to a new path give `undefined`, then the first fragment, then the second |
| `GenerateProperties.EnumBufferStep` | src/generate.ts:121-123 | one member line extends exactly its own `(path, name)` buffer, starting from `""` |
| `GenerateProperties.EnumBuffers` | src/generate.ts:116-124 | after the enum loop, each `(path, name)` buffer is its old value (or `""`) followed by its own lines in order; untouched buffers are unchanged |
| `GenerateProperties.BlockMembers` | src/generate.ts:138 | `slice(0, -2)` removes exactly the last `,` and newline of a buffer |
| `GenerateProperties.EnumFileShape` | src/generate.ts:137-139 | the enum file is the `export enum G {` blocks in key order without the final newline, and ends in `}` plus a newline |
| `GenerateProperties.FoldIsBlocks` | src/generate.ts:137-138 | the fold over the groups is the concatenation of their blocks |
| `GenerateProperties.ParentDirNone` | src/generate.ts:130 | a directory is created exactly when the path contains `/` |
| `GenerateProperties.ParentDirJoin` | src/generate.ts:131 | the created directory, `/` and the last path piece give back the path |
| `GenerateProperties.SpriteFileShape` | src/generate.ts:128-134 | the `k`-th write of a run goes to the `k`-th sprite path, in its parent directory, and its text is the root tag, the buffer (which starts with `undefined`) and `</svg>` |
| `GenerateProperties.SpriteWriteAt` | src/generate.ts:128-134 | the sprite files are written one per path, in key order |
| `GenerateProperties.EnumNameLetters` | src/generate.ts:54 | a default enum name has no `-` and, up to case, is the base name without its dashes |
| `GenerateProperties.EnumNameTwoWords` | src/generate.ts:54 | `first-second` becomes `First` + `Second`, as `arrow-left` becomes `ArrowLeft` |
| `GenerateProperties.PascalCons` | src/generate.ts:54 | a leading non-empty, dash-free segment is capitalised in front of the name of the rest |
| `GenerateProperties.EnumNameSegments` | src/generate.ts:54 | any number of non-empty, dash-free segments joined by `-` become the concatenation of the capitalised segments, as `arrow-left-bold` becomes `ArrowLeftBold` |
| `GenerateProperties.EnumNameDoubledDash` | src/generate.ts:54 | a doubled dash anywhere in the name, whatever dashes come before it, leaves an empty piece, so the default enum name throws |
| `GenerateProperties.EnumNameTrailingDash` | src/generate.ts:54 | a trailing dash, whatever dashes come before it, leaves an empty last piece, so the default enum name throws |
| `ProjectConfig.SvgId` | config.js:14-16 | the project's id is `undefined` exactly when the file has no id, and otherwise a run of id characters |
| `ProjectConfig.SvgIdRemovesFirst` | config.js:15 | only the first `mdi-` of the id is removed, wherever it stands |
| `ProjectConfig.SvgIdStripsPrefix` | config.js:15 | `mdi-account` becomes `account` |
| `ProjectConfig.SvgIdKept` | config.js:15 | an id without `mdi-` is kept |
| `ProjectConfig.Resolved` | config.js:1-20 | the resolved options: input `{ MDI: "svg" }`, viewBox on, dimensions off, indent 3, and every other plug-in from the defaults |
| `ProjectConfig.OptionsMerged` | src/generate.ts:40-71 | `mergeDeep(defaults, config)` keeps the default keys in place and appends `input`; configured keys take the configured value and the rest keep their defaults |
| `ProjectConfig.InputMerged` | util/util.ts:11-15 | `input` has no default, so the input table is copied into a fresh `{}` |
| `ProjectConfig.ConfiguredMerged` | util/util.ts:16-18 | a configured plug-in or scalar replaces the default |
| `ProjectConfig.OutlineOnly` | config.js:5-13 | under the configured `SpriteOutputs` and `EnumOutputs` plug-ins, a file is skipped exactly when its base name lacks `outline`; a processed file goes to `dist/icons.svg` and to the enum `MDISprites` of `dist/Icons.ts` |
| `ProjectConfig.RunInputsShaped` | config.js:5-13 | the buffers hold nothing, or exactly the sprite buffer `dist/icons.svg` and the enum file `dist/Icons.ts` with the one group `MDISprites` |
| `ProjectConfig.ProjectWrites` | src/generate.ts:128-144 | a run with the project's options writes nothing, or `dist/icons.svg` and then `dist/Icons.ts` |
| `ProjectConfig.ProjectNeedsSvg` | config.js:2-4 | without the directory `svg` the run aborts |

## Left out

- File-system and process plumbing (`readdir`, `readFile`, `mkdir`, `writeFile`, top-level `await`, the elapsed-time log): the file system is a value, and the writes are returned in order. A failing `mkdir` or `writeFile`, and the files already written before such a failure, are not modelled.
- Reading a directory entry that is itself a directory is modelled like a missing file: the run aborts.
- The regular-expression extractors `extractData`, `extractViewBox` and `extractDimensions` are opaque parameters that may throw. The default `getSvgId` is modelled by `Generate.FirstIdMatch`, with `\w` read as ASCII letters, digits and `_`.
- Promise semantics of `forArrAsync` and `forObjAsync`: only their sequential order is kept.
- `snapAll` and `clamp` with a non-zero `snapPoint` need floating point; numbers are integers elsewhere.
- `clampAny` is modelled on numbers only, not on strings.
- Util.GenerateRange: requires a positive step. With a zero or negative step the source loops forever or never starts.
- `toUpperCase` is ASCII-only. `Object.keys` is taken to follow insertion order, which excludes integer-like keys.
- `mergeDeep` is modelled on values. That it updates the target in place, and returns the same object, is not captured. Nor are inherited keys seen by `for…in`.
- A plug-in that throws aborts the whole run; what the process does after an uncaught error is not modelled beyond "no writes".
- The concrete example `arrow-left-bold` is covered by EnumNameSegments, stated for any list of segments, rather than by a computation on that literal.
