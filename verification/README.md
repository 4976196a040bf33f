# Script virtual documents of the Vue language service, in Dafny

This project models how the Vue language service turns the `<script>` and
`<script setup>` blocks of a `.vue` file into TypeScript documents, and
how it keeps track of where each piece of those documents came from.

- **Source maps** (`source_maps.dfy`). A `SourceMap` is an ordered
  collection of mappings between ranges of a source document and a target
  document. `maps2` translates an offset range through every mapping that
  accepts it, in insertion order, and can stop at the first answer. Each
  mapping resolves a query in one of three modes:
  - `Gate`: an exact match yields the whole other range;
  - `Offset`: containment, with the query's offsets carried over;
  - `In`: containment, yielding the whole other range.

  `TsSourceMap` adds the per-mapping capability data (`TsMappingData`)
  and the document-level flags.
- **Blanking** (`blanking.dfy`). `replaceStringToEmpty` turns a span into
  `/* ... */` or spaces without changing the length of the text. The
  "new lines only" copy of a block keeps its line breaks and makes every
  other character a space.
- **The script-setup generator** (`script_setup_gen.dfy`).
  `genScriptSetup` is a `Generator` class whose fields are the closure
  state of the original function: the working copy of the block, the
  generated code, the mappings and the mirrors. `addCode`, `mapSubText`,
  `writeText` and `writeCenter` are its methods.
  - Two ghost fields record the text each mapping and mirror stands for.
  - The class invariant is `Valid`. It says that every recorded range
    holds its recorded text. It also says that every full-capability
    mapping copies the block verbatim outside its import statements.
  - The import section of the result is characterised exactly.
- **The `ref:` sugar rewrite** for completions (`suggestion.dfy`). `$`
  signs become spaces, `ref:` becomes `let`, and the parentheses around a
  labelled assignment become spaces. The rewrite is a loop proved equal to
  a reference function. Every character of the result is either the
  original one or a space or a letter of `let`.
- **The virtual documents** (`doc_gen.dfy`). `scriptForSuggestion` and
  `docGen` assemble the documents. They return every range they record,
  and each range provably holds the text it claims to hold.
- **The source maps of the documents** (`script_source_map.dfy`,
  `derived_source_maps.dfy`):
  - the main map;
  - the suggestion map;
  - the shadow `.ts` map of a JavaScript script;
  - the mirrors map.

  Each map is built by a method whose result is a function of its inputs.
  Lemmas show what each entry promises about the `.vue` text and the
  document, for example that a full-capability entry maps text to
  identical text.
- **The three tree walkers** (`walkers.dfy`) that collect `ref:` label
  variables, binding names and labelled binary expressions. They are
  classes with a recursive `worker` method, proved equal to recursive
  functions. Lemmas show that what they collect lies inside the walked
  node.

The analysis record that TypeScript's parser produces for a setup block
(`setup_data.dfy`) is an input of the model. `WellFormed` states what the
generator relies on: ranges inside the block, sorted and disjoint imports
and labels, and use sites of label variables inside the block with no two
overlapping. Collected references are
put in order by an insertion sort (`reference_order.dfy`), which is proved
to be an ordered permutation.

## Model

Paths are relative to the repository root.

| member | source | states |
|---|---|---|
| SourceMaps.Ordered | packages/vscode-vue-languageservice/src/utils/sourceMaps.ts:134-140 | the reported range holds the same two offsets as the mapping's range, put in ascending order |
| SourceMaps.GateIsExact | packages/vscode-vue-languageservice/src/utils/sourceMaps.ts:132-144 | a Gate mapping answers a query if and only if the query equals its from-range exactly, and the answer is its whole to-range, in order |
| SourceMaps.OffsetTranslates | packages/vscode-vue-languageservice/src/utils/sourceMaps.ts:145-157 | an Offset mapping answers if and only if its from-range contains the query; the answer moves both ends of the query by the distance between the mapping's ends |
| SourceMaps.InIgnoresPosition | packages/vscode-vue-languageservice/src/utils/sourceMaps.ts:158-170 | an In mapping answers every query its from-range contains, and gives the same range for all of them |
| SourceMaps.OffsetKeepsWidth | packages/vscode-vue-languageservice/src/utils/sourceMaps.ts:145-157 | through an Offset mapping whose two ranges have the same width, the answer has the width of the query |
| SourceMaps.HitsAreOrdered | packages/vscode-vue-languageservice/src/utils/sourceMaps.ts:129-172 | each mapping gives at most one answer; every answer comes from a mapping of the map, is that mapping's translation of the query, and is an ordered range |
| SourceMaps.FirstMatchIsEarliest | packages/vscode-vue-languageservice/src/utils/sourceMaps.ts:129-172 | the first answer comes from the earliest mapping, in insertion order, that accepts the query; there is none exactly when no mapping accepts it |
| SourceMaps.MatchesPrefix | packages/vscode-vue-languageservice/src/utils/sourceMaps.ts:129-171 | the answers of the first k mappings are a prefix of the answers of the whole map: adding mappings never drops or reorders earlier answers |
| SourceMaps.DirectionIsSwap | packages/vscode-vue-languageservice/src/utils/sourceMaps.ts:130-131 | querying target to source gives the answers of querying source to target on the map with every mapping's two ranges exchanged |
| SourceMaps.Resolve | packages/vscode-vue-languageservice/src/utils/sourceMaps.ts:130-170 | one iteration of the `maps2` loop resolves a mapping by the per-mode rule that the three lemmas above characterise |
| SourceMaps.SourceMap.constructor | packages/vscode-vue-languageservice/src/utils/sourceMaps.ts:24-30 | a new map holds no mapping |
| SourceMaps.SourceMap.Add | packages/vscode-vue-languageservice/src/utils/sourceMaps.ts:24 | the added mapping comes last in iteration order and nothing else changes |
| SourceMaps.SourceMap.Maps2 | packages/vscode-vue-languageservice/src/utils/sourceMaps.ts:124-173 | returns every answer in insertion order, or only the first one when asked to stop early |
| SourceMaps.SourceMap.SourceToTarget2 | packages/vscode-vue-languageservice/src/utils/sourceMaps.ts:49-52 | the first source-to-target answer, or none |
| SourceMaps.SourceMap.TargetToSource2 | packages/vscode-vue-languageservice/src/utils/sourceMaps.ts:41-44 | the first target-to-source answer, or none |
| SourceMaps.SourceMap.SourceToTargets2 | packages/vscode-vue-languageservice/src/utils/sourceMaps.ts:62-64 | all source-to-target answers in insertion order |
| SourceMaps.SourceMap.TargetToSources2 | packages/vscode-vue-languageservice/src/utils/sourceMaps.ts:56-58 | all target-to-source answers in insertion order |
| SourceMaps.SourceMap.IsSource | packages/vscode-vue-languageservice/src/utils/sourceMaps.ts:31-33 | true if and only if some mapping accepts the range as a source range |
| SourceMaps.SourceMap.IsTarget | packages/vscode-vue-languageservice/src/utils/sourceMaps.ts:34-36 | true if and only if some mapping accepts the range as a target range |
| SourceMaps.TsSourceMap.constructor | packages/vscode-vue-languageservice/src/utils/sourceMaps.ts:201-214 | a new TypeScript map: no mapping, with the given interpolation flag and document capabilities |
| Blanking.ReplaceStringToEmptyShape | packages/vscode-vue-languageservice/src/virtuals/script.ts:1408-1413 | blanking keeps the length and every character outside the span; a span of width 4 or more becomes `/*`, spaces, `*/`, a shorter one becomes spaces |
| Blanking.ReplaceStringToEmptyFill | packages/vscode-vue-languageservice/src/virtuals/script.ts:1408-1413 | on an in-bounds span the result is the text before the span, the fill for its width, then the text after it |
| Blanking.NewLinesOnlyShape | packages/vscode-vue-languageservice/src/virtuals/script.ts:514 | the "new lines only" copy has the block's length, keeps every line break and has a space everywhere else |
| Blanking.NewLinesOnlyStep | packages/vscode-vue-languageservice/src/virtuals/script.ts:514 | the copy of a text is spaces for its first line, the line break, then the copy of the rest |
| Suggestion.NormaliseForSuggestion | packages/vscode-vue-languageservice/src/virtuals/script.ts:57-75 | the loops compute the reference rewrite: dollars blanked, then every label renamed in order |
| Suggestion.BlankDollarsLoop | packages/vscode-vue-languageservice/src/virtuals/script.ts:58-60 | the dollar loop blanks each recorded `$` in turn |
| Suggestion.RenameLabelsLoop | packages/vscode-vue-languageservice/src/virtuals/script.ts:61-75 | the label loop applies the per-label rewrite to each label in order |
| Suggestion.RenameOne | packages/vscode-vue-languageservice/src/virtuals/script.ts:62-74 | one label: `ref:` becomes `let` with the next colon blanked, and then the parentheses are blanked |
| Suggestion.BlankParensOf | packages/vscode-vue-languageservice/src/virtuals/script.ts:63-73 | the opening parenthesis before the first assignment and the closing one after the last become spaces, each only when present |
| Suggestion.BlankDollarsShape | packages/vscode-vue-languageservice/src/virtuals/script.ts:58-60 | blanking dollars keeps the length, puts a space at exactly the recorded offsets and keeps every other character |
| Suggestion.ReplaceFirstColonShape | packages/vscode-vue-languageservice/src/virtuals/script.ts:62 | replacing the first colon keeps the length and changes at most colons, into spaces |
| Suggestion.BlankRangeShape | packages/vscode-vue-languageservice/src/virtuals/script.ts:66-72 | blanking a range keeps the length, puts spaces inside the range and keeps everything outside it |
| Suggestion.LetShape | packages/vscode-vue-languageservice/src/virtuals/script.ts:62 | renaming a label writes `let` over the three characters of `ref`, keeps the length, and changes nothing else except a colon into a space |
| Suggestion.RenameLabelShape | packages/vscode-vue-languageservice/src/virtuals/script.ts:62-74 | after one label's rewrite the label reads `let`, the text before the first assignment's left side and after the last assignment's end inside its parentheses are spaces, and every other character is kept or rewritten |
| Suggestion.BlankParensShape | packages/vscode-vue-languageservice/src/virtuals/script.ts:63-73 | blanking the parentheses leaves the label untouched and puts spaces exactly where the parentheses stood |
| Suggestion.RenameLabelsShape | packages/vscode-vue-languageservice/src/virtuals/script.ts:61-75 | rewriting all labels keeps the length and puts only spaces or letters of `let` where the text changes |
| Suggestion.NoDollarCodeShape | packages/vscode-vue-languageservice/src/virtuals/script.ts:57-75 | the whole normalisation keeps the block's length and changes characters only into spaces or letters of `let`, so every offset of the block is still valid |
| Suggestion.OnlyRewrittenTrans | packages/vscode-vue-languageservice/src/virtuals/script.ts:57-75 | two successive rewrites compose into one rewrite of the same kind |
| ScriptSetupGen.Generator.constructor | packages/vscode-vue-languageservice/src/virtuals/script.ts:501-514 | the generator starts with the header, no mapping or mirror, and the working copy equal to the block |
| ScriptSetupGen.Generator.AddCode | packages/vscode-vue-languageservice/src/virtuals/script.ts:977-993 | records a mapping whose generated range starts at the current end of the code and has the width of the text; appends the text only when writing; keeps the invariant when the mapping is sound |
| ScriptSetupGen.Generator.WriteText | packages/vscode-vue-languageservice/src/virtuals/script.ts:903-921 | appends the working copy's span with one full-capability Offset mapping over it, keeping the invariant (so the span copies the block outside its imports) |
| ScriptSetupGen.Generator.IsShorthand | packages/vscode-vue-languageservice/src/virtuals/script.ts:926-936 | true if and only if the use site is exactly one of the recorded shorthand properties |
| ScriptSetupGen.Generator.WriteCenter | packages/vscode-vue-languageservice/src/virtuals/script.ts:922-972 | a use site becomes `$name.value`, preceded by `name: ` at a shorthand; the recorded mappings are the shorthand name, an unwritten In mapping over `$name.value` and an Offset mapping over `$name`, all from the use site |
| ScriptSetupGen.Generator.WriteDollarValue | packages/vscode-vue-languageservice/src/virtuals/script.ts:953-972 | appends `$name.value` with the In mapping over all of it and the Offset mapping over `$name` |
| ScriptSetupGen.Generator.WriteShorthandName | packages/vscode-vue-languageservice/src/virtuals/script.ts:937-951 | appends `name: ` and maps the name to the use site |
| ScriptSetupGen.Generator.CollectInside | packages/vscode-vue-languageservice/src/virtuals/script.ts:873-892 | collects, in visiting order, every reference of a label variable that lies inside the window, tagged with the variable's name |
| ScriptSetupGen.VarUses | packages/vscode-vue-languageservice/src/virtuals/script.ts:880-890 | one variable's references inside the window, in order |
| ScriptSetupGen.VarsUses | packages/vscode-vue-languageservice/src/virtuals/script.ts:880-891 | the references inside the window of every variable of an assignment, in order |
| ScriptSetupGen.BinarysUses | packages/vscode-vue-languageservice/src/virtuals/script.ts:879-891 | the references inside the window of every variable of a label, in order |
| ReferenceOrder.SortIsOrderedPermutation | packages/vscode-vue-languageservice/src/virtuals/script.ts:893 | sorting the collected references by start gives a permutation of them ordered by start |
| ReferenceOrder.WindowIsChain | packages/vscode-vue-languageservice/src/virtuals/script.ts:893-901 | the sorted references inside a window follow one another without overlap inside the window, so the walk over them is well defined |
| ScriptSetupGen.Generator.MapSubText | packages/vscode-vue-languageservice/src/virtuals/script.ts:872-973 | appends the window of the working copy with every label-variable use replaced by its `$name.value` form, in source order; the mappings it adds are exactly `SubMappings` of the sorted use sites: each gap copied with one full-capability Offset mapping of the gap's width, each use with `writeCenter`'s mappings, then the last gap; all come from inside the window |
| ScriptSetupGen.Generator.WalkUses | packages/vscode-vue-languageservice/src/virtuals/script.ts:895-901 | the walk writes the text between uses and each use's replacement, and ends with the text after the last use; the mappings it adds are exactly `SubMappings`: per use the gap's full-capability Offset mapping of equal width, then the use's mappings, and finally the last gap's |
| ScriptSetupGen.Generator.WriteUse | packages/vscode-vue-languageservice/src/virtuals/script.ts:896-899 | one step of the walk: the text up to the use, then its replacement; the mappings added are exactly the gap's full-capability Offset mapping of equal width (`writeText`), then the use's shorthand, In and Offset mappings (`writeCenter`) |
| ScriptSetupGen.SubTextWithoutUses | packages/vscode-vue-languageservice/src/virtuals/script.ts:895-901 | a window without uses is copied unchanged, under one full-capability Offset mapping from the whole window to the copy, of the same width |
| ScriptSetupGen.Generator.EmitImportPair | packages/vscode-vue-languageservice/src/virtuals/script.ts:517-540 | the gap before an import is mapped as its "new lines only" copy with no capability, and the import itself as a full-capability verbatim copy, both at their block offsets after the header |
| ScriptSetupGen.Generator.BlankImport | packages/vscode-vue-languageservice/src/virtuals/script.ts:541 | the working copy gets the import's span blanked and nothing else changes |
| ScriptSetupGen.Generator.EmitImport | packages/vscode-vue-languageservice/src/virtuals/script.ts:516-543 | one import: the gap and import mappings, then the blanked working copy |
| ScriptSetupGen.Generator.EmitLastGap | packages/vscode-vue-languageservice/src/virtuals/script.ts:544-551 | the text after the last import is mapped as its "new lines only" copy, completing the import section |
| ScriptSetupGen.EmitEachImport | packages/vscode-vue-languageservice/src/virtuals/script.ts:516-543 | after the import loop, every gap/import pair is in place, the generated code is as long as the header plus the text up to the last import, and every import is blanked in the working copy |
| ScriptSetupGen.EmitImports | packages/vscode-vue-languageservice/src/virtuals/script.ts:516-551 | the import section tiles the whole block in order: gaps and imports alternate, each at its block offset after the header |
| ScriptSetupGen.ImportSectionView | packages/vscode-vue-languageservice/src/virtuals/script.ts:513-551 | inside the import section, each generated character after the header is the block's character inside an import, and a space or line break elsewhere |
| ScriptSetupGen.BlankKeepsAgreement | packages/vscode-vue-languageservice/src/virtuals/script.ts:541 | blanking an import keeps the working copy equal to the block outside the imports |
| ScriptSetupGen.GapIsOutsideImports | packages/vscode-vue-languageservice/src/virtuals/script.ts:516-551 | offsets between two consecutive imports lie inside no import |
| ScriptSetupGen.Generator.EmitOption | packages/vscode-vue-languageservice/src/virtuals/script.ts:555-618 | an option present in the record is copied between its opening and closing text with one Offset mapping of the given capabilities; an absent one changes nothing |
| ScriptSetupGen.Generator.EmitOptionPair | packages/vscode-vue-languageservice/src/virtuals/script.ts:555-618 | two options in a row: the text written is exactly the first option's text then the second's, and the mappings are exactly the first option's mapping then the second's, each at the position of its block text |
| ScriptSetupGen.Generator.EmitTypeOptions | packages/vscode-vue-languageservice/src/virtuals/script.ts:555-578 | the generated text grows by exactly the `props: ({} as __VLS_DefinePropsToOptions<`…`>),` and `emits: ({} as __VLS_ConstructorOverloads<`…`>),` options, each present iff its macro has a type argument, holding that type argument's block text; the mappings grow by one Offset mapping per option present, with no capability, from the type argument's block range to the same width just after the option's opening text |
| ScriptSetupGen.Generator.EmitArgOptions | packages/vscode-vue-languageservice/src/virtuals/script.ts:579-618 | the generated text grows by exactly the `props: `…`,` and `emits: `…`,` options, each present iff its macro has an argument, holding that argument's block text; the mappings grow by one Offset mapping per option present, with the basic, references, definitions, diagnostic, rename, completion and semantic-token capabilities, from the argument's block range to the same width just after `props: ` or `emits: ` |
| ScriptSetupGen.Generator.EmitSetupHead | packages/vscode-vue-languageservice/src/virtuals/script.ts:619-628 | the generated text grows by exactly `async setup() {`, and the `setup` keyword in it gets a Gate mapping with no capability from the empty range at the block's start |
| ScriptSetupGen.Generator.EmitOptions | packages/vscode-vue-languageservice/src/virtuals/script.ts:553-628 | the generated text grows by exactly the `defineComponent({` head, the type-argument options, the argument options and `async setup() {`; the mappings grow by exactly the type-argument options' mappings, the argument options' mappings and the Gate mapping of `setup`, each at the position where its text was written |
| ScriptSetupGen.Generator.EmitLetPart | packages/vscode-vue-languageservice/src/virtuals/script.ts:637-658 | one assignment of the `let` line: the text written is `let ` (first) or `, `, the left side's block text, then ` = ` and the right side's block text when there is one; the left side gets one Offset mapping from exactly that left side, for completion, definitions and semantic tokens, not as a dollar reference |
| ScriptSetupGen.Generator.EmitLetLine | packages/vscode-vue-languageservice/src/virtuals/script.ts:636-660 | the text written is exactly `{ `, the assignments' declarators in order, then `; }`; the line adds exactly one such mapping per assignment, in the assignments' order |
| ScriptSetupGen.Generator.EmitLetParts | packages/vscode-vue-languageservice/src/virtuals/script.ts:637-659 | the text written is exactly the assignments' declarators in order, the first after `let ` and the others after `, `; one left-side mapping per assignment, in order |
| ScriptSetupGen.Generator.EmitVarRef | packages/vscode-vue-languageservice/src/virtuals/script.ts:672-692 | the text written is exactly the text before the variable, then `name: ` for a shorthand property, then `__VLS_refs_name`; the mappings added are exactly, for a shorthand, an Offset mapping of the spelled-out name, then a Gate mapping of the reference, both from the variable's range, diagnostics only and not dollar references |
| ScriptSetupGen.Generator.EmitBinaryLeft | packages/vscode-vue-languageservice/src/virtuals/script.ts:672-690 | the text written is exactly the left side with each bound variable, in order, replaced by its reference; the mappings added are exactly those of the variables' references, in order, each diagnostics-only, not a dollar reference and from inside the left side |
| ScriptSetupGen.RenamedVarsMappingsWithin | packages/vscode-vue-languageservice/src/virtuals/script.ts:672-690 | every mapping of a renamed left side is diagnostics-only, not a dollar reference, and comes from inside that left side |
| ScriptSetupGen.Generator.EmitRefsOperand | packages/vscode-vue-languageservice/src/virtuals/script.ts:727-737 | writes `__VLS_refs_name`, mapped from the right side when there is one |
| ScriptSetupGen.Generator.EmitLetDecl | packages/vscode-vue-languageservice/src/virtuals/script.ts:707-738 | the text written is exactly `let name = (await import('__VLS_vue')).unref(__VLS_refs_name); name;` and a line break; the name gets an Offset mapping with hover, references, rename and diagnostics from the variable, and the operand an Offset mapping with no capability from the right side when there is one; the returned range holds the name |
| ScriptSetupGen.Generator.EmitDollarDecl | packages/vscode-vue-languageservice/src/virtuals/script.ts:740-769 | the text written is exactly `const $name = (await import('__VLS_vue')).ref(__VLS_refs_name); $name;` and a line break; `$name` gets an Offset mapping with hover and diagnostics from the variable, and the operand an Offset mapping with no capability from the right side when there is one; the returned range holds `$name` |
| ScriptSetupGen.Generator.EmitVarDecl | packages/vscode-vue-languageservice/src/virtuals/script.ts:706-773 | the text written is exactly the `let` declaration then the `const $` declaration, with their mappings in that order, and one mirror is added, linking the declared `name` to the declared `$name` |
| ScriptSetupGen.Generator.EmitBinaryDecls | packages/vscode-vue-languageservice/src/virtuals/script.ts:705-774 | the text, mappings and mirrors added are exactly the declarations of the assignment's variables, in order, each with the assignment's right side |
| ScriptSetupGen.Generator.EmitLabelDecls | packages/vscode-vue-languageservice/src/virtuals/script.ts:705-775 | the text, mappings and mirrors added are exactly the declarations of every variable of the label, assignment by assignment, in order |
| ScriptSetupGen.Generator.EmitConstPart | packages/vscode-vue-languageservice/src/virtuals/script.ts:665-701 | one declarator of the `const` line; the generator invariant is kept and the generated text and mappings only grow |
| ScriptSetupGen.Generator.EmitConstLine | packages/vscode-vue-languageservice/src/virtuals/script.ts:662-703 | the `const` line, one declarator per assignment; the generator invariant is kept and the generated text and mappings only grow |
| ScriptSetupGen.Generator.EmitLabelHead | packages/vscode-vue-languageservice/src/virtuals/script.ts:633-660 | where it starts writing, the generated text holds the block text since the previous label rewritten by `mapSubText` over the sorted use sites inside that window, then exactly the label's `let` line; the mappings added are exactly that window's `SubMappings` (each gap's full-capability Offset mapping, each use's mappings), then one `let` left-side mapping per assignment |
| ScriptSetupGen.Generator.EmitLabel | packages/vscode-vue-languageservice/src/virtuals/script.ts:632-777 | one label: where it starts writing, the generated text holds the block text since the previous label rewritten by `mapSubText` over the sorted use sites inside that window, then exactly the label's `let` line; the mappings of that window are exactly its `SubMappings`, followed by one `let` left-side mapping per assignment in order; one name/`$name` mirror per variable |
| ScriptSetupGen.Generator.EmitNextLabel | packages/vscode-vue-languageservice/src/virtuals/script.ts:632-777 | one more label, its window starting at the end of the previous label (0 for the first): what the labels before it wrote stays in place, and this label's head is added as `EmitLabel` promises: the window's text and exactly its `SubMappings`, then the `let` line and its mappings, with the label's name/`$name` mirrors |
| ScriptSetupGen.Generator.EmitEachLabel | packages/vscode-vue-languageservice/src/virtuals/script.ts:631-778 | for every label in order, the generated text and mappings hold what `EmitLabel` promises (the window's text and exactly its `SubMappings`, then the `let` line and its mappings), each window starting at the end of the previous label (0 for the first); one name/`$name` mirror per variable of every label, in order; returns the end of the last label |
| ScriptSetupGen.Generator.EmitLabels | packages/vscode-vue-languageservice/src/virtuals/script.ts:630-779 | the same for every label, and the generated text and mappings end with the block text after the last label rewritten by `mapSubText` over the use sites there, with exactly that window's `SubMappings` |
| ScriptSetupGen.Generator.EmitReturnedPair | packages/vscode-vue-languageservice/src/virtuals/script.ts:784-815 | the text written is exactly `name: name` and the separator; the two copies of the name get Offset mappings with no capability from the given range, in order, and one mirror links them |
| ScriptSetupGen.PairsMappingsShape | packages/vscode-vue-languageservice/src/virtuals/script.ts:784-856 | pair k of the returned object adds mappings 2k and 2k+1, Offset with no capability from the pair's range onto its two copies of the name, and mirror k linking those two copies |
| ScriptSetupGen.Generator.EmitExposes | packages/vscode-vue-languageservice/src/virtuals/script.ts:782-816 | the text written is exactly one `name: name,` line per exposed name, in order; each adds its two Offset mappings with no capability and no dollar-reference flag, and one mirror linking the two copies |
| ScriptSetupGen.Generator.EmitRootVars | packages/vscode-vue-languageservice/src/virtuals/script.ts:817-858 | the text written is exactly one `name: name, ` line per label variable declared at the root, over every label in order; each adds two Offset mappings flagged as not needing `$`, with no capability, and one mirror; variables not at the root add nothing |
| ScriptSetupGen.Generator.EmitRootVarsOfLabel | packages/vscode-vue-languageservice/src/virtuals/script.ts:818-857 | the same for the root variables of one label, assignment by assignment |
| ScriptSetupGen.Generator.EmitRootVarsOf | packages/vscode-vue-languageservice/src/virtuals/script.ts:819-856 | the same for the root variables of one assignment, in order |
| ScriptSetupGen.Generator.EmitRootVar | packages/vscode-vue-languageservice/src/virtuals/script.ts:821-855 | a root variable adds exactly its `name: name, ` pair, its two mappings and its mirror; any other variable changes nothing |
| ScriptSetupGen.Generator.EmitReturn | packages/vscode-vue-languageservice/src/virtuals/script.ts:781-859 | the text written is exactly `return {`, the exposed names' pairs, the root variables' pairs and `};`; the mappings and mirrors added are those of the pairs, in the same order |
| ScriptSetupGen.Generator.EmitTail | packages/vscode-vue-languageservice/src/virtuals/script.ts:860-863 | the text written is exactly `}});`, the `// @ts-ignore` line and `ref` followed by the search text; no mapping or mirror is added |
| ScriptSetupGen.Generator.EmitClosing | packages/vscode-vue-languageservice/src/virtuals/script.ts:781-863 | the text written is exactly the returned object then the closing text, with the returned object's mappings and mirrors |
| ScriptSetupGen.GenScriptSetup | packages/vscode-vue-languageservice/src/virtuals/script.ts:497-994 | every mapping's generated range holds its text; every mapping comes from inside the block; every full-capability mapping is an Offset copy of the block outside the imports; the first mappings are the exact import section; the mirrors are the label mirrors, then the exposed names, then the root variables, each range holding its text |
| ScriptDocuments.CodeBuffer.AddCode | packages/vscode-vue-languageservice/src/virtuals/script.ts:91-98 | appends the text and returns the range it now occupies |
| ScriptDocuments.ScriptForSuggestion | packages/vscode-vue-languageservice/src/virtuals/script.ts:45-99 | no document without a setup block; otherwise the script's range holds its content (when there is a script), the setup range holds the normalised setup code, and the interpolations follow in braces |
| ScriptDocuments.DefaultExportOf | packages/vscode-vue-languageservice/src/virtuals/script.ts:29-39 | the options object exists exactly when the plain script has an `export default`, tagged as script, with its argument's text |
| ScriptDocuments.WriteScriptSrc | packages/vscode-vue-languageservice/src/virtuals/script.ts:121-127 | a `src` script becomes its re-exports, and the returned range holds the quoted path |
| ScriptDocuments.WriteScript | packages/vscode-vue-languageservice/src/virtuals/script.ts:121-136 | the plain script, after its re-exports when its `src` is present and not empty, with its `export default` blanked beside a setup block |
| ScriptDocuments.WriteBlocks | packages/vscode-vue-languageservice/src/virtuals/script.ts:121-139 | each block range is present exactly when its block is, and holds its text; the `src` range is present exactly when the `src` is present and not empty; the generated setup code starts right after the plain script |
| ScriptDocuments.WriteDefaultExport | packages/vscode-vue-languageservice/src/virtuals/script.ts:143-153 | the options object is copied, with its range recorded, exactly when there is one |
| ScriptDocuments.WriteProps | packages/vscode-vue-languageservice/src/virtuals/script.ts:154-171 | when `defineProps` has both an argument and a type argument, both are written, the argument first and then the type argument after `{} as`; the range kept is the type argument's when there is one, else the argument's, and it holds that piece's text |
| ScriptDocuments.WriteEmits | packages/vscode-vue-languageservice/src/virtuals/script.ts:172-180 | the `emits` option is copied from the `defineEmit` argument when there is one |
| ScriptDocuments.WriteOptions | packages/vscode-vue-languageservice/src/virtuals/script.ts:140-181 | the options object's three ranges, each present exactly when its piece is, each holding that piece |
| ScriptDocuments.DocGen | packages/vscode-vue-languageservice/src/virtuals/script.ts:100-201 | no document without a block; otherwise each recorded range is present exactly when its piece is and holds that piece's text (the `src` range only for a present, non-empty `src`), and the setup code starts after the `src` re-exports and the plain script |
| ScriptSourceMap.LastIndexOf | packages/vscode-vue-languageservice/src/virtuals/script.ts:256 | the last occurrence of the path in the text before the block, or -1 when there is none |
| ScriptSourceMap.BuildSourceMap | packages/vscode-vue-languageservice/src/virtuals/script.ts:225-379 | no map without a document; otherwise a fresh map holding the script, `src`, shifted setup and option entries, in that order |
| ScriptSourceMap.AddScriptEntries | packages/vscode-vue-languageservice/src/virtuals/script.ts:232-280 | adds the plain script's entry, then its `src` entry when the `src` is present and not empty and its range was recorded |
| ScriptSourceMap.AddSetupEntries | packages/vscode-vue-languageservice/src/virtuals/script.ts:282-299 | adds every generator mapping, shifted by the block's file offset and the setup code's document offset |
| ScriptSourceMap.AddSetupPart | packages/vscode-vue-languageservice/src/virtuals/script.ts:281-300 | adds the setup entries only when there is a setup block, a generator result and a setup range |
| ScriptSourceMap.AddOptionEntries | packages/vscode-vue-languageservice/src/virtuals/script.ts:301-376 | adds the default-export, `defineProps` and `defineEmit` entries, each when present |
| ScriptSourceMap.ScriptEntryCopies | packages/vscode-vue-languageservice/src/virtuals/script.ts:232-254 | the plain script's entry maps the block to identical text in the document, except inside a blanked `export default` |
| ScriptSourceMap.SrcEntryLocates | packages/vscode-vue-languageservice/src/virtuals/script.ts:255-279 | the `src` entry's two ranges have equal width; it points at the last occurrence of the path before the block, or from -2 when there is none |
| ScriptSourceMap.SetupEntryCopies | packages/vscode-vue-languageservice/src/virtuals/script.ts:281-299 | a shifted generator mapping lands on its text in the document, comes from inside the setup block, and a full-capability one maps the block to identical text outside its imports |
| ScriptSourceMap.SetupEntriesCopy | packages/vscode-vue-languageservice/src/virtuals/script.ts:281-300 | the same for every setup entry of the map |
| ScriptSourceMap.OptionEntryCopies | packages/vscode-vue-languageservice/src/virtuals/script.ts:329-376 | a macro-argument entry maps the block's text to identical text in the document |
| ScriptSourceMap.DefaultExportEntryCopies | packages/vscode-vue-languageservice/src/virtuals/script.ts:301-327 | the default-export entry has the reduced capabilities and maps the options object to identical text |
| ScriptSourceMap.MacroEntryCopies | packages/vscode-vue-languageservice/src/virtuals/script.ts:329-376 | the `defineProps` or `defineEmit` entry has the reduced capabilities and maps its argument to identical text |
| ScriptSourceMap.OptionEntriesCopy | packages/vscode-vue-languageservice/src/virtuals/script.ts:301-376 | every option entry of the map has the reduced capabilities and maps text to identical text |
| DerivedSourceMaps.BuildSuggestionSourceMap | packages/vscode-vue-languageservice/src/virtuals/script.ts:380-421 | no map without a suggestion document; otherwise a fresh map with one diagnostics-only Offset entry per block present |
| DerivedSourceMaps.SuggestionScriptEntryExact | packages/vscode-vue-languageservice/src/virtuals/script.ts:387-402 | the plain script's suggestion entry maps the block to identical text |
| DerivedSourceMaps.SuggestionSetupEntryExact | packages/vscode-vue-languageservice/src/virtuals/script.ts:403-418 | the setup block's suggestion entry has equal widths and maps each character to itself, a space or a letter of `let` |
| DerivedSourceMaps.SuggestionEntriesExact | packages/vscode-vue-languageservice/src/virtuals/script.ts:380-421 | every entry of the suggestion map is diagnostics-only, Offset, of equal widths, and at most rewritten in between |
| DerivedSourceMaps.ShadowCapabilities | packages/vscode-vue-languageservice/src/virtuals/script.ts:469-478 | the shadow copy switches off hover, diagnostics, formatting, completion, semantic tokens and folding, and keeps references, definitions, rename and code lens |
| DerivedSourceMaps.BuildShadowSourceMap | packages/vscode-vue-languageservice/src/virtuals/script.ts:455-482 | a shadow map exists exactly for a JavaScript script with a main map; it copies every entry with reduced capabilities and keeps the interpolation flag |
| DerivedSourceMaps.ShadowEntriesKeep | packages/vscode-vue-languageservice/src/virtuals/script.ts:463-480 | each shadow entry keeps the mode, both ranges and all data except the reduced capabilities |
| DerivedSourceMaps.ShadowTranslatesAlike | packages/vscode-vue-languageservice/src/virtuals/script.ts:463-480 | any query through the shadow map gives the answers of the main map, in the same order, with reduced capabilities |
| DerivedSourceMaps.AddMirrors | packages/vscode-vue-languageservice/src/virtuals/script.ts:430-442 | adds every mirror shifted by the offset, in order |
| DerivedSourceMaps.MirrorsSourceMapAsWritten | packages/vscode-vue-languageservice/src/virtuals/script.ts:422-446 | as written: the mirrors shifted by the plain script's content length |
| DerivedSourceMaps.MirrorsSourceMap | packages/vscode-vue-languageservice/src/virtuals/script.ts:422-446 | the mirrors shifted by where the setup code starts in the document |
| DerivedSourceMaps.MirrorsSourceMapHolds | packages/vscode-vue-languageservice/src/virtuals/script.ts:422-446 | with that shift, both ranges of every mirror hold, in the document, the two spellings they link |
| DerivedSourceMaps.MirrorOffsetAsWritten | packages/vscode-vue-languageservice/src/virtuals/script.ts:425 | the two shifts agree when the plain script has no `src` or an empty one, and differ by the length of the re-exports otherwise |
| DerivedSourceMaps.MirrorsMisplacedWithSrc | packages/vscode-vue-languageservice/src/virtuals/script.ts:425 | for a script with `src="./a.ts"` and empty content the setup code starts at 94, but the mirrors as written are shifted by 0 |
| DerivedSourceMaps.MirrorsPlacedWithEmptySrc | packages/vscode-vue-languageservice/src/virtuals/script.ts:121 | for a script with an empty `src` and empty content, no re-exports are written, so the setup code and the mirrors as written both start at 0 |
| Walkers.LabelVarCollector.Worker | packages/vscode-vue-languageservice/src/virtuals/script.ts:1277-1322 | the recursive worker appends exactly the variables of the node, in visiting order |
| Walkers.LabelVarCollector.WorkerAll | packages/vscode-vue-languageservice/src/virtuals/script.ts:1289-1297 | the loop over properties or elements appends each one's variables in turn |
| Walkers.FindLabelVars | packages/vscode-vue-languageservice/src/virtuals/script.ts:1273-1276 | returns the variables of the expression, as identifiers or shorthand names, in visiting order |
| Walkers.LabelVarsInside | packages/vscode-vue-languageservice/src/virtuals/script.ts:1273-1323 | every collected variable lies inside the walked node |
| Walkers.BindingVarCollector.Worker | packages/vscode-vue-languageservice/src/virtuals/script.ts:1328-1354 | the recursive worker appends exactly the binding names of the node, in visiting order |
| Walkers.BindingVarCollector.WorkerAll | packages/vscode-vue-languageservice/src/virtuals/script.ts:1335-1339 | the loop over pattern elements appends the names of the binding elements only |
| Walkers.FindBindingVars | packages/vscode-vue-languageservice/src/virtuals/script.ts:1324-1327 | returns the ranges of the names a binding pattern declares, in visiting order |
| Walkers.BindingVarsInside | packages/vscode-vue-languageservice/src/virtuals/script.ts:1324-1355 | every collected name lies inside the walked pattern |
| Walkers.BinaryCollector.Worker | packages/vscode-vue-languageservice/src/virtuals/script.ts:1240-1271 | the recursive worker appends exactly the assignment records of the node: an identifier alone, a simple binary with its enclosing parentheses, nested binaries split |
| Walkers.FindBinaryExpressions | packages/vscode-vue-languageservice/src/virtuals/script.ts:1236-1239 | returns the labelled assignment records of the expression, in visiting order |
| Walkers.BinarysLaid | packages/vscode-vue-languageservice/src/virtuals/script.ts:1236-1272 | every record's left side, right side and variables lie inside its parent range, which lies inside the walked expression |
| Walkers.WalkedLabelParensOrdered | packages/vscode-vue-languageservice/src/virtuals/script.ts:1236-1272 | a label built from the walk has its parentheses where the suggestion rewrite expects them, and each assignment's variables lie inside its left side |

## Left out

- The position-based `maps` and its wrappers `targetToSource`, `sourceToTarget`, `targetToSources` and `sourceToTargets` (sourceMaps.ts:37-40, 45-48, 53-55, 59-61, 65-123) are not modelled. They convert line/character positions through text documents, which are not modelled.
- SourceMaps.SourceMap.IsSource: the source asks the position-based `maps` (sourceMaps.ts:31-33); the model answers on offsets, with the same per-mapping rule that `maps2` uses.
- SourceMaps.SourceMap.IsTarget: likewise, the source asks the position-based `maps` (sourceMaps.ts:34-36); the model answers on offsets, with the same per-mapping rule that `maps2` uses.
- SourceMaps.SourceMap.Add: `SourceMap` extends a `Set`, which ignores re-adding the same object. Every `add` in the modelled code passes a new object, so a sequence append gives the same behaviour.
- `CssSourceMap`, `HtmlSourceMap` and `PugSourceMap` (sourceMaps.ts:216 onwards) are not modelled.
- The TypeScript parse behind `getScriptData` and `getScriptSetupData` (script.ts:995-1235, 1357-1407) is not modelled. Its result is an input: the analysis record and an abstract syntax tree.
- ScriptSetupGen.GenScriptSetup: requires `WellFormed`: ranges inside the block; imports and labels sorted and disjoint; each assignment's variables sorted inside its left side; and the use sites of all label variables inside the block, non-empty and pairwise apart across all variables. The parser does not guarantee every one of these facts, and the model does not cover inputs that break them. (a) References are collected per variable (script.ts:1126-1141), and only that variable's own declaration is removed. With `ref: a = 1; ref: a = 2;` each `a` receives the other's declaration and the same use sites. `mapSubText` (script.ts:893-899) then sees the same use site twice and calls `writeText` with a start past its end, which `substring` answers by swapping the two offsets. (b) `deepLoop` records a `ref:` label and still walks into its children (script.ts:1176-1186, 1234). A `ref:` inside another label's right side, such as in an arrow function's body, therefore gives nested labels, and the source calls `mapSubText(outer.end, inner.start)` on a reversed window. Under `WellFormed`, the in-place `.sort` calls on imports, labels and variables leave their order unchanged, and are not modelled as sorts.
- ScriptSetupGen.GenScriptSetup: does not state the whole generated text character by character. It states what every recorded range holds, the exact import section and the order of the mirrors.
- ScriptSetupGen.Generator.EmitConstLine: states only that the invariant holds and that the generated text and mappings are appended to. It does not state the exact `const` line or its mappings.
- ScriptSetupGen.Generator.EmitConstPart: states only that the invariant holds and that the generated text and mappings are appended to. It does not state the exact declarator or its mappings.
- ScriptSetupGen.Generator.EmitLabel: states the text up to and including the `let` line and that line's mappings. It does not state the `const` line or the declarations' text beyond what `EmitConstLine` and `EmitLabelDecls` promise.
- ScriptSetupGen.Generator.EmitEachLabel: states each label's text up to its `let` line, not the `const` lines or declarations after it.
- ScriptSetupGen.Generator.EmitLabels: as `EmitEachLabel`, plus the trailing text; it does not state the whole generated text of the labels section.
- `SearchTexts.Ref` comes from `virtuals/common.ts`, which is not part of this model. It is the `refSearchText` parameter.
- Text documents, URIs, language ids, versions, `getUnreactiveDoc` and the reactive `computed` caching are not modelled. The `.vue` text is a parameter (`vueText`). The presence of the documents is a boolean or an `Option` parameter.
- `transformVueHtml` (the template's interpolations) is not modelled. Its text is the `interpolations` parameter of `ScriptForSuggestion`.
- Walkers: TypeScript nodes are reduced to the kinds the walkers distinguish. `getText` is the node's `text` field. Any other node kind is `Other`, which the walkers ignore.
- Text is a sequence of `char`, one per UTF-16 code unit of the source's strings, so offsets, lengths and `substring` count as JavaScript does only for text inside the Basic Multilingual Plane. A Dafny `char` is a Unicode scalar value, so a character outside that plane takes one position instead of two, and a lone surrogate cannot be written. The properties proved are about widths and ranges and hold either way.
- Integers are unbounded. JavaScript string offsets are far below any limit that matters here.

## Findings

| source | as written | input that shows it | evidently intended | confidence | as-written member | corrected member |
|---|---|---|---|---|---|---|
| packages/vscode-vue-languageservice/src/virtuals/script.ts:425 | `mirrorsSourceMap` shifts the generator's mirrors by the plain script's content length | a `<script src="./a.ts">` with empty content beside a `<script setup>`: `docGen` puts 94 characters of re-exports first, so the setup code starts at offset 94, but the mirrors are shifted by 0 and point into the re-exports | shift the mirrors by where `docGen` placed the setup code (its `scriptSetupRange.start`) | not executed | DerivedSourceMaps.MirrorsSourceMapAsWritten, DerivedSourceMaps.MirrorsMisplacedWithSrc | DerivedSourceMaps.MirrorsSourceMap, DerivedSourceMaps.MirrorsSourceMapHolds |
