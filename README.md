# remark-flexible-toc, modelled in Dafny

`remark-flexible-toc` is a remark plugin that builds a table of contents from
a Markdown document. This project models one run of the plugin's transformer
over one document, which takes four steps:

1. **Collect.** The transformer walks the headings in document order. It
   gives every heading a slug from a slugger that is fresh for each run. This
   happens even for headings that are then dropped.
2. **Filter.** Four rules can drop a heading. They are checked in this
   order: `maxDepth`, `skipLevels`, `skipParents` and `exclude`.
   `skipParents` never applies to a heading whose parent is the document
   root.
3. **Number.** Each surviving heading becomes an item:
   - its text;
   - its anchor, `#` + prefix + slug;
   - its depth;
   - its parent's node type;
   - a copy of its `hProperties`.

   `addNumbering` then gives every item an outline number such as
   `[1, 2, 1]`, computed only from the previous item's depth and numbering.
4. **Publish.** The optional callback may rewrite the list. The result is
   published twice:
   - as a copy into `file.data[tocName]`;
   - when the caller passed a `tocRef` list, into that list, which is first
     cleared and then refilled.

Modules:

- `TocTypes`: the data model.
  - Heading levels 1 to 6 and parent node types.
  - `TocItem` and the heading record the tree walk yields.
  - Options, and how they are merged over the defaults.
  - `TocList`, a class for a JavaScript `TocItem[]` that the plugin mutates.
- `Numbering`: `addNumbering`.
  - The in-place loop (`AddNumbering`).
  - Its specification `NumberingAt` / `Numbered`.
  - Lemmas for the first, same-depth, deeper and shallower cases.
  - A lemma that numberings increase strictly in outline order.
- `Filter`: the four drop rules and which headings survive them.
- `Slugs`: the per-run slugger.
  - It counts the uses of each base slug.
  - The first use is bare, later ones get `-1`, `-2`, ….
  - The normalisation of a text to its base slug is a parameter.
- `Collect`: the visitor for one heading (`VisitHeading`) and its
  specification `Collected`.
- `Transform`: the whole run.
  - `CollectItems`, `AddNumbering`, the callback, then `Publish`.
  - Lemmas about what a run publishes.
- `TestDocument`, `Examples`: the test document of the repository's tests,
  and the tables of contents the tests expect from it.
  - This covers the depths and numberings of the default, `skipLevels` and
    `exclude` runs, and the `-1` slug of a repeated heading text.
  - These results are derived from the model.

An item carries `data` whenever its heading has an `hProperties` object,
even an empty one. The code tests only that `hProperties` exists
(src/index.ts:152), and an empty object is truthy in JavaScript, so an empty
`hProperties` gives `data: {}` (src/index.ts:162). `MakeItem` copies the
heading's `props` unchanged, so `Some(map[])` stays `Some(map[])`.

## Model

| member | source | states |
|---|---|---|
| TocTypes.Resolve | src/index.ts:60-66 | Each option the caller leaves out takes its default: `tocName` "toc", `maxDepth` 6, `skipLevels` [1], `skipParents` []. Every other field is the caller's, and `tocRef` stays absent when not given. |
| TocTypes.TocList.constructor | src/index.ts:127 | The per-run list starts empty. |
| TocTypes.TocList.Push | src/index.ts:156-163 | Appends exactly one item at the end and changes nothing else. |
| TocTypes.TocList.Truncate | src/index.ts:183 | Setting `length = 0` leaves the list empty. |
| Numbering.NumberingAt | src/index.ts:79-110 | The numbering of item `i` has exactly one element per heading level (`depth` elements) and every element is at least 1. This is what keeps `numbering[depth - 1]++` inside the array. |
| Numbering.NumberedAt | src/index.ts:86-108 | Item `i` of the renumbered list is the original item with a new numbering. For `i = 0` it is all ones. Otherwise it is the step from the numbering just written for item `i - 1`, as the loop reads it. |
| Numbering.NextNumbering | src/index.ts:92-106 | The three predecessor cases compute the step of the specification. |
| Numbering.AddNumbering | src/index.ts:79-110 | After the in-place loop the list is `Numbered` of the old list: same length and order, each item unchanged except its numbering. |
| Numbering.FirstNumbering | src/index.ts:90-91 | The first item is numbered with `depth` ones, for example `[1, 1, 1]` for a first h3. |
| Numbering.SameDepthSuccessor | src/index.ts:92-94 | A same-depth successor keeps every element of the previous numbering except the last, which goes up by one. |
| Numbering.DeeperSuccessor | src/index.ts:95-102 | A deeper successor extends the previous numbering with one 1 per extra level, so the previous numbering is a strict prefix of it. |
| Numbering.ShallowerSuccessor | src/index.ts:103-105 | A shallower successor keeps the first `depth - 1` elements of the previous numbering and bumps the element at its own level. |
| Numbering.NumberingIgnoresLaterItems | src/index.ts:80-108 | An item's numbering depends only on the items before it. Appending more items renumbers none of the earlier ones. |
| Numbering.SuccessorComesAfter | src/index.ts:90-106 | In each case each numbering comes strictly after its predecessor's in outline order. |
| Numbering.NumberingsIncrease | src/index.ts:79-110 | Numberings strictly increase in outline order along the list, so no two items share an outline number. |
| Numbering.DeeperItemsKeepPrefix | src/index.ts:92-106 | Items that follow item `i` and are all deeper than it keep `i`'s numbering as their prefix. |
| Numbering.SiblingsConsecutive | src/index.ts:92-106 | Two items at the same depth with only deeper items between them are consecutive siblings. The later one's numbering equals the earlier one's with the last element one higher, for example 1.1. then 1.2. with h3s between. |
| Numbering.OutlineBeforeTransitive | src/index.ts:79-110 | Outline order, used to state the increase, is transitive. |
| Numbering.OutlineBeforeIrreflexive | src/index.ts:79-110 | Outline order is irreflexive. |
| Filter.DropReasonIsFirstRule | src/index.ts:138-148 | `DropReason` reports the rule that drops a heading, checked in the source's order: each rule is reported exactly when it applies and no earlier rule does. `Kept` means no rule is reported. |
| Filter.KeptIff | src/index.ts:138-148 | A heading survives if and only if all four hold: its depth is at most `maxDepth`, its depth is not in `skipLevels`, its parent is the root or not in `skipParents`, and the exclusion pattern does not match its text. |
| Filter.RootIsNeverSkipped | src/index.ts:145 | `skipParents` never drops a heading whose parent is the root, even if the list names `root`. |
| Filter.KeptIndices | src/index.ts:129-166 | The surviving positions are listed in increasing document order, each listed heading survives, and every surviving heading is listed. |
| Filter.KeptHeadingsAt | src/index.ts:129-166 | The `k`-th surviving heading is the heading at the `k`-th surviving position. |
| Filter.KeptHeadingsAppend | src/index.ts:129-166 | Filtering commutes with concatenation, because the drop rules look at one heading at a time. |
| Filter.AllKept | src/index.ts:129-166 | When no rule drops any heading, every heading survives, in order. |
| Filter.DroppedHeadingLeavesNoTrace | src/index.ts:138-148 | A dropped heading changes nothing in what survives, wherever it stands. |
| Slugs.Decimal | src/index.ts:135 | A counter is written in decimal: at least one digit, digits only, no leading zero, and the digits read back as the counter. |
| Slugs.DecimalInjective | src/index.ts:135 | Different counters are written differently. |
| Slugs.SuffixedInjective | src/index.ts:135 | Two uses of one base slug at different counts get different slugs. |
| Slugs.OccurrencesSnoc | src/index.ts:126-135 | Slugging one more text bumps the counter of that text's base slug and no other counter. |
| Slugs.OccurrencesCount | src/index.ts:126-135 | After a run of texts, the counter of a base slug equals the number of those texts with that base slug. |
| Slugs.SlugAtCountsEarlierTexts | src/index.ts:126-135 | The `j`-th text's slug is its base slug suffixed with the number of earlier texts of the run that share the base. It is bare exactly when there are none. |
| Slugs.CountGrows | src/index.ts:126-135 | The counter of a text's base slug is strictly larger at any later point of the run. |
| Slugs.SameBaseDistinctSlugs | src/index.ts:126-135 | Two texts of one run with the same base slug never get the same slug. |
| Slugs.Slugger.constructor | src/index.ts:126 | A fresh slugger has counted nothing. |
| Slugs.Slugger.Slug | src/index.ts:135 | Returns the base slug suffixed with its current count, then increments that base's counter by one. |
| Collect.Href | src/index.ts:135 | The anchor is `#`, then the prefix (empty when none is given), then the slug, with nothing else. |
| Collect.MakeItem | src/index.ts:152-163 | The item pushed for a kept heading has the heading's text, depth, parent and `hProperties` copy (the heading is recovered from it by `Source`), the given anchor and an empty numbering. |
| Collect.Collected | src/index.ts:129-166 | The visitor's specification: the list built after visiting the headings. It has one item per kept heading, no more items than headings, and every numbering still empty. `Collect.CollectedAt` gives each item. |
| Collect.HrefInjective | src/index.ts:135 | Under one prefix, different slugs give different anchors. |
| Collect.CollectedSnoc | src/index.ts:129-166 | Visiting one more heading appends an item exactly when that heading survives. The item's anchor uses the base slug suffixed with its count so far, whether or not earlier headings survived. |
| Collect.SlugAtPrefix | src/index.ts:135 | A heading's slug depends only on the headings visited up to it. |
| Collect.CollectedAt | src/index.ts:129-166 | The collected list has one item per surviving heading, in document order. The item for the heading at position `j` has that heading's text, depth, parent and properties, an empty numbering, and the anchor from the `j`-th slug of the run. |
| Collect.CollectedFromKeptHeadings | src/index.ts:129-166 | The items come exactly from the surviving headings, in order. |
| Collect.SameBaseDistinctHrefs | src/index.ts:135 | Two items whose texts share a base slug, in particular two with the same text, have different anchors. |
| Collect.DroppedHeadingConsumesSlug | src/index.ts:134-148 | In a document of just these two headings, a dropped heading followed by a kept heading with the same text: the dropped one still consumes its slug, so the kept one gets the `-1` anchor and is the only item. |
| Collect.VisitHeading | src/index.ts:133-165 | One visit always advances the slugger's counter for the heading's base slug by one. It appends the item with that slug exactly when no rule drops the heading. |
| Transform.VFile.constructor | src/index.ts:125 | The file starts with the data it is given. |
| Transform.CollectItems | src/index.ts:126-166 | A fresh slugger and a fresh list, one visit per heading in document order. The result is the collected list of the whole document. |
| Transform.VisitedOneMore | src/index.ts:129-166 | The slugger state and the list after one more visit, stated on the specification functions. |
| Transform.Publish | src/index.ts:177-189 | `file.data[tocName]` holds the final list and the file's other entries are unchanged. When the caller gave a `tocRef`, that list holds exactly the final list afterwards, whatever it held before. Nothing else is written. |
| Transform.Transform | src/index.ts:125-190 | Both sinks hold the collected list, numbered, then passed through the callback if there is one. The modifies clause shows that a run without a `tocRef` writes nothing but the file. |
| Transform.TransformTwice | src/index.ts:181-189 | Running twice against the same `tocRef` leaves one copy of the second run's table of contents in it, not two lists one after the other. It equals what the second file holds. |
| Transform.TransformWithEmptyingCallback | src/index.ts:171-189 | A callback that empties the list leaves both sinks empty. |
| Transform.Toc | src/index.ts:168-177 | What a run publishes: the collected items, numbered, then passed through the callback (`AfterCallback`; unchanged without one). Without a callback it holds exactly one item per kept heading, made from that heading, in order. `Transform.TocItemAt` gives each item. |
| Transform.CollectedDepths | src/index.ts:129-168 | The depths the numbering sees are those of the surviving headings. |
| Transform.TocItemAt | src/index.ts:125-177 | Without a callback, the `k`-th published item is the `k`-th surviving heading, at document position `j`. It has that heading's text, depth, parent and properties, the anchor from the `j`-th slug, and the outline number computed from the depths of the surviving headings alone. |
| Transform.DroppedHeadingKeepsNumbering | src/index.ts:138-168 | A dropped heading changes no published outline number. |
| Transform.PublishedNumberingAt | src/index.ts:168-177 | Without a callback, every published numbering, the first one included, has `depth` elements, all at least 1. |
| Transform.PublishedNumberingsIncrease | src/index.ts:168-177 | Without a callback, the published numberings strictly increase in outline order. |
| TestDocument.DefaultSettings | src/index.ts:60-66 | With no options, the run uses `toc`, `maxDepth` 6, `skipLevels` [1], no `skipParents`, no exclusion, no prefix and no callback. |
| TestDocument.DefaultKeptHeadings | tests/expose-data-in-vfile.spec.ts:36-55 | With no options, the test document loses only its h1. Its blockquote and list-item headings are kept. |
| TestDocument.SkipLevelsKeptHeadings | tests/expose-data-in-vfile.spec.ts:126-141 | With `skipLevels: [1, 2], maxDepth: 3`, only the five h3 headings survive. |
| TestDocument.ExcludeKeptHeadings | tests/expose-data-in-vfile.spec.ts:164-183 | A pattern that matches "Mubheading" and no other text drops both h3 "Mubheading"s and nothing else besides the h1. |
| Examples.DefaultKeptDepths | tests/expose-data-in-vfile.spec.ts:42-52 | The default run numbers the depths 2, 3, 3, 2, 3, 3, 3, 4, 4, 5, 5. |
| Examples.DefaultNumbering | tests/expose-data-in-vfile.spec.ts:42-52 | Those depths are numbered 1.1., 1.1.1., 1.1.2., 1.2., 1.2.1., 1.2.2., 1.2.3., 1.2.3.1., 1.2.3.2., 1.2.3.2.1., 1.2.3.2.2. |
| Examples.DefaultNumberingOfSections | tests/expose-data-in-vfile.spec.ts:42-47 | The two sections alone, with depths 2, 3, 3, 2, 3, 3, are numbered 1.1., 1.1.1., 1.1.2., 1.2., 1.2.1., 1.2.2., the same as at the start of the whole document. |
| Examples.SkipLevelsKeptDepths | tests/expose-data-in-vfile.spec.ts:134-138 | The `skipLevels` run numbers five h3 headings. |
| Examples.SkipLevelsNumbering | tests/expose-data-in-vfile.spec.ts:134-138 | Skipped levels reserve no digit. The five h3s are numbered 1.1.1. to 1.1.5. |
| Examples.ExcludeKeptDepths | tests/expose-data-in-vfile.spec.ts:172-180 | The exclusion run numbers the depths 2, 3, 2, 3, 3, 4, 4, 5, 5. |
| Examples.ExcludeNumbering | tests/expose-data-in-vfile.spec.ts:172-180 | The kept headings are renumbered around the gaps: 1.1., 1.1.1., 1.2., 1.2.1., 1.2.2., 1.2.2.1., 1.2.2.2., 1.2.2.2.1., 1.2.2.2.2. |
| Examples.RepeatedTextSlugs | tests/expose-data-in-vfile.spec.ts:43-46 | In the test document, the first h3 "Subheading" gets the bare slug and the second gets `-1`, given the other earlier texts have other base slugs. |
| Examples.FirstSixSlugs | tests/expose-data-in-vfile.spec.ts:43-46 | The same for the texts of the first six headings. |

## Left out

- **Normalisation of a text to its base slug.** The model takes it as a
  parameter. `github-slugger`, the library that does this, is not part of
  this model.
  - The model keeps only the library's per-run counters: first use bare,
    then `-1`, `-2`, ….
  - The library's extra re-check, which stops a suffixed slug from
    colliding with a literal heading text, is not modelled.
  - As a result, two headings with different base slugs can share an
    anchor in the model. `Examples.SuffixedSlugCanCollide` shows this with
    the texts "a", "a-1", "a" under the identity normalisation: both the
    second and the third text get "a-1".
  - So the model proves distinct anchors only for headings that share a
    base slug (`Collect.SameBaseDistinctHrefs`). It does not prove that
    all anchors of a run are distinct.
- **Exclusion pattern.** The model takes it as a predicate on the whole
  text: "the pattern `^(…)$` matches, ignoring case". Two things are not
  modelled:
  - how the pattern is built from a string or an array (src/index.ts:119-123);
  - the fact that the joined strings are not escaped.
- **Rendering a heading to plain text and walking the tree.** These are done
  by `mdast-util-to-string` and `unist-util-visit`, which are not part of
  this model. The run takes the document's headings as a sequence already
  in pre-order. The walk's guard against a heading with no parent or index
  (src/index.ts:131) is therefore not modelled.
- **`Object.assign` with an option explicitly set to `undefined`.** Such an
  option overrides the default. The model has only "given" and "not given".
- **Object identity and shallow copies.** Items are values. Nothing shows
  that `data` is a copy of `hProperties` (src/index.ts:153), that the
  published lists share item objects (src/index.ts:177, 187), or what a
  later mutation of one item would show through both lists.
- **The callback.** It is a total function from the list to a new list.
  Two things are not modelled:
  - a callback that mutates item objects in place, which is only visible
    through aliasing;
  - a callback that throws.
- Transform.TocItemAt: assumes no callback, because a callback may rewrite
  the list arbitrarily.
- Transform.PublishedNumberingAt: assumes no callback, for the same reason.
- Transform.PublishedNumberingsIncrease: assumes no callback, for the same
  reason.
- Transform.Toc: describes its items only when there is no callback, for the
  same reason.
- **The `#custom-id` anchor the tests expect for "Custom Heading".** The
  source always slugs the text (src/index.ts:135). That heading's id comes
  from another plugin. The test document keeps the heading, but no example
  states its anchor.
- **The `-1` anchors of the quoted and list-item headings, and the runs
  with `skipParents`, a prefix or `tocRef`.** The examples do not spell
  these out. The general lemmas cover them: `Collect.CollectedAt` and
  `Slugs.SlugAtCountsEarlierTexts` give the exact suffix of every anchor,
  `Filter.KeptIff` gives which headings a run keeps, and
  `Transform.Transform` gives what both sinks hold.
- **Integer overflow.** JavaScript numbers that overflow in a counter or a
  numbering element are not modelled. Integers are unbounded.
- **Heading depth.** The `HeadingDepth` type keeps depths in 1..6, so a
  depth outside that range cannot occur.
- **The plugin wrapper and the pipeline wiring.** The `unified` plugin
  object, the vfile beyond its `data` record, and the rest of the
  `unified` pipeline are not modelled.
