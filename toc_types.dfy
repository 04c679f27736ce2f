/**
 * The data model of the table-of-contents plugin: heading levels, the closed
 * set of node types a heading can sit in, the TOC item, the heading record the
 * tree walk delivers, and the plugin's options and resolved settings.
 */
module TocTypes {
  import opened Wrappers

  /** The node type of a heading's immediate parent; `Root` is the document. */
  datatype HeadingParent =
    | Root
    | Blockquote
    | FootnoteDefinition
    | ListItem
    | Container
    | MdxJsxFlowElement

  /** A Markdown heading level, 1 to 6. */
  type HeadingDepth = d: int | 1 <= d <= 6 witness 1

  /**
   * A value stored in a heading's `hProperties` by other plugins. The plugin
   * never looks inside these values; it only copies the mapping that holds them.
   */
  type PropValue(==)

  /** The `hProperties` mapping of a heading, copied into an item's `data`. */
  type Props = map<string, PropValue>

  /** One entry of the table of contents. */
  datatype TocItem = TocItem(
    value: string,
    href: string,
    depth: HeadingDepth,
    numbering: seq<int>,
    parent: HeadingParent,
    data: Option<Props>)

  /**
   * What the tree walk yields for one heading node, in document order: its
   * level, its plain text (image alt text excluded), the type of its parent,
   * and its `hProperties` if it has any.
   */
  datatype HeadingRec = HeadingRec(
    depth: HeadingDepth,
    text: string,
    parent: HeadingParent,
    props: Option<Props>)

  /**
   * A JavaScript `TocItem[]` that the plugin mutates: the per-run list of
   * items and the caller-owned `tocRef` are both of this kind.
   */
  class TocList {
    var items: seq<TocItem>

    constructor ()
      ensures items == []
    {
      items := [];
    }

    /** `list.push(item)` */
    method Push(item: TocItem)
      modifies this
      ensures items == old(items) + [item]
    {
      items := items + [item];
    }

    /** `list.length = 0` */
    method Truncate()
      modifies this
      ensures items == []
    {
      items := [];
    }
  }

  /**
   * The options a caller passes to the plugin; `None` is an option left out.
   * The exclusion pattern is given already compiled, as the predicate
   * "the whole text matches it, ignoring case".
   */
  datatype Options = Options(
    tocName: Option<string>,
    tocRef: Option<TocList>,
    maxDepth: Option<HeadingDepth>,
    skipLevels: Option<seq<HeadingDepth>>,
    skipParents: Option<seq<HeadingParent>>,
    exclude: Option<string -> bool>,
    prefix: Option<string>,
    callback: Option<seq<TocItem> -> seq<TocItem>>)

  /**
   * The options merged over the defaults. `tocRef` stays `None` when the
   * caller gave none: the default shared list is never written to.
   */
  datatype Settings = Settings(
    tocName: string,
    tocRef: Option<TocList>,
    maxDepth: HeadingDepth,
    skipLevels: seq<HeadingDepth>,
    skipParents: seq<HeadingParent>,
    exclude: Option<string -> bool>,
    prefix: Option<string>,
    callback: Option<seq<TocItem> -> seq<TocItem>>)

  const DefaultTocName: string := "toc"
  const DefaultMaxDepth: HeadingDepth := 6
  const DefaultSkipLevels: seq<HeadingDepth> := [1]
  const DefaultSkipParents: seq<HeadingParent> := []

  /** Merges the caller's options over the defaults, as `Object.assign` does. */
  function Resolve(o: Options): (s: Settings)
    ensures s.tocName == (if o.tocName.Some? then o.tocName.value else "toc")
    ensures s.maxDepth == (if o.maxDepth.Some? then o.maxDepth.value else 6)
    ensures s.skipLevels == (if o.skipLevels.Some? then o.skipLevels.value else [1])
    ensures s.skipParents == (if o.skipParents.Some? then o.skipParents.value else [])
    ensures s.tocRef == o.tocRef && s.exclude == o.exclude
    ensures s.prefix == o.prefix && s.callback == o.callback
  {
    Settings(
      o.tocName.GetOr(DefaultTocName),
      o.tocRef,
      o.maxDepth.GetOr(DefaultMaxDepth),
      o.skipLevels.GetOr(DefaultSkipLevels),
      o.skipParents.GetOr(DefaultSkipParents),
      o.exclude,
      o.prefix,
      o.callback)
  }

  /** The objects a run may write besides the file: the caller's list, if any. */
  function RefFrame(s: Settings): set<object> {
    if s.tocRef.Some? then {s.tocRef.value} else {}
  }
}
