/**
 * The interface of Python's `textwrap.fill`, which the renderers call but
 * whose word-wrapping is not modelled: a fill is any function from the
 * keyword arguments and the text to the wrapped text.
 */
module TextWrap {

  /** The keyword arguments passed to `textwrap.fill` (Python's defaults: width 70, no indent, breaking allowed). */
  datatype WrapOptions = WrapOptions(width: nat, subsequentIndent: string, breakLongWords: bool, breakOnHyphens: bool)

  type Fill = (WrapOptions, string) -> string

  /** The arguments both renderers use for one list item. */
  const ListItemWrap := WrapOptions(70, "  ", false, false)

  /** The arguments both renderers use for the summary paragraph. */
  const SummaryWrap := WrapOptions(80, "", true, true)

  /** Each item prefixed with the bullet and filled on its own, in order. */
  function Bulleted(fill: Fill, bullet: string, items: seq<string>): (r: seq<string>)
    ensures |r| == |items|
    ensures forall k :: 0 <= k < |items| ==> r[k] == fill(ListItemWrap, bullet + items[k])
  {
    seq(|items|, k requires 0 <= k < |items| => fill(ListItemWrap, bullet + items[k]))
  }
}
