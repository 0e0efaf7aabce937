/**
 * Pieces the two result screens are built from: a button bound to one of the
 * owner's callbacks, a list section that is rendered only when it has
 * entries, the props handed to the language selector, and the truthiness test
 * the screens apply to an optional string.
 */
module ScreenParts {
  import opened Types

  /** A button with its caption and the callback a click invokes. */
  datatype Button<A> = Button(caption: string, onClick: A)

  /** A list section: absent, or rendered with one entry per item, in order. */
  datatype Section<T> = Hidden | Shown(entries: seq<T>)

  /** What a result screen passes to its language selector. */
  datatype SelectorProps = SelectorProps(language: string, isTranslating: bool)

  /** A string prop tested with `if (s)`: `null` and `""` are both falsy. */
  predicate Truthy(s: Option<string>) {
    s.Some? && s.value != ""
  }

  /** The section for a list guarded by `list && list.length > 0`. */
  function SectionOf<T>(items: seq<T>): (s: Section<T>)
    ensures s.Shown? <==> |items| > 0
    ensures s.Shown? ==> s.entries == items
  {
    if |items| > 0 then Shown(items) else Hidden
  }
}
