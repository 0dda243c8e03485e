/**
 * `PlaceholderContent`, the list model that both activities share. Its code
 * is not part of this model: what `MainActivity` does to it is recorded as
 * the sequence of calls it makes, and what `ListActivity` reads from it is
 * the `ITEMS` list with each item's `name` and `checked` members.
 */
module PlaceholderContent {

  /** One entry of `PlaceholderContent.ITEMS`, as far as the activities read it. */
  datatype PlaceholderPackage = PlaceholderPackage(name: string, checked: bool)

  /** A call into `PlaceholderContent`: `ITEMS.clear()`, `addItem(pkgInfo, label, icon, checked, stats)` or `sort()`. */
  datatype ContentCall<P> =
    | ClearItems
    | AddItem(pkgInfo: P, appLabel: string, checked: bool)
    | SortItems

  /** The singleton `PlaceholderContent`, observed through the calls made into it. */
  class ContentLog<P> {
    var calls: seq<ContentCall<P>>

    constructor ()
      ensures calls == []
    {
      calls := [];
    }

    method Record(call: ContentCall<P>)
      modifies this
      ensures calls == old(calls) + [call]
    {
      calls := calls + [call];
    }
  }
}
