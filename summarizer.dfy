/** Page truncation of list replies before they are shown. */
module Summarizer {
  import opened Values

  const DefaultMaxItems := 3
  const DefaultRemainingMessage := "To see more items, please ask me to retrieve the next page."

  /** The options the handlers pass; an absent option takes its default. */
  datatype SummarizeOptions = SummarizeOptions(maxItems: Option<int>, remainingMessage: Option<string>)

  function MaxItemsOf(options: SummarizeOptions): int {
    if options.maxItems.Some? then options.maxItems.value else DefaultMaxItems
  }

  function MessageOf(options: SummarizeOptions): string {
    if options.remainingMessage.Some? then options.remainingMessage.value else DefaultRemainingMessage
  }

  /** `s.slice(0, end)`: a negative end counts back from the end of `s`. */
  function SliceTo<T>(s: seq<T>, end: int): (r: seq<T>)
    ensures |r| == (if end >= 0 then Min(end, |s|) else Max(|s| + end, 0))
    ensures r == s[..|r|]
  {
    if end >= 0 then (if end <= |s| then s[..end] else s)
    else if |s| + end > 0 then s[..|s| + end] else []
  }

  /** The record that replaces a collection longer than `maxItems`. */
  function Truncated(items: seq<Value>, total: int, maxItems: int, message: string): (v: Value)
    ensures v.Obj? && v.props.Keys == {"items", "total", "showing", "remaining", "message", "skip"}
    ensures 0 <= maxItems <= |items| ==> v.props["items"] == Arr(items[..maxItems])
    ensures v.props["showing"].Num? && v.props["remaining"].Num?
            && v.props["showing"].n + v.props["remaining"].n == total
    ensures v.props["skip"] == v.props["showing"] && v.props["message"] == Str(message)
  {
    Obj(map[
      "items" := Arr(SliceTo(items, maxItems)),
      "total" := Num(total),
      "showing" := Num(maxItems),
      "remaining" := Num(total - maxItems),
      "message" := Str(message),
      "skip" := Num(maxItems)])
  }

  /** A collection reply: an object with an `items` key and a `total` key. */
  predicate IsCollection(data: Value) {
    data.Obj? && "items" in data.props && "total" in data.props
  }

  /** A collection whose `items` is an array and whose `total` is a number. */
  predicate IsWellTypedCollection(data: Value) {
    IsCollection(data) && data.props["items"].Arr? && data.props["total"].Num?
  }

  function SummarizeData(data: Value, options: SummarizeOptions): (r: Value)
    // a well-typed collection no longer than maxItems, and anything that is
    // neither a collection nor an array, comes back unchanged
    ensures IsCollection(data) && !IsWellTypedCollection(data) ==> r == data
    ensures IsWellTypedCollection(data) && |data.props["items"].elems| <= MaxItemsOf(options) ==> r == data
    ensures !IsCollection(data) && !data.Arr? ==> r == data
    // a longer collection keeps its first maxItems items and its total, and
    // says how many remain and where the next page starts
    ensures IsWellTypedCollection(data) && |data.props["items"].elems| > MaxItemsOf(options) ==>
      var m := MaxItemsOf(options);
      && r.Obj? && r.props.Keys == {"items", "total", "showing", "remaining", "message", "skip"}
      && (m >= 0 ==> r.props["items"] == Arr(data.props["items"].elems[..m]))
      && r.props["total"] == data.props["total"]
      && r.props["showing"] == Num(m) && r.props["skip"] == Num(m)
      && r.props["remaining"] == Num(data.props["total"].n - m)
      && r.props["message"] == Str(MessageOf(options))
    // a plain array is kept up to maxItems elements, otherwise truncated with
    // its length as the total
    ensures data.Arr? && |data.elems| <= MaxItemsOf(options) ==> r == data
    ensures data.Arr? && |data.elems| > MaxItemsOf(options) ==>
      var m := MaxItemsOf(options);
      && r.Obj? && r.props.Keys == {"items", "total", "showing", "remaining", "message", "skip"}
      && (m >= 0 ==> r.props["items"] == Arr(data.elems[..m]))
      && r.props["total"] == Num(|data.elems|)
      && r.props["remaining"] == Num(|data.elems| - m)
      && r.props["showing"] == Num(m) && r.props["skip"] == Num(m)
      && r.props["message"] == Str(MessageOf(options))
  {
    var maxItems := MaxItemsOf(options);
    var message := MessageOf(options);
    if Truthy(data) && data.Obj? && "items" in data.props && "total" in data.props then
      var items := data.props["items"];
      var total := data.props["total"];
      if !items.Arr? || !total.Num? then data
      else if |items.elems| <= maxItems then data
      else Truncated(items.elems, total.n, maxItems, message)
    else if data.Arr? then
      if |data.elems| <= maxItems then data
      else Truncated(data.elems, |data.elems|, maxItems, message)
    else data
  }

  /** The items a summarized value shows: the `items` of a collection, the
      elements of an array, nothing otherwise. */
  function ShownItems(v: Value): seq<Value> {
    if v.Obj? && "items" in v.props && v.props["items"].Arr? then v.props["items"].elems
    else if v.Arr? then v.elems
    else []
  }

  /** Summarizing twice with the same non-negative maxItems changes nothing more:
      a truncated record shows exactly maxItems items. */
  lemma SummarizeIdempotent(data: Value, options: SummarizeOptions)
    requires MaxItemsOf(options) >= 0
    ensures SummarizeData(SummarizeData(data, options), options) == SummarizeData(data, options)
  {
  }

  /** For a non-negative maxItems, a collection or array is shown as its first
      min(n, maxItems) items, in order: never more than maxItems. */
  lemma {:induction false} SummarizeShowsPrefix(data: Value, options: SummarizeOptions)
    requires MaxItemsOf(options) >= 0
    requires IsWellTypedCollection(data) || data.Arr?
    ensures var all := if data.Arr? then data.elems else data.props["items"].elems;
            ShownItems(SummarizeData(data, options)) == all[..Min(|all|, MaxItemsOf(options))]
  {
    var all := if data.Arr? then data.elems else data.props["items"].elems;
    assert all[..|all|] == all;
  }
}
