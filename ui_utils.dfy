/** The dashboard helper that turns a search hit into a link back to its source. */
module UiUtils {
  import opened Wrappers
  import opened PyValue
  import opened Documents

  /** `meta.get(key)` is present and truthy. */
  predicate HasTruthy(meta: seq<Entry>, key: string)
  {
    Get(meta, key).Some? && Truthy(Get(meta, key).value)
  }

  /** `get_backlink(document)`: the document's url and title when both are present
      and truthy, otherwise `(None, None)`. It only reads the document. */
  function GetBacklink(doc: Document): (r: (Option<Value>, Option<Value>))
    reads doc
    ensures r.0.Some? <==> r.1.Some?
    ensures r.0.Some? <==> HasTruthy(doc.meta, "url") && HasTruthy(doc.meta, "title")
    ensures r.0.Some? ==> r == (Get(doc.meta, "url"), Get(doc.meta, "title"))
    ensures r.0.Some? ==> Truthy(r.0.value) && Truthy(r.1.value)
  {
    var meta := doc.meta;
    var url := Get(meta, "url");
    var title := Get(meta, "title");
    if url.Some? && Truthy(url.value) && title.Some? && Truthy(title.value) then (url, title)
    else (None, None)
  }
}
