/** The document record of the search framework, as far as the core touches it:
    a text and a metadata dict that nodes update in place. */
module Documents {
  import opened PyValue

  class Document {
    var content: string
    var meta: seq<Entry>

    constructor (content: string, meta: seq<Entry>)
      ensures this.content == content && this.meta == meta
    {
      this.content := content;
      this.meta := meta;
    }
  }
}
