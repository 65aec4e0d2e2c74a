/** The ST4 importer's XML-to-text rendering: each element of an entry's English
    content becomes plain text by a fixed rule per tag, and the entry becomes one
    document. */
module SchemaSt4 {
  import opened Wrappers
  import opened PyText
  import opened PyValue
  import opened Documents

  /** An XML element: its tag, its own text (before the first child), its
      attributes and its children. Tail text is not part of the model because the
      renderer never reads it. */
  datatype Node = Node(tag: string, text: Option<string>, attrib: map<string, string>, children: seq<Node>)

  /** `pd.read_html(...)[0].to_string(...)` of a `table` element: the table as
      text, or `None` when pandas raises. */
  type TableText = Node -> Option<string>

  /** `bool(element)`: an element is truthy when it has children. */
  predicate Truthy(n: Node)
  {
    |n.children| > 0
  }

  /** An optional text inside an f-string: `None` prints as "None". */
  function Show(s: Option<string>): string
  {
    if s.Some? then s.value else "None"
  }

  /** `node.attrib.get(key)` */
  function Attr(n: Node, key: string): Option<string>
  {
    if key in n.attrib then Some(n.attrib[key]) else None
  }

  /** `node.find(tag)`: the first child with that tag. */
  function Find(children: seq<Node>, tag: string): (r: Option<Node>)
    ensures r.Some? ==> r.value in children && r.value.tag == tag
    ensures r.Some? ==> exists i :: 0 <= i < |children| && children[i] == r.value && NoneWithTag(children[..i], tag)
    ensures r.None? ==> NoneWithTag(children, tag)
  {
    if children == [] then None
    else if children[0].tag == tag then
      assert children[..0] == [];
      Some(children[0])
    else
      var r := Find(children[1..], tag);
      assert r.Some? ==> exists i :: 0 <= i < |children| && children[i] == r.value && NoneWithTag(children[..i], tag) by {
        if r.Some? {
          var j :| 0 <= j < |children| - 1 && children[1..][j] == r.value && NoneWithTag(children[1..][..j], tag);
          assert children[..j + 1] == [children[0]] + children[1..][..j];
        }
      }
      r
  }

  /** No node of `nodes` has that tag. */
  predicate NoneWithTag(nodes: seq<Node>, tag: string)
  {
    forall k :: 0 <= k < |nodes| ==> nodes[k].tag != tag
  }

  /** The nodes of `nodes` with that tag, in order (`findall`). */
  function WithTag(nodes: seq<Node>, tag: string): (r: seq<Node>)
    ensures forall x :: x in r <==> x in nodes && x.tag == tag
    ensures |r| <= |nodes|
    ensures NoneWithTag(nodes, tag) <==> r == []
  {
    if nodes == [] then []
    else (if nodes[0].tag == tag then [nodes[0]] else []) + WithTag(nodes[1..], tag)
  }

  /** All elements below `n`, in document order (what `.//` searches). */
  function Descendants(n: Node): seq<Node>
    decreases n, 1, 0
  {
    DescendantsOfFirst(n, |n.children|)
  }

  /** The elements below the first `k` children of `n`, the children included. */
  function DescendantsOfFirst(n: Node, k: nat): seq<Node>
    requires k <= |n.children|
    decreases n, 0, k
  {
    if k == 0 then []
    else DescendantsOfFirst(n, k - 1) + [n.children[k - 1]] + Descendants(n.children[k - 1])
  }

  const InlineTags: set<string> := {"p", "emphasis", "sub", "i", "b"}

  /** The list comprehension at the end of `process_node`: empty pieces and lone
      newlines are dropped. */
  function Kept(texts: seq<string>): (r: seq<string>)
    ensures |r| <= |texts|
    ensures forall x :: x in r <==> x in texts && x != "" && x != "\n"
  {
    if texts == [] then []
    else
      var last := texts[|texts| - 1];
      Kept(texts[..|texts| - 1]) + if last != "" && last != "\n" then [last] else []
  }

  /** `"- " + x` for every rendering, in order. */
  function Dashed(texts: seq<string>): (r: seq<string>)
    ensures |r| == |texts|
  {
    seq(|texts|, k requires 0 <= k < |texts| => "- " + texts[k])
  }

  /** `"- " + node.text` for every node, in order. */
  function Bulleted(nodes: seq<Node>): (r: seq<string>)
    ensures |r| == |nodes|
  {
    seq(|nodes|, k requires 0 <= k < |nodes| => "- " + Show(nodes[k].text))
  }

  /** `f"{i+1}. {instruction.text}"` for every node, numbered from 1. */
  function Numbered(nodes: seq<Node>): (r: seq<string>)
    ensures |r| == |nodes|
  {
    seq(|nodes|, k requires 0 <= k < |nodes| => NatToString(k + 1) + ". " + Show(nodes[k].text))
  }

  lemma NumberedSnoc(nodes: seq<Node>, k: nat)
    requires k < |nodes|
    ensures Numbered(nodes[..k + 1]) == Numbered(nodes[..k]) + [NatToString(k + 1) + ". " + Show(nodes[k].text)]
  {
    var a := Numbered(nodes[..k + 1]);
    var b := Numbered(nodes[..k]) + [NatToString(k + 1) + ". " + Show(nodes[k].text)];
    assert |a| == |b|;
    forall i | 0 <= i < |a|
      ensures a[i] == b[i]
    {
      assert nodes[..k + 1][i] == nodes[i];
    }
  }

  // ---------------------------------------------------------------------------
  // The rendering rules, as functions (`None` means an exception was raised)

  /** `process_node(node, join_char)` */
  function Render(n: Node, joinChar: string, table: TableText): Option<string>
    decreases n, 3, 0
  {
    if n.tag == "sup" then Some("(see " + Show(n.text) + ")")
    else if n.tag == "indexentry" then Some("")
    else if n.tag == "img" then Some("(image of \"" + Show(Attr(n, "src")) + "\"")
    else
      match Pieces(n, table)
      case None => None
      case Some(texts) => Some(Join(Kept(texts), joinChar))
  }

  /** `cleaned_texts` before filtering, for the tags that do not return early. */
  function Pieces(n: Node, table: TableText): Option<seq<string>>
    decreases n, 2, 0
  {
    if n.tag in InlineTags then InlinePieces(n, table)
    else if n.tag == "link" then LinkPieces(n, table)
    else if n.tag == "ul" then ListingPieces(n, table)
    else if n.tag == "safety" then SafetyPieces(n)
    else if n.tag == "image-container" then ImageContainerPieces(n, table)
    else if n.tag == "table-container" then TableContainerPieces(n, table)
    else if n.tag == "table" then TablePieces(n, table)
    else if n.tag == "procedural-instructions" then Some(ProceduralPieces(n))
    else Children(n, table)
  }

  /** `process_children()`: every child rendered with the default "\n". */
  function Children(n: Node, table: TableText): Option<seq<string>>
    decreases n, 1, 0
  {
    RenderFirst(n, |n.children|, table)
  }

  /** The renderings of the first `k` children, or `None` if one of them raises. */
  function RenderFirst(n: Node, k: nat, table: TableText): (r: Option<seq<string>>)
    requires k <= |n.children|
    ensures r.Some? ==> |r.value| == k
    decreases n, 0, k
  {
    if k == 0 then Some([])
    else
      match RenderFirst(n, k - 1, table)
      case None => None
      case Some(done) =>
        match Render(n.children[k - 1], "\n", table)
        case None => None
        case Some(text) => Some(done + [text])
  }

  /** `p`, `emphasis`, `sub`, `i`, `b`: the stripped own text, if any, then the children. */
  function InlinePieces(n: Node, table: TableText): Option<seq<string>>
    decreases n, 1, 1
  {
    var own := if n.text.Some? && n.text.value != "" then [Strip(n.text.value)] else [];
    match Children(n, table)
    case None => None
    case Some(texts) => Some(own + texts)
  }

  /** `link`: "(link to <linkid>)", then the children. */
  function LinkPieces(n: Node, table: TableText): Option<seq<string>>
    decreases n, 1, 1
  {
    match Children(n, table)
    case None => None
    case Some(texts) => Some(["(link to " + Show(Attr(n, "linkid")) + ")"] + texts)
  }

  /** `ul`: "Listing:", then "- " and each child's rendering. */
  function ListingPieces(n: Node, table: TableText): Option<seq<string>>
    decreases n, 1, 1
  {
    match Children(n, table)
    case None => None
    case Some(listings) => Some(["Listing:"] + Dashed(listings))
  }

  /** `safety`: a notice quotes its first consequence; any other kind lists its
      cause, severity, consequences and the safety instructions found anywhere
      below it. A missing consequence or cause raises. */
  function SafetyPieces(n: Node): Option<seq<string>>
  {
    var severity := Attr(n, "severity");
    if Attr(n, "type") == Some("notice") then
      match Find(n.children, "consequence")
      case None => None
      case Some(consequence) => Some(["Safety notice: \"" + Show(consequence.text) + "\""])
    else
      match Find(n.children, "cause")
      case None => None
      case Some(cause) =>
        Some(["Safety Notice: \"" + Show(cause.text) + "\"", "Severity: " + Show(severity), "Consequences:"]
             + Bulleted(WithTag(n.children, "consequence"))
             + ["Instructions to fix:"]
             + Bulleted(WithTag(Descendants(n), "safety_instruction")))
  }

  /** `image-container`: the title when the title element has children; a
      table container with children is rendered and its text thrown away, so
      only its exceptions show. */
  function ImageContainerPieces(n: Node, table: TableText): Option<seq<string>>
    decreases n, 1, 1
  {
    var title := Find(n.children, "image-title");
    var own := if title.Some? && Truthy(title.value) then ["Image: " + Show(title.value.text)] else [];
    var container := Find(n.children, "table-container");
    if container.Some? && Truthy(container.value) then
      match Render(container.value, "\n", table)
      case None => None
      case Some(_) => Some(own)
    else Some(own)
  }

  /** `table-container`: when its `table` child has children, a heading naming
      the container's type ("Table:" for a header table), then the table. */
  function TableContainerPieces(n: Node, table: TableText): Option<seq<string>>
    decreases n, 1, 1
  {
    var t := Find(n.children, "table");
    if t.Some? && Truthy(t.value) then
      var kind := Attr(n, "type");
      var heading := if kind != Some("header") then "Table Type: \"" + Show(kind) + "\"" else "Table:";
      match Render(t.value, "\n", table)
      case None => None
      case Some(text) => Some([heading, text])
    else Some([])
  }

  /** `table`: the table text between start and end markers. */
  function TablePieces(n: Node, table: TableText): Option<seq<string>>
  {
    match table(n)
    case None => None
    case Some(text) => Some(["=== Table START ===", text, "=== Table END ==="])
  }

  /** `procedural-instructions`: "Instructions:" and the numbered instructions
      found anywhere below, or nothing when there are none. */
  function ProceduralPieces(n: Node): seq<string>
  {
    var instructions := WithTag(Descendants(n), "instruction");
    if |instructions| > 0 then ["Instructions:"] + Numbered(instructions) else []
  }

  // ---------------------------------------------------------------------------
  // The renderer as the source runs it: appending to `cleaned_texts`

  /** `process_node(node, join_char)` */
  method ProcessNode(node: Node, joinChar: string, table: TableText) returns (r: Option<string>)
    ensures r == Render(node, joinChar, table)
    decreases node, 3, 0
  {
    if node.tag == "sup" {
      return Some("(see " + Show(node.text) + ")");
    } else if node.tag == "indexentry" {
      return Some("");
    } else if node.tag == "img" {
      return Some("(image of \"" + Show(Attr(node, "src")) + "\"");
    }
    var cleanedTexts := CleanedTexts(node, table);
    if cleanedTexts.None? {
      return None;
    }
    var kept := Kept(cleanedTexts.value);
    r := Some(Join(kept, joinChar));
  }

  /** The `match node.tag` of `process_node`, for the tags that build `cleaned_texts`. */
  method CleanedTexts(node: Node, table: TableText) returns (r: Option<seq<string>>)
    ensures r == Pieces(node, table)
    decreases node, 2, 0
  {
    if node.tag in InlineTags {
      r := InlineTexts(node, table);
    } else if node.tag == "link" {
      r := LinkTexts(node, table);
    } else if node.tag == "ul" {
      r := ListingTexts(node, table);
    } else if node.tag == "safety" {
      r := SafetyTexts(node);
    } else if node.tag == "image-container" {
      r := ImageContainerTexts(node, table);
    } else if node.tag == "table-container" {
      r := TableContainerTexts(node, table);
    } else if node.tag == "table" {
      var text := table(node);
      if text.None? {
        return None;
      }
      r := Some(["=== Table START ===", text.value, "=== Table END ==="]);
    } else if node.tag == "procedural-instructions" {
      var texts := ProceduralTexts(node);
      r := Some(texts);
    } else {
      r := ProcessChildren(node, table);
    }
  }

  /** `process_children()` */
  method ProcessChildren(node: Node, table: TableText) returns (r: Option<seq<string>>)
    ensures r == Children(node, table)
    decreases node, 1, 0
  {
    var texts: seq<string> := [];
    var k := 0;
    while k < |node.children|
      invariant 0 <= k <= |node.children|
      invariant RenderFirst(node, k, table) == Some(texts)
    {
      var text := ProcessNode(node.children[k], "\n", table);
      if text.None? {
        RenderFailurePersists(node, k + 1, table);
        return None;
      }
      texts := texts + [text.value];
      k := k + 1;
    }
    r := Some(texts);
  }

  /** Once one of the first `k` children raises, rendering all of them raises. */
  lemma {:induction false} RenderFailurePersists(n: Node, k: nat, table: TableText)
    requires k <= |n.children| && RenderFirst(n, k, table).None?
    ensures Children(n, table).None?
    decreases |n.children| - k
  {
    if k < |n.children| {
      RenderFailurePersists(n, k + 1, table);
    }
  }

  method InlineTexts(node: Node, table: TableText) returns (r: Option<seq<string>>)
    ensures r == InlinePieces(node, table)
    decreases node, 1, 1
  {
    var cleanedTexts: seq<string> := [];
    if node.text.Some? && node.text.value != "" {
      cleanedTexts := cleanedTexts + [Strip(node.text.value)];
    }
    var children := ProcessChildren(node, table);
    if children.None? {
      return None;
    }
    cleanedTexts := cleanedTexts + children.value;
    r := Some(cleanedTexts);
    assert cleanedTexts == (if node.text.Some? && node.text.value != "" then [Strip(node.text.value)] else []) + children.value;
  }

  method LinkTexts(node: Node, table: TableText) returns (r: Option<seq<string>>)
    ensures r == LinkPieces(node, table)
    decreases node, 1, 1
  {
    var cleanedTexts := ["(link to " + Show(Attr(node, "linkid")) + ")"];
    var children := ProcessChildren(node, table);
    if children.None? {
      return None;
    }
    cleanedTexts := cleanedTexts + children.value;
    r := Some(cleanedTexts);
  }

  method ListingTexts(node: Node, table: TableText) returns (r: Option<seq<string>>)
    ensures r == ListingPieces(node, table)
    decreases node, 1, 1
  {
    var cleanedTexts := ["Listing:"];
    var listings := ProcessChildren(node, table);
    if listings.None? {
      return None;
    }
    var ls := listings.value;
    var k := 0;
    while k < |ls|
      invariant 0 <= k <= |ls|
      invariant cleanedTexts == ["Listing:"] + Dashed(ls[..k])
    {
      cleanedTexts := cleanedTexts + ["- " + ls[k]];
      assert Dashed(ls[..k + 1]) == Dashed(ls[..k]) + ["- " + ls[k]];
      k := k + 1;
    }
    assert ls[..k] == ls;
    r := Some(cleanedTexts);
  }

  /** Appending `"- " + node.text` for each of `nodes`. */
  method AppendBullets(texts: seq<string>, nodes: seq<Node>) returns (r: seq<string>)
    ensures r == texts + Bulleted(nodes)
  {
    r := texts;
    var k := 0;
    while k < |nodes|
      invariant 0 <= k <= |nodes|
      invariant r == texts + Bulleted(nodes[..k])
    {
      r := r + ["- " + Show(nodes[k].text)];
      assert Bulleted(nodes[..k + 1]) == Bulleted(nodes[..k]) + ["- " + Show(nodes[k].text)];
      k := k + 1;
    }
    assert nodes[..k] == nodes;
  }

  method SafetyTexts(node: Node) returns (r: Option<seq<string>>)
    ensures r == SafetyPieces(node)
  {
    var severity := Attr(node, "severity");
    if Attr(node, "type") == Some("notice") {
      var consequence := Find(node.children, "consequence");
      if consequence.None? {
        return None;
      }
      return Some(["Safety notice: \"" + Show(consequence.value.text) + "\""]);
    }
    var cause := Find(node.children, "cause");
    if cause.None? {
      return None;
    }
    var consequences := WithTag(node.children, "consequence");
    var instructions := WithTag(Descendants(node), "safety_instruction");
    var cleanedTexts := ["Safety Notice: \"" + Show(cause.value.text) + "\"", "Severity: " + Show(severity), "Consequences:"];
    cleanedTexts := AppendBullets(cleanedTexts, consequences);
    cleanedTexts := cleanedTexts + ["Instructions to fix:"];
    cleanedTexts := AppendBullets(cleanedTexts, instructions);
    r := Some(cleanedTexts);
  }

  method ImageContainerTexts(node: Node, table: TableText) returns (r: Option<seq<string>>)
    ensures r == ImageContainerPieces(node, table)
    decreases node, 1, 1
  {
    var cleanedTexts: seq<string> := [];
    var imageTitleNode := Find(node.children, "image-title");
    if imageTitleNode.Some? && Truthy(imageTitleNode.value) {
      cleanedTexts := cleanedTexts + ["Image: " + Show(imageTitleNode.value.text)];
      assert cleanedTexts == ["Image: " + Show(imageTitleNode.value.text)];
    }
    var tableContainer := Find(node.children, "table-container");
    if tableContainer.Some? && Truthy(tableContainer.value) {
      var discarded := ProcessNode(tableContainer.value, "\n", table);
      if discarded.None? {
        return None;
      }
    }
    r := Some(cleanedTexts);
  }

  method TableContainerTexts(node: Node, table: TableText) returns (r: Option<seq<string>>)
    ensures r == TableContainerPieces(node, table)
    decreases node, 1, 1
  {
    var cleanedTexts: seq<string> := [];
    var t := Find(node.children, "table");
    if t.Some? && Truthy(t.value) {
      var kind := Attr(node, "type");
      if kind != Some("header") {
        cleanedTexts := cleanedTexts + ["Table Type: \"" + Show(kind) + "\""];
      } else {
        cleanedTexts := cleanedTexts + ["Table:"];
      }
      var text := ProcessNode(t.value, "\n", table);
      if text.None? {
        return None;
      }
      cleanedTexts := cleanedTexts + [text.value];
      assert cleanedTexts == [cleanedTexts[0], text.value];
    }
    r := Some(cleanedTexts);
  }

  method ProceduralTexts(node: Node) returns (texts: seq<string>)
    ensures texts == ProceduralPieces(node)
  {
    texts := [];
    var instructions := WithTag(Descendants(node), "instruction");
    if |instructions| > 0 {
      texts := texts + ["Instructions:"];
      var k := 0;
      while k < |instructions|
        invariant 0 <= k <= |instructions|
        invariant texts == ["Instructions:"] + Numbered(instructions[..k])
      {
        var line := NatToString(k + 1) + ". " + Show(instructions[k].text);
        texts := texts + [line];
        NumberedSnoc(instructions, k);
        k := k + 1;
      }
      assert instructions[..k] == instructions;
    }
  }

  // ---------------------------------------------------------------------------
  // What the rendering rules guarantee

  /** The tags with a rule of their own; every other tag renders like a paragraph
      without text. */
  const SpecialTags: set<string> :=
    {"sup", "indexentry", "img", "ul", "safety", "image-container", "table-container", "table", "procedural-instructions"}

  /** The pieces a paragraph-like element puts before its children's renderings. */
  function Lead(n: Node): seq<string>
  {
    if n.tag in InlineTags then (if n.text.Some? && n.text.value != "" then [Strip(n.text.value)] else [])
    else if n.tag == "link" then ["(link to " + Show(Attr(n, "linkid")) + ")"]
    else []
  }

  /** Paragraph-like elements (inline tags, links and unknown tags) render their
      lead, then their children, filtered and joined. */
  lemma PassThroughPieces(n: Node, table: TableText)
    requires n.tag !in SpecialTags
    ensures Pieces(n, table) == if Children(n, table).None? then None else Some(Lead(n) + Children(n, table).value)
  {
    if n.tag !in InlineTags && n.tag != "link" && Children(n, table).Some? {
      assert Lead(n) + Children(n, table).value == Children(n, table).value;
    }
  }

  /** Filtering keeps a list whose every piece is visible. */
  lemma {:induction false} KeptAllVisible(texts: seq<string>)
    requires forall k :: 0 <= k < |texts| ==> texts[k] != "" && texts[k] != "\n"
    ensures Kept(texts) == texts
  {
    if texts != [] {
      KeptAllVisible(texts[..|texts| - 1]);
      assert texts[..|texts| - 1] + [texts[|texts| - 1]] == texts;
    }
  }

  /** An empty piece at the end of the list leaves the filtered list unchanged. */
  lemma KeptDropsEmptyLast(texts: seq<string>)
    ensures Kept(texts + [""]) == Kept(texts)
  {
    assert (texts + [""])[..|texts|] == texts;
  }

  /** `findall` keeps document order: the matches in a concatenation are the
      matches in its first part followed by those in its second. */
  lemma {:induction false} WithTagAppend(a: seq<Node>, b: seq<Node>, tag: string)
    ensures WithTag(a + b, tag) == WithTag(a, tag) + WithTag(b, tag)
  {
    if a != [] {
      assert (a + b)[1..] == a[1..] + b;
      assert WithTag(a + b, tag) == (if a[0].tag == tag then [a[0]] else []) + WithTag(a[1..] + b, tag);
      WithTagAppend(a[1..], b, tag);
    } else {
      assert a + b == b;
    }
  }

  /** The filter keeps order: the pieces kept from a concatenation are those kept
      from its first part followed by those kept from its second. */
  lemma {:induction false} KeptAppend(a: seq<string>, b: seq<string>)
    ensures Kept(a + b) == Kept(a) + Kept(b)
  {
    if b != [] {
      assert (a + b)[..|a + b| - 1] == a + b[..|b| - 1];
      KeptAppend(a, b[..|b| - 1]);
    } else {
      assert a + b == a;
    }
  }

  /** The children render together exactly when each of them renders, and then
      each rendering sits in its child's place. */
  lemma {:induction false} RenderFirstPointwise(n: Node, k: nat, table: TableText)
    requires k <= |n.children|
    ensures RenderFirst(n, k, table).Some? <==> forall i :: 0 <= i < k ==> Render(n.children[i], "\n", table).Some?
    ensures RenderFirst(n, k, table).Some? ==>
      forall i :: 0 <= i < k ==> Render(n.children[i], "\n", table) == Some(RenderFirst(n, k, table).value[i])
  {
    if k > 0 {
      RenderFirstPointwise(n, k - 1, table);
      var prev := RenderFirst(n, k - 1, table);
      var last := Render(n.children[k - 1], "\n", table);
      if prev.Some? && last.Some? {
        var texts := prev.value + [last.value];
        assert RenderFirst(n, k, table) == Some(texts);
        forall i | 0 <= i < k
          ensures Render(n.children[i], "\n", table) == Some(texts[i])
        {
          if i < k - 1 {
            assert texts[i] == prev.value[i];
          }
        }
      } else {
        assert RenderFirst(n, k, table).None?;
      }
    }
  }

  /** The renderings of the first `k` children depend only on those children. */
  lemma {:induction false} RenderFirstOfSameChildren(n: Node, m: Node, k: nat, table: TableText)
    requires k <= |n.children| && k <= |m.children|
    requires n.children[..k] == m.children[..k]
    ensures RenderFirst(n, k, table) == RenderFirst(m, k, table)
  {
    if k > 0 {
      assert n.children[..k - 1] == m.children[..k - 1];
      assert n.children[k - 1] == n.children[..k][k - 1] == m.children[k - 1];
      RenderFirstOfSameChildren(n, m, k - 1, table);
    }
  }

  /** Appending an index entry to an element's children appends an empty
      rendering to theirs. */
  lemma ChildrenWithIndexEntry(n: Node, entry: Node, table: TableText)
    requires entry.tag == "indexentry"
    ensures var m := n.(children := n.children + [entry]);
      Children(m, table) == if Children(n, table).None? then None else Some(Children(n, table).value + [""])
  {
    var m := n.(children := n.children + [entry]);
    var k := |n.children|;
    assert m.children[..k] == n.children[..k];
    RenderFirstOfSameChildren(n, m, k, table);
    assert m.children[k] == entry;
    assert Render(entry, "\n", table) == Some("");
  }

  /** An index entry renders as nothing, so appending one to a paragraph-like
      element does not change that element's text. */
  lemma IndexEntryIsInvisible(n: Node, entry: Node, joinChar: string, table: TableText)
    requires n.tag !in SpecialTags && entry.tag == "indexentry"
    ensures Render(n.(children := n.children + [entry]), joinChar, table) == Render(n, joinChar, table)
  {
    var m := n.(children := n.children + [entry]);
    ChildrenWithIndexEntry(n, entry, table);
    PassThroughPieces(n, table);
    PassThroughPieces(m, table);
    assert Lead(m) == Lead(n);
    if Children(n, table).Some? {
      var cs := Children(n, table).value;
      var ps := Lead(n) + cs;
      assert Lead(m) + (cs + [""]) == ps + [""];
      assert Pieces(m, table) == Some(ps + [""]);
      KeptDropsEmptyLast(ps);
    }
  }

  /** A paragraph-like element or a list raises as soon as one of its children does. */
  lemma ChildFailureFails(n: Node, k: nat, joinChar: string, table: TableText)
    requires n.tag !in SpecialTags || n.tag == "ul"
    requires k < |n.children| && Render(n.children[k], "\n", table).None?
    ensures Render(n, joinChar, table).None?
  {
    assert RenderFirst(n, k + 1, table).None?;
    RenderFailurePersists(n, k + 1, table);
    if n.tag != "ul" {
      PassThroughPieces(n, table);
    } else {
      assert Pieces(n, table) == ListingPieces(n, table);
    }
  }

  /** A list renders as "Listing:" and one "- " line per child, every line kept. */
  lemma ListingLines(n: Node, joinChar: string, table: TableText)
    requires n.tag == "ul" && Children(n, table).Some?
    ensures Render(n, joinChar, table) == Some(Join(["Listing:"] + Dashed(Children(n, table).value), joinChar))
  {
    var texts := ["Listing:"] + Dashed(Children(n, table).value);
    assert Pieces(n, table) == ListingPieces(n, table) == Some(texts);
    forall k | 0 <= k < |texts|
      ensures texts[k] != "" && texts[k] != "\n"
    {
      if k > 0 {
        assert texts[k][..2] == "- ";
      }
    }
    KeptAllVisible(texts);
  }

  /** Every numbered line starts with a digit, so none is empty or a lone newline. */
  lemma NumberedVisible(nodes: seq<Node>)
    ensures forall k :: 0 <= k < |nodes| ==> |Numbered(nodes)[k]| > 0 && '0' <= Numbered(nodes)[k][0] <= '9'
  {
    forall k | 0 <= k < |nodes|
      ensures |Numbered(nodes)[k]| > 0 && '0' <= Numbered(nodes)[k][0] <= '9'
    {
      var digits := NatToString(k + 1);
      assert Numbered(nodes)[k] == digits + (". " + Show(nodes[k].text));
    }
  }

  /** Procedural instructions render as "Instructions:" and the numbered
      instructions found below, or as nothing when there are none. */
  lemma ProceduralLines(n: Node, joinChar: string, table: TableText)
    requires n.tag == "procedural-instructions"
    ensures var instructions := WithTag(Descendants(n), "instruction");
      Render(n, joinChar, table) ==
        if instructions == [] then Some("") else Some(Join(["Instructions:"] + Numbered(instructions), joinChar))
  {
    var instructions := WithTag(Descendants(n), "instruction");
    assert Pieces(n, table) == Some(ProceduralPieces(n));
    assert Render(n, joinChar, table) == Some(Join(Kept(ProceduralPieces(n)), joinChar));
    if instructions != [] {
      InstructionLinesVisible(instructions);
    }
  }

  /** No line of a numbered instruction list is dropped by the filter. */
  lemma InstructionLinesVisible(instructions: seq<Node>)
    ensures Kept(["Instructions:"] + Numbered(instructions)) == ["Instructions:"] + Numbered(instructions)
  {
    var texts := ["Instructions:"] + Numbered(instructions);
    NumberedVisible(instructions);
    forall k | 0 <= k < |texts|
      ensures texts[k] != "" && texts[k] != "\n"
    {
      if k > 0 {
        assert texts[k] == Numbered(instructions)[k - 1];
      }
    }
    KeptAllVisible(texts);
  }

  /** A table container shows nothing unless its first `table` child has
      children; then it shows a heading naming the container's type ("Table:"
      for a header table) followed by the table, unless the table renders as
      nothing. A failing table makes the container fail. */
  lemma TableContainerRendering(n: Node, joinChar: string, table: TableText)
    requires n.tag == "table-container"
    ensures var t := Find(n.children, "table");
      var kind := Attr(n, "type");
      var heading := if kind == Some("header") then "Table:" else "Table Type: \"" + Show(kind) + "\"";
      && (t.None? || !Truthy(t.value) ==> Render(n, joinChar, table) == Some(""))
      && (t.Some? && Truthy(t.value) ==>
            Render(n, joinChar, table) ==
              match Render(t.value, "\n", table)
              case None => None
              case Some(text) => Some(if text == "" || text == "\n" then heading else heading + joinChar + text))
  {
    var t := Find(n.children, "table");
    assert Pieces(n, table) == TableContainerPieces(n, table);
    if t.Some? && Truthy(t.value) {
      var kind := Attr(n, "type");
      var heading := if kind == Some("header") then "Table:" else "Table Type: \"" + Show(kind) + "\"";
      assert heading != "" && heading != "\n" by {
        if kind != Some("header") {
          assert heading[..6] == "Table ";
        }
      }
      match Render(t.value, "\n", table)
      case None =>
      case Some(text) =>
        HeadingThenText(heading, text, joinChar);
    }
  }

  /** A visible heading followed by a piece: the piece shows on the next line
      unless the filter drops it. */
  lemma HeadingThenText(heading: string, text: string, joinChar: string)
    requires heading != "" && heading != "\n"
    ensures Join(Kept([heading, text]), joinChar) ==
      if text == "" || text == "\n" then heading else heading + joinChar + text
  {
    assert Kept([heading]) == [heading];
    KeptAppend([heading], [text]);
    assert [heading] + [text] == [heading, text];
    assert Join([heading, text], joinChar) == Join([heading], joinChar) + joinChar + text;
  }

  /** An image container shows at most its title: the text of a table container
      inside it is rendered but never shown, and a title element without children
      is not shown either. */
  lemma ImageContainerShowsOnlyTitle(n: Node, joinChar: string, table: TableText)
    requires n.tag == "image-container" && Render(n, joinChar, table).Some?
    ensures var title := Find(n.children, "image-title");
      Render(n, joinChar, table) ==
        Some(if title.Some? && Truthy(title.value) then "Image: " + Show(title.value.text) else "")
  {
    var title := Find(n.children, "image-title");
    assert Pieces(n, table) == ImageContainerPieces(n, table);
    if title.Some? && Truthy(title.value) {
      var line := "Image: " + Show(title.value.text);
      assert line[..7] == "Image: ";
      KeptAllVisible([line]);
    }
  }

  /** A notice without a consequence child raises, and so does any other safety
      message without a cause child. */
  lemma SafetyNeedsItsParts(n: Node, joinChar: string, table: TableText)
    requires n.tag == "safety"
    ensures Render(n, joinChar, table).None? <==>
      if Attr(n, "type") == Some("notice") then Find(n.children, "consequence").None?
      else Find(n.children, "cause").None?
  {
  }

  // ---------------------------------------------------------------------------
  // Entries

  /** One entry of an ST4 export: its languages, its XML content and titles per
      language, its type and its label. */
  datatype St4Entry = St4Entry(
    languages: seq<string>,
    content: map<string, string>,
    titles: Option<map<string, string>>,
    entryType: string,
    entryLabel: string)

  /** `ET.fromstring`: the parsed root element, or `None` when the XML is malformed. */
  type XmlParser = string -> Option<Node>

  /** `process_entry(entry, filename)`: the English text and the metadata of the
      document made from an entry, or `None` when the entry has no English
      content or when processing it raises. */
  function EntryDocument(entry: St4Entry, filename: string, parse: XmlParser, table: TableText): (r: Option<(string, seq<Entry>)>)
    ensures r.Some? <==>
      && "en" in entry.languages && "en" in entry.content
      && parse(entry.content["en"]).Some?
      && (var root := parse(entry.content["en"]).value;
          forall i :: 0 <= i < |root.children| ==> Render(root.children[i], "\n", table).Some?)
      && entry.titles.Some?
    ensures r.Some? ==> Keys(r.value.1) == ["filename", "type", "label", "title"]
    ensures r.Some? ==> Get(r.value.1, "title") == Some(Str(if "en" in entry.titles.value then entry.titles.value["en"] else ""))
  {
    if "en" !in entry.languages then None
    else if |entry.content| == 0 || "en" !in entry.content then None
    else
      match parse(entry.content["en"])
      case None => None
      case Some(root) =>
        RenderFirstPointwise(root, |root.children|, table);
        match Children(root, table)
        case None => None
        case Some(parts) =>
          var joined := Join(parts, "\n");
          if entry.titles.None? then None
          else
            var titles := entry.titles.value;
            var text := if |titles| > 0 && "en" in titles then titles["en"] + "\n" + joined else joined;
            Some((text, [Entry("filename", Str(filename)), Entry("type", Str(entry.entryType)),
                         Entry("label", Str(entry.entryLabel)),
                         Entry("title", Str(if "en" in titles then titles["en"] else ""))]))
  }

  /** `process_entry(entry, filename)` */
  method ProcessEntry(entry: St4Entry, filename: string, parse: XmlParser, table: TableText) returns (doc: Option<Document>)
    ensures doc.None? <==> EntryDocument(entry, filename, parse, table).None?
    ensures doc.Some? ==>
      && fresh(doc.value)
      && doc.value.content == EntryDocument(entry, filename, parse, table).value.0
      && doc.value.meta == EntryDocument(entry, filename, parse, table).value.1
  {
    if "en" !in entry.languages {
      return None;
    }
    if |entry.content| == 0 || "en" !in entry.content {
      return None;
    }
    var content := entry.content["en"];
    var et := parse(content);
    if et.None? {
      return None;
    }
    var root := et.value;
    var cleanedContents: seq<string> := [];
    var k := 0;
    while k < |root.children|
      invariant 0 <= k <= |root.children|
      invariant RenderFirst(root, k, table) == Some(cleanedContents)
    {
      var text := ProcessNode(root.children[k], "\n", table);
      if text.None? {
        RenderFailurePersists(root, k + 1, table);
        return None;
      }
      cleanedContents := cleanedContents + [text.value];
      k := k + 1;
    }
    var joinedContents := Join(cleanedContents, "\n");
    if entry.titles.Some? && |entry.titles.value| > 0 && "en" in entry.titles.value {
      joinedContents := entry.titles.value["en"] + "\n" + joinedContents;
    }
    if entry.titles.None? {
      return None;
    }
    var titles := entry.titles.value;
    var d := new Document(joinedContents,
      [Entry("filename", Str(filename)), Entry("type", Str(entry.entryType)), Entry("label", Str(entry.entryLabel)),
       Entry("title", Str(if "en" in titles then titles["en"] else ""))]);
    doc := Some(d);
  }

  /** The document's text: the English title on a line of its own when there is
      one, then the renderings of the top-level elements, each in its place and
      none filtered out, joined by newlines. */
  lemma EntryText(entry: St4Entry, filename: string, parse: XmlParser, table: TableText)
    requires EntryDocument(entry, filename, parse, table).Some?
    ensures var root := parse(entry.content["en"]).value;
      var parts := Children(root, table).value;
      var titles := entry.titles.value;
      && |parts| == |root.children|
      && (forall i :: 0 <= i < |parts| ==> Render(root.children[i], "\n", table) == Some(parts[i]))
      && EntryDocument(entry, filename, parse, table).value.0 ==
           (if "en" in titles then titles["en"] + "\n" else "") + Join(parts, "\n")
  {
    var root := parse(entry.content["en"]).value;
    RenderFirstPointwise(root, |root.children|, table);
    var titles := entry.titles.value;
    if "en" in titles {
      assert "en" in titles.Keys;
      assert |titles.Keys| > 0;
    }
  }

  /** An entry with an English title starts with that title on a line of its own. */
  lemma EntryStartsWithTitle(entry: St4Entry, filename: string, parse: XmlParser, table: TableText)
    requires EntryDocument(entry, filename, parse, table).Some?
    requires "en" in entry.titles.value
    ensures var text := EntryDocument(entry, filename, parse, table).value.0;
      var title := entry.titles.value["en"];
      |title| + 1 <= |text| && text[..|title| + 1] == title + "\n"
  {
    var titles := entry.titles.value;
    assert "en" in titles.Keys;
    assert |titles.Keys| > 0;
  }
}
