/**
 * Link and asset selection of the HTTP fetcher (fetcher.go). Loading and
 * parsing the page and the CSS selection are replaced by a `Document` that
 * lists, in document order, the nodes each selector finds; resolving an
 * attribute value against the page URL (`normaliseUrl`) is the parameter
 * `normalise`, which yields `None` where the URL does not parse.
 */
module HttpFetcher {
  import opened Wrappers
  import opened Domain

  datatype NodeType = ErrorNode | TextNode | DocumentNode | ElementNode | CommentNode | DoctypeNode

  datatype Attribute = Attribute(key: string, val: string)

  /** A parsed node: its type, its interned tag name (`""` for none) and its attributes in order. */
  datatype Node = Node(nodeType: NodeType, dataAtom: string, attr: seq<Attribute>)

  /** The interned name of the anchor tag. */
  const AtomA := "a"

  datatype HrefError = InvalidNode | InvalidNodeAttributeMissing

  /**
   * A loaded page: its URL, and the nodes matched by the selectors `a`, `img`,
   * `script` and `link`; a node slot may be nil. The anchor selection itself
   * may be nil.
   */
  datatype Document = Document(
    url: Url,
    anchors: Option<seq<Option<Node>>>,
    images: seq<Option<Node>>,
    scripts: seq<Option<Node>>,
    links: seq<Option<Node>>)

  /** Resolve an attribute value against the page URL; `None` when it does not parse. */
  type Normaliser = (Url, string) -> Option<Url>

  /** Loading a page by its URL string: the parsed document, or the cause of the failure. */
  datatype Load = Loaded(doc: Document) | LoadFailed(cause: string)

  // ---- extractValidHref ----

  predicate IsAnchor(n: Option<Node>) {
    n.Some? && n.value.nodeType == ElementNode && n.value.dataAtom == AtomA
  }

  predicate IsHref(a: Attribute) {
    a.key == "href" && a.val != ""
  }

  /** The first attribute that is a non-empty `href`, scanning in order. */
  function FirstHref(attrs: seq<Attribute>): (r: Option<string>)
    ensures r.None? <==> forall j :: 0 <= j < |attrs| ==> !IsHref(attrs[j])
    ensures r.Some? ==> exists j :: 0 <= j < |attrs| && IsHref(attrs[j]) && attrs[j].val == r.value
                                  && forall j' :: 0 <= j' < j ==> !IsHref(attrs[j'])
  {
    if attrs == [] then None
    else if IsHref(attrs[0]) then Some(attrs[0].val)
    else
      var r := FirstHref(attrs[1..]);
      assert forall j :: 1 <= j < |attrs| ==> attrs[j] == attrs[1..][j - 1];
      r
  }

  /**
   * extractValidHref: a node that is not an anchor element is `InvalidNode`;
   * an anchor yields its first non-empty `href` value, or
   * `InvalidNodeAttributeMissing` when it has none. An error comes with `""`.
   */
  function ExtractValidHref(n: Option<Node>): (r: (string, Option<HrefError>))
    ensures r.1.Some? ==> r.0 == ""
    ensures r.1 == Some(InvalidNode) <==> !IsAnchor(n)
    ensures r.1 == Some(InvalidNodeAttributeMissing) <==>
              IsAnchor(n) && forall j :: 0 <= j < |n.value.attr| ==> !IsHref(n.value.attr[j])
    ensures r.1.None? ==> IsAnchor(n) && r.0 != ""
    ensures r.1.None? ==> exists j :: 0 <= j < |n.value.attr| && IsHref(n.value.attr[j]) && n.value.attr[j].val == r.0
                                    && forall j' :: 0 <= j' < j ==> !IsHref(n.value.attr[j'])
  {
    if !IsAnchor(n) then ("", Some(InvalidNode))
    else match FirstHref(n.value.attr)
      case Some(v) => (v, None)
      case None => ("", Some(InvalidNodeAttributeMissing))
  }

  /**
   * The cases of httpfetcher_test.go: an anchor's `href` is found behind
   * another attribute; a zero-valued node (an error node with no atom), a nil
   * node, a document node and a `div` element are not anchors; an anchor without attributes or with only a `title` has no `href`.
   */
  lemma ExtractValidHrefExamples()
    ensures ExtractValidHref(Some(Node(ElementNode, AtomA, [Attribute("href", "https://example.com")])))
         == ("https://example.com", None)
    ensures ExtractValidHref(Some(Node(ElementNode, AtomA,
              [Attribute("title", "Many links, such wow"), Attribute("href", "/doc/")])))
         == ("/doc/", None)
    ensures ExtractValidHref(Some(Node(ErrorNode, "", []))) == ("", Some(InvalidNode))
    ensures ExtractValidHref(None) == ("", Some(InvalidNode))
    ensures ExtractValidHref(Some(Node(DocumentNode, "", []))) == ("", Some(InvalidNode))
    ensures ExtractValidHref(Some(Node(ElementNode, "div", []))) == ("", Some(InvalidNode))
    ensures ExtractValidHref(Some(Node(ElementNode, AtomA, []))) == ("", Some(InvalidNodeAttributeMissing))
    ensures ExtractValidHref(Some(Node(ElementNode, AtomA, [Attribute("title", "Many links, such wow")])))
         == ("", Some(InvalidNodeAttributeMissing))
  {
    var title := [Attribute("title", "Many links, such wow"), Attribute("href", "/doc/")];
    assert !IsHref(title[0]) && FirstHref(title[1..]) == Some("/doc/");
    assert "div" != AtomA;
  }

  // ---- extractLinks ----

  /** What one selected anchor contributes: its resolved `href` when it validates and resolves. */
  function AnchorTarget(n: Option<Node>, base: Url, normalise: Normaliser): Option<Url> {
    var (href, err) := ExtractValidHref(n);
    if err.Some? || href == "" then None else normalise(base, href)
  }

  /** The resolved targets of the anchors, in document order. */
  function AnchorTargets(nodes: seq<Option<Node>>, base: Url, normalise: Normaliser): (r: seq<Url>)
    ensures |r| <= |nodes|
  {
    if nodes == [] then []
    else
      var last := AnchorTarget(nodes[|nodes| - 1], base, normalise);
      AnchorTargets(nodes[..|nodes| - 1], base, normalise) + (if last.Some? then [last.value] else [])
  }

  /** The targets of a concatenation are the targets of each part, in order. */
  lemma {:induction false} AnchorTargetsAppend(a: seq<Option<Node>>, b: seq<Option<Node>>, base: Url, normalise: Normaliser)
    ensures AnchorTargets(a + b, base, normalise) == AnchorTargets(a, base, normalise) + AnchorTargets(b, base, normalise)
    decreases |b|
  {
    if b == [] {
      assert a + b == a;
    } else {
      var b' := b[..|b| - 1];
      var last := AnchorTarget(b[|b| - 1], base, normalise);
      var tail := if last.Some? then [last.value] else [];
      assert (a + b)[..|a + b| - 1] == a + b';
      assert (a + b)[|a + b| - 1] == b[|b| - 1];
      AnchorTargetsAppend(a, b', base, normalise);
      calc {
        AnchorTargets(a + b, base, normalise);
        AnchorTargets(a + b', base, normalise) + tail;
        (AnchorTargets(a, base, normalise) + AnchorTargets(b', base, normalise)) + tail;
        AnchorTargets(a, base, normalise) + (AnchorTargets(b', base, normalise) + tail);
        AnchorTargets(a, base, normalise) + AnchorTargets(b, base, normalise);
      }
    }
  }

  /**
   * A URL is extracted exactly when some node is an anchor whose first
   * non-empty `href` resolves to it.
   */
  lemma {:induction false} AnchorTargetsMember(nodes: seq<Option<Node>>, base: Url, normalise: Normaliser, u: Url)
    ensures u in AnchorTargets(nodes, base, normalise) <==>
              exists j :: 0 <= j < |nodes| && IsAnchor(nodes[j]) && FirstHref(nodes[j].value.attr).Some?
                          && normalise(base, FirstHref(nodes[j].value.attr).value) == Some(u)
  {
    if nodes != [] {
      var init := nodes[..|nodes| - 1];
      AnchorTargetsMember(init, base, normalise, u);
      assert forall j :: 0 <= j < |init| ==> init[j] == nodes[j];
    }
  }

  /**
   * extractLinks: validate every selected anchor in order and keep the
   * resolved `href` of each one that validates, has a non-empty value and
   * resolves. A nil selection yields no links. Never an error.
   */
  method ExtractLinks(doc: Document, normalise: Normaliser) returns (urls: seq<Url>, err: Option<string>)
    ensures err == None
    ensures doc.anchors.None? ==> urls == []
    ensures doc.anchors.Some? ==> urls == AnchorTargets(doc.anchors.value, doc.url, normalise)
  {
    urls := [];
    err := None;
    if doc.anchors.None? {
      return;
    }
    var nodes := doc.anchors.value;
    for i := 0 to |nodes|
      invariant urls == AnchorTargets(nodes[..i], doc.url, normalise)
    {
      assert nodes[..i + 1][..i] == nodes[..i];
      var (href, e) := ExtractValidHref(nodes[i]);
      if e.Some? || href == "" {
        continue;
      }
      var uri := normalise(doc.url, href);
      if uri.Some? {
        urls := urls + [uri.value];
      }
    }
    assert nodes[..|nodes|] == nodes;
  }

  // ---- extractAssets ----

  predicate IsSrc(a: Attribute, base: Url, normalise: Normaliser) {
    a.key == "src" && a.val != "" && normalise(base, a.val).Some?
  }

  /** The first non-empty `src` attribute that resolves, resolved; later ones are not looked at. */
  function SrcAsset(attrs: seq<Attribute>, base: Url, normalise: Normaliser): (r: Option<Url>)
    ensures r.None? <==> forall j :: 0 <= j < |attrs| ==> !IsSrc(attrs[j], base, normalise)
    ensures r.Some? ==> exists j :: 0 <= j < |attrs| && IsSrc(attrs[j], base, normalise)
                                  && r == normalise(base, attrs[j].val)
                                  && forall j' :: 0 <= j' < j ==> !IsSrc(attrs[j'], base, normalise)
  {
    if attrs == [] then None
    else if IsSrc(attrs[0], base, normalise) then normalise(base, attrs[0].val)
    else
      var r := SrcAsset(attrs[1..], base, normalise);
      assert forall j :: 1 <= j < |attrs| ==> attrs[j] == attrs[1..][j - 1];
      r
  }

  /** A list of at most one URL. */
  function Emit(u: Option<Url>): seq<Url> {
    if u.Some? then [u.value] else []
  }

  /** What one `img` (or `script`) node contributes; a nil node contributes nothing. */
  function SrcOf(n: Option<Node>, base: Url, normalise: Normaliser): Option<Url> {
    if n.Some? then SrcAsset(n.value.attr, base, normalise) else None
  }

  /** The assets of the `img` (or `script`) nodes: at most one per non-nil node, in document order. */
  function SrcAssets(nodes: seq<Option<Node>>, base: Url, normalise: Normaliser): (r: seq<Url>)
    ensures |r| <= |nodes|
  {
    if nodes == [] then []
    else SrcAssets(nodes[..|nodes| - 1], base, normalise) + Emit(SrcOf(nodes[|nodes| - 1], base, normalise))
  }

  /** One more node adds its own `src` asset, or nothing. */
  lemma SrcAssetsPrefix(nodes: seq<Option<Node>>, i: nat, base: Url, normalise: Normaliser)
    requires i < |nodes|
    ensures SrcAssets(nodes[..i + 1], base, normalise)
         == SrcAssets(nodes[..i], base, normalise) + Emit(SrcOf(nodes[i], base, normalise))
  {
    assert nodes[..i + 1][..i] == nodes[..i];
  }

  /** A URL is an asset of the nodes exactly when it is the `src` asset of one of them. */
  lemma {:induction false} SrcAssetsMember(nodes: seq<Option<Node>>, base: Url, normalise: Normaliser, u: Url)
    ensures u in SrcAssets(nodes, base, normalise) <==>
              exists j :: 0 <= j < |nodes| && SrcOf(nodes[j], base, normalise) == Some(u)
  {
    if nodes != [] {
      var init := nodes[..|nodes| - 1];
      var last := SrcOf(nodes[|nodes| - 1], base, normalise);
      SrcAssetsMember(init, base, normalise, u);
      assert u in Emit(last) <==> last == Some(u);
      assert forall j :: 0 <= j < |init| ==> init[j] == nodes[j];
    }
  }

  /** The position of the last attribute named `key`, or -1 when there is none. */
  function LastIndex(attrs: seq<Attribute>, key: string): (r: int)
    ensures -1 <= r < |attrs|
    ensures r == -1 <==> forall j :: 0 <= j < |attrs| ==> attrs[j].key != key
    ensures r >= 0 ==> attrs[r].key == key && forall j :: r < j < |attrs| ==> attrs[j].key != key
  {
    if attrs == [] then -1
    else if attrs[|attrs| - 1].key == key then |attrs| - 1
    else
      var init := attrs[..|attrs| - 1];
      assert forall j :: 0 <= j < |init| ==> attrs[j] == init[j];
      LastIndex(init, key)
  }

  /** The value of the last attribute named `key`: the one a loop that overwrites on every match keeps. */
  function LastValue(attrs: seq<Attribute>, key: string): Option<string> {
    var i := LastIndex(attrs, key);
    if i < 0 then None else Some(attrs[i].val)
  }

  /** One more attribute replaces the value kept for its key and leaves the others. */
  lemma LastValuePrefix(attrs: seq<Attribute>, i: nat, key: string)
    requires i < |attrs|
    ensures LastValue(attrs[..i + 1], key) == if attrs[i].key == key then Some(attrs[i].val) else LastValue(attrs[..i], key)
  {
    assert attrs[..i + 1][..i] == attrs[..i];
  }

  /**
   * What one `<link>` contributes: the resolution of its last `href`, when
   * there is one and it resolves, and its last `rel` is `stylesheet` with last
   * `type` `text/css`, or its last `rel` is `shortcut icon`. A missing `rel` or
   * `type` counts as `""`.
   */
  function LinkAsset(attrs: seq<Attribute>, base: Url, normalise: Normaliser): Option<Url> {
    var rel := LastValue(attrs, "rel").GetOr("");
    var linkType := LastValue(attrs, "type").GetOr("");
    var href := LastValue(attrs, "href");
    if href.None? then None
    else if (rel == "stylesheet" && linkType == "text/css") || rel == "shortcut icon" then normalise(base, href.value)
    else None
  }

  /** What one `<link>` node contributes; a nil node contributes nothing. */
  function LinkOf(n: Option<Node>, base: Url, normalise: Normaliser): Option<Url> {
    if n.Some? then LinkAsset(n.value.attr, base, normalise) else None
  }

  /** The assets of the `link` nodes, at most one per non-nil node, in document order. */
  function LinkAssets(nodes: seq<Option<Node>>, base: Url, normalise: Normaliser): (r: seq<Url>)
    ensures |r| <= |nodes|
  {
    if nodes == [] then []
    else LinkAssets(nodes[..|nodes| - 1], base, normalise) + Emit(LinkOf(nodes[|nodes| - 1], base, normalise))
  }

  /** One more node adds its own `<link>` asset, or nothing. */
  lemma LinkAssetsPrefix(nodes: seq<Option<Node>>, i: nat, base: Url, normalise: Normaliser)
    requires i < |nodes|
    ensures LinkAssets(nodes[..i + 1], base, normalise)
         == LinkAssets(nodes[..i], base, normalise) + Emit(LinkOf(nodes[i], base, normalise))
  {
    assert nodes[..i + 1][..i] == nodes[..i];
  }

  /** A URL is a `<link>` asset exactly when one of the nodes contributes it. */
  lemma {:induction false} LinkAssetsMember(nodes: seq<Option<Node>>, base: Url, normalise: Normaliser, u: Url)
    ensures u in LinkAssets(nodes, base, normalise) <==>
              exists j :: 0 <= j < |nodes| && LinkOf(nodes[j], base, normalise) == Some(u)
  {
    if nodes != [] {
      var init := nodes[..|nodes| - 1];
      var last := LinkOf(nodes[|nodes| - 1], base, normalise);
      LinkAssetsMember(init, base, normalise, u);
      assert u in Emit(last) <==> last == Some(u);
      assert forall j :: 0 <= j < |init| ==> init[j] == nodes[j];
    }
  }

  /** The `src` scan of one `img` or `script` node: stop at the first non-empty `src` that resolves. */
  method FindSrc(attrs: seq<Attribute>, base: Url, normalise: Normaliser) returns (uri: Option<Url>)
    ensures uri == SrcAsset(attrs, base, normalise)
  {
    var i := 0;
    while i < |attrs|
      invariant 0 <= i <= |attrs|
      invariant SrcAsset(attrs, base, normalise) == SrcAsset(attrs[i..], base, normalise)
    {
      var a := attrs[i];
      if a.key == "src" && a.val != "" {
        var u := normalise(base, a.val);
        if u.Some? {
          return u;
        }
      }
      assert attrs[i..][1..] == attrs[i + 1..];
      i := i + 1;
    }
    return None;
  }

  /** The attribute scan of one `<link>` node: the last `rel`, `type` and `href` win. */
  method ScanLink(attrs: seq<Attribute>, base: Url, normalise: Normaliser) returns (uri: Option<Url>)
    ensures uri == LinkAsset(attrs, base, normalise)
  {
    var rel, linkType := "", "";
    var href: Option<Url> := None;
    for i := 0 to |attrs|
      invariant rel == LastValue(attrs[..i], "rel").GetOr("")
      invariant linkType == LastValue(attrs[..i], "type").GetOr("")
      invariant LastValue(attrs[..i], "href").None? ==> href.None?
      invariant LastValue(attrs[..i], "href").Some? ==> href == normalise(base, LastValue(attrs[..i], "href").value)
    {
      LastValuePrefix(attrs, i, "rel");
      LastValuePrefix(attrs, i, "type");
      LastValuePrefix(attrs, i, "href");
      var a := attrs[i];
      if a.key == "rel" {
        rel := a.val;
      } else if a.key == "type" {
        linkType := a.val;
      } else if a.key == "href" {
        href := normalise(base, a.val);
      }
    }
    assert attrs[..|attrs|] == attrs;
    if href.None? {
      return None;
    }
    if rel == "stylesheet" && linkType == "text/css" {
      return href;
    } else if rel == "shortcut icon" {
      return href;
    }
    return None;
  }

  /** All assets of a page: the image assets, then the script assets, then the `<link>` assets. */
  function PageAssets(doc: Document, normalise: Normaliser): seq<Url> {
    SrcAssets(doc.images, doc.url, normalise)
      + SrcAssets(doc.scripts, doc.url, normalise)
      + LinkAssets(doc.links, doc.url, normalise)
  }

  /**
   * extractAssets: images, then scripts, each contributing its first
   * non-empty resolving `src`, then `<link>` nodes under the `rel`/`type`
   * rules; nil nodes are passed over. Never an error.
   */
  method ExtractAssets(doc: Document, normalise: Normaliser) returns (assets: seq<Url>, err: Option<string>)
    ensures err == None
    ensures assets == PageAssets(doc, normalise)
  {
    assets := [];
    err := None;
    for i := 0 to |doc.images|
      invariant assets == SrcAssets(doc.images[..i], doc.url, normalise)
    {
      SrcAssetsPrefix(doc.images, i, doc.url, normalise);
      var n := doc.images[i];
      if n.None? {
        continue;
      }
      var uri := FindSrc(n.value.attr, doc.url, normalise);
      if uri.Some? {
        assets := assets + [uri.value];
      }
    }
    assert doc.images[..|doc.images|] == doc.images;
    ghost var images := assets;
    for i := 0 to |doc.scripts|
      invariant assets == images + SrcAssets(doc.scripts[..i], doc.url, normalise)
    {
      SrcAssetsPrefix(doc.scripts, i, doc.url, normalise);
      var n := doc.scripts[i];
      if n.None? {
        continue;
      }
      var uri := FindSrc(n.value.attr, doc.url, normalise);
      if uri.Some? {
        Regroup(images, SrcAssets(doc.scripts[..i], doc.url, normalise), [uri.value]);
        assets := assets + [uri.value];
      }
    }
    assert doc.scripts[..|doc.scripts|] == doc.scripts;
    ghost var sources := assets;
    for i := 0 to |doc.links|
      invariant assets == sources + LinkAssets(doc.links[..i], doc.url, normalise)
    {
      LinkAssetsPrefix(doc.links, i, doc.url, normalise);
      var n := doc.links[i];
      if n.None? {
        continue;
      }
      var uri := ScanLink(n.value.attr, doc.url, normalise);
      if uri.Some? {
        Regroup(sources, LinkAssets(doc.links[..i], doc.url, normalise), [uri.value]);
        assets := assets + [uri.value];
      }
    }
    assert doc.links[..|doc.links|] == doc.links;
  }


  // ---- Fetch ----

  /**
   * Fetch: a page that fails to load yields no URLs, no assets and the load
   * error; otherwise its links and assets, and no error.
   */
  method Fetch(url: string, load: string -> Load, normalise: Normaliser)
    returns (urls: seq<Url>, assets: seq<Url>, err: Option<string>)
    ensures load(url).LoadFailed? ==> urls == [] && assets == [] && err == Some(load(url).cause)
    ensures load(url).Loaded? ==> err == None
    ensures load(url).Loaded? && load(url).doc.anchors.Some? ==>
              urls == AnchorTargets(load(url).doc.anchors.value, load(url).doc.url, normalise)
    ensures load(url).Loaded? && load(url).doc.anchors.None? ==> urls == []
    ensures load(url).Loaded? ==> assets == PageAssets(load(url).doc, normalise)
  {
    match load(url)
    case LoadFailed(cause) =>
      return [], [], Some(cause);
    case Loaded(doc) =>
      urls, err := ExtractLinks(doc, normalise);
      if err.Some? {
        return [], [], err;
      }
      assets, err := ExtractAssets(doc, normalise);
      if err.Some? {
        return [], [], err;
      }
  }
}
