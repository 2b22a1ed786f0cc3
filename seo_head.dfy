/**
 * The SEO effect of SEOHead.jsx: the page title, the description, the canonical link and the
 * Open Graph / Twitter / robots / author meta tags, each written into the head by a find-or-create
 * upsert keyed by its selector.
 */
module SeoHead {
  import opened Options
  import opened Strings
  import opened JsValues
  import opened DocumentHead

  const BaseTitle: string := "Petit Naka - Cuisine Japonaise authentique à Paris"

  /** The description shared by the Open Graph and Twitter tags. */
  const ShareDescription: string :=
    "Restaurant de cuisine japonaise authentique à Paris. Sushi, ramen, poke bowls et spécialités japonaises."

  /** The page's meta description. */
  const PageDescription: string :=
    "Petit Naka - Restaurant de cuisine japonaise authentique à Paris. Sushi, ramen, poke bowls et spécialités japonaises. Plats disponibles sur place, à emporter ou en livraison."

  // ---------------------------------------------------------------------------------------------
  // The strings

  /** The label of the four pages whose title can name the selected restaurant. */
  function PageLabel(path: string): (r: Option<string>)
    ensures r.Some? <==> path in {"/carte", "/a-emporter", "/reservation", "/contact"}
  {
    if path == "/carte" then Some("Carte")
    else if path == "/a-emporter" then Some("À emporter")
    else if path == "/reservation" then Some("Réservation")
    else if path == "/contact" then Some("Contact")
    else None
  }

  /** `document.title` for a path and the selected restaurant (a falsy value when none is selected). */
  function Title(path: string, selected: JsValue): (t: string)
    ensures |t| >= |BaseTitle| && t[|t| - |BaseTitle|..] == BaseTitle
  {
    if path == "/histoire" then "Notre Histoire | " + BaseTitle
    else match PageLabel(path)
      case None => BaseTitle
      case Some(pageLabel) =>
        if Truthy(selected) then pageLabel + " - " + ToText(Get(selected, "name")) + " | " + BaseTitle
        else pageLabel + " | " + BaseTitle
  }

  /** Every title ends with the base title, and is exactly the base title on "/" and unnamed paths. */
  lemma TitleShape(path: string, selected: JsValue)
    ensures var t := Title(path, selected);
      |t| >= |BaseTitle| && t[|t| - |BaseTitle|..] == BaseTitle
    ensures path != "/histoire" && PageLabel(path).None? ==> Title(path, selected) == BaseTitle
  {
  }

  /** On the four labelled pages the title names the selected restaurant exactly when one is selected. */
  lemma TitleNamesSelection(path: string, selected: JsValue)
    requires PageLabel(path).Some?
    ensures Truthy(selected) ==>
      Title(path, selected) == PageLabel(path).value + " - " + ToText(Get(selected, "name")) + " | " + BaseTitle
    ensures !Truthy(selected) ==> Title(path, selected) == PageLabel(path).value + " | " + BaseTitle
  {
  }

  /** The history page's title ignores the selection. */
  lemma HistoryTitleIgnoresSelection(a: JsValue, b: JsValue)
    ensures Title("/histoire", a) == Title("/histoire", b) == "Notre Histoire | " + BaseTitle
  {
  }

  /** The descriptions and sharing titles name the restaurant only on these pages, with a selection. */
  predicate Personalised(path: string, selected: JsValue)
  {
    Truthy(selected) && (path == "/carte" || path == "/reservation" || path == "/contact")
  }

  /** `` `${name} - ${address}, ${postalCode} ${city}. ` ``, the restaurant prefix of a description. */
  function RestaurantLine(r: JsValue): string
  {
    ToText(Get(r, "name")) + " - " + ToText(Get(r, "address")) + ", " + ToText(Get(r, "postalCode")) + " "
      + ToText(Get(r, "city")) + ". "
  }

  /** A description, with the restaurant prefix when personalised. */
  function Describe(path: string, selected: JsValue, description: string): (d: string)
    ensures |d| >= |description| && d[|d| - |description|..] == description
    ensures !Personalised(path, selected) ==> d == description
    ensures Personalised(path, selected) ==> d == RestaurantLine(selected) + description
  {
    if Personalised(path, selected) then RestaurantLine(selected) + description else description
  }

  /** The Open Graph and Twitter title. */
  function ShareTitle(path: string, selected: JsValue): (t: string)
    ensures |t| >= |BaseTitle| && t[|t| - |BaseTitle|..] == BaseTitle
    ensures !Personalised(path, selected) ==> t == BaseTitle
    ensures Personalised(path, selected) ==> t == ToText(Get(selected, "name")) + " | " + BaseTitle
  {
    if Personalised(path, selected) then ToText(Get(selected, "name")) + " | " + BaseTitle else BaseTitle
  }

  /** The take-away page never gets the restaurant prefix, selection or not. */
  lemma TakeAwayNotPersonalised(selected: JsValue)
    ensures Describe("/a-emporter", selected, PageDescription) == PageDescription
    ensures ShareTitle("/a-emporter", selected) == BaseTitle
  {
  }

  /**
   * The selectors the effect writes, in call order: description, canonical link, seven Open Graph
   * properties, four Twitter names, robots and author.
   */
  const HeadSelectors: seq<Selector> :=
    [ MetaName("description"), LinkRel("canonical"), MetaProperty("og:title"), MetaProperty("og:description"),
      MetaProperty("og:image"), MetaProperty("og:url"), MetaProperty("og:type"), MetaProperty("og:locale"),
      MetaProperty("og:site_name"), MetaName("twitter:card"), MetaName("twitter:title"),
      MetaName("twitter:description"), MetaName("twitter:image"), MetaName("robots"), MetaName("author") ]

  /** The value the effect writes under each of `HeadSelectors`, in the same order. */
  function HeadValues(base: string, path: string, selected: JsValue): (values: seq<string>)
    ensures |values| == |HeadSelectors|
  {
    var title := ShareTitle(path, selected);
    var shared := Describe(path, selected, ShareDescription);
    [ Describe(path, selected, PageDescription), base + path, title, shared, base + "/og-image.jpg",
      base + path, "website", "fr_FR", "Petit Naka", "summary_large_image", title, shared,
      base + "/og-image.jpg", "index, follow", "Petit Naka" ]
  }

  /** Every selector the effect writes, with its value, in call order. */
  function HeadTags(base: string, path: string, selected: JsValue): (tags: seq<(Selector, string)>)
    ensures |tags| == 15
  {
    var values := HeadValues(base, path, selected);
    seq(|HeadSelectors|, k requires 0 <= k < |HeadSelectors| => (HeadSelectors[k], values[k]))
  }

  /** The canonical link and `og:url` carry the same address; the Open Graph and Twitter tags agree. */
  lemma SharedValuesAgree(base: string, path: string, selected: JsValue)
    ensures var tags := HeadTags(base, path, selected);
      tags[1].1 == tags[5].1 == base + path && tags[2].1 == tags[10].1 && tags[3].1 == tags[11].1 && tags[4].1 == tags[12].1
  {
  }

  // ---------------------------------------------------------------------------------------------
  // The upsert

  /** The element `document.querySelector(selector)` can return. */
  predicate Matches(n: HeadNode, sel: Selector)
  {
    n.Tagged? && n.selector == sel
  }

  /** The position of the first element matching a selector, if any. */
  function FindTag(nodes: seq<HeadNode>, sel: Selector): (r: Option<nat>)
    ensures r.Some? ==> r.value < |nodes| && Matches(nodes[r.value], sel)
    ensures r.Some? ==> forall k :: 0 <= k < r.value ==> !Matches(nodes[k], sel)
    ensures r.None? ==> forall k :: 0 <= k < |nodes| ==> !Matches(nodes[k], sel)
  {
    if |nodes| == 0 then None
    else if Matches(nodes[0], sel) then Some(0)
    else match FindTag(nodes[1..], sel)
      case None => None
      case Some(i) => Some(i + 1)
  }

  /** `setMetaTag` / `setLinkTag`: update the first matching element, or append a new one. */
  function Upsert(nodes: seq<HeadNode>, sel: Selector, value: string): (r: seq<HeadNode>)
    ensures |r| == |nodes| + (if FindTag(nodes, sel).None? then 1 else 0)
    ensures forall k :: 0 <= k < |nodes| && Some(k) != FindTag(nodes, sel) ==> r[k] == nodes[k]
  {
    match FindTag(nodes, sel)
    case None => nodes + [Tagged(sel, value)]
    case Some(i) => nodes[i := Tagged(sel, value)]
  }

  /** The first element matching `sel` carries `value`. */
  predicate Holds(nodes: seq<HeadNode>, sel: Selector, value: string)
  {
    FindTag(nodes, sel).Some? && nodes[FindTag(nodes, sel).value] == Tagged(sel, value)
  }

  /**
   * An upsert creates an element only when none matches, touches no other element, and leaves the
   * first match carrying the value.
   */
  lemma UpsertEffect(nodes: seq<HeadNode>, sel: Selector, value: string)
    ensures var r := Upsert(nodes, sel, value);
      && |r| == |nodes| + (if FindTag(nodes, sel).None? then 1 else 0)
      && Holds(r, sel, value)
      && forall k :: 0 <= k < |nodes| && Some(k) != FindTag(nodes, sel) ==> r[k] == nodes[k]
  {
    var r := Upsert(nodes, sel, value);
    match FindTag(nodes, sel)
    case None =>
      FindAfter(nodes, sel, value);
    case Some(i) =>
      FindReplaced(nodes, sel, value, i);
  }

  lemma FindAfter(nodes: seq<HeadNode>, sel: Selector, value: string)
    requires FindTag(nodes, sel).None?
    ensures FindTag(nodes + [Tagged(sel, value)], sel) == Some(|nodes|)
  {
    var r := nodes + [Tagged(sel, value)];
    FindUnique(r, sel, |nodes|);
  }

  lemma FindReplaced(nodes: seq<HeadNode>, sel: Selector, value: string, i: nat)
    requires FindTag(nodes, sel) == Some(i)
    ensures FindTag(nodes[i := Tagged(sel, value)], sel) == Some(i)
  {
    FindUnique(nodes[i := Tagged(sel, value)], sel, i);
  }

  /** `FindTag` is determined by its contract: the first match is the first match. */
  lemma FindUnique(nodes: seq<HeadNode>, sel: Selector, i: nat)
    requires i < |nodes| && Matches(nodes[i], sel) && forall k :: 0 <= k < i ==> !Matches(nodes[k], sel)
    ensures FindTag(nodes, sel) == Some(i)
  {
  }

  /** Re-writing the value a tag already has changes nothing. */
  lemma UpsertNoOp(nodes: seq<HeadNode>, sel: Selector, value: string)
    requires Holds(nodes, sel, value)
    ensures Upsert(nodes, sel, value) == nodes
  {
  }

  /** An upsert of one selector keeps what every other selector holds. */
  lemma UpsertKeeps(nodes: seq<HeadNode>, sel: Selector, value: string, other: Selector, v: string)
    requires sel != other && Holds(nodes, other, v)
    ensures Holds(Upsert(nodes, sel, value), other, v)
  {
    var r := Upsert(nodes, sel, value);
    var j := FindTag(nodes, other).value;
    UpsertEffect(nodes, sel, value);
    assert r[j] == nodes[j];
    forall k | 0 <= k < j
      ensures !Matches(r[k], other)
    {
      if Some(k) != FindTag(nodes, sel) {
        assert r[k] == nodes[k];
      }
    }
    FindUnique(r, other, j);
  }

  /** The upserts of a list of tags, in order. */
  function UpsertAll(nodes: seq<HeadNode>, tags: seq<(Selector, string)>): seq<HeadNode>
  {
    if |tags| == 0 then nodes
    else Upsert(UpsertAll(nodes, tags[..|tags| - 1]), tags[|tags| - 1].0, tags[|tags| - 1].1)
  }

  predicate DistinctSelectors(tags: seq<(Selector, string)>)
  {
    forall i, j :: 0 <= i < j < |tags| ==> tags[i].0 != tags[j].0
  }

  predicate AllHold(nodes: seq<HeadNode>, tags: seq<(Selector, string)>)
  {
    forall k :: 0 <= k < |tags| ==> Holds(nodes, tags[k].0, tags[k].1)
  }

  /** After the upserts of distinct selectors, every selector holds its value. */
  lemma {:induction false} UpsertAllHolds(nodes: seq<HeadNode>, tags: seq<(Selector, string)>)
    requires DistinctSelectors(tags)
    ensures AllHold(UpsertAll(nodes, tags), tags)
  {
    if |tags| > 0 {
      var init := tags[..|tags| - 1];
      var (sel, value) := tags[|tags| - 1];
      var before := UpsertAll(nodes, init);
      UpsertAllHolds(nodes, init);
      UpsertEffect(before, sel, value);
      forall k | 0 <= k < |init|
        ensures Holds(UpsertAll(nodes, tags), tags[k].0, tags[k].1)
      {
        assert tags[k] == init[k];
        UpsertKeeps(before, sel, value, tags[k].0, tags[k].1);
      }
    }
  }

  /** Upserts whose values are already in place change nothing. */
  lemma {:induction false} UpsertAllNoOp(nodes: seq<HeadNode>, tags: seq<(Selector, string)>)
    requires AllHold(nodes, tags)
    ensures UpsertAll(nodes, tags) == nodes
  {
    if |tags| > 0 {
      var init := tags[..|tags| - 1];
      assert forall k :: 0 <= k < |init| ==> init[k] == tags[k];
      UpsertAllNoOp(nodes, init);
      UpsertNoOp(nodes, tags[|tags| - 1].0, tags[|tags| - 1].1);
    }
  }

  /** The fifteen selectors the effect writes are pairwise distinct. */
  lemma HeadTagsDistinct(base: string, path: string, selected: JsValue)
    ensures DistinctSelectors(HeadTags(base, path, selected))
  {
    HeadTagsSelectors(base, path, selected);
    HeadSelectorsDistinct();
  }

  /** Whatever the page and the selection, the tags carry the fixed selectors in order. */
  lemma HeadTagsSelectors(base: string, path: string, selected: JsValue)
    ensures |HeadTags(base, path, selected)| == |HeadSelectors|
    ensures forall k :: 0 <= k < |HeadSelectors| ==> HeadTags(base, path, selected)[k].0 == HeadSelectors[k]
  {
  }

  /** No selector is written twice. */
  lemma HeadSelectorsDistinct()
    ensures forall i, j :: 0 <= i < j < |HeadSelectors| ==> HeadSelectors[i] != HeadSelectors[j]
  {
  }

  /** Re-running the effect with the same inputs adds no element and changes no value. */
  lemma HeadTagsIdempotent(nodes: seq<HeadNode>, base: string, path: string, selected: JsValue)
    ensures var tags := HeadTags(base, path, selected);
      UpsertAll(UpsertAll(nodes, tags), tags) == UpsertAll(nodes, tags)
  {
    var tags := HeadTags(base, path, selected);
    HeadTagsDistinct(base, path, selected);
    UpsertAllHolds(nodes, tags);
    UpsertAllNoOp(UpsertAll(nodes, tags), tags);
  }

  // ---------------------------------------------------------------------------------------------
  // The effect on the head

  /** `setMetaTag` / `setLinkTag` on the head: find the first matching element, or create it. */
  method SetTag(head: Head, sel: Selector, value: string)
    modifies head
    ensures head.nodes == Upsert(old(head.nodes), sel, value)
    ensures head.title == old(head.title)
  {
    var i := 0;
    while i < |head.nodes| && !Matches(head.nodes[i], sel)
      invariant 0 <= i <= |head.nodes|
      invariant forall k :: 0 <= k < i ==> !Matches(head.nodes[k], sel)
    {
      i := i + 1;
    }
    if i == |head.nodes| {
      head.nodes := head.nodes + [Tagged(sel, value)];
    } else {
      FindUnique(head.nodes, sel, i);
      head.nodes := head.nodes[i := Tagged(sel, value)];
    }
  }

  /** The upserts of a list of tags on the head, one `SetTag` per tag in order. */
  method SetTags(head: Head, tags: seq<(Selector, string)>)
    modifies head
    ensures head.nodes == UpsertAll(old(head.nodes), tags)
    ensures head.title == old(head.title)
  {
    var i := 0;
    while i < |tags|
      invariant 0 <= i <= |tags|
      invariant head.nodes == UpsertAll(old(head.nodes), tags[..i])
      invariant head.title == old(head.title)
    {
      assert tags[..i + 1][..i] == tags[..i];
      SetTag(head, tags[i].0, tags[i].1);
      i := i + 1;
    }
    assert tags[..i] == tags;
  }

  /** One run of the SEO effect: the title, then every tag in call order. */
  method UpdateHead(head: Head, base: string, path: string, selected: JsValue)
    modifies head
    ensures head.title == Title(path, selected)
    ensures head.nodes == UpsertAll(old(head.nodes), HeadTags(base, path, selected))
  {
    head.title := Title(path, selected);
    SetTags(head, HeadTags(base, path, selected));
  }
}
