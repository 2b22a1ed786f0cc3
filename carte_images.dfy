/**
 * `getItemImage` in src/pages/Carte.jsx: the picture or emoji shown for a dish, chosen by the
 * first key of an ordered table that occurs in the lower-cased dish name, then by the dish's
 * category, then a plate emoji.
 */
module CarteImages {
  import opened Options
  import opened Strings

  datatype ItemImage = Image(src: string) | Emoji(glyph: string)

  /** The URL the bundler gives to the imported `soupe-miso.png` asset. */
  const SoupeMisoAsset: string := "/src/assets/images/soupe-miso.png"

  /** `imageMap`, in the order its keys are enumerated (insertion order). */
  const ImageTable: seq<(string, ItemImage)> := [
    ("soupe miso", Image(SoupeMisoAsset)),
    ("salade de choux", Emoji("🥗")),
    ("riz nature", Emoji("🍚")),
    ("salade d'algues", Emoji("🌿")),
    ("wakamé", Emoji("🌿")),
    ("épinard", Emoji("🥬")),
    ("goma-ae", Emoji("🥬")),
    ("pomme de terre", Emoji("🥔")),
    ("aubergine", Emoji("🍆")),
    ("gyoza", Image("https://images.unsplash.com/photo-1603133872878-684f208fb84b?w=200&q=80")),
    ("kara-agué", Emoji("🍗")),
    ("yakitori", Emoji("🍢")),
    ("brochette", Emoji("🍢")),
    ("poulet teriyaki", Image("https://images.unsplash.com/photo-1603133872878-684f208fb84b?w=200&q=80")),
    ("saumon teriyaki", Image("https://images.unsplash.com/photo-1579584425555-c3ce17fd4351?w=200&q=80")),
    ("curry", Image("https://images.unsplash.com/photo-1585032226651-759b0d6c58c0?w=200&q=80")),
    ("poké", Image("https://images.unsplash.com/photo-1559339352-11d035aa65de?w=200&q=80")),
    ("thon", Emoji("🐟")),
    ("california", Image("https://images.unsplash.com/photo-1579584425555-c3ce17fd4351?w=200&q=80")),
    ("nigiri", Image("https://images.unsplash.com/photo-1579584425555-c3ce17fd4351?w=200&q=80")),
    ("sushi", Image("https://images.unsplash.com/photo-1579584425555-c3ce17fd4351?w=200&q=80")),
    ("assortiment", Image("https://images.unsplash.com/photo-1579584425555-c3ce17fd4351?w=200&q=80")),
    ("saumon", Image("https://images.unsplash.com/photo-1579584425555-c3ce17fd4351?w=200&q=80")),
    ("sashimi", Image("https://images.unsplash.com/photo-1579584425555-c3ce17fd4351?w=200&q=80")),
    ("chirashi", Image("https://images.unsplash.com/photo-1579584425555-c3ce17fd4351?w=200&q=80")),
    ("maki", Image("https://images.unsplash.com/photo-1579584425555-c3ce17fd4351?w=200&q=80")),
    ("matcha", Emoji("🍵")),
    ("cake", Emoji("🍰")),
    ("dorayaki", Emoji("🥞")),
    ("daifuku", Emoji("🍡")),
    ("glace", Emoji("🍨"))
  ]

  /** `categoryFallbacks`, by category id. */
  const CategoryFallbacks: seq<(string, ItemImage)> := [
    ("entrees", Emoji("🥢")),
    ("domburi", Emoji("🍱")),
    ("curry", Emoji("🍛")),
    ("poke", Emoji("🥗")),
    ("sushi", Emoji("🍣")),
    ("sashimi", Emoji("🐟")),
    ("chirashi", Emoji("🍱")),
    ("maki", Emoji("🍣")),
    ("desserts", Emoji("🍡"))
  ]

  /** The image of a dish whose name matches no key and whose category has no fallback. */
  const DefaultImage: ItemImage := Emoji("🍽️")

  /**
   * The position of the first key of `table`, from `from` on, that occurs in `name`: every key
   * before it is absent from `name`; `None` when no key from `from` on occurs.
   */
  function FirstMatch(name: string, table: seq<(string, ItemImage)>, from: nat): (r: Option<nat>)
    requires from <= |table|
    ensures r.Some? ==> from <= r.value < |table| && Contains(name, table[r.value].0)
    ensures r.Some? ==> forall j :: from <= j < r.value ==> !Contains(name, table[j].0)
    ensures r.None? ==> forall j :: from <= j < |table| ==> !Contains(name, table[j].0)
    decreases |table| - from
  {
    if from == |table| then None
    else if Contains(name, table[from].0) then Some(from)
    else FirstMatch(name, table, from + 1)
  }

  /** `categoryFallbacks[categoryId]`: the first entry for the id, if any. */
  function Fallback(categoryId: string): (r: Option<ItemImage>)
    ensures r.Some? <==> exists k :: 0 <= k < |CategoryFallbacks| && CategoryFallbacks[k].0 == categoryId
  {
    FallbackFrom(categoryId, 0)
  }

  function FallbackFrom(categoryId: string, from: nat): (r: Option<ItemImage>)
    requires from <= |CategoryFallbacks|
    ensures r.Some? <==> exists k :: from <= k < |CategoryFallbacks| && CategoryFallbacks[k].0 == categoryId
    ensures r.Some? ==> exists k :: from <= k < |CategoryFallbacks| && CategoryFallbacks[k] == (categoryId, r.value)
    decreases |CategoryFallbacks| - from
  {
    if from == |CategoryFallbacks| then None
    else if CategoryFallbacks[from].0 == categoryId then Some(CategoryFallbacks[from].1)
    else FallbackFrom(categoryId, from + 1)
  }

  /** `getItemImage(itemName, categoryId)`. */
  function GetItemImage(itemName: string, categoryId: string): (r: ItemImage)
    ensures || (exists k :: 0 <= k < |ImageTable| && Contains(ToLower(itemName), ImageTable[k].0) && r == ImageTable[k].1)
            || ((forall k :: 0 <= k < |ImageTable| ==> !Contains(ToLower(itemName), ImageTable[k].0)) &&
                (r == DefaultImage || Fallback(categoryId) == Some(r)))
  {
    var name := ToLower(itemName);
    match FirstMatch(name, ImageTable, 0)
    case Some(k) => ImageTable[k].1
    case None => Fallback(categoryId).GetOr(DefaultImage)
  }

  /**
   * The dish gets the image of the earliest key, in table order, that occurs in its lower-cased
   * name, whatever later keys also occur and whatever its category.
   */
  lemma EarliestKeyWins(itemName: string, categoryId: string, k: nat)
    requires k < |ImageTable| && Contains(ToLower(itemName), ImageTable[k].0)
    requires forall j :: 0 <= j < k ==> !Contains(ToLower(itemName), ImageTable[j].0)
    ensures GetItemImage(itemName, categoryId) == ImageTable[k].1
  {
    var r := FirstMatch(ToLower(itemName), ImageTable, 0);
    assert r.Some?;
    assert r.value == k;
  }

  /**
   * The category decides only when no key occurs in the name; an unknown category then gives the
   * plate emoji.
   */
  lemma FallbackOnlyWithoutMatch(itemName: string, categoryId: string)
    requires forall j :: 0 <= j < |ImageTable| ==> !Contains(ToLower(itemName), ImageTable[j].0)
    ensures Fallback(categoryId).Some? ==> GetItemImage(itemName, categoryId) == Fallback(categoryId).value
    ensures (forall k :: 0 <= k < |CategoryFallbacks| ==> CategoryFallbacks[k].0 != categoryId) ==>
      GetItemImage(itemName, categoryId) == DefaultImage
  {
  }
}
