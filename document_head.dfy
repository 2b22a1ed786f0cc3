/**
 * The browser's `document.head` as the site's head effects see it: the page title and a
 * sequence of child elements in document order.
 */
module DocumentHead {
  import opened JsonLd

  /** The CSS selectors the effects look elements up by: `meta[name=…]`, `meta[property=…]`, `link[rel=…]`. */
  datatype Selector = MetaName(name: string) | MetaProperty(property: string) | LinkRel(rel: string)

  /**
   * A child of the head: an element found by a selector, carrying its `content` (meta) or `href`
   * (link) value; an `application/ld+json` script; or any element none of the effects look for.
   */
  datatype HeadNode = Tagged(selector: Selector, value: string) | LdJson(schema: Schema) | Other

  const DefaultBaseUrl: string := "https://petit-naka.netlify.app"

  /** `import.meta.env.VITE_BASE_URL || 'https://petit-naka.netlify.app'`; `env == ""` is an unset variable. */
  function BaseUrl(env: string): (r: string)
    ensures r != ""
    ensures env != "" ==> r == env
    ensures env == "" ==> r == DefaultBaseUrl
  {
    if env != "" then env else DefaultBaseUrl
  }

  class Head {
    var title: string
    var nodes: seq<HeadNode>

    constructor (title: string, nodes: seq<HeadNode>)
      ensures this.title == title && this.nodes == nodes
    {
      this.title := title;
      this.nodes := nodes;
    }
  }
}
