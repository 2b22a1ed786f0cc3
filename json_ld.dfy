/**
 * The schema.org records the site publishes as JSON-LD. Constant members of each record
 * (`@context`, `@type`, `addressCountry: 'FR'`, `servesCuisine: 'Japanese'`, `priceRange: '€€'`)
 * are implied by the constructor; the variable members are the constructor's fields.
 */
module JsonLd {
  import opened Options
  import opened JsValues

  /** One `OpeningHoursSpecification`; `closes` is `None` where the script leaves it `undefined`. */
  datatype HoursSpec = HoursSpec(dayOfWeek: string, opens: string, closes: Option<string>)

  /** A `PostalAddress` whose members are the restaurant record's own values. */
  datatype PostalAddress = PostalAddress(streetAddress: JsValue, addressLocality: JsValue, postalCode: JsValue)

  /** One `ListItem` of a `BreadcrumbList`. */
  datatype ListItem = ListItem(position: nat, name: string, item: string)

  /** A record published in one `application/ld+json` script; `hours == None` omits `openingHoursSpecification`. */
  datatype Schema =
    | WebSite(url: string, urlTemplate: string)
    | Restaurant(name: JsValue, address: PostalAddress, telephone: JsValue, url: string, hours: Option<seq<HoursSpec>>)
    | BreadcrumbList(items: seq<ListItem>)
    | FoodEstablishment(name: JsValue, image: string, address: PostalAddress, telephone: JsValue, url: string,
                        hours: Option<seq<HoursSpec>>)
}
