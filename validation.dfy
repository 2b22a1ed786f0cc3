/**
 * The structural checks run on the bundled restaurant and menu JSON before it is used
 * (src/utils/validation.js). Every check answers `false` rather than throwing.
 */
module Validation {
  import opened JsValues

  /** The fields every restaurant record must carry, in the order they are checked. */
  const RestaurantFields: seq<string> := ["id", "name", "address", "postalCode", "city", "phone", "googleMapsUrl"]

  /** The fields every menu item must carry. */
  const MenuItemFields: seq<string> := ["name", "price"]

  /** `v !== undefined && v !== null`. */
  predicate Present(v: JsValue)
  {
    v != Undefined && v != Null
  }

  /** `fields.every(field => v[field] !== undefined && v[field] !== null)`. */
  predicate HasAllFields(v: JsValue, fields: seq<string>)
  {
    forall k :: 0 <= k < |fields| ==> Present(Get(v, fields[k]))
  }

  lemma RestaurantFieldsPresent(r: JsValue)
    ensures HasAllFields(r, RestaurantFields) <==>
      && Present(Get(r, "id")) && Present(Get(r, "name")) && Present(Get(r, "address"))
      && Present(Get(r, "postalCode")) && Present(Get(r, "city")) && Present(Get(r, "phone"))
      && Present(Get(r, "googleMapsUrl"))
  {
    var f := RestaurantFields;
    assert f[0] == "id" && f[1] == "name" && f[2] == "address" && f[3] == "postalCode";
    assert f[4] == "city" && f[5] == "phone" && f[6] == "googleMapsUrl";
  }

  lemma MenuItemFieldsPresent(item: JsValue)
    ensures HasAllFields(item, MenuItemFields) <==> Present(Get(item, "name")) && Present(Get(item, "price"))
  {
    assert MenuItemFields[0] == "name" && MenuItemFields[1] == "price";
  }

  /**
   * `validateRestaurant`: a record is accepted exactly when it is an object, each of the seven
   * required fields is neither missing nor null, and its opening hours are absent, falsy or an object.
   */
  function ValidateRestaurant(r: JsValue): (ok: bool)
    ensures ok <==>
      && r.Obj?
      && Present(Get(r, "id")) && Present(Get(r, "name")) && Present(Get(r, "address"))
      && Present(Get(r, "postalCode")) && Present(Get(r, "city")) && Present(Get(r, "phone"))
      && Present(Get(r, "googleMapsUrl"))
      && (var hours := Get(r, "openingHours"); !Truthy(hours) || hours.Obj? || hours.Arr?)
  {
    RestaurantFieldsPresent(r);
    if !Truthy(r) then false
    else if !HasAllFields(r, RestaurantFields) then false
    else if Truthy(Get(r, "openingHours")) && TypeOf(Get(r, "openingHours")) != TObject then false
    else true
  }

  /**
   * `validateMenuItem`: an item is accepted exactly when it is an object with a name that is neither
   * missing nor null and a price that is a number no smaller than zero.
   */
  function ValidateMenuItem(item: JsValue): (ok: bool)
    ensures ok <==> item.Obj? && Present(Get(item, "name")) && Get(item, "price").Num? && Get(item, "price").n >= 0
  {
    MenuItemFieldsPresent(item);
    if !Truthy(item) then false
    else if !HasAllFields(item, MenuItemFields) then false
    else if TypeOf(Get(item, "price")) != TNumber || Get(item, "price").n < 0 then false
    else true
  }

  /**
   * `validateRestaurantsData`: accepted exactly when `data.restaurants` is an array whose every
   * element is a valid restaurant (so an empty array is accepted).
   */
  function ValidateRestaurantsData(data: JsValue): (ok: bool)
    ensures ok <==>
      Get(data, "restaurants").Arr? &&
      forall k :: 0 <= k < |Get(data, "restaurants").elems| ==> ValidateRestaurant(Get(data, "restaurants").elems[k])
  {
    var restaurants := Get(data, "restaurants");
    if !Truthy(data) || !Truthy(restaurants) then false
    else if !restaurants.Arr? then false
    else forall k :: 0 <= k < |restaurants.elems| ==> ValidateRestaurant(restaurants.elems[k])
  }

  /** A category of a restaurant's menu: an array of valid items. */
  predicate CategoryOk(category: JsValue)
  {
    category.Arr? && forall k :: 0 <= k < |category.elems| ==> ValidateMenuItem(category.elems[k])
  }

  /** One restaurant's menu: a non-null object (or array) each of whose members is a valid category. */
  predicate MenuOk(menu: JsValue)
  {
    Truthy(menu) && TypeOf(menu) == TObject &&
    forall j :: 0 <= j < |Entries(menu)| ==> CategoryOk(Entries(menu)[j].1)
  }

  /** What `validateMenuData` accepts: a non-null object with at least one restaurant, every menu valid. */
  predicate MenuDataOk(data: JsValue)
    ensures MenuDataOk(data) ==> (data.Obj? || data.Arr?) && |Entries(data)| > 0
  {
    Truthy(data) && TypeOf(data) == TObject && |Keys(data)| > 0 &&
    forall i :: 0 <= i < |Entries(data)| ==> MenuOk(Entries(data)[i].1)
  }

  /** `validateMenuData`: walks every restaurant and every category, answering `false` at the first fault. */
  method ValidateMenuData(data: JsValue) returns (ok: bool)
    ensures ok == MenuDataOk(data)
  {
    if !Truthy(data) || TypeOf(data) != TObject {
      return false;
    }
    var restaurantIds := Keys(data);
    if |restaurantIds| == 0 {
      return false;
    }
    var menus := Entries(data);
    var i := 0;
    while i < |menus|
      invariant 0 <= i <= |menus|
      invariant forall p :: 0 <= p < i ==> MenuOk(menus[p].1)
    {
      var restaurantMenu := menus[i].1;
      if !Truthy(restaurantMenu) || TypeOf(restaurantMenu) != TObject {
        return false;
      }
      var categories := Entries(restaurantMenu);
      var j := 0;
      while j < |categories|
        invariant 0 <= j <= |categories|
        invariant forall q :: 0 <= q < j ==> CategoryOk(categories[q].1)
      {
        var category := categories[j].1;
        if !category.Arr? {
          return false;
        }
        if !(forall k :: 0 <= k < |category.elems| ==> ValidateMenuItem(category.elems[k])) {
          return false;
        }
        j := j + 1;
      }
      i := i + 1;
    }
    return true;
  }

  /** Top-level failures: nothing but a non-empty object or array can pass, and an empty one never does. */
  lemma MenuDataRejectsEmpty(data: JsValue)
    requires (!data.Obj? && !data.Arr?) || data == Obj([]) || data == Arr([])
    ensures !MenuDataOk(data)
  {
  }

  /** A restaurant whose menu has no categories passes, and so does a category with no items. */
  lemma MenuDataAcceptsEmptyMenus(id: string, cat: string)
    ensures MenuDataOk(Obj([(id, Obj([]))]))
    ensures MenuDataOk(Obj([(id, Obj([(cat, Arr([]))]))]))
  {
    assert Entries(Obj([(id, Obj([]))]))[0].1 == Obj([]);
    assert Entries(Obj([(id, Obj([(cat, Arr([]))]))]))[0].1 == Obj([(cat, Arr([]))]);
  }

  /** Free of charge is a price: an item priced 0 is valid, one priced -1 is not. */
  lemma ZeroPriceAccepted(name: string)
    ensures ValidateMenuItem(Obj([("name", Str(name)), ("price", Num(0))]))
    ensures !ValidateMenuItem(Obj([("name", Str(name)), ("price", Num(-1))]))
    ensures !ValidateMenuItem(Obj([("name", Str(name)), ("price", Str("0"))]))
  {
    var fields := [("name", Str(name)), ("price", Num(0))];
    assert "price" != "name";
    assert Lookup(fields, "name") == Str(name);
    assert Lookup(fields, "price") == Lookup(fields[1..], "price") == Num(0);
  }
}
