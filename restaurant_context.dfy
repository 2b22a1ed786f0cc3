/**
 * The restaurant selection state of RestaurantContext.jsx: the selected restaurant id, the
 * visibility of the selection modal, and the browser's key-value storage the id persists in.
 * A stored or selected id of `None` is JavaScript's `null`.
 */
module RestaurantContext {
  import opened Options
  import opened JsValues

  /** The storage key the selected id is kept under. */
  const StorageKey: string := "selectedRestaurantId"

  /** `localStorage.getItem(key)`: `None` (null) when the key was never set. */
  function StoredValue(store: map<string, string>, key: string): (r: Option<string>)
    ensures r.Some? <==> key in store
    ensures r.Some? ==> r.value == store[key]
  {
    if key in store then Some(store[key]) else None
  }

  /** The position of the first restaurant whose `id` is `id` (`find` / `some`). */
  function FindById(restaurants: seq<JsValue>, id: string): (r: Option<nat>)
    ensures r.Some? ==> r.value < |restaurants| && Get(restaurants[r.value], "id") == Str(id)
    ensures r.Some? ==> forall k :: 0 <= k < r.value ==> Get(restaurants[k], "id") != Str(id)
    ensures r.None? ==> forall k :: 0 <= k < |restaurants| ==> Get(restaurants[k], "id") != Str(id)
  {
    if |restaurants| == 0 then None
    else if Get(restaurants[0], "id") == Str(id) then Some(0)
    else match FindById(restaurants[1..], id)
      case None => None
      case Some(i) => Some(i + 1)
  }

  /** `id` is truthy and names a known restaurant. */
  predicate Known(restaurants: seq<JsValue>, id: Option<string>)
  {
    id.Some? && id.value != "" && FindById(restaurants, id.value).Some?
  }

  /** The lazy initialiser of `selectedRestaurantId`: the stored id when truthy and known, `null` otherwise. */
  function InitialSelectedId(store: map<string, string>, restaurants: seq<JsValue>): (r: Option<string>)
    ensures r.Some? <==> Known(restaurants, StoredValue(store, StorageKey))
    ensures r.Some? ==> r == StoredValue(store, StorageKey)
  {
    var saved := StoredValue(store, StorageKey);
    if saved.Some? && saved.value != "" && FindById(restaurants, saved.value).Some? then saved else None
  }

  /** The lazy initialiser of `showModal`: hidden only when the stored id is truthy and known. */
  function InitialShowModal(store: map<string, string>, restaurants: seq<JsValue>): (show: bool)
    ensures show <==> !Known(restaurants, StoredValue(store, StorageKey))
  {
    var saved := StoredValue(store, StorageKey);
    if saved.Some? && saved.value != "" && FindById(restaurants, saved.value).Some? then false else true
  }

  /** At start the modal is shown exactly when no restaurant is selected. */
  lemma InitialModalMatchesSelection(store: map<string, string>, restaurants: seq<JsValue>)
    ensures InitialShowModal(store, restaurants) <==> InitialSelectedId(store, restaurants).None?
  {
  }

  /** The persistence effect: a truthy id is written to the store; nothing is ever removed. */
  function Persist(store: map<string, string>, id: Option<string>): (r: map<string, string>)
    ensures id.Some? && id.value != "" ==> r == store[StorageKey := id.value]
    ensures !(id.Some? && id.value != "") ==> r == store
  {
    if id.Some? && id.value != "" then store[StorageKey := id.value] else store
  }

  /** `getSelectedRestaurant()`: `null` without a truthy id, else the first match or `undefined`. */
  function SelectedRestaurant(restaurants: seq<JsValue>, id: Option<string>): (r: JsValue)
    ensures !(id.Some? && id.value != "") ==> r == Null
    ensures id.Some? && id.value != "" && FindById(restaurants, id.value).None? ==> r == Undefined
    ensures Known(restaurants, id) ==> r == restaurants[FindById(restaurants, id.value).value]
  {
    if !(id.Some? && id.value != "") then Null
    else match FindById(restaurants, id.value)
      case None => Undefined
      case Some(k) => restaurants[k]
  }

  /** A selection that names a known restaurant yields a record with that id; any other yields a falsy value. */
  lemma SelectedRestaurantTruthy(restaurants: seq<JsValue>, id: Option<string>)
    ensures Known(restaurants, id) ==> Get(SelectedRestaurant(restaurants, id), "id") == Str(id.value)
    ensures !Known(restaurants, id) ==> !Truthy(SelectedRestaurant(restaurants, id))
  {
  }

  /** The provider's state: the selection, the modal and the storage. */
  class RestaurantProvider {
    var selectedId: Option<string>
    var showModal: bool
    var store: map<string, string>
    const restaurants: seq<JsValue>

    /** Mounting the provider: both lazy initialisers, then the persistence effect's first run. */
    constructor (store: map<string, string>, restaurants: seq<JsValue>)
      ensures this.restaurants == restaurants
      ensures selectedId == InitialSelectedId(store, restaurants)
      ensures showModal == InitialShowModal(store, restaurants)
      ensures this.store == Persist(store, InitialSelectedId(store, restaurants))
    {
      this.restaurants := restaurants;
      selectedId := InitialSelectedId(store, restaurants);
      showModal := InitialShowModal(store, restaurants);
      this.store := Persist(store, InitialSelectedId(store, restaurants));
    }

    /** `selectedRestaurant` as the provider exposes it. */
    function Selected(): (r: JsValue)
      reads this
      ensures Known(restaurants, selectedId) ==> Get(r, "id") == Str(selectedId.value)
      ensures !Known(restaurants, selectedId) ==> !Truthy(r)
    {
      SelectedRestaurantTruthy(restaurants, selectedId);
      SelectedRestaurant(restaurants, selectedId)
    }

    /** `selectRestaurant(id)`: select without checking the id, hide the modal, then persist. */
    method SelectRestaurant(id: Option<string>)
      modifies this
      ensures selectedId == id && !showModal
      ensures store == Persist(old(store), id)
    {
      selectedId := id;
      showModal := false;
      store := Persist(store, selectedId);
    }

    /** `openRestaurantModal()`: shows the modal and changes nothing else. */
    method OpenRestaurantModal()
      modifies this
      ensures showModal
      ensures selectedId == old(selectedId) && store == old(store)
    {
      showModal := true;
    }

    /** `setShowModal(value)`. */
    method SetShowModal(value: bool)
      modifies this
      ensures showModal == value
      ensures selectedId == old(selectedId) && store == old(store)
    {
      showModal := value;
    }
  }

  /**
   * Selecting a known restaurant and reloading the page restores the same selection with the modal
   * hidden, whatever the storage held before.
   */
  lemma SelectSurvivesReload(store: map<string, string>, restaurants: seq<JsValue>, id: string)
    requires id != "" && FindById(restaurants, id).Some?
    ensures InitialSelectedId(Persist(store, Some(id)), restaurants) == Some(id)
    ensures !InitialShowModal(Persist(store, Some(id)), restaurants)
  {
  }

  /** The storage never loses the key: once an id is stored, every later persistence keeps one. */
  lemma PersistNeverClears(store: map<string, string>, id: Option<string>)
    ensures StorageKey in store ==> StorageKey in Persist(store, id)
    ensures forall key :: key in store && key != StorageKey ==> key in Persist(store, id) && Persist(store, id)[key] == store[key]
  {
  }

  /**
   * Selecting an unknown or empty id leaves a reload showing the modal again when nothing
   * known was stored before: the selection itself is not validated, only the restored one is.
   */
  lemma UnknownSelectionNotRestored(store: map<string, string>, restaurants: seq<JsValue>, id: Option<string>)
    requires !Known(restaurants, id) && !Known(restaurants, StoredValue(store, StorageKey))
    ensures InitialSelectedId(Persist(store, id), restaurants).None?
    ensures InitialShowModal(Persist(store, id), restaurants)
  {
  }
}
