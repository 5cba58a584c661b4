/** The restaurants page: the list, the edit modal flag and the selected restaurant. */
module RestaurantsPage {
  import opened Wrappers
  import opened Seqs
  import opened Entities

  function RestaurantKey(r: Restaurant): int
  {
    r.restaurantId
  }

  /**
   * `parseLocation`: an object location is returned as it is; text is handed
   * to `JSON.parse` (`parse`), and `{lat: 0, lng: 0}` stands in when that throws.
   */
  function ParseLocation(location: Location, parse: string -> Option<Coords>): (c: Coords)
    ensures location.LocationPoint? ==> c == location.point
    ensures location.LocationText? && parse(location.text).Some? ==> c == parse(location.text).value
    ensures location.LocationText? && parse(location.text).None? ==> c == Coords(0.0, 0.0)
  {
    match location
    case LocationPoint(p) => p
    case LocationText(t) => parse(t).GetOr(Coords(0.0, 0.0))
  }

  /** The backend call `handleSave` makes. */
  datatype SaveRequest = UpdateRestaurant(id: int, data: RestaurantRequest) | CreateRestaurant(data: RestaurantRequest)

  class RestaurantsPage {
    var restaurants: seq<Restaurant>
    var isEditModalOpen: bool
    var selectedRestaurant: Option<Restaurant>

    constructor ()
      ensures restaurants == [] && !isEditModalOpen && selectedRestaurant.None?
    {
      restaurants, isEditModalOpen, selectedRestaurant := [], false, None;
    }

    /** The loading effect: the fetched list replaces the current one; a failed fetch changes nothing. */
    method Load(fetched: Option<seq<Restaurant>>)
      modifies this
      ensures restaurants == if fetched.Some? then fetched.value else old(restaurants)
      ensures isEditModalOpen == old(isEditModalOpen) && selectedRestaurant == old(selectedRestaurant)
    {
      if fetched.Some? {
        restaurants := fetched.value;
      }
    }

    /** `handleEdit`: select the restaurant and open the modal. */
    method HandleEdit(r: Restaurant)
      modifies this
      ensures selectedRestaurant == Some(r) && isEditModalOpen
      ensures restaurants == old(restaurants)
    {
      selectedRestaurant := Some(r);
      isEditModalOpen := true;
    }

    /** The "Nuevo Restaurante" button: clear the selection and open the modal. */
    method HandleNew()
      modifies this
      ensures selectedRestaurant.None? && isEditModalOpen
      ensures restaurants == old(restaurants)
    {
      selectedRestaurant := None;
      isEditModalOpen := true;
    }

    /** The modal's `onClose`: only the modal flag changes. */
    method HandleModalClose()
      modifies this
      ensures !isEditModalOpen
      ensures restaurants == old(restaurants) && selectedRestaurant == old(selectedRestaurant)
    {
      isEditModalOpen := false;
    }

    /** `handleDelete`: after a successful `deleteRestaurant(id)`, drop the restaurants with that id. */
    method HandleDelete(id: int, deleted: bool)
      modifies this
      ensures restaurants == if deleted then RemoveWhere(old(restaurants), RestaurantKey, id) else old(restaurants)
      ensures deleted ==> forall i :: 0 <= i < |restaurants| ==> restaurants[i].restaurantId != id
      ensures deleted ==> IsSubsequence(restaurants, old(restaurants))
      ensures deleted ==> |restaurants| + CountWhere(old(restaurants), RestaurantKey, id) == |old(restaurants)|
      ensures isEditModalOpen == old(isEditModalOpen) && selectedRestaurant == old(selectedRestaurant)
    {
      if deleted {
        RemoveWhereSpec(restaurants, RestaurantKey, id);
        restaurants := RemoveWhere(restaurants, RestaurantKey, id);
      }
    }

    /**
     * `handleSave`: updates the selected restaurant or creates a new one,
     * with the backend answering `response` (`None` when the call rejects,
     * in which case the rejection reaches the modal and nothing changes).
     */
    method HandleSave(data: RestaurantRequest, response: Option<Restaurant>) returns (request: SaveRequest, resolved: bool)
      modifies this
      ensures request == if old(selectedRestaurant).Some?
                         then UpdateRestaurant(old(selectedRestaurant).value.restaurantId, data)
                         else CreateRestaurant(data)
      ensures resolved == response.Some?
      ensures !resolved ==>
              restaurants == old(restaurants) && isEditModalOpen == old(isEditModalOpen) &&
              selectedRestaurant == old(selectedRestaurant)
      ensures resolved && old(selectedRestaurant).Some? ==>
              restaurants == ReplaceWhere(old(restaurants), RestaurantKey, response.value.restaurantId, response.value)
      ensures resolved && old(selectedRestaurant).None? ==>
              restaurants == [response.value] + old(restaurants)
      ensures resolved ==> !isEditModalOpen && selectedRestaurant.None?
    {
      request := if selectedRestaurant.Some?
                 then UpdateRestaurant(selectedRestaurant.value.restaurantId, data)
                 else CreateRestaurant(data);
      resolved := response.Some?;
      if resolved {
        var saved := response.value;
        if selectedRestaurant.Some? {
          restaurants := ReplaceWhere(restaurants, RestaurantKey, saved.restaurantId, saved);
        } else {
          restaurants := [saved] + restaurants;
        }
        isEditModalOpen := false;
        selectedRestaurant := None;
      }
    }
  }
}
