/** The foods page of one restaurant: the list, the edit modal flag and the selected food. */
module FoodsPage {
  import opened Wrappers
  import opened Seqs
  import opened Js
  import opened Entities

  function FoodKey(f: Food): int
  {
    f.foodId
  }

  /** The backend call `handleSave` makes. */
  datatype SaveRequest = UpdateFood(id: int, data: FoodRequest) | CreateFood(data: FoodRequest)

  class FoodsPage {
    var foods: seq<Food>
    var isEditModalOpen: bool
    var selectedFood: Option<Food>

    constructor ()
      ensures foods == [] && !isEditModalOpen && selectedFood.None?
    {
      foods, isEditModalOpen, selectedFood := [], false, None;
    }

    /**
     * The loading effect: the foods of `Number(restaurantId)` are requested;
     * the fetched list replaces the current one and a rejected fetch changes nothing.
     */
    method Load(restaurantId: Option<string>, fetched: Option<seq<Food>>) returns (requestId: JsNumber)
      modifies this
      ensures requestId == RouteNumber(restaurantId)
      ensures foods == if fetched.Some? then fetched.value else old(foods)
      ensures isEditModalOpen == old(isEditModalOpen) && selectedFood == old(selectedFood)
    {
      requestId := RouteNumber(restaurantId);
      if fetched.Some? {
        foods := fetched.value;
      }
    }

    /** `handleEdit`: select the food and open the modal. */
    method HandleEdit(f: Food)
      modifies this
      ensures selectedFood == Some(f) && isEditModalOpen
      ensures foods == old(foods)
    {
      selectedFood := Some(f);
      isEditModalOpen := true;
    }

    /** The "Nuevo Platillo" button: clear the selection and open the modal. */
    method HandleNew()
      modifies this
      ensures selectedFood.None? && isEditModalOpen
      ensures foods == old(foods)
    {
      selectedFood := None;
      isEditModalOpen := true;
    }

    /** The modal's `onClose`: only the modal flag changes. */
    method HandleModalClose()
      modifies this
      ensures !isEditModalOpen
      ensures foods == old(foods) && selectedFood == old(selectedFood)
    {
      isEditModalOpen := false;
    }

    /** `handleDelete`: after a successful `deleteFood(id)`, drop the foods with that id. */
    method HandleDelete(id: int, deleted: bool)
      modifies this
      ensures foods == if deleted then RemoveWhere(old(foods), FoodKey, id) else old(foods)
      ensures deleted ==> forall i :: 0 <= i < |foods| ==> foods[i].foodId != id
      ensures deleted ==> IsSubsequence(foods, old(foods))
      ensures deleted ==> |foods| + CountWhere(old(foods), FoodKey, id) == |old(foods)|
      ensures isEditModalOpen == old(isEditModalOpen) && selectedFood == old(selectedFood)
    {
      if deleted {
        RemoveWhereSpec(foods, FoodKey, id);
        foods := RemoveWhere(foods, FoodKey, id);
      }
    }

    /**
     * `handleSave`: updates the selected food or creates a new one, with the
     * backend answering `response` (`None` when the call rejects, in which
     * case the rejection reaches the modal and nothing changes).
     */
    method HandleSave(data: FoodRequest, response: Option<Food>) returns (request: SaveRequest, resolved: bool)
      modifies this
      ensures request == if old(selectedFood).Some? then UpdateFood(old(selectedFood).value.foodId, data)
                         else CreateFood(data)
      ensures resolved == response.Some?
      ensures !resolved ==>
              foods == old(foods) && isEditModalOpen == old(isEditModalOpen) && selectedFood == old(selectedFood)
      ensures resolved && old(selectedFood).Some? ==>
              foods == ReplaceWhere(old(foods), FoodKey, response.value.foodId, response.value)
      ensures resolved && old(selectedFood).Some? ==> |foods| == |old(foods)|
      ensures resolved && old(selectedFood).None? ==> foods == [response.value] + old(foods)
      ensures resolved ==> !isEditModalOpen && selectedFood.None?
    {
      request := if selectedFood.Some? then UpdateFood(selectedFood.value.foodId, data) else CreateFood(data);
      resolved := response.Some?;
      if resolved {
        var saved := response.value;
        if selectedFood.Some? {
          foods := ReplaceWhere(foods, FoodKey, saved.foodId, saved);
        } else {
          foods := [saved] + foods;
        }
        isEditModalOpen := false;
        selectedFood := None;
      }
    }
  }
}
