/** The ratings page of one food: the list, the edit modal flag and the selected rating. */
module FoodRatingsPage {
  import opened Wrappers
  import opened Seqs
  import opened Js
  import opened Entities
  import Modal = EditFoodRatingModal

  const MissingFoodIdAlert := "No se puede guardar la calificación sin un ID de alimento."
  const LoadFailedAlert := "No se pudo cargar las calificaciones."
  const MissingRatingIdAlert := "No se encontró un ID válido para eliminar la calificación."
  const DeleteFailedAlert := "No se pudo eliminar la calificación."
  const SaveFailedAlert := "No se pudo guardar la calificación. Inténtalo nuevamente."

  function RatingKey(r: FoodRating): int
  {
    r.foodRatingId
  }

  /** `!foodId`: the route parameter is absent or empty. */
  predicate FoodIdMissing(foodId: Option<string>)
  {
    foodId.None? || foodId.value == ""
  }

  /** `Number(user?.userId || 0)`: zero when there is no user or its id is empty. */
  function RatingUserId(user: Option<User>): (n: JsNumber)
    ensures user.None? ==> n == Num(0.0)
    ensures user.Some? && user.value.userId == "" ==> n == Num(0.0)
    ensures user.Some? && user.value.userId != "" ==> n == UserIdNumber(user)
  {
    if user.Some? && user.value.userId != "" then ToNumber(user.value.userId) else Num(0.0)
  }

  /** The payload of `createFoodRating`: the modal's data plus the food and the user. */
  datatype NewRating = NewRating(rating: real, comment: string, foodId: JsNumber, userId: JsNumber)

  /** The backend call `handleSave` makes. */
  datatype SaveRequest = UpdateRating(id: int, data: RatingData) | CreateRating(payload: NewRating)

  class FoodRatingsPage {
    const foodId: Option<string>
    var ratings: seq<FoodRating>
    var isEditModalOpen: bool
    var selectedRating: Option<FoodRating>

    constructor (foodId: Option<string>)
      ensures this.foodId == foodId
      ensures ratings == [] && !isEditModalOpen && selectedRating.None?
    {
      this.foodId := foodId;
      ratings, isEditModalOpen, selectedRating := [], false, None;
    }

    /**
     * The loading effect: nothing is requested without a food id; otherwise the
     * ratings of `Number(foodId)` are requested and replace the list, and a
     * rejected fetch leaves the list and raises an alert.
     */
    method Load(fetched: Option<seq<FoodRating>>) returns (requestId: Option<JsNumber>, alert: Option<string>)
      modifies this
      ensures requestId == if FoodIdMissing(foodId) then None else Some(RouteNumber(foodId))
      ensures ratings == if requestId.Some? && fetched.Some? then fetched.value else old(ratings)
      ensures alert == if requestId.Some? && fetched.None? then Some(LoadFailedAlert) else None
      ensures isEditModalOpen == old(isEditModalOpen) && selectedRating == old(selectedRating)
    {
      alert := None;
      if FoodIdMissing(foodId) {
        requestId := None;
        return;
      }
      requestId := Some(RouteNumber(foodId));
      if fetched.Some? {
        ratings := fetched.value;
      } else {
        alert := Some(LoadFailedAlert);
      }
    }

    /** `handleAdd`: clear the selection and open the modal. */
    method HandleAdd()
      modifies this
      ensures selectedRating.None? && isEditModalOpen
      ensures ratings == old(ratings)
    {
      selectedRating := None;
      isEditModalOpen := true;
    }

    /** `handleEdit`: select the rating and open the modal. */
    method HandleEdit(r: FoodRating)
      modifies this
      ensures selectedRating == Some(r) && isEditModalOpen
      ensures ratings == old(ratings)
    {
      selectedRating := Some(r);
      isEditModalOpen := true;
    }

    /** The modal's `onClose`: only the modal flag changes. */
    method HandleModalClose()
      modifies this
      ensures !isEditModalOpen
      ensures ratings == old(ratings) && selectedRating == old(selectedRating)
    {
      isEditModalOpen := false;
    }

    /**
     * `handleDelete`: an id of 0 is refused with an alert and no request;
     * otherwise `deleteFoodRating(id)` is called and, when it succeeds
     * (`deleted`), the ratings with that id are dropped.
     */
    method HandleDelete(id: int, deleted: bool) returns (requested: bool, alert: Option<string>)
      modifies this
      ensures requested <==> id != 0
      ensures alert == if id == 0 then Some(MissingRatingIdAlert)
                       else if !deleted then Some(DeleteFailedAlert) else None
      ensures ratings == if requested && deleted then RemoveWhere(old(ratings), RatingKey, id) else old(ratings)
      ensures requested && deleted ==> forall i :: 0 <= i < |ratings| ==> ratings[i].foodRatingId != id
      ensures requested && deleted ==> IsSubsequence(ratings, old(ratings))
      ensures isEditModalOpen == old(isEditModalOpen) && selectedRating == old(selectedRating)
    {
      if id == 0 {
        return false, Some(MissingRatingIdAlert);
      }
      requested := true;
      if deleted {
        RemoveWhereSpec(ratings, RatingKey, id);
        ratings := RemoveWhere(ratings, RatingKey, id);
        alert := None;
      } else {
        alert := Some(DeleteFailedAlert);
      }
    }

    /**
     * `handleSave`: without a food id nothing is requested; otherwise the
     * selected rating is updated (and replaced, by the selected id, with what
     * the backend returns) or a new rating is created and put first. A
     * rejected call (`response == None`) raises an alert and changes nothing.
     * `handleSave` never rejects towards the modal.
     */
    method HandleSave(data: RatingData, user: Option<User>, response: Option<FoodRating>)
      returns (request: Option<SaveRequest>, alert: Option<string>)
      modifies this
      ensures FoodIdMissing(foodId) <==> request.None?
      ensures request.None? ==> alert == Some(MissingFoodIdAlert)
      ensures request.Some? && old(selectedRating).Some? ==>
              request.value == UpdateRating(old(selectedRating).value.foodRatingId, data)
      ensures request.Some? && old(selectedRating).None? ==>
              request.value == CreateRating(NewRating(data.rating, data.comment, RouteNumber(foodId), RatingUserId(user)))
      ensures request.Some? ==> alert == if response.None? then Some(SaveFailedAlert) else None
      ensures request.None? || response.None? ==>
              ratings == old(ratings) && isEditModalOpen == old(isEditModalOpen) &&
              selectedRating == old(selectedRating)
      ensures request.Some? && response.Some? && old(selectedRating).Some? ==>
              ratings == ReplaceWhere(old(ratings), RatingKey, old(selectedRating).value.foodRatingId, response.value)
      ensures request.Some? && response.Some? && old(selectedRating).None? ==>
              ratings == [response.value] + old(ratings)
      ensures request.Some? && response.Some? ==> !isEditModalOpen && selectedRating.None?
    {
      if FoodIdMissing(foodId) {
        return None, Some(MissingFoodIdAlert);
      }
      if selectedRating.Some? {
        request := Some(UpdateRating(selectedRating.value.foodRatingId, data));
      } else {
        request := Some(CreateRating(NewRating(data.rating, data.comment, RouteNumber(foodId), RatingUserId(user))));
      }
      if response.None? {
        return request, Some(SaveFailedAlert);
      }
      alert := None;
      var saved := response.value;
      if selectedRating.Some? {
        ratings := ReplaceWhere(ratings, RatingKey, selectedRating.value.foodRatingId, saved);
      } else {
        ratings := [saved] + ratings;
      }
      isEditModalOpen := false;
      selectedRating := None;
    }

    /**
     * The rating dialog's submit as this page mounts it (`onSave={handleSave}`,
     * `onClose={() => setEditModalOpen(false)}`). The dialog checks the score,
     * awaits `handleSave`, then calls `onClose`. `handleSave` never rejects: it
     * returns early without a food id and catches a failed call. So the dialog
     * sees every save as resolved, and a valid score always closes it, even
     * after the page's own alert. A score outside 1–5 sends nothing.
     */
    method SubmitRating(modal: Modal.EditFoodRatingModal, user: Option<User>, response: Option<FoodRating>)
      returns (request: Option<SaveRequest>, pageAlert: Option<string>, modalAlert: Option<string>)
      modifies this, modal
      ensures modal.formData == old(modal.formData)
      ensures 1.0 <= old(modal.formData).rating <= 5.0 ==>
              && !isEditModalOpen && modalAlert.None? && !modal.loading
              && (request.None? <==> FoodIdMissing(foodId))
              && (request.None? ==> pageAlert == Some(MissingFoodIdAlert))
              && (request.Some? && response.None? ==> pageAlert == Some(SaveFailedAlert))
      ensures 1.0 <= old(modal.formData).rating <= 5.0 && (request.None? || response.None?) ==>
              ratings == old(ratings) && selectedRating == old(selectedRating)
      ensures 1.0 <= old(modal.formData).rating <= 5.0 && request.Some? && old(selectedRating).Some? ==>
              request.value == UpdateRating(old(selectedRating).value.foodRatingId, old(modal.formData))
      ensures 1.0 <= old(modal.formData).rating <= 5.0 && request.Some? && old(selectedRating).None? ==>
              request.value == CreateRating(NewRating(old(modal.formData).rating, old(modal.formData).comment,
                                                      RouteNumber(foodId), RatingUserId(user)))
      ensures 1.0 <= old(modal.formData).rating <= 5.0 && request.Some? && response.Some? ==>
              && pageAlert.None? && selectedRating.None?
              && (old(selectedRating).Some? ==>
                    ratings == ReplaceWhere(old(ratings), RatingKey, old(selectedRating).value.foodRatingId, response.value))
              && (old(selectedRating).None? ==> ratings == [response.value] + old(ratings))
      ensures !(1.0 <= old(modal.formData).rating <= 5.0) ==>
              && request.None? && pageAlert.None? && modalAlert == Some(Modal.OutOfRangeAlert)
              && ratings == old(ratings) && isEditModalOpen == old(isEditModalOpen)
              && selectedRating == old(selectedRating) && modal.loading == old(modal.loading)
    {
      var data := modal.formData;
      if 1.0 <= data.rating <= 5.0 {
        request, pageAlert := HandleSave(data, user, response);
      } else {
        request, pageAlert := None, None;
      }
      var saved, closed;
      saved, closed, modalAlert := modal.HandleSubmit(true);
      if closed {
        HandleModalClose();
      }
    }
  }

  /**
   * An edit replaces exactly the entries carrying the selected id: the
   * backend's answer is in the list afterwards whenever the selected rating was.
   */
  lemma EditKeepsAnswer(ratings: seq<FoodRating>, selected: FoodRating, saved: FoodRating)
    requires selected in ratings
    ensures saved in ReplaceWhere(ratings, RatingKey, selected.foodRatingId, saved)
    ensures |ReplaceWhere(ratings, RatingKey, selected.foodRatingId, saved)| == |ratings|
  {
    var i :| 0 <= i < |ratings| && ratings[i] == selected;
    ReplaceWherePresent(ratings, RatingKey, selected.foodRatingId, saved, i);
  }
}
