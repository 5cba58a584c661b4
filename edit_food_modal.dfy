/** The create/edit dialog for a food of the restaurant named in the route. */
module EditFoodModal {
  import opened Wrappers
  import Text
  import opened Js
  import opened Entities

  const IncompleteAlert := "Por favor, completa todos los campos obligatorios y asegúrate de que el precio sea válido."
  const SaveFailedAlert := "Ocurrió un error al guardar el platillo."

  /**
   * The seeding effect: an edited food is copied field by field; a new one
   * is blank, priced 0, `AVAILABLE`, and belongs to `Number(restaurantId)`
   * of the route.
   */
  function SeedForm(food: Option<Food>, restaurantId: Option<string>): (d: FoodRequest)
    ensures food.Some? ==>
            d == FoodRequest(food.value.name, food.value.description, food.value.price,
                             Num(food.value.restaurantId as real), food.value.status)
    ensures food.None? ==> d == FoodRequest("", "", 0.0, RouteNumber(restaurantId), "AVAILABLE")
  {
    if food.Some? then
      FoodRequest(food.value.name, food.value.description, food.value.price,
                  Num(food.value.restaurantId as real), food.value.status)
    else FoodRequest("", "", 0.0, RouteNumber(restaurantId), "AVAILABLE")
  }

  /** The submit check: a name that is not blank and a positive price. */
  predicate Submittable(d: FoodRequest)
  {
    !Text.IsBlank(d.name) && d.price > 0.0
  }

  /** A new food cannot be submitted as seeded: its price is 0. */
  lemma NewFoodNeedsPrice(restaurantId: Option<string>)
    ensures !Submittable(SeedForm(None, restaurantId))
  {
  }

  /** The input whose `name` changed. */
  datatype FoodField = Name | Description | Price | Status

  class EditFoodModal {
    var formData: FoodRequest
    var loading: bool

    /** Mounting runs the seeding effect. */
    constructor (food: Option<Food>, restaurantId: Option<string>)
      ensures formData == SeedForm(food, restaurantId) && !loading
    {
      formData := SeedForm(food, restaurantId);
      loading := false;
    }

    /** The seeding effect again, when the `food` prop or the route changes. */
    method Seed(food: Option<Food>, restaurantId: Option<string>)
      modifies this
      ensures formData == SeedForm(food, restaurantId) && loading == old(loading)
    {
      formData := SeedForm(food, restaurantId);
    }

    /**
     * `handleInputChange`: the price input goes through `parseFloat(value) || 0`
     * (`parseFloat` is a parameter), so it is never `NaN`; other inputs take
     * the text as it is.
     */
    method HandleInputChange(field: FoodField, value: string, parseFloat: string -> JsNumber)
      modifies this
      ensures field == Name ==> formData == old(formData).(name := value)
      ensures field == Description ==> formData == old(formData).(description := value)
      ensures field == Status ==> formData == old(formData).(status := value)
      ensures field == Price ==> formData == old(formData).(price := OrZero(parseFloat(value)))
      ensures field == Price && parseFloat(value).NaN? ==> formData.price == 0.0
      ensures loading == old(loading)
    {
      match field
      case Name => formData := formData.(name := value);
      case Description => formData := formData.(description := value);
      case Status => formData := formData.(status := value);
      case Price => formData := formData.(price := OrZero(parseFloat(value)));
    }

    /**
     * `handleSubmit`: a blank name (after `trim`) or a price that is not
     * positive is refused with an alert; otherwise the form goes to
     * `onSave`, and the dialog closes when that resolves (`saveOk`) or
     * alerts when it rejects.
     */
    method HandleSubmit(saveOk: bool) returns (saved: Option<FoodRequest>, closed: bool, alert: Option<string>)
      modifies this
      ensures saved.Some? <==> Submittable(old(formData))
      ensures saved.Some? ==> saved.value == old(formData)
      ensures closed <==> saved.Some? && saveOk
      ensures saved.None? ==> alert == Some(IncompleteAlert) && loading == old(loading)
      ensures saved.Some? ==> alert == (if saveOk then None else Some(SaveFailedAlert)) && !loading
      ensures formData == old(formData)
    {
      Text.TrimSpec(formData.name);
      if Text.Trim(formData.name) == [] || formData.price <= 0.0 {
        return None, false, Some(IncompleteAlert);
      }
      loading := true;
      saved := Some(formData);
      closed := saveOk;
      alert := if saveOk then None else Some(SaveFailedAlert);
      loading := false;
    }
  }
}
