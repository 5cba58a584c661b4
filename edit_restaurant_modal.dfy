/** The create/edit dialog for a restaurant, with a map position. */
module EditRestaurantModal {
  import opened Wrappers
  import Text
  import opened Entities
  import RestaurantsPage

  const IncompleteAlert := "Por favor, completa todos los campos obligatorios."
  const SaveFailedAlert := "Ocurrió un error al guardar el restaurante."

  /** Where a new restaurant's marker starts: central Lima. */
  const DefaultLocation := Coords(-12.0464, -77.0428)

  /** `JSON.stringify` and `JSON.parse` on a position; `parse` answers `None` where it throws. */
  datatype LocationJson = LocationJson(stringify: Coords -> string, parse: string -> Option<Coords>)

  /** The dialog's form: the request fields with the location as a position. */
  datatype RestaurantForm = RestaurantForm(name: string, location: Coords, email: string, status: string)

  const BlankForm := RestaurantForm("", DefaultLocation, "", "OPEN")

  /**
   * The seeding effect. An edited restaurant is copied, its location parsed
   * when it is text; a parse that throws aborts the effect (`None`), unlike
   * the page's own reading, which falls back to (0, 0).
   */
  function SeedForm(restaurant: Option<Restaurant>, json: LocationJson): (f: Option<RestaurantForm>)
    ensures restaurant.None? ==> f == Some(BlankForm)
    ensures restaurant.Some? && restaurant.value.location.LocationPoint? ==>
            f == Some(RestaurantForm(restaurant.value.name, restaurant.value.location.point,
                                     restaurant.value.email, restaurant.value.status))
    ensures restaurant.Some? && restaurant.value.location.LocationText? ==>
            (f.None? <==> json.parse(restaurant.value.location.text).None?)
    ensures f.Some? && restaurant.Some? ==>
            f.value.name == restaurant.value.name && f.value.email == restaurant.value.email &&
            f.value.status == restaurant.value.status
  {
    if restaurant.None? then Some(BlankForm)
    else
      var r := restaurant.value;
      match r.location
      case LocationPoint(p) => Some(RestaurantForm(r.name, p, r.email, r.status))
      case LocationText(t) =>
        match json.parse(t)
        case None => None
        case Some(p) => Some(RestaurantForm(r.name, p, r.email, r.status))
  }

  /** The submit check: neither the name nor the e-mail is blank. */
  predicate Submittable(f: RestaurantForm)
  {
    !Text.IsBlank(f.name) && !Text.IsBlank(f.email)
  }

  /** The request sent on submit: the form with its location as JSON text. */
  function Payload(f: RestaurantForm, json: LocationJson): (r: RestaurantRequest)
    ensures r.name == f.name && r.email == f.email && r.status == f.status
    ensures json.parse(json.stringify(f.location)) == Some(f.location) ==> json.parse(r.location) == Some(f.location)
  {
    RestaurantRequest(f.name, f.email, f.status, json.stringify(f.location))
  }

  /**
   * When `JSON.parse` reads back what `JSON.stringify` writes, a restaurant
   * saved from the dialog reopens in the dialog with the same form, and the
   * page shows the same position.
   */
  lemma SavedRestaurantReopens(f: RestaurantForm, id: int, json: LocationJson)
    requires json.parse(json.stringify(f.location)) == Some(f.location)
    ensures var p := Payload(f, json);
            var saved := Restaurant(id, p.name, p.email, p.status, LocationText(p.location));
            SeedForm(Some(saved), json) == Some(f) &&
            RestaurantsPage.ParseLocation(saved.location, json.parse) == f.location
  {
  }

  /** Page and dialog read a restaurant's location alike whenever the dialog can read it at all. */
  lemma PageAgreesWithDialog(r: Restaurant, json: LocationJson)
    requires SeedForm(Some(r), json).Some?
    ensures RestaurantsPage.ParseLocation(r.location, json.parse) == SeedForm(Some(r), json).value.location
  {
  }

  /** The input whose `name` changed. */
  datatype RestaurantField = Name | Email | Status

  class EditRestaurantModal {
    var formData: RestaurantForm
    var loading: bool
    /** The seeding effect threw (`JSON.parse` on a stored location): the dialog is gone. */
    var crashed: bool
    const json: LocationJson

    /**
     * Mounting: the blank form, then the seeding effect for the `restaurant`
     * prop. When that effect throws, the dialog crashes with the blank form
     * it started from.
     */
    constructor (restaurant: Option<Restaurant>, json: LocationJson)
      ensures this.json == json && !loading
      ensures crashed <==> SeedForm(restaurant, json).None?
      ensures !crashed ==> formData == SeedForm(restaurant, json).value
      ensures crashed ==> formData == BlankForm
    {
      this.json := json;
      var seeded := SeedForm(restaurant, json);
      formData := seeded.GetOr(BlankForm);
      crashed := seeded.None?;
      loading := false;
    }

    /** The seeding effect again, when the `restaurant` prop changes; where it throws, the dialog crashes. */
    method Seed(restaurant: Option<Restaurant>) returns (ok: bool)
      modifies this
      ensures ok <==> SeedForm(restaurant, json).Some?
      ensures formData == if ok then SeedForm(restaurant, json).value else old(formData)
      ensures crashed == (old(crashed) || !ok)
      ensures loading == old(loading)
    {
      var seeded := SeedForm(restaurant, json);
      ok := seeded.Some?;
      if ok {
        formData := seeded.value;
      } else {
        crashed := true;
      }
    }

    /** `handleInputChange`: the named text field takes the value. */
    method HandleInputChange(field: RestaurantField, value: string)
      modifies this
      ensures field == Name ==> formData == old(formData).(name := value)
      ensures field == Email ==> formData == old(formData).(email := value)
      ensures field == Status ==> formData == old(formData).(status := value)
      ensures loading == old(loading) && crashed == old(crashed)
    {
      match field
      case Name => formData := formData.(name := value);
      case Email => formData := formData.(email := value);
      case Status => formData := formData.(status := value);
    }

    /** `handleLocationChange`: the map reports a new marker position. */
    method HandleLocationChange(lat: real, lng: real)
      modifies this
      ensures formData == old(formData).(location := Coords(lat, lng))
      ensures loading == old(loading) && crashed == old(crashed)
    {
      formData := formData.(location := Coords(lat, lng));
    }

    /**
     * `handleSubmit`: a blank name or e-mail (after `trim`) is refused with
     * an alert; otherwise the payload goes to `onSave`, and the dialog
     * closes when that resolves (`saveOk`) or alerts when it rejects.
     */
    method HandleSubmit(saveOk: bool) returns (sent: Option<RestaurantRequest>, closed: bool, alert: Option<string>)
      modifies this
      ensures sent.Some? <==> Submittable(old(formData))
      ensures sent.Some? ==> sent.value == Payload(old(formData), json)
      ensures closed <==> sent.Some? && saveOk
      ensures sent.None? ==> alert == Some(IncompleteAlert) && loading == old(loading)
      ensures sent.Some? ==> alert == (if saveOk then None else Some(SaveFailedAlert)) && !loading
      ensures formData == old(formData) && crashed == old(crashed)
    {
      Text.TrimSpec(formData.name);
      Text.TrimSpec(formData.email);
      if Text.Trim(formData.name) == [] || Text.Trim(formData.email) == [] {
        return None, false, Some(IncompleteAlert);
      }
      loading := true;
      sent := Some(Payload(formData, json));
      closed := saveOk;
      alert := if saveOk then None else Some(SaveFailedAlert);
      loading := false;
    }
  }
}
