/** The create/edit dialog for a food rating: a 1–5 score and a comment. */
module EditFoodRatingModal {
  import opened Wrappers
  import opened Js
  import opened Entities

  const OutOfRangeAlert := "La calificación debe estar entre 1 y 5."
  const SaveFailedAlert := "No se pudo guardar la calificación. Inténtalo nuevamente."

  /** `Math.min(Math.max(x, lo), hi)`. */
  function Clamp(x: real, lo: real, hi: real): (r: real)
    requires lo <= hi
    ensures lo <= r <= hi
    ensures lo <= x <= hi ==> r == x
    ensures x < lo ==> r == lo
    ensures x > hi ==> r == hi
  {
    if x < lo then lo else if x > hi then hi else x
  }

  /** Clamping twice is clamping once. */
  lemma ClampIdempotent(x: real, lo: real, hi: real)
    requires lo <= hi
    ensures Clamp(Clamp(x, lo, hi), lo, hi) == Clamp(x, lo, hi)
  {
  }

  /** The `rating` prop: a score and a comment that may be missing. */
  datatype RatingProp = RatingProp(rating: real, comment: Option<string>)

  /**
   * The seeding effect: an edited rating is copied with its score clamped
   * to 1–5 and a missing comment read as empty; a new rating starts at 0.
   */
  function SeedForm(prop: Option<RatingProp>): (d: RatingData)
    ensures prop.None? ==> d == RatingData(0.0, "")
    ensures prop.Some? ==> 1.0 <= d.rating <= 5.0 && d.comment == prop.value.comment.GetOr("")
    ensures prop.Some? && 1.0 <= prop.value.rating <= 5.0 ==> d.rating == prop.value.rating
  {
    if prop.Some? then RatingData(Clamp(prop.value.rating, 1.0, 5.0), prop.value.comment.GetOr(""))
    else RatingData(0.0, "")
  }

  /** The input whose `name` changed. */
  datatype RatingField = Score | CommentText

  class EditFoodRatingModal {
    var formData: RatingData
    var loading: bool

    /** Mounting runs the seeding effect for the `rating` prop. */
    constructor (prop: Option<RatingProp>)
      ensures formData == SeedForm(prop) && !loading
    {
      formData := SeedForm(prop);
      loading := false;
    }

    /** The seeding effect again, when the `rating` prop changes. */
    method Seed(prop: Option<RatingProp>)
      modifies this
      ensures formData == SeedForm(prop) && loading == old(loading)
    {
      formData := SeedForm(prop);
    }

    /**
     * `handleInputChange`: a typed score goes through
     * `Math.min(Math.max(parseInt(value, 10) || 0, 1), 5)`, so it is always
     * within 1–5; the comment takes the text as it is.
     */
    method HandleInputChange(field: RatingField, value: string)
      modifies this
      ensures field == Score ==>
              formData == old(formData).(rating := Clamp(OrZero(ParseInt(value)), 1.0, 5.0)) &&
              1.0 <= formData.rating <= 5.0
      ensures field == CommentText ==> formData == old(formData).(comment := value)
      ensures loading == old(loading)
    {
      if field == Score {
        formData := formData.(rating := Clamp(OrZero(ParseInt(value)), 1.0, 5.0));
      } else {
        formData := formData.(comment := value);
      }
    }

    /**
     * `handleSubmit`: a score outside 1–5 is refused with an alert and
     * nothing is saved; otherwise the form goes to `onSave`, and the dialog
     * closes when that resolves (`saveOk`) or alerts when it rejects. Either
     * way loading has ended when the call returns.
     */
    method HandleSubmit(saveOk: bool) returns (saved: Option<RatingData>, closed: bool, alert: Option<string>)
      modifies this
      ensures saved.Some? <==> 1.0 <= old(formData).rating <= 5.0
      ensures saved.Some? ==> saved.value == old(formData)
      ensures closed <==> saved.Some? && saveOk
      ensures saved.None? ==> alert == Some(OutOfRangeAlert) && loading == old(loading)
      ensures saved.Some? ==> alert == (if saveOk then None else Some(SaveFailedAlert)) && !loading
      ensures formData == old(formData)
    {
      if formData.rating < 1.0 || formData.rating > 5.0 {
        return None, false, Some(OutOfRangeAlert);
      }
      loading := true;
      saved := Some(formData);
      closed := saveOk;
      alert := if saveOk then None else Some(SaveFailedAlert);
      loading := false;
    }
  }

  /** A new rating cannot be submitted before its score is typed in: it starts at 0. */
  lemma NewRatingNeedsScore()
    ensures !(1.0 <= SeedForm(None).rating <= 5.0)
  {
  }
}
