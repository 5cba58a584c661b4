/** The stand-alone post form: title, content and a required image. */
module CreatePostForm {
  import opened Wrappers
  import opened Js
  import opened Entities
  import Auth

  const ImageRequired := "Image is required"
  const NotAuthenticated := "User is not authenticated"
  const PostCreated := "Post created successfully"
  const PostFailed := "Error creating post"

  /**
   * The `PostRequestDto` this form builds. Its user id is read from
   * `user.id`, a property the user record does not declare, so it is a
   * general JavaScript value (`undefined` for every user modelled here).
   */
  datatype PostDraft = PostDraft(content: string, title: string, userId: JsValue, status: string)

  /** `createPost(dto, image, token || '')`. */
  datatype PostSubmission = PostSubmission(draft: PostDraft, image: ImageFile, bearer: string)

  /** `token || ''`. */
  function BearerOf(token: Option<string>): (b: string)
    ensures Auth.TokenPresent(token) ==> b == token.value
    ensures !Auth.TokenPresent(token) ==> b == ""
  {
    if token.Some? then token.value else ""
  }

  class CreatePostForm {
    const token: Option<string>
    const user: Option<User>
    var content: string
    var title: string
    var image: Option<ImageFile>
    var error: string
    var successMessage: string

    constructor (token: Option<string>, user: Option<User>)
      ensures this.token == token && this.user == user
      ensures content == "" && title == "" && image.None? && error == "" && successMessage == ""
    {
      this.token, this.user := token, user;
      content, title, image, error, successMessage := "", "", None, "", "";
    }

    /**
     * `handleSubmit`: the image is checked first, then the user; either
     * failure only sets the error. A submission that the backend accepts
     * (`created`) clears the form and reports success; one it rejects keeps
     * the form and reports the error.
     */
    method HandleSubmit(created: bool) returns (request: Option<PostSubmission>)
      modifies this
      ensures request.Some? <==> old(image).Some? && user.Some?
      ensures old(image).None? ==>
              error == ImageRequired && successMessage == old(successMessage) &&
              content == old(content) && title == old(title) && image == old(image)
      ensures old(image).Some? && user.None? ==>
              error == NotAuthenticated && successMessage == old(successMessage) &&
              content == old(content) && title == old(title) && image == old(image)
      ensures request.Some? ==>
              request.value == PostSubmission(PostDraft(old(content), old(title), Undefined, "ACTIVE"),
                                              old(image).value, BearerOf(token))
      ensures request.Some? && created ==>
              content == "" && title == "" && image.None? && successMessage == PostCreated && error == ""
      ensures request.Some? && !created ==>
              content == old(content) && title == old(title) && image == old(image) &&
              successMessage == "" && error == PostFailed
    {
      if image.None? {
        error := ImageRequired;
        return None;
      }
      if user.None? {
        error := NotAuthenticated;
        return None;
      }
      request := Some(PostSubmission(PostDraft(content, title, Undefined, "ACTIVE"), image.value, BearerOf(token)));
      if created {
        content, title, image := "", "", None;
        successMessage, error := PostCreated, "";
      } else {
        error, successMessage := PostFailed, "";
      }
    }
  }
}
