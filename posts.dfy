/** The posts page: the feed, the comments of one post and the create/edit form. */
module PostsPage {
  import opened Wrappers
  import opened Seqs
  import opened Js
  import opened Entities
  import Auth

  /** The status every new post is given. */
  const Active := "ACTIVE"

  function PostKey(p: Post): int
  {
    p.postId
  }

  /** An empty form for `user`: the user id is `Number(user?.userId) || 0`. */
  function BlankForm(user: Option<User>): (f: PostRequest)
    ensures f.title == "" && f.content == "" && f.status == Active
    ensures f.userId.Num?
    ensures user.None? ==> f.userId == Num(0.0)
  {
    PostRequest("", "", Num(OrZero(UserIdNumber(user))), Active)
  }

  /** The form reset after a save: blank, for `Number(user.userId)`, which may be `NaN`. */
  function SavedForm(user: User): (f: PostRequest)
    ensures f.title == "" && f.content == "" && f.status == Active
    ensures f.userId == UserIdNumber(Some(user))
  {
    PostRequest("", "", UserIdNumber(Some(user)), Active)
  }

  /** The form `onEdit` fills in from an existing post. */
  function FormOf(p: Post): (f: PostRequest)
    ensures f.title == p.title && f.content == p.content && f.status == p.status
    ensures f.userId == Num(p.userId as real)
  {
    PostRequest(p.title, p.content, Num(p.userId as real), p.status)
  }

  /** `!!selectedPostComments`: a post id is selected and it is not 0. */
  predicate PostSelected(selected: Option<int>)
  {
    selected.Some? && selected.value != 0
  }

  /** The payload of `createComment`. */
  datatype NewComment = NewComment(userId: JsNumber, postId: int, content: string)

  /** The payload of `createPost`: the form and the chosen image, if any. */
  datatype PostUpload = PostUpload(post: PostRequest, image: Option<ImageFile>)

  class PostsPage {
    const token: Option<string>
    const user: Option<User>
    var posts: seq<Post>
    var comments: seq<Comment>
    var loading: bool
    var isEditModalOpen: bool
    var isCommentModalOpen: bool
    var selectedPost: Option<Post>
    var selectedPostComments: Option<int>
    var image: Option<ImageFile>
    var newCommentContent: string
    var formData: PostRequest

    constructor (token: Option<string>, user: Option<User>)
      ensures this.token == token && this.user == user
      ensures posts == [] && comments == [] && loading
      ensures !isEditModalOpen && !isCommentModalOpen
      ensures selectedPost.None? && selectedPostComments.None? && image.None? && newCommentContent == ""
      ensures formData == BlankForm(user)
    {
      this.token, this.user := token, user;
      posts, comments, loading := [], [], true;
      isEditModalOpen, isCommentModalOpen := false, false;
      selectedPost, selectedPostComments, image, newCommentContent := None, None, None, "";
      formData := BlankForm(user);
    }

    /**
     * The loading effect: without a token nothing is requested and the page
     * stays loading; otherwise the fetched feed replaces the list (a rejected
     * fetch keeps it) and loading ends either way.
     */
    method FetchPosts(fetched: Option<seq<Post>>) returns (requested: bool)
      modifies this
      ensures requested <==> Auth.TokenPresent(token)
      ensures !requested ==> posts == old(posts) && loading == old(loading)
      ensures requested ==> !loading
      ensures requested && fetched.Some? ==> posts == fetched.value
      ensures requested && fetched.None? ==> posts == old(posts)
      ensures comments == old(comments) && selectedPost == old(selectedPost) && formData == old(formData)
      ensures isEditModalOpen == old(isEditModalOpen) && isCommentModalOpen == old(isCommentModalOpen)
      ensures selectedPostComments == old(selectedPostComments) && image == old(image)
      ensures newCommentContent == old(newCommentContent)
    {
      if !Auth.TokenPresent(token) {
        return false;
      }
      requested := true;
      if fetched.Some? {
        posts := fetched.value;
      }
      loading := false;
    }

    /**
     * `fetchComments(postId)`: when the comments arrive they replace the
     * list, the post becomes the one commented on and the comments modal
     * opens; a rejected fetch changes nothing.
     */
    method FetchComments(postId: int, fetched: Option<seq<Comment>>)
      modifies this
      ensures fetched.Some? ==>
              comments == fetched.value && selectedPostComments == Some(postId) && isCommentModalOpen
      ensures fetched.None? ==>
              comments == old(comments) && selectedPostComments == old(selectedPostComments) &&
              isCommentModalOpen == old(isCommentModalOpen)
      ensures posts == old(posts) && loading == old(loading) && selectedPost == old(selectedPost)
      ensures isEditModalOpen == old(isEditModalOpen) && formData == old(formData) && image == old(image)
      ensures newCommentContent == old(newCommentContent)
    {
      if fetched.Some? {
        comments := fetched.value;
        selectedPostComments := Some(postId);
        isCommentModalOpen := true;
      }
    }

    /**
     * `handleAddComment`: needs a token, a user and a selected post (0 counts
     * as none); the saved comment is appended and the input cleared. A
     * rejected call changes nothing.
     */
    method HandleAddComment(saved: Option<Comment>) returns (request: Option<NewComment>)
      modifies this
      ensures request.Some? <==> Auth.TokenPresent(token) && user.Some? && PostSelected(selectedPostComments)
      ensures request.Some? ==>
              request.value == NewComment(UserIdNumber(user), selectedPostComments.value, old(newCommentContent))
      ensures request.Some? && saved.Some? ==>
              comments == old(comments) + [saved.value] && newCommentContent == ""
      ensures request.None? || saved.None? ==>
              comments == old(comments) && newCommentContent == old(newCommentContent)
      ensures posts == old(posts) && loading == old(loading) && selectedPost == old(selectedPost)
      ensures isEditModalOpen == old(isEditModalOpen) && isCommentModalOpen == old(isCommentModalOpen)
      ensures selectedPostComments == old(selectedPostComments) && formData == old(formData) && image == old(image)
    {
      if !Auth.TokenPresent(token) || user.None? || !PostSelected(selectedPostComments) {
        return None;
      }
      request := Some(NewComment(UserIdNumber(user), selectedPostComments.value, newCommentContent));
      if saved.Some? {
        comments := comments + [saved.value];
        newCommentContent := "";
      }
    }

    /**
     * `handleCreateOrEditPost`: needs a user and a token; the form and image
     * always go to `createPost`. With a post selected, entries carrying the
     * returned id are replaced; otherwise the returned post is put first.
     * Then the modal closes, the selection and image are cleared and the form
     * is reset for the user. A rejected call changes nothing.
     */
    method HandleCreateOrEditPost(saved: Option<Post>) returns (request: Option<PostUpload>)
      modifies this
      ensures request.Some? <==> user.Some? && Auth.TokenPresent(token)
      ensures request.Some? ==> request.value == PostUpload(old(formData), old(image))
      ensures request.None? || saved.None? ==>
              posts == old(posts) && isEditModalOpen == old(isEditModalOpen) &&
              selectedPost == old(selectedPost) && formData == old(formData) && image == old(image)
      ensures request.Some? && saved.Some? && old(selectedPost).Some? ==>
              posts == ReplaceWhere(old(posts), PostKey, saved.value.postId, saved.value)
      ensures request.Some? && saved.Some? && old(selectedPost).None? ==>
              posts == [saved.value] + old(posts)
      ensures request.Some? && saved.Some? ==>
              !isEditModalOpen && selectedPost.None? && image.None? &&
              formData == SavedForm(user.value)
      ensures comments == old(comments) && loading == old(loading) && isCommentModalOpen == old(isCommentModalOpen)
      ensures selectedPostComments == old(selectedPostComments) && newCommentContent == old(newCommentContent)
    {
      if user.None? || !Auth.TokenPresent(token) {
        return None;
      }
      request := Some(PostUpload(formData, image));
      if saved.None? {
        return;
      }
      var p := saved.value;
      posts := if selectedPost.Some? then ReplaceWhere(posts, PostKey, p.postId, p) else [p] + posts;
      ResetForm(user.value);
    }

    /** After a save: the modal closes, selection and image are cleared and the form is blank for the user. */
    method ResetForm(u: User)
      modifies this`isEditModalOpen, this`selectedPost, this`image, this`formData
      ensures !isEditModalOpen && selectedPost.None? && image.None?
      ensures formData == SavedForm(u)
    {
      isEditModalOpen, selectedPost, image := false, None, None;
      formData := SavedForm(u);
    }

    /** `onEdit`: select the post, copy it into the form and open the modal. */
    method OnEdit(p: Post)
      modifies this
      ensures selectedPost == Some(p) && formData == FormOf(p) && isEditModalOpen
      ensures posts == old(posts) && comments == old(comments) && loading == old(loading) && image == old(image)
      ensures isCommentModalOpen == old(isCommentModalOpen) && selectedPostComments == old(selectedPostComments)
      ensures newCommentContent == old(newCommentContent)
    {
      selectedPost := Some(p);
      formData := FormOf(p);
      isEditModalOpen := true;
    }

    /** The "Nueva Publicación" button: only opens the modal, keeping any selection and form. */
    method OpenEditModal()
      modifies this
      ensures isEditModalOpen
      ensures selectedPost == old(selectedPost) && formData == old(formData) && posts == old(posts)
      ensures comments == old(comments) && loading == old(loading) && image == old(image)
      ensures isCommentModalOpen == old(isCommentModalOpen) && selectedPostComments == old(selectedPostComments)
      ensures newCommentContent == old(newCommentContent)
    {
      isEditModalOpen := true;
    }

    /** `onDelete`: `deletePost(postId)` is requested; the list is not touched. */
    method OnDelete(postId: int) returns (request: int)
      ensures request == postId
    {
      request := postId;
    }
  }

  /**
   * Because the edit path replaces by the id the backend returns, an edit
   * answered with an id the feed does not hold leaves the feed unchanged.
   */
  lemma EditWithUnknownIdKeepsFeed(posts: seq<Post>, saved: Post)
    requires forall i :: 0 <= i < |posts| ==> posts[i].postId != saved.postId
    ensures ReplaceWhere(posts, PostKey, saved.postId, saved) == posts
  {
  }
}
