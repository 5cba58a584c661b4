# Restaurant and food-review web client: a Dafny model

This project models the client-side logic of a React web application for
rating restaurants and foods and for posting about them. The logic covers:

- the authentication context, which keeps a JWT and the signed-in user in
  `localStorage`, restores the user at start-up from the token's `userId`
  claim, and exposes `useAuth`;
- the login page;
- the in-memory chat page;
- the restaurant, food, food-rating and posts pages, with their list state,
  selection, edit dialog and save/delete handlers;
- the start page's catalogue filters;
- the post-creation form;
- the three edit dialogs (restaurant, food, food rating);
- the star-rating cards.

Each React component becomes a Dafny `class` whose fields are the
component's `useState` slots. Each event handler becomes a `method` whose
`ensures` gives the new state and any request sent to the backend. The pure
helpers (JWT payload extraction, location parsing, list filtering, clamping)
become functions, with lemmas stating what they guarantee.

A `useEffect` is a method of its own, which the environment runs after the
handler whose state change triggers it. A handler's `ensures` covers only
the handler. In particular, `AuthProvider.Restore` is the `[token]` effect
that follows every `AuthProvider.SetToken`, and `Login.HandleSubmit` calls
`SetToken`. So `loading` ends only when `Restore` runs, as it does in the
source once the effect fires.

Things the browser or the backend decides are parameters:
- the outcome of each HTTP call (`Option`/`bool`);
- `JSON.parse`/`JSON.stringify`, `atob`, `decodeURIComponent` and
  `parseFloat` (datatypes or parameters holding functions);
- the stored `localStorage` map.

JavaScript's own semantics are written out in `js.dfy`:
- truthiness;
- `x || 0`;
- `Number(string)` on decimal literals and `parseInt(string, 10)`;
- optional chaining.

`seqs.dfy` and `text.dfy` hold the list and string operations the pages use:
- `filter` and `map` as remove/replace by key;
- lower-casing, `includes` and `trim`.

Modules follow the source files:
- `auth.dfy` is `AuthContext.tsx`;
- `login.dfy`, `chat.dfy`, `restaurants_page.dfy`, `foods_page.dfy`,
  `food_ratings_page.dfy`, `posts.dfy` and `inicio.dfy` are the pages;
- `create_post_form.dfy`, `edit_food_modal.dfy`,
  `edit_food_rating_modal.dfy`, `edit_restaurant_modal.dfy` and `cards.dfy`
  are the components;
- `entities.dfy` holds the records the pages exchange with the backend.
  `User`, `Post` and `PostRequestDto` follow `Api.ts`. The page-side
  `Restaurant`, `Food`, `FoodRating` and comment records are not declared in
  the files modelled here; their fields are the ones the pages read and
  write. The start page's catalogue records, which are `Api.ts`'s `Food` and
  `Restaurant`, are in `inicio.dfy`.

Behaviours of the code that a reader might not expect, all modelled as
written:
- The initial `loading` flag is `!token || !user`, not simply "true".
- A token whose payload yields no `userId` is kept, not discarded.
- Nothing enforces "no user without a token". A stored user survives a
  missing token.
- The food-rating page replaces an edited rating by the id of the rating
  that was *selected*. The other pages replace by the id the backend
  *returned*.
- On the posts page:
  - "Nueva Publicación" opens the dialog without clearing the selection or
    the form;
  - deleting a post never updates the list;
  - without a token the fetch is skipped and `loading` stays true.
- The start page:
  - reads the token under the key `token`, while the authentication
    context writes `authToken`;
  - applies the country filter for restaurants to the restaurant's name.
- The post-creation form sends `user.id`, which the `User` record does not
  have, so the `userId` sent is `undefined`.
- The restaurant dialog's seeding effect throws when a stored location is
  not valid JSON, and the dialog crashes (its `crashed` state). The
  restaurants page falls back to `(0, 0)` for the same input.
- The food-rating page's `handleSave` never rejects. It returns early
  without a food id, and it catches a failed call and alerts. So the rating
  dialog treats every save as resolved and closes after any save with a
  valid score. The food and restaurant pages' `handleSave` let a failed call
  reject, so their dialogs stay open and alert.

## Model

| member | source | states |
|---|---|---|
| Js.OptionalGet | src/AuthContext.tsx:32 | `v?.name` is the field's value when the object has it, and `undefined` when it lacks it or is not an object |
| Js.OrZero | src/components/EditFoodModal.tsx:50 | `n \|\| 0` keeps a number and turns NaN into 0 |
| Js.UnsignedValue | src/pages/Inicio.tsx:32 | the value of an unsigned decimal literal (`5`, `5.`, `.5`, `3.25`), and no value otherwise (stated by `Js.PointLiteral`) |
| Js.ToNumber | src/pages/Inicio.tsx:32 | `Number(s)`: trims white space; blank is 0; an optional sign and a decimal literal give its value; anything else is NaN (stated by `Js.BlankIsZero`, `Js.PointLiteral` and `Js.DecimalRoundTrip`) |
| Js.UnsignedPoint | src/pages/Inicio.tsx:32 | digits, a point and digits read as the integer part plus the fraction |
| Js.PointLiteral | src/pages/Inicio.tsx:32 | `Number("i.f")` is the integer part plus `0.f`, e.g. `Number("3.5")` is 3.5 |
| Js.BlankIsZero | src/pages/Inicio.tsx:32 | `Number` of an empty or all-whitespace string is 0 |
| Js.ParseInt | src/components/EditFoodRatingModal.tsx:39 | `parseInt(s, 10)`: skips leading white space, reads an optional sign and the longest digit run; NaN without digits (stated by `Js.ParseIntDigitsThen` and `Js.ParseIntDecimal`) |
| Js.DigitRun | src/components/EditFoodRatingModal.tsx:39 | the leading digit run `parseInt` reads is all digits and maximal |
| Js.ParseIntDigitsThen | src/components/EditFoodRatingModal.tsx:39 | `parseInt` of digits followed by a non-digit is the digits' decimal value, whatever follows |
| Js.ParseIntDecimal | src/components/EditFoodRatingModal.tsx:39 | `parseInt` inverts decimal printing of a natural number |
| Js.DigitRunOf | src/components/EditFoodRatingModal.tsx:39 | the digit run of digits followed by a non-digit is exactly those digits |
| Js.Decimal | src/pages/FoodsPage.tsx:26 | printing a natural number gives a non-empty all-digit string |
| Js.DecimalRoundTrip | src/pages/FoodsPage.tsx:26 | `Number` inverts decimal printing of a natural number |
| Js.DecimalValue | src/pages/FoodsPage.tsx:26 | the digit value of a natural number's decimal form is that number |
| Text.ToLower | src/pages/Inicio.tsx:31 | lower-casing keeps the length and maps each character |
| Text.ToLowerIdempotent | src/pages/Inicio.tsx:31 | lower-casing twice is lower-casing once; no upper-case letter remains |
| Text.Contains | src/pages/Inicio.tsx:35 | `s.includes(needle)`: true exactly when the needle occurs at some index (stated by `Text.ContainsAt`) |
| Text.ContainsAt | src/pages/Inicio.tsx:35 | `includes` holds exactly when the needle occurs at some index |
| Text.ContainsPrefix | src/pages/Inicio.tsx:31 | a string that includes `n + m` includes `n`: a longer needle never matches more |
| Text.ToLowerAppend | src/pages/Inicio.tsx:31 | lower-casing a concatenation lower-cases each part |
| Text.TrimStart | src/pages/Chat.tsx:41 | drops the leading ECMAScript white space (stated by `Text.TrimStartSpec`) |
| Text.TrimEnd | src/pages/Chat.tsx:41 | drops the trailing ECMAScript white space (stated by `Text.TrimEndSpec`) |
| Text.Trim | src/pages/Chat.tsx:41 | `trim()`: both ends (stated by `Text.TrimSpec`) |
| Text.TrimStartSpec | src/pages/Chat.tsx:41 | trimming the start removes exactly a whitespace prefix and stops at a non-space |
| Text.TrimEndSpec | src/pages/Chat.tsx:41 | trimming the end removes exactly a whitespace suffix and stops at a non-space |
| Text.TrimSpec | src/components/EditFoodModal.tsx:54 | `trim()` is empty exactly when the string is blank; a non-empty result has no space at either end |
| Text.TrimUnchanged | src/components/EditRestaurantModal.tsx:59 | a string with non-space ends is its own trim |
| Seqs.Filter | src/pages/Inicio.tsx:29-36 | `filter` keeps only elements satisfying the predicate and keeps every one of them |
| Seqs.FilterIsSubsequence | src/pages/Inicio.tsx:38-43 | `filter` keeps the order of what it keeps |
| Seqs.FilterKeepsAll | src/pages/Inicio.tsx:29-36 | filtering with a predicate every element meets changes nothing |
| Seqs.FilterMonotone | src/pages/Inicio.tsx:29-36 | a weaker predicate keeps a superset, in order |
| Seqs.FilterCongruent | src/pages/Inicio.tsx:38-43 | predicates that agree on every element give the same result |
| Seqs.FilterPartition | src/pages/Inicio.tsx:29-36 | the kept and the dropped elements together account for the whole list |
| Seqs.RemoveWhere | src/pages/Chat.tsx:34 | removing by key drops exactly the elements with that key |
| Seqs.RemoveWhereSpec | src/pages/RestaurantsPage.tsx:55 | the result is an ordered sub-list, shorter by the number of matches, and unchanged when nothing matches |
| Seqs.ReplaceWhere | src/pages/FoodsPage.tsx:47 | replacing by key keeps the length and swaps in the new element exactly at matching positions |
| Seqs.ReplaceWhereAbsent | src/pages/Posts.tsx:93 | replacing a key nobody has changes nothing |
| Seqs.ReplaceWherePresent | src/pages/RestaurantsPage.tsx:62 | replacing a key somebody has puts the new element in the list |
| Seqs.CountZeroAt | src/pages/FoodsRatingPage.tsx:69 | a key with no matches matches no position |
| Entities.UserIdNumber | src/pages/Posts.tsx:73 | `Number(user?.userId)` is NaN without a user |
| Entities.RouteNumber | src/pages/FoodsPage.tsx:26 | `Number` of a missing route parameter is NaN; otherwise it is the string's conversion |
| Entities.RouteNumberOfId | src/pages/FoodsPage.tsx:26 | a route parameter printed from a natural id converts back to that id |
| Auth.PersistToken | src/AuthContext.tsx:64-70 | a present token is stored under `authToken`, an absent or empty one removes the key, and no other key changes |
| Auth.PersistUser | src/AuthContext.tsx:72-78 | a user is stored stringified under `authUser`, no user removes the key, and no other key changes |
| Auth.PersistBoth | src/AuthContext.tsx:64-78 | after both persistence effects the store holds exactly the session's token and user |
| Auth.InitialSession | src/AuthContext.tsx:23-28 | start-up reads the token and the parsed user from storage, fails only when the stored user does not parse, and starts loading exactly when token or user is missing |
| Auth.ReloadRestoresSession | src/AuthContext.tsx:23-28 | reloading from a persisted session gives back the same token and user |
| Auth.IndexOf | src/AuthContext.tsx:99 | the first index of a character, or the length when absent |
| Auth.SecondSegment | src/AuthContext.tsx:99 | `split(".")[1]` exists exactly when the token has a dot, and contains no dot |
| Auth.SecondSegmentOfCompact | src/AuthContext.tsx:99 | in `header.payload[.signature]` the second segment is the payload |
| Auth.ReplaceChar | src/AuthContext.tsx:100 | a global one-character replace changes exactly the matching positions |
| Auth.Base64UrlToBase64 | src/AuthContext.tsx:100 | base64url to base64 maps `-` to `+` and `_` to `/`, and leaves none of either |
| Auth.Base64UrlPlain | src/AuthContext.tsx:100 | a payload without `-` or `_` is unchanged |
| Auth.Base64ToBase64Url | src/AuthContext.tsx:100 | the reverse alphabet mapping, position by position |
| Auth.Base64UrlRoundTrip | src/AuthContext.tsx:100 | on base64url text, converting to base64 and back is the identity |
| Auth.PercentByte | src/AuthContext.tsx:101-103 | each character becomes a three-character `%hh` escape whose two hex digits read back as the character's low byte |
| Auth.PercentEncode | src/AuthContext.tsx:101-103 | the escaped string is three times as long, and its `i`-th triple is the escape of the `i`-th character |
| Auth.Bytes | src/AuthContext.tsx:101-103 | one byte per character: the `i`-th is the low eight bits of the `i`-th code unit |
| Auth.HexDigitValue | src/AuthContext.tsx:102 | reading back a printed hex digit gives its value |
| Auth.PercentRoundTrip | src/AuthContext.tsx:101-103 | percent-decoding the escaped string gives back each character's byte |
| Auth.ParseJwt | src/AuthContext.tsx:97-108 | a token without a dot decodes to `null` |
| Auth.ParseJwtFailsClosed | src/AuthContext.tsx:97-108 | a non-null result means the second segment, its base64 decoding, its percent decoding and its JSON parse all succeeded |
| Auth.ClaimedUserId | src/AuthContext.tsx:32 | `parseJwt(token)?.userId` (stated by `Auth.UndecodablePayloadHasNoClaim` and the token round trip) |
| Auth.UndecodablePayloadHasNoClaim | src/AuthContext.tsx:32 | a token whose payload is not base64 yields `undefined` as its `userId` claim |
| Auth.AuthProvider.constructor | src/AuthContext.tsx:23-28 | the provider starts from the stored session, and its store agrees with it |
| Auth.AuthProvider.SetToken | src/AuthContext.tsx:64-70 | setting the token persists it and changes nothing else |
| Auth.AuthProvider.SetUser | src/AuthContext.tsx:72-78 | setting the user persists it and changes nothing else |
| Auth.AuthProvider.Restore | src/AuthContext.tsx:30-62 | the profile is fetched exactly when a token is present, no user is loaded and the token claims a truthy `userId`; a fetched profile becomes the user, a failed fetch drops the token, and loading always ends |
| Auth.UseAuth | src/AuthContext.tsx:88-94 | `useAuth` returns the context, and fails with the fixed message outside a provider |
| Login.LoginPage.constructor | src/pages/Login.tsx:7-10 | all inputs and messages start empty |
| Login.LoginPage.HandleSubmit | src/pages/Login.tsx:14-30 | the entered credentials are sent; success stores token and user and shows the success message; failure shows the error and leaves the session alone |
| ChatPage.AppendToUser | src/pages/Chat.tsx:42-48 | the message is appended to every chat with that username and to no other, in place |
| ChatPage.AppendToAbsentUser | src/pages/Chat.tsx:42-48 | sending to a username no chat has changes nothing |
| ChatPage.ChatPage.constructor | src/pages/Chat.tsx:18-22 | no chats, no selection, empty inputs |
| ChatPage.ChatPage.SelectChat | src/pages/Chat.tsx:73 | clicking a chat selects it and nothing else |
| ChatPage.ChatPage.HandleAddChat | src/pages/Chat.tsx:24-31 | with both inputs filled an empty chat is appended and the inputs clear; otherwise nothing changes |
| ChatPage.ChatPage.HandleDeleteChat | src/pages/Chat.tsx:33-38 | every chat with the username is removed, order kept, and a matching selection is cleared |
| ChatPage.ChatPage.HandleSendMessage | src/pages/Chat.tsx:40-56 | a non-blank message to the selected chat is appended to the list and to the selection, and the input clears; otherwise nothing changes |
| RestaurantsPage.ParseLocation | src/pages/RestaurantsPage.tsx:37-46 | an object location is used as is; a string is parsed, falling back to (0, 0) |
| RestaurantsPage.RestaurantsPage.constructor | src/pages/RestaurantsPage.tsx:19-21 | no restaurants, closed dialog, no selection |
| RestaurantsPage.RestaurantsPage.Load | src/pages/RestaurantsPage.tsx:25-35 | a successful fetch replaces the list; a failure keeps it |
| RestaurantsPage.RestaurantsPage.HandleEdit | src/pages/RestaurantsPage.tsx:48-51 | selects the restaurant and opens the dialog |
| RestaurantsPage.RestaurantsPage.HandleNew | src/pages/RestaurantsPage.tsx:88-91 | clears the selection and opens the dialog |
| RestaurantsPage.RestaurantsPage.HandleModalClose | src/pages/RestaurantsPage.tsx:164 | closes the dialog only |
| RestaurantsPage.RestaurantsPage.HandleDelete | src/pages/RestaurantsPage.tsx:53-56 | a confirmed delete removes exactly the restaurants with that id, in order |
| RestaurantsPage.RestaurantsPage.HandleSave | src/pages/RestaurantsPage.tsx:58-70 | with a selection an update is sent and the answer replaces by its id; otherwise a create is sent and the answer is prepended; on success the dialog closes; a failure changes nothing |
| FoodsPage.FoodsPage.constructor | src/pages/FoodsPage.tsx:20-22 | no foods, closed dialog, no selection |
| FoodsPage.FoodsPage.Load | src/pages/FoodsPage.tsx:24-30 | the foods of `Number(restaurantId)` are requested; success replaces the list |
| FoodsPage.FoodsPage.HandleEdit | src/pages/FoodsPage.tsx:32-35 | selects the food and opens the dialog |
| FoodsPage.FoodsPage.HandleNew | src/pages/FoodsPage.tsx:74-77 | clears the selection and opens the dialog |
| FoodsPage.FoodsPage.HandleModalClose | src/pages/FoodsPage.tsx:143 | closes the dialog only |
| FoodsPage.FoodsPage.HandleDelete | src/pages/FoodsPage.tsx:37-40 | a confirmed delete removes exactly the foods with that id, in order |
| FoodsPage.FoodsPage.HandleSave | src/pages/FoodsPage.tsx:42-56 | update replaces by the returned id and keeps the length; create prepends; success closes the dialog; failure changes nothing |
| FoodRatingsPage.RatingUserId | src/pages/FoodsRatingPage.tsx:92 | `Number(user?.userId \|\| 0)` is 0 without a user or with an empty id, else the id's conversion |
| FoodRatingsPage.FoodRatingsPage.constructor | src/pages/FoodsRatingPage.tsx:25-31 | no ratings, closed dialog, no selection |
| FoodRatingsPage.FoodRatingsPage.Load | src/pages/FoodsRatingPage.tsx:33-49 | without a food id nothing is requested; otherwise success replaces the list and failure alerts |
| FoodRatingsPage.FoodRatingsPage.HandleAdd | src/pages/FoodsRatingPage.tsx:51-54 | clears the selection and opens the dialog |
| FoodRatingsPage.FoodRatingsPage.HandleEdit | src/pages/FoodsRatingPage.tsx:56-59 | selects the rating and opens the dialog |
| FoodRatingsPage.FoodRatingsPage.HandleModalClose | src/pages/FoodsRatingPage.tsx:164 | closes the dialog only |
| FoodRatingsPage.FoodRatingsPage.HandleDelete | src/pages/FoodsRatingPage.tsx:61-74 | id 0 alerts and sends nothing; a confirmed delete removes exactly that id, in order |
| FoodRatingsPage.FoodRatingsPage.HandleSave | src/pages/FoodsRatingPage.tsx:77-102 | a missing food id alerts; an edit replaces by the selected rating's id; a new rating carries `Number(foodId)` and the user's id and is prepended; failure alerts and changes nothing |
| FoodRatingsPage.FoodRatingsPage.SubmitRating | src/components/EditFoodRatingModal.tsx:43-59 | the rating dialog submitting through this page. A valid score always closes the dialog. It sends the update for the selected rating or the creation for this food and user; on success the answer replaces the selected rating or goes first, the selection clears and no alert shows; after a missing food id or a failed save the page alerts and its list stays. An invalid score alerts and sends nothing |
| FoodRatingsPage.EditKeepsAnswer | src/pages/FoodsRatingPage.tsx:86 | editing a listed rating puts the answer in the list and keeps its length |
| PostsPage.BlankForm | src/pages/Posts.tsx:32-37 | the initial form is empty, `ACTIVE`, with a numeric user id that is 0 without a user |
| PostsPage.SavedForm | src/pages/Posts.tsx:99 | the reset form is empty, `ACTIVE`, with `Number(user.userId)` |
| PostsPage.FormOf | src/pages/Posts.tsx:135-144 | editing copies the post's title, content, status and user id |
| PostsPage.PostsPage.constructor | src/pages/Posts.tsx:22-37 | empty lists, loading, closed dialogs, blank form |
| PostsPage.PostsPage.FetchPosts | src/pages/Posts.tsx:41-56 | fetched exactly when a token is present; then loading ends and success replaces the list; nothing else changes |
| PostsPage.PostsPage.FetchComments | src/pages/Posts.tsx:58-67 | success shows that post's comments and opens the comment dialog; failure leaves them |
| PostsPage.PostsPage.HandleAddComment | src/pages/Posts.tsx:69-83 | sent only with a token, a user and a selected post; the saved comment is appended and the input clears |
| PostsPage.PostsPage.HandleCreateOrEditPost | src/pages/Posts.tsx:85-104 | sent only with user and token; an edit replaces by the saved post's id, a create prepends; success resets the form |
| PostsPage.PostsPage.ResetForm | src/pages/Posts.tsx:97-100 | closes the dialog, clears selection and image, and resets the form for the user |
| PostsPage.PostsPage.OnEdit | src/pages/Posts.tsx:135-144 | selects the post, copies it into the form and opens the dialog |
| PostsPage.PostsPage.OpenEditModal | src/pages/Posts.tsx:122 | opens the dialog and changes nothing else |
| PostsPage.PostsPage.OnDelete | src/pages/Posts.tsx:145 | asks the backend to delete that post id and leaves the list as it is |
| PostsPage.EditWithUnknownIdKeepsFeed | src/pages/Posts.tsx:93 | saving a post whose id is not in the feed leaves the feed unchanged |
| Inicio.SetField | src/pages/Inicio.tsx:24-27 | a filter input change sets exactly that field |
| Inicio.AtLeast | src/pages/Inicio.tsx:32 | `x >= Number(bound)`: never true for a NaN bound, and otherwise true exactly when `x` reaches the bound |
| Inicio.ContainsIgnoringCase | src/pages/Inicio.tsx:31 | `a.toLowerCase().includes(b.toLowerCase())` (stated by `Inicio.LongerSearchNarrows`) |
| Inicio.FoodMatches | src/pages/Inicio.tsx:30-35 | every food filter that is set holds (stated by `Inicio.FilteredFoodsSpec` and `Inicio.DecimalMinimumRating`) |
| Inicio.RestaurantMatches | src/pages/Inicio.tsx:39-42 | search, minimum rating and country-in-the-name hold where set (stated by `Inicio.FilteredRestaurantsSpec` and `Inicio.RestaurantsIgnoreFoodFilters`) |
| Inicio.FilteredFoods | src/pages/Inicio.tsx:29-36 | `foods.filter(FoodMatches)` (stated by `Inicio.FilteredFoodsSpec`) |
| Inicio.FilteredRestaurants | src/pages/Inicio.tsx:38-43 | `restaurants.filter(RestaurantMatches)` (stated by `Inicio.FilteredRestaurantsSpec`) |
| Inicio.FilteredFoodsSpec | src/pages/Inicio.tsx:29-36 | the foods shown are exactly the matching ones, in order |
| Inicio.FilteredRestaurantsSpec | src/pages/Inicio.tsx:38-43 | the restaurants shown are exactly the matching ones, in order |
| Inicio.NoFiltersShowAll | src/pages/Inicio.tsx:9 | with every filter empty, everything is shown |
| Inicio.RestaurantsIgnoreFoodFilters | src/pages/Inicio.tsx:38-43 | the type and influencer filters do not affect restaurants |
| Inicio.InfluencerFilterNeedsInfluencer | src/pages/Inicio.tsx:34 | with an influencer filter, foods without an influencer are hidden |
| Inicio.SearchIgnoresCase | src/pages/Inicio.tsx:31 | the search filter is case-insensitive |
| Inicio.ClearingWidens | src/pages/Inicio.tsx:24-43 | clearing any filter shows a superset, in the same order |
| Inicio.DecimalMinimumRating | src/pages/Inicio.tsx:32 | with `i.f` as the minimum rating, a food or restaurant is shown exactly when its rating is at least that decimal |
| Inicio.LongerSearchNarrows | src/pages/Inicio.tsx:31 | typing more into the search box never shows anything new, and keeps the order |
| Inicio.InicioPage.constructor | src/pages/Inicio.tsx:5-9 | the token comes from the `token` key or is empty; the foods view, empty lists and no filters |
| Inicio.InicioPage.SetView | src/pages/Inicio.tsx:49-54 | switching view changes only the view |
| Inicio.InicioPage.Load | src/pages/Inicio.tsx:12-22 | the current view's list is requested and replaced on success; the other is untouched |
| Inicio.InicioPage.HandleFilterChange | src/pages/Inicio.tsx:24-27 | sets that one filter and nothing else |
| CreatePostForm.BearerOf | src/components/CreatePostForm.tsx:44 | `token \|\| ''` |
| CreatePostForm.CreatePostForm.constructor | src/components/CreatePostForm.tsx:20-25 | empty inputs and messages |
| CreatePostForm.CreatePostForm.HandleSubmit | src/components/CreatePostForm.tsx:27-54 | a missing image, then a missing user, is reported without sending; otherwise the post is sent with an undefined user id; success clears the inputs, failure keeps them |
| EditFoodRatingModal.Clamp | src/components/EditFoodRatingModal.tsx:39 | `min(max(x, lo), hi)` lies in the range and fixes values already in it |
| EditFoodRatingModal.ClampIdempotent | src/components/EditFoodRatingModal.tsx:39 | clamping twice is clamping once |
| EditFoodRatingModal.SeedForm | src/components/EditFoodRatingModal.tsx:14-33 | a new rating starts at 0 with no comment; an existing one is copied, with its score clamped into 1..5 |
| EditFoodRatingModal.EditFoodRatingModal.constructor | src/components/EditFoodRatingModal.tsx:14-33 | the form is seeded from the rating |
| EditFoodRatingModal.EditFoodRatingModal.Seed | src/components/EditFoodRatingModal.tsx:21-33 | re-seeding on a new rating |
| EditFoodRatingModal.EditFoodRatingModal.HandleInputChange | src/components/EditFoodRatingModal.tsx:35-41 | a typed score is `parseInt` clamped into 1..5; the comment is copied |
| EditFoodRatingModal.EditFoodRatingModal.HandleSubmit | src/components/EditFoodRatingModal.tsx:43-59 | saved exactly when the score is in 1..5; closes only on success; alerts otherwise |
| EditFoodRatingModal.NewRatingNeedsScore | src/components/EditFoodRatingModal.tsx:43-59 | a fresh form cannot be submitted before a score is chosen |
| EditFoodModal.SeedForm | src/components/EditFoodModal.tsx:18-46 | a new food is blank, free, `AVAILABLE` and tied to the route's restaurant; an existing one is copied |
| EditFoodModal.NewFoodNeedsPrice | src/components/EditFoodModal.tsx:53-69 | a fresh form cannot be submitted |
| EditFoodModal.EditFoodModal.constructor | src/components/EditFoodModal.tsx:18-46 | the form is seeded from the food |
| EditFoodModal.EditFoodModal.Seed | src/components/EditFoodModal.tsx:28-46 | re-seeding on a new food |
| EditFoodModal.EditFoodModal.HandleInputChange | src/components/EditFoodModal.tsx:48-51 | text fields are copied; the price is `parseFloat(value) \|\| 0` |
| EditFoodModal.EditFoodModal.HandleSubmit | src/components/EditFoodModal.tsx:53-69 | saved exactly when the name is not blank and the price is positive; closes only on success |
| EditRestaurantModal.SeedForm | src/components/EditRestaurantModal.tsx:28-44 | no restaurant gives the blank form at the default location; an object location is copied; a string is parsed, and a failed parse is a failure |
| EditRestaurantModal.Payload | src/components/EditRestaurantModal.tsx:64-67 | the request carries the form's fields with the location stringified |
| EditRestaurantModal.SavedRestaurantReopens | src/components/EditRestaurantModal.tsx:64-67 | a saved restaurant re-seeds the dialog with the same form |
| EditRestaurantModal.PageAgreesWithDialog | src/pages/RestaurantsPage.tsx:37-46 | where the dialog can seed, the page's location parsing gives the same point |
| EditRestaurantModal.EditRestaurantModal.constructor | src/components/EditRestaurantModal.tsx:17-44 | the dialog crashes exactly when seeding fails (the stored location is not valid JSON), keeping its blank initial form; otherwise the form is seeded from the restaurant |
| EditRestaurantModal.EditRestaurantModal.Seed | src/components/EditRestaurantModal.tsx:28-44 | re-seeding succeeds exactly when the seed does; on failure the form is left and the dialog is marked crashed |
| EditRestaurantModal.EditRestaurantModal.HandleInputChange | src/components/EditRestaurantModal.tsx:46-49 | sets exactly the named field |
| EditRestaurantModal.EditRestaurantModal.HandleLocationChange | src/components/EditRestaurantModal.tsx:51-56 | sets exactly the location |
| EditRestaurantModal.EditRestaurantModal.HandleSubmit | src/components/EditRestaurantModal.tsx:58-79 | sent exactly when name and email are not blank; closes only on success |
| Cards.StarsFor | src/components/Cards.tsx:17-27 | the five stars for a rating, star `i` filled when `i < rating` (stated by `Cards.StarsShape`) |
| Cards.RenderStars | src/components/Cards.tsx:17-27 | the loop builds the five stars, each filled exactly when its index is below the rating |
| Cards.StarsShape | src/components/Cards.tsx:17-27 | five stars keyed 0..4, filled ones forming a prefix |
| Cards.FilledCountOfWholeRating | src/components/Cards.tsx:21 | a whole rating n fills n stars, clamped to 0..5 |
| Cards.FilledPrefix | src/components/Cards.tsx:21 | among the first k stars, n (clamped to 0..k) are filled |
| Cards.RenderCards | src/components/Cards.tsx:31-36 | one card per restaurant, keyed by position, with its name and its stars |

## Left out

- HTTP, `fetch`/axios and the backend: each call's outcome is a parameter. Request bodies and URLs are recorded only as the values sent.
- Asynchrony: each handler runs to completion. Interleavings, stale responses and React's batching of state updates are not modelled.
- Rendering, styling, navigation (`navigate`, the delayed redirect after login) and the `loading`-disabled submit buttons are not modelled. Plain input setters are modelled only where a handler computes something.
- `console.error` output is not modelled. `alert` is modelled as a returned message.
- Maps, markers and geocoding (`LocationMap.tsx`, `MapMarker.tsx`) and the presentational components (`NavBar.tsx`, `PostList.tsx`, `CommentsModal.tsx`, `EditPostModal.tsx`) are not part of this model. `Home.tsx`, `HomeLogged.tsx`, `Profile.tsx`, `Register.tsx` and `App.tsx` are not part of this model either.
- The JWT signature is never checked by the client, and the model does not check it either.
- `JSON.parse`, `JSON.stringify`, `atob`, `decodeURIComponent` and `parseFloat` are functions passed in. Their own correctness is not modelled.
- Floating-point numbers are modelled as reals. Rounding is not modelled.
- Js.ToNumber: models decimal literals (optional sign, digits with an optional fraction, surrounding whitespace). Exponents, hex and `Infinity` give NaN in the model.
- Js.ParseInt: reads an optional sign and a decimal digit run; larger-than-safe integers are exact in the model.
- Text.ToLower: lower-cases ASCII letters only. Unicode case mapping is not modelled.
- Text.Trim: its guarantees are stated in the lemmas `Text.TrimStartSpec`, `Text.TrimEndSpec` and `Text.TrimSpec`, not on the function itself.
- RestaurantsPage.ParseLocation: a JSON string that parses to something other than a coordinate pair is treated as a failed parse.
- PostsPage.PostsPage.FetchComments: the comment record's shape is not declared in `src/Api.ts`, so the model assumes `id`, `content`, `postId` and `userId`.
- Entities.UserIdNumber: the user id is a string in `src/Api.ts` and goes through the same `Number` conversion as route parameters.
