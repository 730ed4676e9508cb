# Hotel booking client: session, page and list logic

This project models the browser client of a small hotel-listing application
in Dafny. The main page (`app/page.tsx`) is a single React component. It
holds the session (token, role, username, persisted in `localStorage`), a
page state machine (login, register, hotels, favorites, messages), and the
lists the screens show: hotels filtered by a search box, favourites,
and operator messages. It also holds the handlers and effects that talk to
the REST API. The standalone favourites page (`app/favorites/page.tsx`) is a
second, simpler component with its own fetch-and-filter logic.

Every request is replaced by its reply. Each handler or effect takes the
reply it would have received as a parameter, and runs as one atomic step.

Layout:

- `js_runtime.dfy` (`JsRuntime`): the pieces of JavaScript behaviour the
  client relies on. These are the truthiness of `a || b`, `getItem`,
  ASCII `toLowerCase`, `includes`, `filter`, an element-wise `map`, and the
  decimal text of a status code.
- `api.dfy` (`Api`): the records and reply bodies of the API.
  `Reply<B>` is either `Failed(message)` (anything the handler's `try`
  catches: a rejected request, or a body that is not JSON) or
  `Response(status, text, body)`. Where the code checks two statuses before
  parsing either body (the favourites screen), the body is a `Json<B>`:
  `Parsed(value)` or `NotJson(parseError)`.
- `views.dfy` (`Views`): the loading / error / empty / list precedence every
  list screen uses.
- `app_lists.dfy` (`AppLists`): the pure helpers of the main page. These are
  search, favourite-key normalisation and intersection, message shapes and
  display strings, list updates after a reply or a delete, the edit-form
  merge and the card buttons.
- `app_spec.dfy` (`AppSpec`): the main page's state as a value (`AppState`),
  one step function per handler or effect, and the properties proved about
  them.
- `app_page.dfy` (`AppPage`): the main page as a class. It has one field per
  piece of modelled state, and one method per handler. Each method computes
  the values the handler sets, writes each field once, and is proved to end
  in the state of the matching `AppSpec` step.
- `favorites_page.dfy` (`FavoritesSpec`, `FavoritesRoute`): the standalone
  favourites page, with the same split into steps with lemmas and a class.

Conventions: a missing string field of a reply is the empty string (see
"## Left out" for records). The state's token is `Option<string>`, and "signed in" means
a non-empty token, as `if (token)` does. `res.ok` is a status in
200..299.

Facts about the code that the lemmas make explicit:

- The code makes no optimistic change to the favourites and has no
  rollback. `addFavorite` never writes `favorite`
  (`AppSpec.AddFavoriteKeepsFavorites`). A toggle on a hotel that is not a
  favourite leaves it not a favourite, whatever the replies
  (`AppSpec.AddDoesNotMarkFavorite`).
- A failed remove leaves the favourites as they were, because nothing was
  changed before the request (`AppSpec.RemoveFavoriteOutcome`).
- An accepted registration returns to the sign-in page with the error
  cleared and sets no message (`AppSpec.RegisterOutcome`).
- Logout removes the token and role keys but keeps the `username` key that
  login also writes (`AppSpec.LogoutFromAnyState`).
- A toggle while signed out ends with no error on screen: `goTo('login')`
  clears the message set just before it (`AppSpec.ToggleSignedOut`).
- No control of the page calls `handleToggleFavorite`. "Add Favorite" calls
  `addFavorite` (app/page.tsx:650) and "Remove" calls `handleRemoveFavorite`
  (app/page.tsx:733). So `HandleToggleFavorite`, `ToggleDispatch`,
  `AppSpec.ToggleSignedOut`, `AppSpec.ToggleSignedIn` and
  `AppSpec.AddDoesNotMarkFavorite` describe code the page never reaches.

## Model

| member | source | states |
|---|---|---|
| JsRuntime.Or | app/page.tsx:297 | JavaScript's `||` on strings: a non-empty `s` is kept, an empty one yields `d`, and a non-empty default gives a non-empty result |
| JsRuntime.OrStored | app/page.tsx:155 | a stored value read with a default: the stored value when present and non-empty, otherwise `d` |
| JsRuntime.Get | app/page.tsx:154-157 | `getItem`: present iff the key is stored, and then the stored value |
| JsRuntime.LowerChar | app/page.tsx:542-543 | ASCII upper-case letters move to lower case, everything else is kept, no upper-case letter remains |
| JsRuntime.Lower | app/page.tsx:542-543 | `toLowerCase` keeps the length and lowers each character |
| JsRuntime.LowerIdempotent | app/page.tsx:542-543 | lowering twice is lowering once |
| JsRuntime.IncludesEmpty | app/page.tsx:541-544 | every string includes the empty string |
| JsRuntime.Filter | app/page.tsx:144 | `filter` keeps exactly the elements satisfying the predicate, each as often as before, in their order |
| JsRuntime.FilterAllKept | app/page.tsx:541-544 | filtering by a predicate every element meets returns the list unchanged |
| JsRuntime.FilterCongruent | app/page.tsx:248-251 | predicates that agree on the list's elements filter it alike |
| JsRuntime.FilterIdempotent | app/page.tsx:391 | filtering twice by the same predicate is filtering once |
| JsRuntime.UpdateWhere | app/page.tsx:125 | the element-wise `map` keeps the length, rewrites the selected elements and keeps the others |
| JsRuntime.NatToString | app/page.tsx:192 | a status renders as a non-empty string of decimal digits |
| JsRuntime.NatToStringRoundTrip | app/page.tsx:379 | the rendered status reads back as the same number, so distinct statuses give distinct texts |
| Views.ChooseView | app/page.tsx:593-599 | each list screen shows the loading notice iff loading; the error iff not loading and there is an error; the "nothing found" notice iff neither and the list is empty; otherwise the list itself |
| AppLists.FilterHotels | app/page.tsx:541-544 | a hotel is listed iff it is in the list and its lower-cased name or address includes the lower-cased query, with its multiplicity and in list order |
| AppLists.SearchEmptyKeepsAll | app/page.tsx:541-544 | an empty query lists every hotel |
| AppLists.SearchIgnoresQueryCase | app/page.tsx:541-544 | a query and its lower-cased form select the same hotels |
| AppLists.NormalizeFavIdsShapes | app/page.tsx:241-242 | favourite keys keep length and order; a bare key stays itself; an object gives its `_id`, or its `id` when `_id` is missing |
| AppLists.AsEntries | app/page.tsx:244 | `{ hotels: favIDs }` stores each key as a bare key, in order |
| AppLists.NormalizeStoredIds | app/page.tsx:242-244 | normalising a document of bare keys gives the keys back |
| AppLists.FavoriteHotels | app/page.tsx:248-251 | a hotel is on the favourites screen iff it was fetched and its `_id`, or `id` when `_id` is missing, is a favourite key, in fetched order |
| AppLists.StoredIdsAreFavorites | app/page.tsx:425 | for stored keys, `isFavorite(k)` holds iff `k` is one of them |
| AppLists.FavoriteHotelsAreFavorites | app/page.tsx:244-253 | every hotel the favourites screen lists is a fetched hotel and a favourite under its own key |
| AppLists.WithoutHotel | app/page.tsx:391 | removing drops exactly the hotels whose `_id` is `hotelId`, keeping the rest in order |
| AppLists.WithoutHotelIdempotent | app/page.tsx:391 | removing the same hotel twice is removing it once |
| AppLists.MessageShapesAgree | app/page.tsx:195-196 | a bare array and `{ messages }` give the same list; a missing `messages` gives none |
| AppLists.HotelDisplay | app/page.tsx:760-765 | a message's hotel shows as its name, else its `_id`, else "[object]"; a bare key shows as itself; no hotel shows as empty |
| AppLists.UserDisplay | app/page.tsx:766-772 | a message's user shows as its username, else `_id`, else "[object]"; a bare key shows as itself to an operator and as the signed-in username to a user |
| AppLists.MessageCard | app/page.tsx:773-794 | a card shows the response iff there is one; the reply box iff the viewer is an operator and there is no response yet; the delete button iff an operator |
| AppLists.ApplyReply | app/page.tsx:125 | a reply sets the response of exactly the messages keyed `msgId`; the length, the ids and every other message are kept |
| AppLists.ReplyClosesCard | app/page.tsx:778-781 | after a non-empty reply the operator sees the response and no reply box on that card |
| AppLists.DeleteMessage | app/page.tsx:144 | a delete removes exactly the messages keyed `msgId`, keeping the rest in order |
| AppLists.MergeEdit | app/page.tsx:82 | `{ ...h, ...editForm }` keeps the keys and the creator and timestamp fields |
| AppLists.MergeUntouchedForm | app/page.tsx:45-54 | saving the form as opened gives the hotel back unchanged |
| AppLists.MergeAfterOneChange | app/page.tsx:57-64 | changing one input and saving sets exactly that field (text inputs give text, the checkbox its checked state) |
| AppLists.ApplyEdit | app/page.tsx:82 | a save rewrites exactly the hotels keyed like the edited one; the length, ids and other hotels are kept |
| AppLists.HotelButtons | app/page.tsx:633-669 | off the edit form, a signed-in user sees "Message", plus "Add Favorite" when the hotel is not a favourite; a signed-in operator sees "Edit"; nobody sees both |
| AppSpec.MessagesEndpoint | app/page.tsx:182-184 | the operator endpoint is asked iff the stored role is "operator" |
| AppSpec.ToggleDispatch | app/page.tsx:428-445 | a toggle asks to sign in iff there is no token; otherwise it removes iff the hotel is a favourite and adds iff it is not |
| AppSpec.MountFromInitial | app/page.tsx:152-163 | the first page is sign-in; mounting opens the hotels screen and signs in iff a token is stored; it restores the stored role or "user"; storage is unchanged |
| AppSpec.LogoutFromAnyState | app/page.tsx:338-344 | from any state: the sign-in page, no token, role "user"; exactly the token and role keys are removed; the username key and every other field are kept |
| AppSpec.LoginOutcome | app/page.tsx:272-304 | an accepted login persists username, token and role (defaulting to "user") and opens the hotels screen; any other reply only sets a non-empty error ("Network error" on failure) and ends loading |
| AppSpec.AliceSignsIn | app/page.tsx:282-295 | "alice" receiving token "abc" with role "user" stores both, signs in and opens the hotels screen |
| AppSpec.LoginMovesIffAccepted | app/page.tsx:282-295 | from the sign-in page, the hotels screen is reached iff the reply is ok and carries a token |
| AppSpec.RegisterOutcome | app/page.tsx:307-335 | a 201 stores the form's role (or "user") and returns to sign-in; any other reply only sets a non-empty error and ends loading |
| AppSpec.RegisterMovesIffCreated | app/page.tsx:317-326 | from the register page, sign-in is reached iff the status is 201 |
| AppSpec.RegisterWithSelectedRole | app/page.tsx:490-497 | the role picked on the form is the role an accepted registration stores, and it survives a reload |
| AppSpec.ReloadAfterLogin | app/page.tsx:284-295 | a reload after an accepted login restores the same page, token, role and username |
| AppSpec.ReloadAfterLogout | app/page.tsx:339-340 | a reload after logout starts signed out as "user", still knowing the stored username |
| AppSpec.GoToAndBack | app/page.tsx:266-269 | navigating away and back restores the page and only clears the error; session and storage are untouched |
| AppSpec.OpenMessagesThenLoad | app/page.tsx:578 | the "Messages" entry keeps a stale error; the load that follows shows an error iff it failed |
| AppSpec.SearchBoxSelectsHotels | app/page.tsx:589 | with the box empty every hotel is listed; with any query only matching hotels, in order |
| AppSpec.ToggleSignedOut | app/page.tsx:430-434 | a signed-out toggle reads no reply and ends on sign-in with the error cleared, changing nothing else |
| AppSpec.ToggleSignedIn | app/page.tsx:435-445 | a signed-in toggle is exactly the remove path for a favourite and exactly the add path otherwise |
| AppSpec.RemoveFavoriteOutcome | app/page.tsx:367-398 | on any failure `favorite` and the favourites list are unchanged and an error is shown; on success `favorite` is the server's document (or `{ hotels: [] }`) and the list loses exactly the hotels keyed `hotelId` |
| AppSpec.RemoveFailureIgnoresList | app/page.tsx:376-382 | when the delete fails the refetch is never made, so its reply does not matter |
| AppSpec.AddFavoriteKeepsFavorites | app/page.tsx:401-422 | adding never changes `favorite` or the favourites list; a success changes only the error and loading flags |
| AppSpec.AddDoesNotMarkFavorite | app/page.tsx:401-445 | signed in, toggling a hotel that is not a favourite asks to add it; whatever the replies, `favorite` and the favourites list are kept, the hotel is still not a favourite, and a second toggle asks to add again |
| AppSpec.FavoritesScreenOutcome | app/page.tsx:224-263 | when both replies are ok and JSON, the favourites are the normalised keys and the screen lists exactly `FavoriteHotels` of the fetched hotels: those selected by `_id`, or `id` when `_id` is missing, in order, each a favourite; otherwise both are kept and an error is shown |
| AppSpec.FavoritesScreenErrorOrder | app/page.tsx:229-257 | the error shown: a rejected favourites request, else a rejected hotels request (its message or "Error loading favorites"); then "Failed to fetch favorites" or "Failed to fetch hotels" for a non-ok status, whatever the bodies hold; then a parse error of the favourites body, then of the hotels body |
| AppSpec.MessagesLoadOutcome | app/page.tsx:180-206 | a successful load stores the list in either shape with no error; a failure keeps the list and shows an error |
| AppSpec.EffectsGuarded | app/page.tsx:166-177 | signed out, the hotels, favourites, messages and favourites-screen effects change nothing |
| AppSpec.ReplyOutcome | app/page.tsx:114-132 | an empty draft sends nothing; a success answers exactly the messages keyed `msgId` with the draft and empties it; a failure keeps the messages |
| AppSpec.ReplyUsesDraft | app/page.tsx:786-787 | the text typed into the box is the response a successful reply stores; an emptied box sends nothing |
| AppSpec.DeleteOutcome | app/page.tsx:135-150 | a successful delete leaves exactly `DeleteMessage` of the messages: those not keyed `msgId`, in order; a failure keeps them and shows an error |
| AppSpec.SendMessageOutcome | app/page.tsx:92-111 | nothing is sent without a hotel and a text; otherwise loading ends, a success only clears the error, a non-ok status shows "Failed to send message", a rejected request its message or "Error sending message"; no list, the page or the token changes |
| AppSpec.FailedSendHidesHotels | app/page.tsx:92-111 | a failed send replaces the hotels list on screen by the error |
| AppSpec.EditOutcome | app/page.tsx:66-89 | with nothing being edited a save is a no-op; a success merges the form into exactly the hotels keyed like the edited one and closes the form; a failure keeps hotels and form |
| AppSpec.EditOneFieldRoundTrip | app/page.tsx:45-89 | opening a hotel, changing one input and saving sets exactly that field of that hotel |
| AppSpec.CancelThenSave | app/page.tsx:616 | after "Cancel" a save sends nothing and changes nothing |
| AppPage.App.constructor | app/page.tsx:12-36 | the fields start at the `useState` defaults over the given storage |
| AppPage.App.Mount | app/page.tsx:153-163 | ends in the `AppSpec.Mount` state |
| AppPage.App.GoTo | app/page.tsx:266-269 | ends in the `AppSpec.GoTo` state |
| AppPage.App.OpenMessages | app/page.tsx:578 | ends in the `AppSpec.OpenMessages` state |
| AppPage.App.SelectRole | app/page.tsx:523 | ends in the `AppSpec.SelectRole` state |
| AppPage.App.SetSearch | app/page.tsx:589 | ends in the `AppSpec.SetSearch` state |
| AppPage.App.HandleLogin | app/page.tsx:272-304 | ends in the `AppSpec.HandleLogin` state |
| AppPage.App.SignIn | app/page.tsx:284-295 | ends in the `AppSpec.SignIn` state |
| AppPage.App.HandleRegister | app/page.tsx:307-335 | ends in the `AppSpec.HandleRegister` state |
| AppPage.App.HandleLogout | app/page.tsx:338-344 | ends in the `AppSpec.HandleLogout` state |
| AppPage.App.LoadHotels | app/page.tsx:166-177 | ends in the `AppSpec.LoadHotels` state |
| AppPage.App.LoadFavorites | app/page.tsx:209-221 | ends in the `AppSpec.LoadFavorites` state |
| AppPage.App.LoadMessages | app/page.tsx:180-206 | ends in the `AppSpec.LoadMessages` state; a request is made iff on the messages page with a token, to the endpoint the stored role selects |
| AppPage.App.LoadFavoritesScreen | app/page.tsx:224-263 | ends in the `AppSpec.LoadFavoritesScreen` state |
| AppPage.App.AddFavorite | app/page.tsx:401-422 | ends in the `AppSpec.AddFavorite` state |
| AppPage.App.HandleRemoveFavorite | app/page.tsx:367-398 | ends in the `AppSpec.HandleRemoveFavorite` state |
| AppPage.App.HandleToggleFavorite | app/page.tsx:428-452 | reports the request `AppSpec.ToggleDispatch` chooses and ends in the `AppSpec.HandleToggleFavorite` state |
| AppPage.App.SetReplyDraft | app/page.tsx:787 | ends in the `AppSpec.SetReplyDraft` state |
| AppPage.App.HandleReply | app/page.tsx:114-132 | ends in the `AppSpec.HandleReply` state |
| AppPage.App.HandleDeleteMessage | app/page.tsx:135-150 | ends in the `AppSpec.HandleDeleteMessage` state |
| AppPage.App.StartEditHotel | app/page.tsx:45-55 | ends in the `AppSpec.StartEditHotel` state |
| AppPage.App.CancelEdit | app/page.tsx:616 | ends in the `AppSpec.CancelEdit` state |
| AppPage.App.HandleEditFormChange | app/page.tsx:57-64 | ends in the `AppSpec.HandleEditFormChange` state |
| AppPage.App.SendMessage | app/page.tsx:92-111 | ends in the `AppSpec.SendMessage` state |
| AppPage.App.SubmitEditHotel | app/page.tsx:66-89 | ends in the `AppSpec.SubmitEditHotel` state |
| FavoritesSpec.ListedHotels | app/favorites/page.tsx:60 | a hotel is listed iff it was fetched and its `_id` is a bare key of the document, with its multiplicity and in fetched order |
| FavoritesSpec.InitialShowsLoading | app/favorites/page.tsx:19-22 | the first render shows the loading notice |
| FavoritesSpec.FetchFavoritesOutcome | app/favorites/page.tsx:26-45 | the favourites fetch ends loading and never touches the hotels; on success it adopts the reply's document with no error; otherwise it keeps the old one and shows "Failed to fetch favorites" for a non-ok status, or the failure's message (else "Error loading favorites") |
| FavoritesSpec.FailedFetchStopsPage | app/favorites/page.tsx:35-49 | a failed first fetch leaves no document, so the hotels effect does nothing and the error is shown |
| FavoritesSpec.FetchHotelsOutcome | app/favorites/page.tsx:48-68 | the hotels effect runs iff the document has an entry; on success the list is exactly `ListedHotels` of the fetched hotels: those the document names by `_id`, in order; a failure keeps the list and shows an error |
| FavoritesSpec.RemoveOutcome | app/favorites/page.tsx:70-83 | a successful remove leaves exactly `WithoutHotel` of the list: it drops the hotels keyed `hotelId` and keeps the rest in order; the document, loading flag and any earlier error are kept; a failure only sets an error |
| FavoritesSpec.RemoveTwiceIsRemoveOnce | app/favorites/page.tsx:79 | removing the same hotel twice leaves what removing it once left |
| FavoritesSpec.LoadedPageShowsFavorites | app/favorites/page.tsx:26-68 | after both fetches succeed, the page shows the list or "No favorite hotels found." (the latter iff no fetched hotel is named), and every hotel shown is a favourite under its `_id` |
| FavoritesSpec.PagesAgreeOnBareKeys | app/favorites/page.tsx:60 | when the document holds only bare keys and every hotel has an `_id`, this page and the main page's favourites screen list the same hotels |
| FavoritesSpec.PagesDisagreeOnPopulatedEntry | app/favorites/page.tsx:60 | a populated entry `{ _id: "h1" }` lists hotel "h1" on the main page's favourites screen but not on this page |
| FavoritesRoute.FavoritesPage.constructor | app/favorites/page.tsx:19-22 | the fields start at `FavoritesSpec.Initial` |
| FavoritesRoute.FavoritesPage.FetchFavorites | app/favorites/page.tsx:26-45 | ends in the `FavoritesSpec.FetchFavorites` state |
| FavoritesRoute.FavoritesPage.FetchHotels | app/favorites/page.tsx:48-68 | ends in the `FavoritesSpec.FetchHotels` state |
| FavoritesRoute.FavoritesPage.HandleRemove | app/favorites/page.tsx:70-83 | ends in the `FavoritesSpec.HandleRemove` state |

## Left out

- Requests, `localStorage` and timing: each request is replaced by its reply,
  passed in as a parameter. `localStorage` is a `map` field of the state. The
  URLs and headers (including the bearer token) are not modelled.
- Concurrency: each handler and effect is one atomic step, so interleavings
  of in-flight requests are not modelled. The loading flag a handler sets
  before awaiting is only visible when it is still set at the end.
  `Promise.all` on the favourites screen is modelled as "the favourites
  reply's failure wins" when both requests fail.
- For a single reply, `Failed` is a rejected request or a body that is not
  JSON. Where the code checks the status before parsing (the remove request
  and its refetch, the standalone page), a non-ok reply is a `Response`
  whatever its body holds. The sign-in, register and add handlers parse
  first, so a body that is not JSON is `Failed` whatever the status.
- The hotels and favourites effects (app/page.tsx:166-177, 209-221) do not
  check `res.ok`, and the model does not either. A body that is not an
  array, or a missing `favorite`, is left to the types: the hotels body is a
  list, and `favorite` is `Option`.
- The standalone page reading `favorite.hotels.length` of a document without
  `hotels` (app/favorites/page.tsx:49) throws inside the effect. The model
  treats it as no fetch (`FavoritesSpec.NeedsHotels` is false).
- `toLowerCase` is modelled for ASCII letters only. No other Unicode case
  mapping is modelled.
- The profile image upload (app/page.tsx:347-364) is not modelled. It only
  writes display state that no modelled operation reads.
- The message modal's three hooks (app/page.tsx:30-32) are not state of the
  model. Opening the modal (app/page.tsx:639), its text area (685) and its
  "Cancel" button (689) are left out. The send handler is modelled by
  `AppSpec.SendMessage`, which takes the modal's hotel and text as
  parameters. So the model does not state that a successful send closes
  the modal and forgets the hotel and the text (app/page.tsx:103-105).
- The profile menu toggle and the JSX markup are not modelled beyond the
  choices of what each screen shows. Logging to the console is not modelled
  either.
- The `router.push("/")` link of the standalone page is not modelled.
- app/login/page.tsx and app/login/register/page.tsx are not part of this
  model.
- Numbers and booleans in hotel records are held as `Scalar`. The form's
  number inputs deliver text, and the model keeps that text as the
  handler does.
- Records follow the API's `Hotel` shape (app/favorites/page.tsx:5-16):
  the model assumes every hotel carries its string fields. The search
  (app/page.tsx:542-543) would throw on a hotel without a name or an
  address, and the model does not capture that.
- Reply fields that the code reads with a `||` default are the empty string
  when missing. There a missing field and `""` behave alike.
