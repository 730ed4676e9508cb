/** The main page (app/page.tsx) as a state machine: the page state, one
    step function per handler or effect, and what each step promises.
    A step is the whole handler run to its end, with the reply it awaited
    given as an argument; writes inside one handler are applied in order,
    the last one winning. */
module AppSpec {
  import opened JsRuntime
  import opened Api
  import opened AppLists
  import opened Views

  datatype Page = Login | Register | Hotels | Favorites | Messages

  /** The message form: whether it is open, the hotel it is about, its text. */
  datatype MessageModal = MessageModal(shown: bool, hotelId: Option<string>, text: string)

  /** The component's state and the browser's persisted keys (`storage`). */
  datatype AppState = AppState(
    page: Page,
    token: Option<string>,
    role: string,
    error: string,
    loading: bool,
    username: string,
    storage: map<string, string>,
    search: string,
    hotels: seq<Hotel>,
    favorite: FavoriteDoc,
    favHotels: seq<Hotel>,
    messages: seq<Message>,
    replyText: map<string, string>,
    editingHotel: Option<Hotel>,
    editForm: EditForm)

  /** `!!token`. */
  predicate SignedIn(s: AppState) {
    Truthy(s.token)
  }

  /** `isOperator()`: read from the persisted role key, not from `role`. */
  predicate IsOperator(s: AppState) {
    Get(s.storage, "role") == Some("operator")
  }

  // ---------------------------------------------------------------------------
  // Session

  /** The state before any effect has run. */
  function Initial(storage: map<string, string>): AppState {
    AppState(Login, None, "user", "", false, "", storage, "", [], NoFavorites, [], [], map[], None, EmptyForm)
  }

  /** The mount effect: restore role, username and token from storage. */
  function Mount(s: AppState): AppState {
    var t := Get(s.storage, "token");
    var u := Get(s.storage, "username");
    s.(role := OrStored(Get(s.storage, "role"), "user"),
       username := if Truthy(u) then u.value else s.username,
       token := if Truthy(t) then t else s.token,
       page := if Truthy(t) then Hotels else s.page)
  }

  /** `goTo(p)`. */
  function GoTo(s: AppState, p: Page): AppState {
    s.(error := "", page := p)
  }

  /** The profile menu's "Messages" entry sets the page without clearing the error. */
  function OpenMessages(s: AppState): AppState {
    s.(page := Messages)
  }

  /** The register form's role selector. */
  function SelectRole(s: AppState, r: string): AppState {
    s.(role := r)
  }

  /** The search box. */
  function SetSearch(s: AppState, q: string): AppState {
    s.(search := q)
  }

  /** Login is accepted iff the reply is OK and carries a token. */
  predicate LoginAccepted(reply: Reply<LoginBody>) {
    reply.Response? && Ok(reply.status) && reply.body.token != ""
  }

  /** The message a refused login shows. */
  function LoginError(reply: Reply<LoginBody>): string {
    if reply.Failed? then "Network error" else Or(reply.body.message, "Login failed")
  }

  function HandleLogin(s: AppState, usernameInput: string, reply: Reply<LoginBody>): AppState {
    if LoginAccepted(reply) then
      SignIn(s, usernameInput, reply.body.token, reply.body.role).(error := "", loading := false)
    else
      s.(error := LoginError(reply), loading := false)
  }

  /** The session a successful login adopts: the username, token and role
      (defaulting to "user") are persisted and held, and the hotels screen opens. */
  function SignIn(s: AppState, usernameInput: string, t: string, replyRole: string): AppState {
    var r := Or(replyRole, "user");
    s.(storage := s.storage["username" := usernameInput]["token" := t]["role" := r],
       username := usernameInput,
       role := r,
       token := Some(t),
       page := Hotels)
  }

  /** Registration is accepted iff the status is 201. */
  predicate RegisterAccepted(reply: Reply<MessageBody>) {
    reply.Response? && reply.status == 201
  }

  function RegisterError(reply: Reply<MessageBody>): string {
    if reply.Failed? then "Network error" else Or(reply.body.message, "Registration failed")
  }

  function HandleRegister(s: AppState, formRole: string, reply: Reply<MessageBody>): AppState {
    if RegisterAccepted(reply) then
      var r := Or(formRole, "user");
      s.(storage := s.storage["role" := r], role := r, page := Login, error := "", loading := false)
    else
      s.(error := RegisterError(reply), loading := false)
  }

  function HandleLogout(s: AppState): AppState {
    s.(storage := s.storage - {"token", "role"}, token := None, role := "user", page := Login)
  }

  // ---------------------------------------------------------------------------
  // Fetch effects

  /** The hotels effect: the body is stored whatever the status. */
  function LoadHotels(s: AppState, reply: Reply<seq<Hotel>>): AppState {
    if s.page == Hotels && SignedIn(s) then
      match reply
      case Failed(_) => s.(error := "Failed to fetch hotels", loading := false)
      case Response(_, _, hs) => s.(hotels := hs, loading := false)
    else s
  }

  /** The favourites effect of the hotels screen: `data.favorite ?? { hotels: [] }`. */
  function LoadFavorites(s: AppState, reply: Reply<FavoriteListBody>): AppState {
    if s.page == Hotels && SignedIn(s) then
      match reply
      case Failed(_) => s.(error := "Failed to fetch favorites", loading := false)
      case Response(_, _, b) => s.(favorite := b.favorite.GetOr(NoFavorites), loading := false)
    else s
  }

  datatype Endpoint = UserMessages | OperatorMessages

  /** The messages effect asks the operator endpoint iff the stored role is "operator". */
  function MessagesEndpoint(s: AppState): (e: Endpoint)
    ensures e == OperatorMessages <==> IsOperator(s)
  {
    if IsOperator(s) then OperatorMessages else UserMessages
  }

  function LoadMessages(s: AppState, reply: Reply<MessagesPayload>): AppState {
    if s.page == Messages && SignedIn(s) then
      match reply
      case Failed(m) => s.(error := Or(m, "Failed to fetch messages"), loading := false)
      case Response(st, text, p) =>
        if !Ok(st) then s.(error := "Error " + NatToString(st) + ": " + text, loading := false)
        else s.(messages := NormalizeMessages(p), error := "", loading := false)
    else s
  }

  /** `favData.favorite?.hotels ?? []`. */
  function RawFavorites(b: FavoriteListBody): seq<FavEntry> {
    if b.favorite.Some? then b.favorite.value.hotels.GetOr([]) else []
  }

  /** Both favourites-screen requests answered with an ok status and a JSON body. */
  predicate ScreenRepliesOk(favReply: Reply<Json<FavoriteListBody>>, hotelsReply: Reply<Json<seq<Hotel>>>) {
    && favReply.Response? && Ok(favReply.status) && favReply.body.Parsed?
    && hotelsReply.Response? && Ok(hotelsReply.status) && hotelsReply.body.Parsed?
  }

  /** The favourites screen's effect: both lists are requested together; both
      statuses are checked before either body is parsed; then the favourite
      keys are normalised and stored, and the hotels they select kept. */
  function LoadFavoritesScreen(s: AppState, favReply: Reply<Json<FavoriteListBody>>,
                               hotelsReply: Reply<Json<seq<Hotel>>>): AppState {
    if s.page == Favorites && SignedIn(s) then
      var base := s.(error := "", loading := false);
      if favReply.Failed? then base.(error := Or(favReply.message, "Error loading favorites"))
      else if hotelsReply.Failed? then base.(error := Or(hotelsReply.message, "Error loading favorites"))
      else if !Ok(favReply.status) then base.(error := "Failed to fetch favorites")
      else if !Ok(hotelsReply.status) then base.(error := "Failed to fetch hotels")
      else if favReply.body.NotJson? then base.(error := Or(favReply.body.parseError, "Error loading favorites"))
      else if hotelsReply.body.NotJson? then base.(error := Or(hotelsReply.body.parseError, "Error loading favorites"))
      else
        var ids := NormalizeFavIds(RawFavorites(favReply.body.value));
        base.(favorite := FavoriteDoc(Some(AsEntries(ids))), favHotels := FavoriteHotels(hotelsReply.body.value, ids))
    else s
  }

  // ---------------------------------------------------------------------------
  // Favourites

  /** `addFavorite`: reports failures, and never touches `favorite`. */
  function AddFavorite(s: AppState, hotelId: string, reply: Reply<MessageBody>): AppState {
    var base := s.(error := "", loading := false);
    match reply
    case Failed(m) => base.(error := Or(m, "Error adding favorite"))
    case Response(st, _, b) => if Ok(st) then base else base.(error := Or(b.message, "Failed to add favorite"))
  }

  /** `handleRemoveFavorite`: the delete, then a refetch of the list; `favorite`
      and `favHotels` are written only when both succeed. The refetch is not
      sent when the delete fails, so `listReply` is then not read. */
  function HandleRemoveFavorite(s: AppState, hotelId: string, removeReply: Reply<()>, listReply: Reply<FavoriteListBody>): AppState {
    var base := s.(error := "", loading := false);
    match removeReply
    case Failed(m) => base.(error := Or(m, "Error removing favorite"))
    case Response(st, t, _) =>
      if !Ok(st) then base.(error := "Failed to remove favorite: " + NatToString(st) + " " + t)
      else
        match listReply
        case Failed(m) => base.(error := Or(m, "Error removing favorite"))
        case Response(st2, t2, b) =>
          if !Ok(st2) then base.(error := "Failed to fetch favorites: " + NatToString(st2) + " " + t2)
          else base.(favorite := b.favorite.GetOr(NoFavorites), favHotels := WithoutHotel(s.favHotels, hotelId))
  }

  /** Whether the remove path's delete and refetch both succeeded. */
  predicate RemoveSucceeded(removeReply: Reply<()>, listReply: Reply<FavoriteListBody>) {
    removeReply.Response? && Ok(removeReply.status) && listReply.Response? && Ok(listReply.status)
  }

  datatype ToggleAction = SignInFirst | RemoveRequest | AddRequest

  /** Which request `handleToggleFavorite` makes. */
  function ToggleDispatch(s: AppState, hotelId: string): (a: ToggleAction)
    ensures a == SignInFirst <==> !SignedIn(s)
    ensures a == RemoveRequest <==> SignedIn(s) && IsFavorite(s.favorite, hotelId)
    ensures a == AddRequest <==> SignedIn(s) && !IsFavorite(s.favorite, hotelId)
  {
    if !SignedIn(s) then SignInFirst
    else if IsFavorite(s.favorite, hotelId) then RemoveRequest
    else AddRequest
  }

  function HandleToggleFavorite(s: AppState, hotelId: string, removeReply: Reply<()>,
                                listReply: Reply<FavoriteListBody>, addReply: Reply<MessageBody>): AppState
  {
    match ToggleDispatch(s, hotelId)
    case SignInFirst => GoTo(s.(error := "Please sign in to favorite hotels"), Login)
    case RemoveRequest =>
      HandleRemoveFavorite(s.(error := "", loading := true), hotelId, removeReply, listReply).(loading := false)
    case AddRequest =>
      AddFavorite(s.(error := "", loading := true), hotelId, addReply).(loading := false)
  }

  // ---------------------------------------------------------------------------
  // Messages

  /** The reply box of a message card. */
  function SetReplyDraft(s: AppState, msgId: string, text: string): AppState {
    s.(replyText := s.replyText[msgId := text])
  }

  function HandleReply(s: AppState, msgId: string, reply: Reply<()>): AppState {
    var draft := Get(s.replyText, msgId);
    if !Truthy(draft) then s
    else
      var base := s.(error := "", loading := false);
      match reply
      case Failed(m) => base.(error := Or(m, "Error replying to message"))
      case Response(st, _, _) =>
        if !Ok(st) then base.(error := "Failed to send reply")
        else base.(messages := ApplyReply(s.messages, msgId, draft.value), replyText := s.replyText[msgId := ""])
  }

  function HandleDeleteMessage(s: AppState, msgId: string, reply: Reply<()>): AppState {
    var base := s.(error := "", loading := false);
    match reply
    case Failed(m) => base.(error := Or(m, "Error deleting message"))
    case Response(st, _, _) =>
      if !Ok(st) then base.(error := "Failed to delete message")
      else base.(messages := DeleteMessage(s.messages, msgId))
  }

  /** `handleSendMessage`, given the modal's hotel and text at the time of the
      call: nothing is sent without both; otherwise the error is cleared and
      the send ends loading, with the error the handler throws or catches on
      failure. The modal's own hooks are not part of this state. */
  function SendMessage(s: AppState, messageHotelId: Option<string>, messageText: string, reply: Reply<()>): AppState {
    if !Truthy(messageHotelId) || messageText == "" then s
    else
      var base := s.(error := "", loading := false);
      match reply
      case Failed(m) => base.(error := Or(m, "Error sending message"))
      case Response(st, _, _) =>
        if !Ok(st) then base.(error := "Failed to send message")
        else base
  }

  // ---------------------------------------------------------------------------
  // Hotel edit

  function StartEditHotel(s: AppState, h: Hotel): AppState {
    s.(editingHotel := Some(h), editForm := FormOf(h))
  }

  function CancelEdit(s: AppState): AppState {
    s.(editingHotel := None)
  }

  function HandleEditFormChange(s: AppState, field: FormField, value: string, checked: bool): AppState {
    s.(editForm := ChangeForm(s.editForm, field, value, checked))
  }

  function SubmitEditHotel(s: AppState, reply: Reply<()>): AppState {
    if s.editingHotel.None? then s
    else
      var base := s.(error := "", loading := false);
      match reply
      case Failed(m) => base.(error := Or(m, "Error updating hotel"))
      case Response(st, _, _) =>
        if !Ok(st) then base.(error := "Failed to update hotel")
        else base.(hotels := ApplyEdit(s.hotels, s.editingHotel.value._id, s.editForm), editingHotel := None)
  }

  // ---------------------------------------------------------------------------
  // Screens

  function HotelsView(s: AppState): View<Hotel> {
    ChooseView(s.loading, s.error, FilterHotels(s.hotels, s.search))
  }

  function FavoritesView(s: AppState): View<Hotel> {
    ChooseView(s.loading, s.error, s.favHotels)
  }

  function MessagesView(s: AppState): View<Message> {
    ChooseView(s.loading, s.error, s.messages)
  }

  // ===========================================================================
  // Properties

  /** The first screen is the sign-in page; mounting moves to the hotels screen
      iff a token is stored, and takes the stored role or "user". */
  lemma MountFromInitial(storage: map<string, string>)
    ensures Initial(storage).page == Login && !SignedIn(Initial(storage))
    ensures Mount(Initial(storage)).page == (if Truthy(Get(storage, "token")) then Hotels else Login)
    ensures SignedIn(Mount(Initial(storage))) <==> Truthy(Get(storage, "token"))
    ensures Truthy(Get(storage, "token")) ==> Mount(Initial(storage)).token == Some(storage["token"])
    ensures Mount(Initial(storage)).role == OrStored(Get(storage, "role"), "user")
    ensures Mount(Initial(storage)).storage == storage
  {
  }

  /** Logout, from any page: the sign-in page, no token, role "user"; exactly
      the token and role keys are removed, the username key is kept; no list
      and no other field changes. */
  lemma LogoutFromAnyState(s: AppState)
    ensures HandleLogout(s).page == Login && HandleLogout(s).token == None && HandleLogout(s).role == "user"
    ensures HandleLogout(s).storage.Keys == s.storage.Keys - {"token", "role"}
    ensures forall k :: k in HandleLogout(s).storage ==> HandleLogout(s).storage[k] == s.storage[k]
    ensures "username" in s.storage ==> HandleLogout(s).storage["username"] == s.storage["username"]
    ensures HandleLogout(s).(page := s.page, token := s.token, role := s.role, storage := s.storage) == s
  {
  }

  /** A login either signs in and persists the session, or changes only the
      error (and clears the busy flag). */
  lemma LoginOutcome(s: AppState, usernameInput: string, reply: Reply<LoginBody>)
    ensures var t := HandleLogin(s, usernameInput, reply);
      && !t.loading
      && (LoginAccepted(reply) ==>
            && t.page == Hotels && t.token == Some(reply.body.token) && SignedIn(t)
            && t.role == Or(reply.body.role, "user") && t.username == usernameInput && t.error == ""
            && t.storage.Keys == s.storage.Keys + {"username", "token", "role"}
            && t.storage["username"] == usernameInput && t.storage["token"] == reply.body.token
            && t.storage["role"] == t.role)
      && (!LoginAccepted(reply) ==>
            && t == s.(error := LoginError(reply), loading := false)
            && t.error != ""
            && (reply.Failed? ==> t.error == "Network error"))
  {
  }

  /** Signing in as "alice" with the reply `{ token: "abc", role: "user" }`
      stores that token, role and username and opens the hotels screen. */
  lemma AliceSignsIn(s: AppState)
    ensures var t := HandleLogin(s, "alice", Response(200, "", LoginBody("abc", "user", "")));
      && t.storage["token"] == "abc" && t.storage["role"] == "user" && t.storage["username"] == "alice"
      && t.page == Hotels && t.token == Some("abc") && t.role == "user"
  {
  }

  /** From the sign-in screen, the hotels screen is reached iff the login is accepted. */
  lemma LoginMovesIffAccepted(s: AppState, usernameInput: string, reply: Reply<LoginBody>)
    requires s.page == Login
    ensures HandleLogin(s, usernameInput, reply).page == Hotels <==> LoginAccepted(reply)
  {
  }

  /** A registration either stores the role and returns to sign-in, or changes
      only the error (and clears the busy flag). */
  lemma RegisterOutcome(s: AppState, formRole: string, reply: Reply<MessageBody>)
    ensures var t := HandleRegister(s, formRole, reply);
      && !t.loading
      && (RegisterAccepted(reply) ==>
            && t.page == Login && t.role == Or(formRole, "user") && t.storage == s.storage["role" := t.role]
            && t.token == s.token && t.error == "")
      && (!RegisterAccepted(reply) ==>
            && t == s.(error := RegisterError(reply), loading := false)
            && t.error != "")
  {
  }

  /** From the register screen, sign-in is reached iff the status is 201. */
  lemma RegisterMovesIffCreated(s: AppState, formRole: string, reply: Reply<MessageBody>)
    requires s.page == Register
    ensures HandleRegister(s, formRole, reply).page == Login <==> RegisterAccepted(reply)
  {
  }

  /** A reload after an accepted login restores the same session. */
  lemma ReloadAfterLogin(s: AppState, usernameInput: string, reply: Reply<LoginBody>)
    requires LoginAccepted(reply)
    ensures var t := HandleLogin(s, usernameInput, reply);
      var r := Mount(Initial(t.storage));
      r.page == Hotels && r.token == t.token && r.role == t.role && r.username == usernameInput
  {
  }

  /** A reload after logout starts signed out as "user", still knowing the username. */
  lemma ReloadAfterLogout(s: AppState)
    ensures var r := Mount(Initial(HandleLogout(s).storage));
      && r.page == Login && !SignedIn(r) && r.role == "user"
      && (Truthy(Get(s.storage, "username")) ==> r.username == s.storage["username"])
  {
  }

  /** A toggle while signed out sends no request: the replies are never read.
      It ends on the sign-in page with the error cleared, because `goTo`
      clears the sign-in message just set; nothing else changes. */
  lemma ToggleSignedOut(s: AppState, hotelId: string,
                        r1: Reply<()>, l1: Reply<FavoriteListBody>, a1: Reply<MessageBody>,
                        r2: Reply<()>, l2: Reply<FavoriteListBody>, a2: Reply<MessageBody>)
    requires !SignedIn(s)
    ensures HandleToggleFavorite(s, hotelId, r1, l1, a1) == HandleToggleFavorite(s, hotelId, r2, l2, a2)
    ensures HandleToggleFavorite(s, hotelId, r1, l1, a1) == s.(page := Login, error := "")
  {
  }

  /** Signed in, a toggle is exactly the remove path when the hotel is a
      favourite and exactly the add path otherwise. */
  lemma ToggleSignedIn(s: AppState, hotelId: string, rr: Reply<()>, lr: Reply<FavoriteListBody>, ar: Reply<MessageBody>)
    requires SignedIn(s)
    ensures IsFavorite(s.favorite, hotelId) ==>
      HandleToggleFavorite(s, hotelId, rr, lr, ar) == HandleRemoveFavorite(s, hotelId, rr, lr)
    ensures !IsFavorite(s.favorite, hotelId) ==>
      HandleToggleFavorite(s, hotelId, rr, lr, ar) == AddFavorite(s, hotelId, ar)
  {
  }

  /** Remove-favourite: on any failure `favorite` and `favHotels` are
      untouched and an error is shown; on success `favorite` is the server's
      document (or `{ hotels: [] }`) and `favHotels` loses exactly the
      entries keyed `hotelId`. */
  lemma RemoveFavoriteOutcome(s: AppState, hotelId: string, removeReply: Reply<()>, listReply: Reply<FavoriteListBody>)
    ensures var t := HandleRemoveFavorite(s, hotelId, removeReply, listReply);
      && !t.loading
      && t.page == s.page && t.token == s.token && t.storage == s.storage && t.messages == s.messages && t.hotels == s.hotels
      && (!RemoveSucceeded(removeReply, listReply) ==>
            t.favorite == s.favorite && t.favHotels == s.favHotels && t.error != "")
      && (RemoveSucceeded(removeReply, listReply) ==>
            && t.favorite == listReply.body.favorite.GetOr(NoFavorites)
            && t.favHotels == WithoutHotel(s.favHotels, hotelId)
            && (forall h :: h in t.favHotels ==> h._id != hotelId)
            && (forall h :: h in s.favHotels && h._id != hotelId ==> h in t.favHotels)
            && t.error == "")
  {
  }

  /** When the delete itself fails, the refetch reply is never read. */
  lemma RemoveFailureIgnoresList(s: AppState, hotelId: string, removeReply: Reply<()>,
                                 l1: Reply<FavoriteListBody>, l2: Reply<FavoriteListBody>)
    requires !(removeReply.Response? && Ok(removeReply.status))
    ensures HandleRemoveFavorite(s, hotelId, removeReply, l1) == HandleRemoveFavorite(s, hotelId, removeReply, l2)
  {
  }

  /** `addFavorite` never changes the favourites, whatever the reply. */
  lemma AddFavoriteKeepsFavorites(s: AppState, hotelId: string, reply: Reply<MessageBody>)
    ensures AddFavorite(s, hotelId, reply).favorite == s.favorite
    ensures AddFavorite(s, hotelId, reply).favHotels == s.favHotels
    ensures (reply.Response? && Ok(reply.status)) ==> AddFavorite(s, hotelId, reply) == s.(error := "", loading := false)
  {
  }

  /** So toggling a hotel that is not a favourite never makes it one, whatever
      the replies: the toggle asks to add it, the favourites are kept, and a
      second toggle asks to add it again. */
  lemma AddDoesNotMarkFavorite(s: AppState, hotelId: string, removeReply: Reply<()>,
                               listReply: Reply<FavoriteListBody>, addReply: Reply<MessageBody>)
    requires SignedIn(s) && !IsFavorite(s.favorite, hotelId)
    ensures ToggleDispatch(s, hotelId) == AddRequest
    ensures var t := HandleToggleFavorite(s, hotelId, removeReply, listReply, addReply);
      && t.favorite == s.favorite
      && t.favHotels == s.favHotels
      && !IsFavorite(t.favorite, hotelId)
      && ToggleDispatch(t, hotelId) == AddRequest
  {
  }

  /** The favourites screen's effect: after success the stored favourites are
      the normalised keys, the shown hotels are the fetched ones selected by
      `_id || id`, in order, and each is a favourite under that key; after a
      failure both are untouched and an error is shown. */
  lemma FavoritesScreenOutcome(s: AppState, favReply: Reply<Json<FavoriteListBody>>,
                                hotelsReply: Reply<Json<seq<Hotel>>>)
    requires s.page == Favorites && SignedIn(s)
    ensures var t := LoadFavoritesScreen(s, favReply, hotelsReply);
      && !t.loading
      && (if ScreenRepliesOk(favReply, hotelsReply) then
            var ids := NormalizeFavIds(RawFavorites(favReply.body.value));
            var fetched := hotelsReply.body.value;
            && t.favorite == FavoriteDoc(Some(AsEntries(ids)))
            && t.favHotels == FavoriteHotels(fetched, ids)
            && IsSubsequence(t.favHotels, fetched)
            && (forall h :: h in t.favHotels <==> h in fetched && FavKey(h) in ids)
            && (forall h :: h in t.favHotels ==> IsFavorite(t.favorite, FavKey(h)))
            && t.error == ""
          else
            t.favorite == s.favorite && t.favHotels == s.favHotels && t.error != "")
  {
    if ScreenRepliesOk(favReply, hotelsReply) {
      var raw := RawFavorites(favReply.body.value);
      forall h | h in LoadFavoritesScreen(s, favReply, hotelsReply).favHotels
        ensures IsFavorite(LoadFavoritesScreen(s, favReply, hotelsReply).favorite, FavKey(h))
      {
        FavoriteHotelsAreFavorites(hotelsReply.body.value, raw, h);
      }
    }
  }

  /** The messages effect: a success stores the list whichever shape it came
      in; a failure keeps the list and shows an error. */
  lemma MessagesLoadOutcome(s: AppState, reply: Reply<MessagesPayload>)
    requires s.page == Messages && SignedIn(s)
    ensures var t := LoadMessages(s, reply);
      && !t.loading
      && (reply.Response? && Ok(reply.status) ==> t.messages == NormalizeMessages(reply.body) && t.error == "")
      && (!(reply.Response? && Ok(reply.status)) ==> t.messages == s.messages && t.error != "")
  {
  }

  /** Which error the favourites screen shows: a rejected request first (the
      favourites one when both are), then a non-ok status, then a body that
      is not JSON. A status is reported whatever either body holds. */
  lemma FavoritesScreenErrorOrder(s: AppState, favReply: Reply<Json<FavoriteListBody>>,
                                  hotelsReply: Reply<Json<seq<Hotel>>>)
    requires s.page == Favorites && SignedIn(s)
    ensures var t := LoadFavoritesScreen(s, favReply, hotelsReply);
      && (favReply.Failed? ==> t.error == Or(favReply.message, "Error loading favorites"))
      && (favReply.Response? && hotelsReply.Failed? ==> t.error == Or(hotelsReply.message, "Error loading favorites"))
      && (favReply.Response? && hotelsReply.Response? ==>
            && (!Ok(favReply.status) ==> t.error == "Failed to fetch favorites")
            && (Ok(favReply.status) && !Ok(hotelsReply.status) ==> t.error == "Failed to fetch hotels")
            && (Ok(favReply.status) && Ok(hotelsReply.status) && favReply.body.NotJson? ==>
                  t.error == Or(favReply.body.parseError, "Error loading favorites"))
            && (Ok(favReply.status) && Ok(hotelsReply.status) && favReply.body.Parsed? && hotelsReply.body.NotJson? ==>
                  t.error == Or(hotelsReply.body.parseError, "Error loading favorites")))
  {
  }

  /** Effects whose page or token guard fails change nothing. */
  lemma EffectsGuarded(s: AppState, hr: Reply<seq<Hotel>>, fr: Reply<FavoriteListBody>, mr: Reply<MessagesPayload>,
                        sfr: Reply<Json<FavoriteListBody>>, shr: Reply<Json<seq<Hotel>>>)
    requires !SignedIn(s)
    ensures LoadHotels(s, hr) == s && LoadFavorites(s, fr) == s && LoadMessages(s, mr) == s
    ensures LoadFavoritesScreen(s, sfr, shr) == s
  {
  }

  /** A reply with an empty draft is a no-op; a successful reply answers
      only the messages keyed `msgId`, keeps order and clears that draft. */
  lemma ReplyOutcome(s: AppState, msgId: string, reply: Reply<()>)
    ensures !Truthy(Get(s.replyText, msgId)) ==> HandleReply(s, msgId, reply) == s
    ensures Truthy(Get(s.replyText, msgId)) && reply.Response? && Ok(reply.status) ==>
      var t := HandleReply(s, msgId, reply);
      && |t.messages| == |s.messages|
      && (forall i :: 0 <= i < |s.messages| && s.messages[i]._id != msgId ==> t.messages[i] == s.messages[i])
      && (forall i :: 0 <= i < |s.messages| && s.messages[i]._id == msgId ==>
            t.messages[i] == s.messages[i].(operatorResponse := s.replyText[msgId]))
      && t.replyText == s.replyText[msgId := ""]
    ensures Truthy(Get(s.replyText, msgId)) && !(reply.Response? && Ok(reply.status)) ==>
      HandleReply(s, msgId, reply).messages == s.messages && HandleReply(s, msgId, reply).error != ""
  {
  }

  /** A successful delete removes exactly the messages keyed `msgId`. */
  lemma DeleteOutcome(s: AppState, msgId: string, reply: Reply<()>)
    ensures reply.Response? && Ok(reply.status) ==>
      var t := HandleDeleteMessage(s, msgId, reply);
      && t.messages == DeleteMessage(s.messages, msgId)
      && IsSubsequence(t.messages, s.messages)
      && (forall m :: m in t.messages <==> m in s.messages && m._id != msgId)
    ensures !(reply.Response? && Ok(reply.status)) ==>
      HandleDeleteMessage(s, msgId, reply).messages == s.messages && HandleDeleteMessage(s, msgId, reply).error != ""
  {
  }

  /** Saving an edit applies the form to the hotels keyed like the edited one
      and to no other; with nothing being edited, saving is a no-op. */
  lemma EditOutcome(s: AppState, reply: Reply<()>)
    ensures s.editingHotel.None? ==> SubmitEditHotel(s, reply) == s
    ensures s.editingHotel.Some? && reply.Response? && Ok(reply.status) ==>
      var t := SubmitEditHotel(s, reply);
      var key := s.editingHotel.value._id;
      && |t.hotels| == |s.hotels| && t.editingHotel.None?
      && (forall i :: 0 <= i < |s.hotels| && s.hotels[i]._id != key ==> t.hotels[i] == s.hotels[i])
      && (forall i :: 0 <= i < |s.hotels| && s.hotels[i]._id == key ==> t.hotels[i] == MergeEdit(s.hotels[i], s.editForm))
    ensures s.editingHotel.Some? && !(reply.Response? && Ok(reply.status)) ==>
      SubmitEditHotel(s, reply).hotels == s.hotels && SubmitEditHotel(s, reply).editingHotel == s.editingHotel
  {
  }

  /** Opening a hotel in the form and changing one input, then saving with
      success, sets exactly that field of every hotel with that key. */
  lemma EditOneFieldRoundTrip(s: AppState, h: Hotel, field: FormField, value: string, checked: bool, reply: Reply<()>)
    requires reply.Response? && Ok(reply.status)
    ensures var t := SubmitEditHotel(HandleEditFormChange(StartEditHotel(s, h), field, value, checked), reply);
      forall i :: 0 <= i < |s.hotels| && s.hotels[i] == h ==> t.hotels[i] == SetField(h, field, value, checked)
  {
    var t := SubmitEditHotel(HandleEditFormChange(StartEditHotel(s, h), field, value, checked), reply);
    forall i | 0 <= i < |s.hotels| && s.hotels[i] == h
      ensures t.hotels[i] == SetField(h, field, value, checked)
    {
      MergeAfterOneChange(h, field, value, checked);
    }
  }

  /** Navigating away and back restores the page and leaves only the error
      cleared: no session, list or form state is touched by `goTo`. */
  lemma GoToAndBack(s: AppState, p: Page)
    ensures GoTo(GoTo(s, p), s.page) == s.(error := "")
    ensures GoTo(s, p).page == p && GoTo(s, p).token == s.token && GoTo(s, p).storage == s.storage
  {
  }

  /** The "Messages" entry keeps a stale error, but the messages effect that
      follows clears it: afterwards an error is shown iff that load failed. */
  lemma OpenMessagesThenLoad(s: AppState, reply: Reply<MessagesPayload>)
    requires SignedIn(s)
    ensures OpenMessages(s).error == s.error
    ensures var t := LoadMessages(OpenMessages(s), reply);
      t.page == Messages && (t.error == "" <==> reply.Response? && Ok(reply.status))
  {
  }

  /** The role picked on the register form is the role that an accepted
      registration stores, so it survives a reload. */
  lemma RegisterWithSelectedRole(s: AppState, r: string, reply: Reply<MessageBody>)
    requires RegisterAccepted(reply)
    ensures var t := HandleRegister(SelectRole(s, r), SelectRole(s, r).role, reply);
      && t.storage["role"] == Or(r, "user") && t.role == Or(r, "user")
      && Mount(Initial(t.storage)).role == Or(r, "user")
  {
  }

  /** With the search box emptied, the hotels screen lists every hotel; with
      any query it lists only matching hotels, in order. */
  lemma SearchBoxSelectsHotels(s: AppState, q: string)
    ensures HotelsView(SetSearch(s, "")) == ChooseView(s.loading, s.error, s.hotels)
    ensures HotelsView(SetSearch(s, q)).Items? ==>
      && IsSubsequence(HotelsView(SetSearch(s, q)).items, s.hotels)
      && (forall h :: h in HotelsView(SetSearch(s, q)).items ==> Matches(h, q))
  {
    SearchEmptyKeepsAll(s.hotels);
  }

  /** A draft typed into the reply box is what a successful reply stores as
      the operator's response, after which the box is emptied; an emptied
      box sends nothing. */
  lemma ReplyUsesDraft(s: AppState, msgId: string, text: string, reply: Reply<()>)
    ensures HandleReply(SetReplyDraft(s, msgId, ""), msgId, reply) == SetReplyDraft(s, msgId, "")
    ensures text != "" && reply.Response? && Ok(reply.status) ==>
      var t := HandleReply(SetReplyDraft(s, msgId, text), msgId, reply);
      && t.replyText[msgId] == ""
      && (forall i :: 0 <= i < |s.messages| && s.messages[i]._id == msgId ==> t.messages[i].operatorResponse == text)
  {
  }

  /** After "Cancel" a save sends nothing and changes nothing. */
  lemma CancelThenSave(s: AppState, reply: Reply<()>)
    ensures CancelEdit(s).editingHotel.None?
    ensures SubmitEditHotel(CancelEdit(s), reply) == CancelEdit(s)
  {
  }

  /** A send is made iff a hotel and a text are set. A success ends with no
      error; a failure sets the error the handler throws or catches. Either
      way loading ends and no list, the page or the session changes. */
  lemma SendMessageOutcome(s: AppState, messageHotelId: Option<string>, messageText: string, reply: Reply<()>)
    ensures !Truthy(messageHotelId) || messageText == "" ==> SendMessage(s, messageHotelId, messageText, reply) == s
    ensures Truthy(messageHotelId) && messageText != "" ==>
      var t := SendMessage(s, messageHotelId, messageText, reply);
      && !t.loading
      && t.hotels == s.hotels && t.messages == s.messages && t.favHotels == s.favHotels
      && t.page == s.page && t.token == s.token
      && (reply.Response? && Ok(reply.status) ==> t == s.(error := "", loading := false))
      && (reply.Response? && !Ok(reply.status) ==> t.error == "Failed to send message")
      && (reply.Failed? ==> t.error == Or(reply.message, "Error sending message"))
      && (!(reply.Response? && Ok(reply.status)) ==> t.error != "")
  {
  }

  /** A failed send from the hotels screen replaces the hotel list on screen
      by the error. */
  lemma FailedSendHidesHotels(s: AppState, hotelId: string, text: string, reply: Reply<()>)
    requires hotelId != "" && text != ""
    requires !(reply.Response? && Ok(reply.status))
    ensures HotelsView(SendMessage(s, Some(hotelId), text, reply)).ErrorText?
  {
  }
}
