/** The main page component (app/page.tsx) as an object: one field per piece
    of React state plus `storage` for the browser's persisted keys, and one
    method per handler or effect. Each method computes the values the
    handler sets, writes the fields once, and is proved to end in the state
    the matching step of AppSpec describes. */
module AppPage {
  import opened JsRuntime
  import opened Api
  import opened AppLists
  import AppSpec

  class App {
    var page: AppSpec.Page
    var token: Option<string>
    var role: string
    var error: string
    var loading: bool
    var username: string
    var storage: map<string, string>
    var search: string
    var hotels: seq<Hotel>
    var favorite: FavoriteDoc
    var favHotels: seq<Hotel>
    var messages: seq<Message>
    var replyText: map<string, string>
    var editingHotel: Option<Hotel>
    var editForm: EditForm

    /** The abstract value of the component. */
    function Snapshot(): AppSpec.AppState
      reads this
    {
      AppSpec.AppState(page, token, role, error, loading, username, storage, search, hotels,
                       favorite, favHotels, messages, replyText, editingHotel, editForm)
    }

    /** First render: every `useState` default, over the given persisted keys. */
    constructor (persisted: map<string, string>)
      ensures Snapshot() == AppSpec.Initial(persisted)
    {
      page := AppSpec.Login;
      token := None;
      hotels := [];
      favorite := NoFavorites;
      loading := false;
      error := "";
      search := "";
      role := "user";
      username := "";
      editingHotel := None;
      editForm := EmptyForm;
      messages := [];
      replyText := map[];
      favHotels := [];
      storage := persisted;
    }

    method Mount()
      modifies this
      ensures Snapshot() == AppSpec.Mount(old(Snapshot()))
    {
      var t := Get(storage, "token");
      var u := Get(storage, "username");
      var r := OrStored(Get(storage, "role"), "user");
      var name, session, p := username, token, page;
      if Truthy(u) {
        name := u.value;
      }
      if Truthy(t) {
        session, p := t, AppSpec.Hotels;
      }
      role, username, token, page := r, name, session, p;
    }

    method GoTo(p: AppSpec.Page)
      modifies this
      ensures Snapshot() == AppSpec.GoTo(old(Snapshot()), p)
    {
      error := "";
      page := p;
    }

    method OpenMessages()
      modifies this
      ensures Snapshot() == AppSpec.OpenMessages(old(Snapshot()))
    {
      page := AppSpec.Messages;
    }

    method SelectRole(r: string)
      modifies this
      ensures Snapshot() == AppSpec.SelectRole(old(Snapshot()), r)
    {
      role := r;
    }

    method SetSearch(q: string)
      modifies this
      ensures Snapshot() == AppSpec.SetSearch(old(Snapshot()), q)
    {
      search := q;
    }

    method HandleLogin(usernameInput: string, reply: Reply<LoginBody>)
      modifies this
      ensures Snapshot() == AppSpec.HandleLogin(old(Snapshot()), usernameInput, reply)
    {
      var err := "";
      match reply {
        case Failed(_) =>
          err := "Network error";
        case Response(status, _, data) =>
          if Ok(status) && data.token != "" {
            SignIn(usernameInput, data.token, data.role);
          } else {
            err := Or(data.message, "Login failed");
          }
      }
      error, loading := err, false;
    }

    /** The accepted branch of the login handler: persist and adopt the session. */
    method SignIn(usernameInput: string, t: string, replyRole: string)
      modifies this
      ensures Snapshot() == AppSpec.SignIn(old(Snapshot()), usernameInput, t, replyRole)
    {
      var r := Or(replyRole, "user");
      storage := storage["username" := usernameInput]["token" := t]["role" := r];
      username, role, token, page := usernameInput, r, Some(t), AppSpec.Hotels;
    }

    method HandleRegister(formRole: string, reply: Reply<MessageBody>)
      modifies this
      ensures Snapshot() == AppSpec.HandleRegister(old(Snapshot()), formRole, reply)
    {
      var err, persisted, r, p := "", storage, role, page;
      match reply {
        case Failed(_) =>
          err := "Network error";
        case Response(status, _, data) =>
          if status == 201 {
            r := Or(formRole, "user");
            persisted, p := storage["role" := r], AppSpec.Login;
          } else {
            err := Or(data.message, "Registration failed");
          }
      }
      storage, role, page, error, loading := persisted, r, p, err, false;
    }

    method HandleLogout()
      modifies this
      ensures Snapshot() == AppSpec.HandleLogout(old(Snapshot()))
    {
      storage := storage - {"token"} - {"role"};
      token, role, page := None, "user", AppSpec.Login;
    }

    method LoadHotels(reply: Reply<seq<Hotel>>)
      modifies this
      ensures Snapshot() == AppSpec.LoadHotels(old(Snapshot()), reply)
    {
      if page == AppSpec.Hotels && Truthy(token) {
        loading := true;
        match reply {
          case Failed(_) => error := "Failed to fetch hotels";
          case Response(_, _, data) => hotels := data;
        }
        loading := false;
      }
    }

    method LoadFavorites(reply: Reply<FavoriteListBody>)
      modifies this
      ensures Snapshot() == AppSpec.LoadFavorites(old(Snapshot()), reply)
    {
      if page == AppSpec.Hotels && Truthy(token) {
        loading := true;
        match reply {
          case Failed(_) => error := "Failed to fetch favorites";
          case Response(_, _, data) => favorite := data.favorite.GetOr(NoFavorites);
        }
        loading := false;
      }
    }

    /** Returns the endpoint the effect asks, chosen by the stored role. */
    method LoadMessages(reply: Reply<MessagesPayload>) returns (endpoint: Option<AppSpec.Endpoint>)
      modifies this
      ensures Snapshot() == AppSpec.LoadMessages(old(Snapshot()), reply)
      ensures endpoint.Some? <==> old(page) == AppSpec.Messages && Truthy(old(token))
      ensures endpoint.Some? ==> endpoint.value == AppSpec.MessagesEndpoint(old(Snapshot()))
    {
      endpoint := None;
      if page == AppSpec.Messages && Truthy(token) {
        endpoint := Some(if Get(storage, "role") == Some("operator") then AppSpec.OperatorMessages else AppSpec.UserMessages);
        var err, list := "", messages;
        match reply {
          case Failed(m) =>
            err := Or(m, "Failed to fetch messages");
          case Response(status, text, data) =>
            if !Ok(status) {
              err := "Error " + NatToString(status) + ": " + text;
            } else {
              list := NormalizeMessages(data);
            }
        }
        error, messages, loading := err, list, false;
      }
    }

    method LoadFavoritesScreen(favReply: Reply<Json<FavoriteListBody>>, hotelsReply: Reply<Json<seq<Hotel>>>)
      modifies this
      ensures Snapshot() == AppSpec.LoadFavoritesScreen(old(Snapshot()), favReply, hotelsReply)
    {
      if page == AppSpec.Favorites && Truthy(token) {
        var err, doc, shown := "", favorite, favHotels;
        if favReply.Failed? {
          err := Or(favReply.message, "Error loading favorites");
        } else if hotelsReply.Failed? {
          err := Or(hotelsReply.message, "Error loading favorites");
        } else if !Ok(favReply.status) {
          err := "Failed to fetch favorites";
        } else if !Ok(hotelsReply.status) {
          err := "Failed to fetch hotels";
        } else if favReply.body.NotJson? {
          err := Or(favReply.body.parseError, "Error loading favorites");
        } else if hotelsReply.body.NotJson? {
          err := Or(hotelsReply.body.parseError, "Error loading favorites");
        } else {
          var favIds := NormalizeFavIds(AppSpec.RawFavorites(favReply.body.value));
          doc, shown := FavoriteDoc(Some(AsEntries(favIds))), FavoriteHotels(hotelsReply.body.value, favIds);
        }
        error, favorite, favHotels, loading := err, doc, shown, false;
      }
    }

    method AddFavorite(hotelId: string, reply: Reply<MessageBody>)
      modifies this
      ensures Snapshot() == AppSpec.AddFavorite(old(Snapshot()), hotelId, reply)
    {
      var err := "";
      match reply {
        case Failed(m) =>
          err := Or(m, "Error adding favorite");
        case Response(status, _, data) =>
          if !Ok(status) {
            err := Or(data.message, "Failed to add favorite");
          }
      }
      error, loading := err, false;
    }

    method HandleRemoveFavorite(hotelId: string, removeReply: Reply<()>, listReply: Reply<FavoriteListBody>)
      modifies this
      ensures Snapshot() == AppSpec.HandleRemoveFavorite(old(Snapshot()), hotelId, removeReply, listReply)
    {
      var err, doc, shown := "", favorite, favHotels;
      match removeReply {
        case Failed(m) =>
          err := Or(m, "Error removing favorite");
        case Response(status, errText, _) =>
          if !Ok(status) {
            err := "Failed to remove favorite: " + NatToString(status) + " " + errText;
          } else {
            match listReply {
              case Failed(m) =>
                err := Or(m, "Error removing favorite");
              case Response(listStatus, listErr, data) =>
                if !Ok(listStatus) {
                  err := "Failed to fetch favorites: " + NatToString(listStatus) + " " + listErr;
                } else {
                  doc, shown := data.favorite.GetOr(NoFavorites), WithoutHotel(favHotels, hotelId);
                }
            }
          }
      }
      error, favorite, favHotels, loading := err, doc, shown, false;
    }

    /** Returns which request was made, if any. */
    method HandleToggleFavorite(hotelId: string, removeReply: Reply<()>,
                                listReply: Reply<FavoriteListBody>, addReply: Reply<MessageBody>)
      returns (action: AppSpec.ToggleAction)
      modifies this
      ensures action == AppSpec.ToggleDispatch(old(Snapshot()), hotelId)
      ensures Snapshot() == AppSpec.HandleToggleFavorite(old(Snapshot()), hotelId, removeReply, listReply, addReply)
    {
      if !Truthy(token) {
        error := "Please sign in to favorite hotels";
        GoTo(AppSpec.Login);
        return AppSpec.SignInFirst;
      }
      error := "";
      loading := true;
      if FavId(hotelId) in favorite.hotels.GetOr([]) {
        action := AppSpec.RemoveRequest;
        HandleRemoveFavorite(hotelId, removeReply, listReply);
      } else {
        action := AppSpec.AddRequest;
        AddFavorite(hotelId, addReply);
      }
      loading := false;
    }

    method SetReplyDraft(msgId: string, text: string)
      modifies this
      ensures Snapshot() == AppSpec.SetReplyDraft(old(Snapshot()), msgId, text)
    {
      replyText := replyText[msgId := text];
    }

    method HandleReply(msgId: string, reply: Reply<()>)
      modifies this
      ensures Snapshot() == AppSpec.HandleReply(old(Snapshot()), msgId, reply)
    {
      var draft := Get(replyText, msgId);
      if !Truthy(draft) {
        return;
      }
      var err, list, drafts := "", messages, replyText;
      match reply {
        case Failed(m) =>
          err := Or(m, "Error replying to message");
        case Response(status, _, _) =>
          if !Ok(status) {
            err := "Failed to send reply";
          } else {
            list, drafts := ApplyReply(messages, msgId, draft.value), replyText[msgId := ""];
          }
      }
      error, messages, replyText, loading := err, list, drafts, false;
    }

    method HandleDeleteMessage(msgId: string, reply: Reply<()>)
      modifies this
      ensures Snapshot() == AppSpec.HandleDeleteMessage(old(Snapshot()), msgId, reply)
    {
      var err, list := "", messages;
      match reply {
        case Failed(m) =>
          err := Or(m, "Error deleting message");
        case Response(status, _, _) =>
          if !Ok(status) {
            err := "Failed to delete message";
          } else {
            list := DeleteMessage(messages, msgId);
          }
      }
      error, messages, loading := err, list, false;
    }

    /** The modal's hotel and text are passed in: they are not fields here. */
    method SendMessage(messageHotelId: Option<string>, messageText: string, reply: Reply<()>)
      modifies this
      ensures Snapshot() == AppSpec.SendMessage(old(Snapshot()), messageHotelId, messageText, reply)
    {
      if !Truthy(messageHotelId) || messageText == "" {
        return;
      }
      var err := "";
      match reply {
        case Failed(m) =>
          err := Or(m, "Error sending message");
        case Response(status, _, _) =>
          if !Ok(status) {
            err := "Failed to send message";
          }
      }
      error, loading := err, false;
    }

    method StartEditHotel(h: Hotel)
      modifies this
      ensures Snapshot() == AppSpec.StartEditHotel(old(Snapshot()), h)
    {
      editingHotel := Some(h);
      editForm := FormOf(h);
    }

    method CancelEdit()
      modifies this
      ensures Snapshot() == AppSpec.CancelEdit(old(Snapshot()))
    {
      editingHotel := None;
    }

    method HandleEditFormChange(field: FormField, value: string, checked: bool)
      modifies this
      ensures Snapshot() == AppSpec.HandleEditFormChange(old(Snapshot()), field, value, checked)
    {
      editForm := ChangeForm(editForm, field, value, checked);
    }

    method SubmitEditHotel(reply: Reply<()>)
      modifies this
      ensures Snapshot() == AppSpec.SubmitEditHotel(old(Snapshot()), reply)
    {
      if editingHotel.None? {
        return;
      }
      var err, list, editing := "", hotels, editingHotel;
      match reply {
        case Failed(m) =>
          err := Or(m, "Error updating hotel");
        case Response(status, _, _) =>
          if !Ok(status) {
            err := "Failed to update hotel";
          } else {
            list, editing := ApplyEdit(hotels, editingHotel.value._id, editForm), None;
          }
      }
      error, hotels, editingHotel, loading := err, list, editing, false;
    }
  }
}
