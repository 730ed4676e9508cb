/** The shapes the client reads from the REST API and keeps in its state.
    Every server reply is an input: the handler is given the reply instead
    of performing the request. */
module Api {
  import opened JsRuntime

  /** A JSON scalar as the edit form and the hotel records hold it (the form's
      number inputs deliver their value as text). */
  datatype Scalar = Text(s: string) | Num(n: real) | Flag(b: bool)

  /** A hotel record. `_id` is the database key; `id` is the alternative key
      that some replies carry instead. The empty string stands for a missing key. */
  datatype Hotel = Hotel(
    _id: string,
    id: string,
    name: string,
    address: string,
    price: Scalar,
    rating: Scalar,
    availability: Scalar,
    roomsAvailable: Scalar,
    createdBy: string,
    createdAt: string,
    updatedAt: string)

  /** A reference from a message to a hotel or a user: absent, a bare key,
      or a populated object (`caption` is the hotel's `name` or the user's
      `username`). */
  datatype Ref = NoRef | RefText(key: string) | RefObject(caption: string, _id: string)

  /** An operator message. An empty `operatorResponse` means none yet. */
  datatype Message = Message(
    _id: string,
    hotel: Ref,
    user: Ref,
    userMessage: string,
    operatorResponse: string)

  /** One entry of a favourites document: a bare hotel key, or a populated
      hotel object of which only `_id` and `id` matter. */
  datatype FavEntry = FavId(key: string) | FavObject(_id: string, id: string)

  /** The favourites document `{ hotels: [...] }`; `hotels` may be missing. */
  datatype FavoriteDoc = FavoriteDoc(hotels: Option<seq<FavEntry>>)

  /** The empty favourites document `{ hotels: [] }`. */
  const NoFavorites := FavoriteDoc(Some([]))

  /** The outcome of one request. `Failed` is anything the handler's `try`
      block catches (the request rejected, or the body was not JSON) with
      the exception's message. `Response` gives the HTTP status, the body
      as text and the body as JSON. */
  datatype Reply<+B> = Failed(message: string) | Response(status: nat, text: string, body: B)

  /** A body that is parsed only after the status was checked: the value
      `res.json()` resolves to, or the message of the error it throws. In a
      `Reply<Json<B>>`, `Failed` is a rejected request only. */
  datatype Json<+B> = Parsed(value: B) | NotJson(parseError: string)

  /** `res.ok`. */
  predicate Ok(status: nat) {
    200 <= status <= 299
  }

  /** Body of `POST /auth/login`. Empty strings stand for missing fields. */
  datatype LoginBody = LoginBody(token: string, role: string, message: string)

  /** A body of which only `message` is read (register, add favourite). */
  datatype MessageBody = MessageBody(message: string)

  /** Body of `GET /favorites/list`: `{ favorite }`, possibly null. */
  datatype FavoriteListBody = FavoriteListBody(favorite: Option<FavoriteDoc>)

  /** Body of the messages endpoints: a bare array or `{ messages }`. */
  datatype MessagesPayload = MessageArray(items: seq<Message>) | MessageEnvelope(messages: Option<seq<Message>>)

  /** The state of the hotel edit form: the fields set so far. */
  datatype EditForm = EditForm(
    name: Option<string>,
    address: Option<string>,
    price: Option<Scalar>,
    rating: Option<Scalar>,
    availability: Option<Scalar>,
    roomsAvailable: Option<Scalar>)

  const EmptyForm := EditForm(None, None, None, None, None, None)

  /** The inputs of the edit form, by their `name` attribute. */
  datatype FormField = NameField | AddressField | PriceField | RatingField | RoomsField | AvailabilityField
}
