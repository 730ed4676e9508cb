/** The list logic of the main page (app/page.tsx): the hotel search, the
    favourite keys and the hotels they select, the two shapes of the
    message list, the display strings of a message card, and the updates
    that a reply, a deletion or a hotel edit make to a list. */
module AppLists {
  import opened JsRuntime
  import opened Api

  // ---------------------------------------------------------------------------
  // Hotel search

  /** The search box keeps a hotel when the lower-cased query occurs in its
      lower-cased name or in its lower-cased address. */
  predicate Matches(h: Hotel, search: string) {
    Includes(Lower(h.name), Lower(search)) || Includes(Lower(h.address), Lower(search))
  }

  /** The hotels the hotels screen lists for the current search text. */
  function FilterHotels(hotels: seq<Hotel>, search: string): (r: seq<Hotel>)
    ensures forall h :: h in r <==> h in hotels && Matches(h, search)
    ensures forall h :: multiset(r)[h] == if Matches(h, search) then multiset(hotels)[h] else 0
    ensures IsSubsequence(r, hotels)
  {
    Filter(hotels, h => Matches(h, search))
  }

  /** An empty search lists every hotel, in order. */
  lemma SearchEmptyKeepsAll(hotels: seq<Hotel>)
    ensures FilterHotels(hotels, "") == hotels
  {
    forall h | h in hotels ensures Matches(h, "") {
      IncludesEmpty(Lower(h.name));
    }
    FilterAllKept(hotels, h => Matches(h, ""));
  }

  /** The case of the query does not matter. */
  lemma SearchIgnoresQueryCase(hotels: seq<Hotel>, search: string)
    ensures FilterHotels(hotels, Lower(search)) == FilterHotels(hotels, search)
  {
    LowerIdempotent(search);
    FilterCongruent(hotels, h => Matches(h, Lower(search)), h => Matches(h, search));
  }

  // ---------------------------------------------------------------------------
  // Favourites

  /** `h._id || h.id`: the key the favourites screen matches a hotel by. */
  function FavKey(h: Hotel): string {
    Or(h._id, h.id)
  }

  /** `typeof f === 'string' ? f : (f._id || f.id)`. */
  function NormalizeFavId(e: FavEntry): string {
    match e
    case FavId(k) => k
    case FavObject(oid, id) => Or(oid, id)
  }

  function NormalizeFavIds(raw: seq<FavEntry>): seq<string> {
    seq(|raw|, i requires 0 <= i < |raw| => NormalizeFavId(raw[i]))
  }

  /** A bare key stays itself; an object gives its `_id`, or its `id` when
      `_id` is missing; length and order are kept. */
  lemma NormalizeFavIdsShapes(raw: seq<FavEntry>)
    ensures |NormalizeFavIds(raw)| == |raw|
    ensures forall i :: 0 <= i < |raw| && raw[i].FavId? ==> NormalizeFavIds(raw)[i] == raw[i].key
    ensures forall i :: 0 <= i < |raw| && raw[i].FavObject? && raw[i]._id != "" ==>
      NormalizeFavIds(raw)[i] == raw[i]._id
    ensures forall i :: 0 <= i < |raw| && raw[i].FavObject? && raw[i]._id == "" ==>
      NormalizeFavIds(raw)[i] == raw[i].id
  {
  }

  /** `{ hotels: favIDs }`: the keys stored back as a favourites document. */
  function AsEntries(ids: seq<string>): (es: seq<FavEntry>)
    ensures |es| == |ids|
    ensures forall i :: 0 <= i < |ids| ==> es[i] == FavId(ids[i])
  {
    seq(|ids|, i requires 0 <= i < |ids| => FavId(ids[i]))
  }

  /** Normalising a document that already holds bare keys gives the keys back. */
  lemma NormalizeStoredIds(ids: seq<string>)
    ensures NormalizeFavIds(AsEntries(ids)) == ids
  {
  }

  /** `favIDs.includes(...)` over the hotel list: the favourite hotels, in
      hotel-list order. */
  function FavoriteHotels(hotels: seq<Hotel>, ids: seq<string>): (r: seq<Hotel>)
    ensures forall h :: h in r <==> h in hotels && FavKey(h) in ids
    ensures forall h :: multiset(r)[h] == if FavKey(h) in ids then multiset(hotels)[h] else 0
    ensures IsSubsequence(r, hotels)
  {
    Filter(hotels, h => FavKey(h) in ids)
  }

  /** `(favorite?.hotels ?? []).includes(hotelId)`: only a bare key equal to
      `hotelId` counts, a populated object never does. */
  predicate IsFavorite(favorite: FavoriteDoc, hotelId: string) {
    FavId(hotelId) in favorite.hotels.GetOr([])
  }

  /** Once the keys are stored as a document, a key is a favourite iff it is one of them. */
  lemma StoredIdsAreFavorites(ids: seq<string>, k: string)
    ensures IsFavorite(FavoriteDoc(Some(AsEntries(ids))), k) <==> k in ids
  {
    var es := AsEntries(ids);
    if k in ids {
      var i :| 0 <= i < |ids| && ids[i] == k;
      assert es[i] == FavId(k);
    }
    if FavId(k) in es {
      var i :| 0 <= i < |es| && es[i] == FavId(k);
      assert ids[i] == k;
    }
  }

  /** Every hotel the favourites screen lists is a favourite of the stored
      document under its own key. */
  lemma FavoriteHotelsAreFavorites(hotels: seq<Hotel>, raw: seq<FavEntry>, h: Hotel)
    requires h in FavoriteHotels(hotels, NormalizeFavIds(raw))
    ensures h in hotels
    ensures IsFavorite(FavoriteDoc(Some(AsEntries(NormalizeFavIds(raw)))), FavKey(h))
  {
    StoredIdsAreFavorites(NormalizeFavIds(raw), FavKey(h));
  }

  /** `prev.filter(h => h._id !== hotelId)`. */
  function WithoutHotel(hotels: seq<Hotel>, hotelId: string): (r: seq<Hotel>)
    ensures forall h :: h in r <==> h in hotels && h._id != hotelId
    ensures forall h :: multiset(r)[h] == if h._id != hotelId then multiset(hotels)[h] else 0
    ensures IsSubsequence(r, hotels)
  {
    Filter(hotels, (h: Hotel) => h._id != hotelId)
  }

  /** Removing the same hotel twice removes it once. */
  lemma WithoutHotelIdempotent(hotels: seq<Hotel>, hotelId: string)
    ensures WithoutHotel(WithoutHotel(hotels, hotelId), hotelId) == WithoutHotel(hotels, hotelId)
  {
    FilterIdempotent(hotels, (h: Hotel) => h._id != hotelId);
  }

  // ---------------------------------------------------------------------------
  // Messages

  /** `Array.isArray(data) ? data : data.messages || []`. */
  function NormalizeMessages(p: MessagesPayload): seq<Message> {
    match p
    case MessageArray(ms) => ms
    case MessageEnvelope(ms) => ms.GetOr([])
  }

  /** Both reply shapes give the same list; an envelope without a list gives none. */
  lemma MessageShapesAgree(ms: seq<Message>)
    ensures NormalizeMessages(MessageArray(ms)) == ms
    ensures NormalizeMessages(MessageEnvelope(Some(ms))) == ms
    ensures NormalizeMessages(MessageEnvelope(None)) == []
  {
  }

  /** The "Hotel:" line of a message card. */
  function HotelDisplay(hotel: Ref): (d: string)
    ensures hotel.NoRef? ==> d == ""
    ensures hotel.RefText? ==> d == hotel.key
    ensures hotel.RefObject? ==> d != ""
    ensures hotel.RefObject? && hotel.caption != "" ==> d == hotel.caption
    ensures hotel.RefObject? && hotel.caption == "" && hotel._id != "" ==> d == hotel._id
    ensures hotel.RefObject? && hotel.caption == "" && hotel._id == "" ==> d == "[object]"
  {
    match hotel
    case NoRef => ""
    case RefText(k) => k
    case RefObject(name, oid) => Or(name, Or(oid, "[object]"))
  }

  /** The "User:" line of a message card: a populated user shows its
      username, a bare key shows itself to an operator and the signed-in
      user's own name otherwise. */
  function UserDisplay(user: Ref, isOperator: bool, username: string): (d: string)
    ensures user.NoRef? ==> d == ""
    ensures user.RefText? ==> d == if isOperator then user.key else username
    ensures user.RefObject? ==> d != ""
    ensures user.RefObject? && user.caption != "" ==> d == user.caption
    ensures user.RefObject? && user.caption == "" && user._id != "" ==> d == user._id
    ensures user.RefObject? && user.caption == "" && user._id == "" ==> d == "[object]"
  {
    match user
    case NoRef => ""
    case RefText(k) => if isOperator then k else username
    case RefObject(uname, oid) => Or(uname, Or(oid, "[object]"))
  }

  /** What one message card shows. */
  datatype Card = Card(
    hotel: string,
    user: string,
    text: string,
    response: Option<string>,
    replyBox: bool,
    deleteButton: bool)

  function MessageCard(m: Message, isOperator: bool, username: string): (c: Card)
    ensures c.hotel == HotelDisplay(m.hotel) && c.user == UserDisplay(m.user, isOperator, username)
    ensures c.text == m.userMessage
    ensures c.response.Some? <==> m.operatorResponse != ""
    ensures c.response.Some? ==> c.response.value == m.operatorResponse
    ensures c.replyBox <==> isOperator && m.operatorResponse == ""
    ensures c.deleteButton <==> isOperator
  {
    Card(
      HotelDisplay(m.hotel),
      UserDisplay(m.user, isOperator, username),
      m.userMessage,
      if m.operatorResponse != "" then Some(m.operatorResponse) else None,
      isOperator && m.operatorResponse == "",
      isOperator)
  }

  /** `msgs.map(m => m._id === msgId ? { ...m, operatorResponse } : m)`. */
  function ApplyReply(ms: seq<Message>, msgId: string, response: string): (r: seq<Message>)
    ensures |r| == |ms|
    ensures forall i :: 0 <= i < |ms| ==> r[i]._id == ms[i]._id
    ensures forall i :: 0 <= i < |ms| && ms[i]._id != msgId ==> r[i] == ms[i]
    ensures forall i :: 0 <= i < |ms| && ms[i]._id == msgId ==> r[i] == ms[i].(operatorResponse := response)
  {
    UpdateWhere(ms, (m: Message) => m._id == msgId, (m: Message) => m.(operatorResponse := response))
  }

  /** After a non-empty reply the operator sees the response and no reply box on that card. */
  lemma ReplyClosesCard(ms: seq<Message>, msgId: string, response: string, i: nat, username: string)
    requires i < |ms| && ms[i]._id == msgId && response != ""
    ensures MessageCard(ApplyReply(ms, msgId, response)[i], true, username).response == Some(response)
    ensures !MessageCard(ApplyReply(ms, msgId, response)[i], true, username).replyBox
  {
  }

  /** `msgs.filter(m => m._id !== msgId)`. */
  function DeleteMessage(ms: seq<Message>, msgId: string): (r: seq<Message>)
    ensures forall m :: m in r <==> m in ms && m._id != msgId
    ensures forall m :: multiset(r)[m] == if m._id != msgId then multiset(ms)[m] else 0
    ensures IsSubsequence(r, ms)
  {
    Filter(ms, (m: Message) => m._id != msgId)
  }

  // ---------------------------------------------------------------------------
  // Hotel edit form

  /** `startEditHotel`: the form starts with the six editable fields of the hotel. */
  function FormOf(h: Hotel): EditForm {
    EditForm(Some(h.name), Some(h.address), Some(h.price), Some(h.rating), Some(h.availability), Some(h.roomsAvailable))
  }

  /** `handleEditFormChange`: the input named `field` sets its own entry; the
      checkbox gives its `checked` flag, every other input its text. */
  function ChangeForm(f: EditForm, field: FormField, value: string, checked: bool): EditForm {
    match field
    case NameField => f.(name := Some(value))
    case AddressField => f.(address := Some(value))
    case PriceField => f.(price := Some(Text(value)))
    case RatingField => f.(rating := Some(Text(value)))
    case RoomsField => f.(roomsAvailable := Some(Text(value)))
    case AvailabilityField => f.(availability := Some(Flag(checked)))
  }

  /** `{ ...h, ...editForm }`: every field set in the form wins. */
  function MergeEdit(h: Hotel, f: EditForm): (r: Hotel)
    ensures r._id == h._id && r.id == h.id
    ensures r.createdBy == h.createdBy && r.createdAt == h.createdAt && r.updatedAt == h.updatedAt
  {
    h.(name := f.name.GetOr(h.name),
       address := f.address.GetOr(h.address),
       price := f.price.GetOr(h.price),
       rating := f.rating.GetOr(h.rating),
       availability := f.availability.GetOr(h.availability),
       roomsAvailable := f.roomsAvailable.GetOr(h.roomsAvailable))
  }

  /** One field of a hotel set as its input would set it: the reference for
      what one change of the form does to the saved hotel. */
  function SetField(h: Hotel, field: FormField, value: string, checked: bool): Hotel {
    match field
    case NameField => h.(name := value)
    case AddressField => h.(address := value)
    case PriceField => h.(price := Text(value))
    case RatingField => h.(rating := Text(value))
    case RoomsField => h.(roomsAvailable := Text(value))
    case AvailabilityField => h.(availability := Flag(checked))
  }

  /** Saving an untouched form leaves the hotel as it was. */
  lemma MergeUntouchedForm(h: Hotel)
    ensures MergeEdit(h, FormOf(h)) == h
  {
  }

  /** Saving after one change sets exactly that field. */
  lemma MergeAfterOneChange(h: Hotel, field: FormField, value: string, checked: bool)
    ensures MergeEdit(h, ChangeForm(FormOf(h), field, value, checked)) == SetField(h, field, value, checked)
  {
  }

  /** `hotels.map(h => h._id === id ? { ...h, ...editForm } : h)`. */
  function ApplyEdit(hotels: seq<Hotel>, hotelId: string, f: EditForm): (r: seq<Hotel>)
    ensures |r| == |hotels|
    ensures forall i :: 0 <= i < |hotels| ==> r[i]._id == hotels[i]._id
    ensures forall i :: 0 <= i < |hotels| && hotels[i]._id != hotelId ==> r[i] == hotels[i]
    ensures forall i :: 0 <= i < |hotels| && hotels[i]._id == hotelId ==> r[i] == MergeEdit(hotels[i], f)
  {
    UpdateWhere(hotels, (h: Hotel) => h._id == hotelId, (h: Hotel) => MergeEdit(h, f))
  }

  // ---------------------------------------------------------------------------
  // Hotel card buttons

  datatype Buttons = Buttons(message: bool, addFavorite: bool, edit: bool)

  /** The buttons under a hotel card: a signed-in user gets "Message" and,
      for a hotel not yet a favourite, "Add Favorite"; a signed-in operator
      gets "Edit"; a card open in the edit form gets none. */
  function HotelButtons(isOperator: bool, signedIn: bool, favorite: bool, editingThis: bool): (b: Buttons)
    ensures b.message <==> !editingThis && !isOperator && signedIn
    ensures b.addFavorite <==> !editingThis && !isOperator && signedIn && !favorite
    ensures b.edit <==> !editingThis && isOperator && signedIn
    ensures !(b.edit && b.message)
  {
    if editingThis then Buttons(false, false, false)
    else Buttons(!isOperator && signedIn, !isOperator && signedIn && !favorite, isOperator && signedIn)
  }
}
