/** The standalone favourites page (app/favorites/page.tsx) as values: its
    four pieces of state, one step per effect or handler, and what they
    promise. Unlike the main page, this page types the favourites document
    as a list of bare hotel keys and matches hotels by `_id` alone. */
module FavoritesSpec {
  import opened JsRuntime
  import opened Api
  import opened AppLists
  import opened Views

  /** `favorite` is `null` until a document arrives (and stays `null` when the
      reply carries none). */
  datatype FavState = FavState(favorite: Option<FavoriteDoc>, hotels: seq<Hotel>, loading: bool, error: string)

  /** First render: no document, no hotels, the loading notice on. */
  const Initial := FavState(None, [], true, "")

  /** The mount effect: fetch the favourites document. A non-ok status is
      thrown as "Failed to fetch favorites"; a caught failure shows its
      message or "Error loading favorites". */
  function FetchFavorites(s: FavState, reply: Reply<FavoriteListBody>): FavState {
    var base := s.(error := "", loading := false);
    match reply
    case Failed(m) => base.(error := Or(m, "Error loading favorites"))
    case Response(st, _, b) =>
      if !Ok(st) then base.(error := "Failed to fetch favorites")
      else base.(favorite := b.favorite)
  }

  /** `favorite && favorite.hotels.length`: the hotels effect only runs for a
      document with at least one entry. */
  predicate NeedsHotels(s: FavState) {
    s.favorite.Some? && s.favorite.value.hotels.Some? && |s.favorite.value.hotels.value| > 0
  }

  /** `data.filter(h => favorite.hotels.includes(h._id))`: the hotels whose
      `_id` is one of the document's bare keys, in hotel-list order. */
  function ListedHotels(hotels: seq<Hotel>, entries: seq<FavEntry>): (r: seq<Hotel>)
    ensures forall h :: h in r <==> h in hotels && FavId(h._id) in entries
    ensures forall h :: multiset(r)[h] == if FavId(h._id) in entries then multiset(hotels)[h] else 0
    ensures IsSubsequence(r, hotels)
  {
    Filter(hotels, (h: Hotel) => FavId(h._id) in entries)
  }

  /** The effect that runs when `favorite` changes: fetch all hotels and keep
      the favourite ones. A non-ok status is thrown as "Failed to fetch
      hotels"; a caught failure shows its message or "Error loading hotels". */
  function FetchHotels(s: FavState, reply: Reply<seq<Hotel>>): FavState {
    if !NeedsHotels(s) then s
    else
      var base := s.(error := "", loading := false);
      match reply
      case Failed(m) => base.(error := Or(m, "Error loading hotels"))
      case Response(st, _, data) =>
        if !Ok(st) then base.(error := "Failed to fetch hotels")
        else base.(hotels := ListedHotels(data, s.favorite.value.hotels.value))
  }

  /** `handleRemove`: on success drop the hotel from the shown list. It touches
      neither `loading` nor `favorite`, and does not clear an earlier error. */
  function HandleRemove(s: FavState, hotelId: string, reply: Reply<()>): FavState {
    match reply
    case Failed(m) => s.(error := Or(m, "Error removing favorite"))
    case Response(st, _, _) =>
      if !Ok(st) then s.(error := "Failed to remove favorite")
      else s.(hotels := WithoutHotel(s.hotels, hotelId))
  }

  /** What the page shows. */
  function View(s: FavState): View<Hotel> {
    ChooseView(s.loading, s.error, s.hotels)
  }

  // ---------------------------------------------------------------------------
  // Properties

  /** The first render shows the loading notice. */
  lemma InitialShowsLoading()
    ensures View(Initial).Loading?
  {
  }

  /** The favourites fetch always ends loading; on success it adopts the
      reply's document with no error, otherwise it keeps the document it had
      and shows "Failed to fetch favorites" for a non-ok status or the
      failure's message (else "Error loading favorites") when the request
      fails. The hotel list is never touched. */
  lemma FetchFavoritesOutcome(s: FavState, reply: Reply<FavoriteListBody>)
    ensures var t := FetchFavorites(s, reply);
      && !t.loading
      && t.hotels == s.hotels
      && (reply.Response? && Ok(reply.status) ==> t.favorite == reply.body.favorite && t.error == "")
      && (reply.Response? && !Ok(reply.status) ==> t.error == "Failed to fetch favorites")
      && (reply.Failed? ==> t.error == Or(reply.message, "Error loading favorites"))
      && (!(reply.Response? && Ok(reply.status)) ==> t.favorite == s.favorite && t.error != "")
  {
  }

  /** A failed favourites fetch on first render leaves no document, so the
      hotels effect does nothing and the page shows the error. */
  lemma FailedFetchStopsPage(reply: Reply<FavoriteListBody>, hotelsReply: Reply<seq<Hotel>>)
    requires !(reply.Response? && Ok(reply.status))
    ensures var t := FetchFavorites(Initial, reply);
      && t.favorite.None?
      && FetchHotels(t, hotelsReply) == t
      && View(t).ErrorText?
  {
  }

  /** The hotels effect runs iff the document has an entry; when it runs it
      ends loading, and on success the list shown is exactly the fetched
      hotels whose `_id` is a bare key of the document, in fetched order. */
  lemma FetchHotelsOutcome(s: FavState, reply: Reply<seq<Hotel>>)
    ensures !NeedsHotels(s) ==> FetchHotels(s, reply) == s
    ensures NeedsHotels(s) ==>
      var t := FetchHotels(s, reply);
      && !t.loading
      && t.favorite == s.favorite
      && (reply.Response? && Ok(reply.status) ==>
            && t.error == ""
            && t.hotels == ListedHotels(reply.body, s.favorite.value.hotels.value)
            && IsSubsequence(t.hotels, reply.body)
            && (forall h :: h in t.hotels <==> h in reply.body && FavId(h._id) in s.favorite.value.hotels.value))
      && (!(reply.Response? && Ok(reply.status)) ==> t.hotels == s.hotels && t.error != "")
  {
  }

  /** A successful remove hides exactly the hotels keyed `hotelId` and keeps
      the rest in order; the document, the loading flag and any earlier error
      stay as they were. A failed remove only sets an error. */
  lemma RemoveOutcome(s: FavState, hotelId: string, reply: Reply<()>)
    ensures var t := HandleRemove(s, hotelId, reply);
      && t.favorite == s.favorite && t.loading == s.loading
      && (reply.Response? && Ok(reply.status) ==>
            && t.error == s.error
            && t.hotels == WithoutHotel(s.hotels, hotelId)
            && IsSubsequence(t.hotels, s.hotels)
            && (forall h :: h in t.hotels <==> h in s.hotels && h._id != hotelId))
      && (!(reply.Response? && Ok(reply.status)) ==> t.hotels == s.hotels && t.error != "")
  {
  }

  /** Removing the same hotel twice leaves what removing it once left. */
  lemma RemoveTwiceIsRemoveOnce(s: FavState, hotelId: string, r1: Reply<()>, r2: Reply<()>)
    requires r1.Response? && Ok(r1.status) && r2.Response? && Ok(r2.status)
    ensures HandleRemove(HandleRemove(s, hotelId, r1), hotelId, r2) == HandleRemove(s, hotelId, r1)
  {
    WithoutHotelIdempotent(s.hotels, hotelId);
  }

  /** The whole happy path from first render: after both fetches succeed,
      with a document holding at least one entry, the page shows the list
      (or "No favorite hotels found." when it is empty), and every hotel
      shown is a fetched hotel that the document names by its `_id`. */
  lemma {:induction false} LoadedPageShowsFavorites(doc: FavoriteDoc, favReply: Reply<FavoriteListBody>,
                                                    hotelsReply: Reply<seq<Hotel>>)
    requires favReply.Response? && Ok(favReply.status) && favReply.body.favorite == Some(doc)
    requires doc.hotels.Some? && doc.hotels.value != []
    requires hotelsReply.Response? && Ok(hotelsReply.status)
    ensures var t := FetchHotels(FetchFavorites(Initial, favReply), hotelsReply);
      && (View(t).Items? || View(t).Empty?)
      && (View(t).Empty? <==> forall h :: h in hotelsReply.body ==> FavId(h._id) !in doc.hotels.value)
      && (forall h :: h in t.hotels ==> h in hotelsReply.body && IsFavorite(doc, h._id))
  {
    var t := FetchHotels(FetchFavorites(Initial, favReply), hotelsReply);
    assert t.hotels == ListedHotels(hotelsReply.body, doc.hotels.value);
    if t.hotels != [] {
      assert t.hotels[0] in t.hotels;
    }
  }

  // ---------------------------------------------------------------------------
  // How this page and the favourites screen of the main page compare

  /** The two pages list the same hotels when the document holds bare keys
      only and every hotel carries an `_id`. */
  lemma PagesAgreeOnBareKeys(hotels: seq<Hotel>, keys: seq<string>)
    requires forall h :: h in hotels ==> h._id != ""
    ensures ListedHotels(hotels, AsEntries(keys)) == FavoriteHotels(hotels, NormalizeFavIds(AsEntries(keys)))
  {
    NormalizeStoredIds(keys);
    var es := AsEntries(keys);
    forall h | h in hotels
      ensures ((h: Hotel) => FavId(h._id) in es)(h) == ((h: Hotel) => FavKey(h) in keys)(h)
    {
      StoredIdsAreFavorites(keys, h._id);
    }
    FilterCongruent(hotels, (h: Hotel) => FavId(h._id) in es, (h: Hotel) => FavKey(h) in keys);
  }

  /** They differ on a populated entry: the main page normalises it to its
      `_id` and lists the hotel, this page compares it with a bare key and
      does not. */
  lemma PagesDisagreeOnPopulatedEntry()
    ensures var h := Hotel("h1", "", "Inn", "Road 1", Num(1.0), Num(1.0), Flag(true), Num(1.0), "", "", "");
      var doc := [FavObject("h1", "")];
      && ListedHotels([h], doc) == []
      && FavoriteHotels([h], NormalizeFavIds(doc)) == [h]
  {
    var h := Hotel("h1", "", "Inn", "Road 1", Num(1.0), Num(1.0), Flag(true), Num(1.0), "", "", "");
    var doc := [FavObject("h1", "")];
    assert NormalizeFavIds(doc) == ["h1"];
    assert h in FavoriteHotels([h], NormalizeFavIds(doc));
  }
}

/** The standalone favourites page as a component object: its state hooks
    are fields and each effect or handler is a method proved to end in the
    state the matching step of FavoritesSpec describes. */
module FavoritesRoute {
  import opened JsRuntime
  import opened Api
  import opened AppLists
  import FavoritesSpec

  class FavoritesPage {
    var favorite: Option<FavoriteDoc>
    var hotels: seq<Hotel>
    var loading: bool
    var error: string

    function Snapshot(): FavoritesSpec.FavState
      reads this
    {
      FavoritesSpec.FavState(favorite, hotels, loading, error)
    }

    constructor ()
      ensures Snapshot() == FavoritesSpec.Initial
    {
      favorite := None;
      hotels := [];
      loading := true;
      error := "";
    }

    method FetchFavorites(reply: Reply<FavoriteListBody>)
      modifies this
      ensures Snapshot() == FavoritesSpec.FetchFavorites(old(Snapshot()), reply)
    {
      loading := true;
      error := "";
      match reply {
        case Failed(m) =>
          error := Or(m, "Error loading favorites");
        case Response(status, _, data) =>
          if !Ok(status) {
            error := "Failed to fetch favorites";
          } else {
            favorite := data.favorite;
          }
      }
      loading := false;
    }

    method FetchHotels(reply: Reply<seq<Hotel>>)
      modifies this
      ensures Snapshot() == FavoritesSpec.FetchHotels(old(Snapshot()), reply)
    {
      if favorite.None? || favorite.value.hotels.None? || |favorite.value.hotels.value| == 0 {
        return;
      }
      loading := true;
      error := "";
      match reply {
        case Failed(m) =>
          error := Or(m, "Error loading hotels");
        case Response(status, _, data) =>
          if !Ok(status) {
            error := "Failed to fetch hotels";
          } else {
            hotels := FavoritesSpec.ListedHotels(data, favorite.value.hotels.value);
          }
      }
      loading := false;
    }

    method HandleRemove(hotelId: string, reply: Reply<()>)
      modifies this
      ensures Snapshot() == FavoritesSpec.HandleRemove(old(Snapshot()), hotelId, reply)
    {
      match reply {
        case Failed(m) =>
          error := Or(m, "Error removing favorite");
        case Response(status, _, _) =>
          if !Ok(status) {
            error := "Failed to remove favorite";
          } else {
            hotels := WithoutHotel(hotels, hotelId);
          }
      }
    }
  }
}
