/**
 * Booking lifecycle handlers: the artist's accept/decline, the artist's
 * "mark completed", the client's confirmation and the admin meta-box save.
 * Each is a guard followed by post-meta writes on the booking record; none of
 * them looks at the booking's prior status.
 */
module Booking {
  import opened PhpMath
  import opened PostStore
  import opened Reliability

  const STATUS_KEY := "gigtune_booking_status"
  const ARTIST_ID_KEY := "gigtune_booking_artist_profile_id"
  const CLIENT_ID_KEY := "gigtune_booking_client_user_id"
  const REQUESTED_AT_KEY := "gigtune_booking_requested_at"
  const RESPONDED_AT_KEY := "gigtune_booking_responded_at"
  const ARTIST_COMPLETED_AT_KEY := "gigtune_booking_artist_completed_at"
  const CLIENT_CONFIRMED_AT_KEY := "gigtune_booking_client_confirmed_at"

  const REQUESTED := "requested"
  const ACCEPTED := "accepted"
  const DECLINED := "declined"
  const CANCELLED := "cancelled"
  const AWAITING := "awaiting_client_confirmation"
  const COMPLETED := "completed"
  const NO_SHOW := "no_show"

  /** The statuses the admin meta box accepts on save. */
  const ADMIN_STATUSES: seq<string> := [REQUESTED, ACCEPTED, DECLINED, CANCELLED, COMPLETED, NO_SHOW]

  /** The booking post exists and its stored artist profile id is the acting profile. */
  predicate OwnsBooking(posts: map<int, Post>, t: MetaTable, artist: int, booking: int)
  {
    IsPostOfType(posts, booking, BOOKING_TYPE) && IntOf(Lookup(t, booking, ARTIST_ID_KEY)) == artist
  }

  /** The booking's status and response time, then the matching reliability event on the artist. */
  function Respond(t: MetaTable, artist: int, booking: int, status: string, e: Event, now: string): MetaTable
  {
    EventWrites(Put(Put(t, booking, STATUS_KEY, Text(status)), booking, RESPONDED_AT_KEY, Text(now)), artist, e)
  }

  /**
   * The meta table after the accept/decline branch of the artist's booking
   * requests block, for the request parameters artistRaw (the acting profile),
   * bookingRaw, action and the current local time `now`.
   */
  function RespondWrites(posts: map<int, Post>, t: MetaTable, artistRaw: int, bookingRaw: int, action: string, now: string): MetaTable
  {
    var artist := Absint(artistRaw);
    var booking := Absint(bookingRaw);
    if artist <= 0 || !OwnsBooking(posts, t, artist, booking) then t
    else if action == "accept" then Respond(t, artist, booking, ACCEPTED, Accepted, now)
    else if action == "decline" then Respond(t, artist, booking, DECLINED, Declined, now)
    else t
  }

  method RespondToRequest(s: Store, artistRaw: int, bookingRaw: int, action: string, now: string)
    modifies s
    ensures s.meta == RespondWrites(old(s.posts), old(s.meta), artistRaw, bookingRaw, action, now)
    ensures s.posts == old(s.posts)
  {
    var artist := Absint(artistRaw);
    if artist <= 0 {
      return;
    }
    var booking := Absint(bookingRaw);
    if IsPostOfType(s.posts, booking, BOOKING_TYPE) {
      var bookingArtist := IntOf(Lookup(s.meta, booking, ARTIST_ID_KEY));
      if bookingArtist == artist {
        if action == "accept" {
          s.UpdateMeta(booking, STATUS_KEY, Text(ACCEPTED));
          s.UpdateMeta(booking, RESPONDED_AT_KEY, Text(now));
          ApplyReliabilityEvent(s, artist, Accepted);
        } else if action == "decline" {
          s.UpdateMeta(booking, STATUS_KEY, Text(DECLINED));
          s.UpdateMeta(booking, RESPONDED_AT_KEY, Text(now));
          ApplyReliabilityEvent(s, artist, Declined);
        }
      }
    }
  }

  /**
   * Accept/decline acts only for the owning artist and only for the two action
   * names; every other request leaves the store as it was.
   */
  lemma RespondRequiresOwnership(posts: map<int, Post>, t: MetaTable, artistRaw: int, bookingRaw: int, action: string, now: string)
    requires !OwnsBooking(posts, t, Absint(artistRaw), Absint(bookingRaw)) || (action != "accept" && action != "decline")
    ensures RespondWrites(posts, t, artistRaw, bookingRaw, action, now) == t
  {
  }

  /** The cells a successful accept or decline writes: the booking's status and response time, the artist's three reliability cells. */
  predicate WrittenByRespond(artist: int, booking: int, other: int, key: string)
  {
    || (other == booking && (key == STATUS_KEY || key == RESPONDED_AT_KEY))
    || (other == artist && (key == ACCEPTANCE_KEY || key == CANCELLATION_KEY || key == NO_SHOW_KEY))
  }

  /**
   * A successful accept (decline) sets the status to accepted (declined),
   * records the response time, and applies the matching reliability event to
   * the acting profile exactly once; every other cell keeps its value.
   */
  lemma {:induction false} RespondEffect(posts: map<int, Post>, t: MetaTable, artistRaw: int, bookingRaw: int, action: string, now: string)
    requires artistRaw != 0 && OwnsBooking(posts, t, Absint(artistRaw), Absint(bookingRaw))
    requires action == "accept" || action == "decline"
    ensures var r := RespondWrites(posts, t, artistRaw, bookingRaw, action, now);
            var e := if action == "accept" then Accepted else Declined;
            && Lookup(r, Absint(bookingRaw), STATUS_KEY) == Some(Text(if action == "accept" then ACCEPTED else DECLINED))
            && Lookup(r, Absint(bookingRaw), RESPONDED_AT_KEY) == Some(Text(now))
            && ReadMetrics(r, Absint(artistRaw)) == ReadMetrics(EventWrites(t, Absint(artistRaw), e), Absint(artistRaw))
            && forall other, key :: !WrittenByRespond(Absint(artistRaw), Absint(bookingRaw), other, key)
                 ==> Lookup(r, other, key) == Lookup(t, other, key)
  {
    var e := if action == "accept" then Accepted else Declined;
    var status := if action == "accept" then ACCEPTED else DECLINED;
    RespondCells(t, Absint(artistRaw), Absint(bookingRaw), status, e, now);
  }

  lemma {:induction false} RespondCells(t: MetaTable, artist: int, booking: int, status: string, e: Event, now: string)
    requires artist > 0
    ensures var r := Respond(t, artist, booking, status, e, now);
            && Lookup(r, booking, STATUS_KEY) == Some(Text(status))
            && Lookup(r, booking, RESPONDED_AT_KEY) == Some(Text(now))
            && ReadMetrics(r, artist) == ReadMetrics(EventWrites(t, artist, e), artist)
            && forall other, key :: !WrittenByRespond(artist, booking, other, key) ==> Lookup(r, other, key) == Lookup(t, other, key)
  {
    var t2 := Put(Put(t, booking, STATUS_KEY, Text(status)), booking, RESPONDED_AT_KEY, Text(now));
    forall other, key | !WrittenByRespond(artist, booking, other, key)
      ensures Lookup(Respond(t, artist, booking, status, e, now), other, key) == Lookup(t, other, key)
    {
      ReliabilityFrame(t2, artist, e, other, key);
    }
    assert ReadMetrics(t2, artist) == ReadMetrics(t, artist);
    ReliabilityFrame(t2, artist, e, booking, STATUS_KEY);
    ReliabilityFrame(t2, artist, e, booking, RESPONDED_AT_KEY);
    ReliabilityReadBack(t2, artist, e);
    ReliabilityReadBack(t, artist, e);
  }

  /**
   * No check on the prior status: whatever status the booking held, an accept
   * or decline by its owner produces the same store.
   */
  lemma {:induction false} RespondIgnoresPriorStatus(posts: map<int, Post>, t: MetaTable, artistRaw: int, bookingRaw: int, action: string, now: string, prior: Meta)
    ensures RespondWrites(posts, Put(t, Absint(bookingRaw), STATUS_KEY, prior), artistRaw, bookingRaw, action, now)
            == if artistRaw != 0 && OwnsBooking(posts, t, Absint(artistRaw), Absint(bookingRaw)) && (action == "accept" || action == "decline")
               then RespondWrites(posts, t, artistRaw, bookingRaw, action, now)
               else Put(t, Absint(bookingRaw), STATUS_KEY, prior)
  {
    var artist, booking := Absint(artistRaw), Absint(bookingRaw);
    var tp := Put(t, booking, STATUS_KEY, prior);
    assert OwnsBooking(posts, tp, artist, booking) == OwnsBooking(posts, t, artist, booking);
    if artist != 0 && OwnsBooking(posts, t, artist, booking) && (action == "accept" || action == "decline") {
      var status := if action == "accept" then ACCEPTED else DECLINED;
      PutOverwrite(t, booking, STATUS_KEY, prior, Text(status));
    }
  }

  /** The meta table after gigtune_handle_artist_mark_completed with local timestamp `now`. */
  function MarkCompletedWrites(t: MetaTable, bookingRaw: int, now: int): MetaTable
  {
    var booking := Absint(bookingRaw);
    if booking <= 0 then t
    else Put(Put(t, booking, STATUS_KEY, Text(AWAITING)), booking, ARTIST_COMPLETED_AT_KEY, Num(now as real))
  }

  method MarkCompleted(s: Store, bookingRaw: int, now: int)
    modifies s
    ensures s.meta == MarkCompletedWrites(old(s.meta), bookingRaw, now)
    ensures s.posts == old(s.posts)
  {
    var booking := Absint(bookingRaw);
    if booking <= 0 {
      return;
    }
    s.UpdateMeta(booking, STATUS_KEY, Text(AWAITING));
    s.UpdateMeta(booking, ARTIST_COMPLETED_AT_KEY, Num(now as real));
  }

  /** The meta table after gigtune_handle_client_confirm_completion with local timestamp `now`. */
  function ConfirmWrites(t: MetaTable, bookingRaw: int, now: int): MetaTable
  {
    var booking := Absint(bookingRaw);
    if booking <= 0 then t
    else Put(Put(t, booking, STATUS_KEY, Text(COMPLETED)), booking, CLIENT_CONFIRMED_AT_KEY, Num(now as real))
  }

  method ConfirmCompletion(s: Store, bookingRaw: int, now: int)
    modifies s
    ensures s.meta == ConfirmWrites(old(s.meta), bookingRaw, now)
    ensures s.posts == old(s.posts)
  {
    var booking := Absint(bookingRaw);
    if booking <= 0 {
      return;
    }
    s.UpdateMeta(booking, STATUS_KEY, Text(COMPLETED));
    s.UpdateMeta(booking, CLIENT_CONFIRMED_AT_KEY, Num(now as real));
  }

  /**
   * Mark-completed and confirm check neither the prior status, nor that the id
   * names a booking, nor who owns it: for any non-zero id they set the status
   * and their timestamp and touch no other cell.
   */
  lemma {:induction false} CompletionHandlersUnguarded(t: MetaTable, bookingRaw: int, now: int, other: int, key: string)
    requires bookingRaw != 0
    ensures Lookup(MarkCompletedWrites(t, bookingRaw, now), Absint(bookingRaw), STATUS_KEY) == Some(Text(AWAITING))
    ensures Lookup(MarkCompletedWrites(t, bookingRaw, now), Absint(bookingRaw), ARTIST_COMPLETED_AT_KEY) == Some(Num(now as real))
    ensures Lookup(ConfirmWrites(t, bookingRaw, now), Absint(bookingRaw), STATUS_KEY) == Some(Text(COMPLETED))
    ensures Lookup(ConfirmWrites(t, bookingRaw, now), Absint(bookingRaw), CLIENT_CONFIRMED_AT_KEY) == Some(Num(now as real))
    ensures other != Absint(bookingRaw) || (key != STATUS_KEY && key != ARTIST_COMPLETED_AT_KEY)
            ==> Lookup(MarkCompletedWrites(t, bookingRaw, now), other, key) == Lookup(t, other, key)
    ensures other != Absint(bookingRaw) || (key != STATUS_KEY && key != CLIENT_CONFIRMED_AT_KEY)
            ==> Lookup(ConfirmWrites(t, bookingRaw, now), other, key) == Lookup(t, other, key)
  {
  }

  /** The admin status whitelist: a listed status is kept, anything else becomes 'requested'. */
  function WhitelistStatus(status: string): (r: string)
    ensures r in ADMIN_STATUSES
    ensures status in ADMIN_STATUSES <==> r == status
    ensures status !in ADMIN_STATUSES ==> r == REQUESTED
  {
    if status in ADMIN_STATUSES then status else REQUESTED
  }

  /**
   * The meta table after gigtune_booking_details_metabox_save for post `id`,
   * for a request that passed the nonce, autosave and capability checks; a
   * None parameter is a form field that was not posted.
   */
  function AdminSaveWrites(posts: map<int, Post>, t: MetaTable, id: int, clientRaw: Option<int>, artistRaw: Option<int>,
                           statusRaw: Option<string>, requestedAt: Option<string>, respondedAt: Option<string>): MetaTable
  {
    if !IsPostOfType(posts, id, BOOKING_TYPE) then t
    else
      var client := if clientRaw.Some? then Absint(clientRaw.value) else 0;
      var artist := if artistRaw.Some? then Absint(artistRaw.value) else 0;
      var status := WhitelistStatus(if statusRaw.Some? then statusRaw.value else REQUESTED);
      var req := if requestedAt.Some? then requestedAt.value else "";
      var resp := if respondedAt.Some? then respondedAt.value else "";
      var t1 := Put(Put(Put(t, id, CLIENT_ID_KEY, Num(client as real)), id, ARTIST_ID_KEY, Num(artist as real)), id, STATUS_KEY, Text(status));
      var t2 := if req != "" then Put(t1, id, REQUESTED_AT_KEY, Text(req)) else t1;
      if resp != "" then Put(t2, id, RESPONDED_AT_KEY, Text(resp)) else t2
  }

  method AdminSaveBooking(s: Store, id: int, clientRaw: Option<int>, artistRaw: Option<int>,
                          statusRaw: Option<string>, requestedAt: Option<string>, respondedAt: Option<string>)
    modifies s
    ensures s.meta == AdminSaveWrites(old(s.posts), old(s.meta), id, clientRaw, artistRaw, statusRaw, requestedAt, respondedAt)
    ensures s.posts == old(s.posts)
  {
    if !IsPostOfType(s.posts, id, BOOKING_TYPE) {
      return;
    }
    var client := if clientRaw.Some? then Absint(clientRaw.value) else 0;
    var artist := if artistRaw.Some? then Absint(artistRaw.value) else 0;
    var status := if statusRaw.Some? then statusRaw.value else REQUESTED;
    if status !in ADMIN_STATUSES {
      status := REQUESTED;
    }
    var req := if requestedAt.Some? then requestedAt.value else "";
    var resp := if respondedAt.Some? then respondedAt.value else "";
    s.UpdateMeta(id, CLIENT_ID_KEY, Num(client as real));
    s.UpdateMeta(id, ARTIST_ID_KEY, Num(artist as real));
    s.UpdateMeta(id, STATUS_KEY, Text(status));
    if req != "" {
      s.UpdateMeta(id, REQUESTED_AT_KEY, Text(req));
    }
    if resp != "" {
      s.UpdateMeta(id, RESPONDED_AT_KEY, Text(resp));
    }
  }

  /**
   * The whitelist omits 'awaiting_client_confirmation' although the meta box
   * offers it: saving a booking in that state stores 'requested'. A listed
   * status is stored as chosen.
   */
  lemma {:induction false} AdminSaveStatus(posts: map<int, Post>, t: MetaTable, id: int, clientRaw: Option<int>, artistRaw: Option<int>,
                                           status: string, requestedAt: Option<string>, respondedAt: Option<string>)
    requires IsPostOfType(posts, id, BOOKING_TYPE)
    ensures var r := AdminSaveWrites(posts, t, id, clientRaw, artistRaw, Some(status), requestedAt, respondedAt);
            && (status == AWAITING ==> Lookup(r, id, STATUS_KEY) == Some(Text(REQUESTED)))
            && (status in ADMIN_STATUSES ==> Lookup(r, id, STATUS_KEY) == Some(Text(status)))
  {
    var client := if clientRaw.Some? then Absint(clientRaw.value) else 0;
    var artist := if artistRaw.Some? then Absint(artistRaw.value) else 0;
    var kept := WhitelistStatus(status);
    var t1 := Put(Put(Put(t, id, CLIENT_ID_KEY, Num(client as real)), id, ARTIST_ID_KEY, Num(artist as real)), id, STATUS_KEY, Text(kept));
    assert Lookup(t1, id, STATUS_KEY) == Some(Text(kept));
    assert STATUS_KEY != REQUESTED_AT_KEY && STATUS_KEY != RESPONDED_AT_KEY;
    assert Lookup(AdminSaveWrites(posts, t, id, clientRaw, artistRaw, Some(status), requestedAt, respondedAt), id, STATUS_KEY) == Some(Text(kept));
    assert AWAITING !in ADMIN_STATUSES;
  }
}
