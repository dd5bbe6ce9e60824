/** The in-memory booking store (server/db-vercel.js): a list of bookings,
    a list of blocked dates and the next booking id, all changed in place. */
module MemoryDb {

  import opened Wrappers
  import opened Calendar
  import opened StringLists

  datatype Status = Pending | Paid

  datatype Booking = Booking(
    id: int,
    dateArrivee: DateText,
    dateDepart: DateText,
    pack: string,
    nom: string,
    email: string,
    telephone: Option<string>,
    message: Option<string>,
    amountCents: int,
    stripeSessionId: Option<string>,
    status: Status,
    createdAt: int)

  /** What createBooking is given; "" stands for a missing or empty field. */
  datatype BookingData = BookingData(
    dateArrivee: DateText,
    dateDepart: DateText,
    pack: string,
    nom: string,
    email: string,
    telephone: string,
    message: string,
    amountCents: int)

  /** The fields getAllBookings lists: all but the message and the payment
      session. */
  datatype BookingSummary = BookingSummary(
    id: int,
    dateArrivee: DateText,
    dateDepart: DateText,
    pack: string,
    nom: string,
    email: string,
    telephone: Option<string>,
    amountCents: int,
    status: Status,
    createdAt: int)

  /** `value || null` for a text field. */
  function OrNull(value: string): (r: Option<string>)
    ensures r.None? <==> value == ""
    ensures r.Some? ==> r.value == value
  {
    if value == "" then None else Some(value)
  }

  /** The record createBooking appends: pending, not yet paid, with the pack
      'aucun' when none is given. The creation time is the clock's, given. */
  function NewBooking(id: int, data: BookingData, now: int): (b: Booking)
    ensures b.id == id && b.status == Pending && b.stripeSessionId == None
    ensures b.pack == if data.pack == "" then "aucun" else data.pack
    ensures b.dateArrivee == data.dateArrivee && b.dateDepart == data.dateDepart
    ensures b.nom == data.nom && b.email == data.email && b.amountCents == data.amountCents
    ensures b.telephone == OrNull(data.telephone) && b.message == OrNull(data.message)
    ensures b.createdAt == now
  {
    Booking(id, data.dateArrivee, data.dateDepart,
            if data.pack == "" then "aucun" else data.pack,
            data.nom, data.email, OrNull(data.telephone), OrNull(data.message),
            data.amountCents, None, Pending, now)
  }

  function Summary(b: Booking): BookingSummary {
    BookingSummary(b.id, b.dateArrivee, b.dateDepart, b.pack, b.nom, b.email,
                   b.telephone, b.amountCents, b.status, b.createdAt)
  }

  /** Ids strictly increase along the list. */
  predicate IdsIncreasing(bs: seq<Booking>) {
    forall i, j :: 0 <= i < j < |bs| ==> bs[i].id < bs[j].id
  }

  /** `bookings.findIndex(x => x.id === id)`, None for -1. */
  function IndexOfId(bs: seq<Booking>, id: int): (r: Option<nat>)
    ensures r.None? <==> forall k :: 0 <= k < |bs| ==> bs[k].id != id
    ensures r.Some? ==> r.value < |bs| && bs[r.value].id == id
    ensures r.Some? ==> forall k :: 0 <= k < r.value ==> bs[k].id != id
  {
    if bs == [] then None
    else if bs[0].id == id then Some(0)
    else
      match IndexOfId(bs[1..], id)
      case None => None
      case Some(j) => Some(j + 1)
  }

  /** The lookup depends on the ids alone. */
  lemma {:induction false} IndexOfIdSameIds(bs: seq<Booking>, cs: seq<Booking>, id: int)
    requires |bs| == |cs|
    requires forall k :: 0 <= k < |bs| ==> bs[k].id == cs[k].id
    ensures IndexOfId(bs, id) == IndexOfId(cs, id)
  {
    if bs != [] && bs[0].id != id {
      IndexOfIdSameIds(bs[1..], cs[1..], id);
    }
  }

  /** An id no earlier booking has is found at the end. */
  lemma {:induction false} IndexOfIdAppend(bs: seq<Booking>, b: Booking)
    requires forall k :: 0 <= k < |bs| ==> bs[k].id != b.id
    ensures IndexOfId(bs + [b], b.id) == Some(|bs|)
  {
    if bs != [] {
      assert (bs + [b])[1..] == bs[1..] + [b];
      IndexOfIdAppend(bs[1..], b);
    }
  }

  /** The days [arrivee, depart) of one stay, as the keys getBookedDates adds. */
  function RangeKeys(start: int, end: int): set<string> {
    set d | start <= d < end :: DayKey(d)
  }

  /** A booking whose nights are unavailable: pending or paid. This store
      knows no other status, so every booking it holds occupies its nights. */
  predicate Occupies(b: Booking) {
    b.status == Pending || b.status == Paid
  }

  /** Day d is one of the nights [arrivee, depart) booking b occupies. */
  predicate OccupiesDay(b: Booking, d: int) {
    && Occupies(b)
    && b.dateArrivee.day.Some? && b.dateDepart.day.Some?
    && b.dateArrivee.day.value <= d < b.dateDepart.day.value
  }

  /** The keys of the nights one booking occupies; a date that does not
      parse contributes none. */
  function BookingKeys(b: Booking): set<string> {
    if Occupies(b) && b.dateArrivee.day.Some? && b.dateDepart.day.Some?
    then RangeKeys(b.dateArrivee.day.value, b.dateDepart.day.value)
    else {}
  }

  /** The keys of every night some booking of the list occupies. */
  function BookedKeys(bs: seq<Booking>): set<string> {
    if bs == [] then {} else BookedKeys(bs[..|bs| - 1]) + BookingKeys(bs[|bs| - 1])
  }

  /** Some booking of the list occupies a night with this key. */
  ghost predicate IsKeyOfBookedNight(bs: seq<Booking>, key: string) {
    exists i, d :: 0 <= i < |bs| && OccupiesDay(bs[i], d) && DayKey(d) == key
  }

  lemma BookingKeysMembers(b: Booking, key: string)
    ensures key in BookingKeys(b) <==> exists d :: OccupiesDay(b, d) && DayKey(d) == key
  {
    if Occupies(b) && b.dateArrivee.day.Some? && b.dateDepart.day.Some? {
      var start, end := b.dateArrivee.day.value, b.dateDepart.day.value;
      if key in BookingKeys(b) {
        var d :| start <= d < end && DayKey(d) == key;
        assert OccupiesDay(b, d);
      }
    }
  }

  /** Every booked key is the key of a night some booking occupies. */
  lemma {:induction false} BookedKeysSound(bs: seq<Booking>, key: string)
    requires key in BookedKeys(bs)
    ensures IsKeyOfBookedNight(bs, key)
  {
    var init, last := bs[..|bs| - 1], bs[|bs| - 1];
    BookingKeysMembers(last, key);
    if key in BookingKeys(last) {
      var d :| OccupiesDay(last, d) && DayKey(d) == key;
      assert 0 <= |bs| - 1 < |bs| && OccupiesDay(bs[|bs| - 1], d);
    } else {
      BookedKeysSound(init, key);
      var i, d :| 0 <= i < |init| && OccupiesDay(init[i], d) && DayKey(d) == key;
      assert bs[i] == init[i];
    }
  }

  /** The key of every night some booking occupies is booked. */
  lemma {:induction false} BookedKeysComplete(bs: seq<Booking>, key: string)
    requires IsKeyOfBookedNight(bs, key)
    ensures key in BookedKeys(bs)
  {
    var init, last := bs[..|bs| - 1], bs[|bs| - 1];
    var i, d :| 0 <= i < |bs| && OccupiesDay(bs[i], d) && DayKey(d) == key;
    if i == |bs| - 1 {
      BookingKeysMembers(last, key);
    } else {
      assert init[i] == bs[i];
      assert IsKeyOfBookedNight(init, key);
      BookedKeysComplete(init, key);
    }
  }

  /** A day is unavailable exactly when it lies in [arrivee, depart) of a
      pending or paid booking. */
  lemma BookedKeysMembers(bs: seq<Booking>, key: string)
    ensures key in BookedKeys(bs) <==> IsKeyOfBookedNight(bs, key)
  {
    if key in BookedKeys(bs) {
      BookedKeysSound(bs, key);
    }
    if IsKeyOfBookedNight(bs, key) {
      BookedKeysComplete(bs, key);
    }
  }

  /** Sorted by creation time, latest first. */
  predicate NewestFirst(s: seq<BookingSummary>) {
    forall i, j :: 0 <= i < j < |s| ==> s[i].createdAt >= s[j].createdAt
  }

  function InsertNewestFirst(x: BookingSummary, s: seq<BookingSummary>): (r: seq<BookingSummary>)
    requires NewestFirst(s)
    ensures NewestFirst(r)
    ensures multiset(r) == multiset(s) + multiset{x}
    ensures r[0] == x || (s != [] && r[0] == s[0])
  {
    if s == [] || x.createdAt >= s[0].createdAt then
      NewestFirstCons(x, s);
      [x] + s
    else
      assert s == [s[0]] + s[1..];
      var tail := InsertNewestFirst(x, s[1..]);
      NewestFirstCons(s[0], tail);
      [s[0]] + tail
  }

  /** A summary no older than the head of a newest-first list can go in
      front of it. */
  lemma NewestFirstCons(h: BookingSummary, s: seq<BookingSummary>)
    requires NewestFirst(s)
    requires s == [] || h.createdAt >= s[0].createdAt
    ensures NewestFirst([h] + s)
  {
    var r := [h] + s;
    forall i, j | 0 <= i < j < |r| ensures r[i].createdAt >= r[j].createdAt {
      if i == 0 {
        assert r[j] == s[j - 1];
      } else {
        assert r[i] == s[i - 1] && r[j] == s[j - 1];
      }
    }
  }

  /** `.sort((a, b) => new Date(b.created_at) - new Date(a.created_at))`. */
  function SortNewestFirst(s: seq<BookingSummary>): (r: seq<BookingSummary>)
    ensures NewestFirst(r)
    ensures multiset(r) == multiset(s)
  {
    if s == [] then []
    else
      assert s == [s[0]] + s[1..];
      InsertNewestFirst(s[0], SortNewestFirst(s[1..]))
  }

  function Summaries(bs: seq<Booking>): (r: seq<BookingSummary>)
    ensures |r| == |bs|
    ensures forall i :: 0 <= i < |bs| ==> r[i] == Summary(bs[i])
  {
    if bs == [] then [] else [Summary(bs[0])] + Summaries(bs[1..])
  }

  /** The inner loop of getBookedDates: walks the nights [start, end) one day
      at a time and appends the key `keyOf` gives each night unless it is
      listed already. The loop does not depend on how a day is written, so
      the day formatting is a parameter here. */
  method AddNights(dates: seq<string>, start: int, end: int, keyOf: int -> string) returns (r: seq<string>)
    requires NoDuplicates(dates)
    ensures NoDuplicates(r)
    ensures forall key :: key in r <==> key in dates || exists d :: start <= d < end && keyOf(d) == key
    ensures |dates| <= |r| && r[..|dates|] == dates
  {
    r := dates;
    var d := start;
    while d < end
      invariant start <= d || end <= start
      invariant end <= start ==> d == start
      invariant start <= end ==> d <= end
      invariant NoDuplicates(r)
      invariant |dates| <= |r| && r[..|dates|] == dates
      invariant forall key :: key in r <==> key in dates || exists e :: start <= e < d && keyOf(e) == key
      decreases end - d
    {
      var key := keyOf(d);
      if key !in r {
        r := r + [key];
      }
      d := d + 1;
    }
  }

  class Store {
    var bookings: seq<Booking>
    var blockedDates: seq<string>
    var nextId: int

    /** Ids are positive, strictly increasing and below the next id; the
        blocked dates are distinct YYYY-MM-DD keys. */
    ghost predicate Valid()
      reads this
    {
      && nextId >= 1
      && IdsIncreasing(bookings)
      && (forall i :: 0 <= i < |bookings| ==> 1 <= bookings[i].id < nextId)
      && NoDuplicates(blockedDates)
      && (forall i :: 0 <= i < |blockedDates| ==> IsDateFormat(blockedDates[i]))
    }

    /** The module's initial state. */
    constructor ()
      ensures Valid()
      ensures bookings == [] && blockedDates == [] && nextId == 1
    {
      bookings, blockedDates, nextId := [], [], 1;
    }

    /** getBookedDates: each night of each pending or paid booking, once,
        in the order first met. */
    method GetBookedDates() returns (dates: seq<string>)
      ensures NoDuplicates(dates)
      ensures forall key :: key in dates <==> key in BookedKeys(bookings)
    {
      dates := [];
      var i := 0;
      while i < |bookings|
        invariant 0 <= i <= |bookings|
        invariant NoDuplicates(dates)
        invariant forall key :: key in dates <==> key in BookedKeys(bookings[..i])
      {
        var row := bookings[i];
        assert bookings[..i + 1][..i] == bookings[..i] && bookings[..i + 1][i] == row;
        if (row.status == Paid || row.status == Pending) && row.dateArrivee.day.Some? && row.dateDepart.day.Some? {
          var start, end := row.dateArrivee.day.value, row.dateDepart.day.value;
          dates := AddNights(dates, start, end, DayKey);
        }
        i := i + 1;
      }
      assert bookings[..i] == bookings;
    }

    /** createBooking: the next id, then a pending booking appended at the end. */
    method CreateBooking(data: BookingData, now: int) returns (id: int)
      requires Valid()
      modifies this
      ensures Valid()
      ensures id == old(nextId) && nextId == old(nextId) + 1
      ensures bookings == old(bookings) + [NewBooking(id, data, now)]
      ensures blockedDates == old(blockedDates)
      ensures GetBookingById(id) == Some(NewBooking(id, data, now))
    {
      id := nextId;
      nextId := nextId + 1;
      IndexOfIdAppend(bookings, NewBooking(id, data, now));
      bookings := bookings + [NewBooking(id, data, now)];
    }

    /** setBookingPaid: the booking with that id becomes paid with that
        session; an unknown id changes nothing. */
    method SetBookingPaid(bookingId: int, stripeSessionId: string)
      requires Valid()
      modifies this
      ensures Valid()
      ensures match IndexOfId(old(bookings), bookingId)
        case None => bookings == old(bookings)
        case Some(i) => bookings == old(bookings)[i := old(bookings)[i].(status := Paid, stripeSessionId := Some(stripeSessionId))]
      ensures match old(GetBookingById(bookingId))
        case None => GetBookingById(bookingId) == None
        case Some(b) => GetBookingById(bookingId) == Some(b.(status := Paid, stripeSessionId := Some(stripeSessionId)))
      ensures blockedDates == old(blockedDates) && nextId == old(nextId)
    {
      match IndexOfId(bookings, bookingId)
      case None =>
      case Some(i) =>
        var updated := bookings[i := bookings[i].(status := Paid, stripeSessionId := Some(stripeSessionId))];
        IndexOfIdSameIds(bookings, updated, bookingId);
        bookings := updated;
    }

    /** getBookingById */
    function GetBookingById(id: int): (r: Option<Booking>)
      reads this
      ensures r.Some? ==> r.value in bookings && r.value.id == id
      ensures r.None? <==> forall k :: 0 <= k < |bookings| ==> bookings[k].id != id
    {
      match IndexOfId(bookings, id)
      case None => None
      case Some(i) => Some(bookings[i])
    }

    /** getBlockedDates: a sorted copy; the store keeps its own order. */
    function GetBlockedDates(): (r: seq<string>)
      reads this
      ensures Sorted(r)
      ensures multiset(r) == multiset(blockedDates)
    {
      Sort(blockedDates)
    }

    /** addBlockedDate: the first ten characters, if they are a YYYY-MM-DD
        key not yet blocked, are appended. */
    method AddBlockedDate(date: string) returns (added: bool)
      requires Valid()
      modifies this
      ensures Valid()
      ensures added <==> IsDateFormat(Take10(date)) && Take10(date) !in old(blockedDates)
      ensures blockedDates == if added then old(blockedDates) + [Take10(date)] else old(blockedDates)
      ensures bookings == old(bookings) && nextId == old(nextId)
    {
      var d := Take10(date);
      if !IsDateFormat(d) {
        return false;
      }
      if d in blockedDates {
        return false;
      }
      blockedDates := blockedDates + [d];
      added := true;
    }

    /** removeBlockedDate: the first occurrence of the first ten characters
        is removed; no format check. */
    method RemoveBlockedDate(date: string) returns (removed: bool)
      requires Valid()
      modifies this
      ensures Valid()
      ensures removed <==> Take10(date) in old(blockedDates)
      ensures removed ==> blockedDates == RemoveAt(old(blockedDates), IndexOf(old(blockedDates), Take10(date)))
      ensures !removed ==> blockedDates == old(blockedDates)
      ensures removed ==> forall x :: x in blockedDates <==> x in old(blockedDates) && x != Take10(date)
      ensures bookings == old(bookings) && nextId == old(nextId)
    {
      var d := Take10(date);
      var i := IndexOf(blockedDates, d);
      if i == -1 {
        return false;
      }
      RemoveFirstOccurrence(blockedDates, d);
      blockedDates := RemoveAt(blockedDates, i);
      removed := true;
    }

    /** getAllBookings: every booking without its message and payment
        session, latest creation first. */
    function GetAllBookings(): (r: seq<BookingSummary>)
      reads this
      ensures NewestFirst(r)
      ensures multiset(r) == multiset(Summaries(bookings))
    {
      SortNewestFirst(Summaries(bookings))
    }

    /** deleteBooking: the booking with that id is removed, the others stay
        in order; the next id is not touched, so no id is handed out twice. */
    method DeleteBooking(id: int) returns (deleted: bool)
      requires Valid()
      modifies this
      ensures Valid()
      ensures deleted <==> exists k :: 0 <= k < |old(bookings)| && old(bookings)[k].id == id
      ensures match IndexOfId(old(bookings), id)
        case None => bookings == old(bookings)
        case Some(i) => bookings == RemoveAt(old(bookings), i)
      ensures blockedDates == old(blockedDates) && nextId == old(nextId)
    {
      match IndexOfId(bookings, id)
      case None =>
        deleted := false;
      case Some(i) =>
        bookings := RemoveAt(bookings, i);
        deleted := true;
    }
  }
}
