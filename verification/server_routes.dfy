/** The decisions the HTTP routes of server.js take around the pricing and the
    two stores: the admin gate, the list of unavailable days, the admin
    edits of blocked dates and bookings, the creation of a reservation and
    the confirmation of a paid checkout session. Each route is a method on
    the stores it touches and answers with the HTTP status it sends. The
    payment provider's answers (session created, session retrieved,
    signature valid) are parameters. */
module Server {

  import opened Wrappers
  import opened Calendar
  import opened StringLists
  import Pricing
  import MemoryDb
  import RedisLists

  // ---- Admin gate ----------------------------------------------------------

  /** Where an admin password may be given; "" stands for absent. */
  datatype Credentials = Credentials(header: string, body: string, query: string)

  /** `header || body || query`: the first one given. */
  function SuppliedToken(c: Credentials): (token: string)
    ensures c.header != "" ==> token == c.header
    ensures c.header == "" && c.body != "" ==> token == c.body
    ensures c.header == "" && c.body == "" ==> token == c.query
  {
    if c.header != "" then c.header else if c.body != "" then c.body else c.query
  }

  datatype Gate = Pass | Refuse(status: int)

  /** requireAdmin: 503 when no admin password is configured, 401 when the
      supplied token is not it, otherwise the route runs. */
  function RequireAdmin(password: string, c: Credentials): (g: Gate)
    ensures g == Refuse(503) <==> password == ""
    ensures g == Refuse(401) <==> password != "" && SuppliedToken(c) != password
    ensures g == Pass <==> password != "" && SuppliedToken(c) == password
  {
    if password == "" then Refuse(503)
    else if SuppliedToken(c) != password then Refuse(401)
    else Pass
  }

  /** Passing the gate takes the password itself in one of the three
      places; an empty configuration lets nobody in. */
  lemma AdminPassNeedsPassword(password: string, c: Credentials)
    requires RequireAdmin(password, c) == Pass
    ensures password != ""
    ensures password == c.header || password == c.body || password == c.query
  {
  }

  /** A wrong header password is refused even when the body carries the
      right one: the header is looked at first. */
  lemma WrongHeaderWins(password: string, c: Credentials)
    requires password != "" && c.header != "" && c.header != password
    ensures RequireAdmin(password, c) == Refuse(401)
  {
  }

  // ---- Unavailable days ----------------------------------------------------

  /** The blocked dates the server reads: the Redis list when a client is
      configured, otherwise the in-memory store's sorted copy. */
  function BlockedSource(db: MemoryDb.Store, store: RedisLists.ListStore): (r: seq<string>)
    reads db, store
    ensures store.UseRedis() ==> r == store.GetBlockedDates()
    ensures !store.UseRedis() ==> multiset(r) == multiset(db.blockedDates)
  {
    if store.UseRedis() then store.GetBlockedDates() else db.GetBlockedDates()
  }

  /** GET /api/booked-dates: the nights of pending and paid bookings and the
      blocked dates, each once. */
  method BookedDates(db: MemoryDb.Store, store: RedisLists.ListStore) returns (dates: seq<string>)
    ensures NoDuplicates(dates)
    ensures forall key :: key in dates <==> key in MemoryDb.BookedKeys(db.bookings) || key in BlockedSource(db, store)
  {
    var fromBookings := db.GetBookedDates();
    var fromBlocked := BlockedSource(db, store);
    dates := Dedup(fromBookings + fromBlocked);
  }

  // ---- Admin: blocked dates ------------------------------------------------

  /** POST /api/admin/blocked-dates: 400 unless the first ten characters are
      a YYYY-MM-DD key, 409 when that key is already blocked, 200 once it is
      added to the store in use. */
  method AddBlockedDate(db: MemoryDb.Store, store: RedisLists.ListStore, password: string, c: Credentials, date: string)
    returns (status: int)
    requires db.Valid()
    modifies db, store
    ensures db.Valid()
    ensures db.bookings == old(db.bookings) && db.nextId == old(db.nextId)
    ensures RequireAdmin(password, c).Refuse? ==>
      status == RequireAdmin(password, c).status &&
      db.blockedDates == old(db.blockedDates) && store.blocked == old(store.blocked)
    ensures RequireAdmin(password, c) == Pass ==>
      && (status == 400 <==> !IsDateFormat(Take10(date)))
      && (status == 409 <==> IsDateFormat(Take10(date)) && Take10(date) in old(BlockedSource(db, store)))
      && (status == 200 <==> IsDateFormat(Take10(date)) && Take10(date) !in old(BlockedSource(db, store)))
    ensures status == 200 ==> Take10(date) in BlockedSource(db, store)
    ensures status == 200 ==>
      multiset(BlockedSource(db, store)) == multiset(old(BlockedSource(db, store))) + multiset{Take10(date)}
    ensures status == 200 && store.UseRedis() ==>
      store.blocked == RedisLists.Array(Sort(old(store.GetBlockedDates()) + [Take10(date)]))
    ensures status == 200 && !store.UseRedis() ==> db.blockedDates == old(db.blockedDates) + [Take10(date)]
    ensures status != 200 ==> db.blockedDates == old(db.blockedDates) && store.blocked == old(store.blocked)
    ensures store.UseRedis() ==> db.blockedDates == old(db.blockedDates)
    ensures !store.UseRedis() ==> store.blocked == old(store.blocked)
    ensures store.cancelled == old(store.cancelled)
  {
    var gate := RequireAdmin(password, c);
    if gate.Refuse? {
      return gate.status;
    }
    var normalized := Take10(date);
    if !IsDateFormat(normalized) {
      return 400;
    }
    Take10Idempotent(date);
    var added: bool;
    if store.UseRedis() {
      added := store.AddBlockedDate(normalized);
    } else {
      ghost var before := db.blockedDates;
      assert normalized in before <==> normalized in multiset(db.GetBlockedDates());
      added := db.AddBlockedDate(normalized);
      assert added ==> multiset(db.blockedDates) == multiset(before) + multiset{normalized};
      assert added ==> normalized in multiset(db.GetBlockedDates());
    }
    if !added {
      return 409;
    }
    status := 200;
  }

  /** DELETE /api/admin/blocked-dates/:date: 400 unless the first ten
      characters are a YYYY-MM-DD key, 404 when it is not blocked, 200 once
      its first occurrence is removed from the store in use. */
  method RemoveBlockedDate(db: MemoryDb.Store, store: RedisLists.ListStore, password: string, c: Credentials, date: string)
    returns (status: int)
    requires db.Valid()
    modifies db, store
    ensures db.Valid()
    ensures db.bookings == old(db.bookings) && db.nextId == old(db.nextId)
    ensures RequireAdmin(password, c).Refuse? ==>
      status == RequireAdmin(password, c).status &&
      db.blockedDates == old(db.blockedDates) && store.blocked == old(store.blocked)
    ensures RequireAdmin(password, c) == Pass ==>
      && (status == 400 <==> !IsDateFormat(Take10(date)))
      && (status == 404 <==> IsDateFormat(Take10(date)) && Take10(date) !in old(BlockedSource(db, store)))
      && (status == 200 <==> IsDateFormat(Take10(date)) && Take10(date) in old(BlockedSource(db, store)))
    ensures status == 200 ==>
      multiset(BlockedSource(db, store)) == multiset(old(BlockedSource(db, store))) - multiset{Take10(date)}
    ensures status == 200 && store.UseRedis() ==>
      && Take10(date) in old(store.GetBlockedDates())
      && store.blocked == RedisLists.Array(RemoveAt(old(store.GetBlockedDates()), IndexOf(old(store.GetBlockedDates()), Take10(date))))
    ensures status == 200 && !store.UseRedis() ==>
      && Take10(date) in old(db.blockedDates)
      && db.blockedDates == RemoveAt(old(db.blockedDates), IndexOf(old(db.blockedDates), Take10(date)))
    ensures status != 200 ==> db.blockedDates == old(db.blockedDates) && store.blocked == old(store.blocked)
    ensures store.UseRedis() ==> db.blockedDates == old(db.blockedDates)
    ensures !store.UseRedis() ==> store.blocked == old(store.blocked)
    ensures store.cancelled == old(store.cancelled)
  {
    var gate := RequireAdmin(password, c);
    if gate.Refuse? {
      return gate.status;
    }
    var normalized := Take10(date);
    if !IsDateFormat(normalized) {
      return 400;
    }
    Take10Idempotent(date);
    var removed: bool;
    if store.UseRedis() {
      removed := store.RemoveBlockedDate(normalized);
    } else {
      ghost var before := db.blockedDates;
      assert normalized in before <==> normalized in multiset(db.GetBlockedDates());
      removed := db.RemoveBlockedDate(normalized);
      if removed {
        MultisetRemoveAt(before, IndexOf(before, normalized));
      }
    }
    if !removed {
      return 404;
    }
    status := 200;
  }

  // ---- Admin: bookings -----------------------------------------------------

  /** What `Number(text)` gives: NaN, a finite number, or an infinity
      ("Infinity", "-Infinity" or a literal too large for a double). */
  datatype NumberValue = NaN | Finite(value: real) | Infinite(positive: bool)

  /** `!n`: NaN and zero are the only falsy numbers. */
  predicate IsFalsy(n: NumberValue) {
    n.NaN? || n == Finite(0.0)
  }

  /** `n === id` for an integer id. */
  predicate NamesId(n: NumberValue, id: int) {
    n.Finite? && n.value == id as real
  }

  /** The booking id a number stands for: only an integral number can equal
      an id. */
  function AsBookingId(n: NumberValue): (r: Option<int>)
    ensures r.Some? <==> n.Finite? && n.value == n.value.Floor as real
    ensures r.Some? ==> r.value as real == n.value
    ensures forall id :: NamesId(n, id) <==> r == Some(id)
  {
    if n.Finite? && n.value == n.value.Floor as real then Some(n.value.Floor) else None
  }

  /** DELETE /api/admin/bookings/:id: 400 when the id is NaN or 0, 404 when
      no booking has it, 200 once that booking is removed. */
  method DeleteBooking(db: MemoryDb.Store, password: string, c: Credentials, id: NumberValue)
    returns (status: int)
    requires db.Valid()
    modifies db
    ensures db.Valid()
    ensures db.blockedDates == old(db.blockedDates) && db.nextId == old(db.nextId)
    ensures RequireAdmin(password, c).Refuse? ==> status == RequireAdmin(password, c).status
    ensures RequireAdmin(password, c) == Pass ==>
      && (status == 400 <==> IsFalsy(id))
      && (status == 404 <==> !IsFalsy(id) &&
                             forall k :: 0 <= k < |old(db.bookings)| ==> !NamesId(id, old(db.bookings)[k].id))
      && (status == 200 <==> !IsFalsy(id) &&
                             exists k :: 0 <= k < |old(db.bookings)| && NamesId(id, old(db.bookings)[k].id))
    ensures status == 200 ==>
      exists k :: 0 <= k < |old(db.bookings)| && NamesId(id, old(db.bookings)[k].id) &&
                  db.bookings == RemoveAt(old(db.bookings), k)
    ensures status != 200 ==> db.bookings == old(db.bookings)
  {
    var gate := RequireAdmin(password, c);
    if gate.Refuse? {
      return gate.status;
    }
    if IsFalsy(id) {
      return 400;
    }
    match AsBookingId(id)
    case None =>
      return 404;
    case Some(n) =>
      ghost var before := db.bookings;
      var deleted := db.DeleteBooking(n);
      if !deleted {
        return 404;
      }
      var i := MemoryDb.IndexOfId(before, n).value;
      assert NamesId(id, before[i].id) && db.bookings == RemoveAt(before, i);
      status := 200;
  }

  // ---- Creating a reservation ----------------------------------------------

  /** `keys.join(',')`. */
  function JoinComma(keys: seq<string>): (r: string)
    ensures keys == [] ==> r == ""
    ensures |keys| == 1 ==> r == keys[0]
    ensures |keys| >= 2 ==> ',' in r
  {
    if keys == [] then ""
    else if |keys| == 1 then keys[0]
    else keys[0] + "," + JoinComma(keys[1..])
  }

  /** `s.split(',')`: the pieces between commas, always at least one. */
  function SplitComma(s: string): (parts: seq<string>)
    ensures |parts| >= 1
    ensures ',' !in s ==> parts == [s]
  {
    if s == [] then [""]
    else
      var rest := SplitComma(s[1..]);
      assert s == [s[0]] + s[1..];
      if s[0] == ',' then [""] + rest
      else [[s[0]] + rest[0]] + rest[1..]
  }

  /** Text without a comma in front of more text joins the first piece. */
  lemma {:induction false} SplitCommaPrefix(a: string, t: string)
    requires ',' !in a
    ensures SplitComma(a + t) == [a + SplitComma(t)[0]] + SplitComma(t)[1..]
  {
    var st := SplitComma(t);
    if a == [] {
      assert a + t == t && a + st[0] == st[0];
      assert [st[0]] + st[1..] == st;
    } else {
      assert (a + t)[0] == a[0] && (a + t)[1..] == a[1..] + t;
      SplitCommaPrefix(a[1..], t);
      var rest := SplitComma(a[1..] + t);
      assert rest[0] == a[1..] + st[0] && rest[1..] == st[1..];
      assert [a[0]] + (a[1..] + st[0]) == a + st[0];
    }
  }

  /** The stored `pack` splits back into the option keys, when there is at
      least one key and no key holds a comma. */
  lemma {:induction false} SplitJoinComma(keys: seq<string>)
    requires keys != []
    requires forall k :: 0 <= k < |keys| ==> ',' !in keys[k]
    ensures SplitComma(JoinComma(keys)) == keys
  {
    if |keys| >= 2 {
      var joined := JoinComma(keys[1..]);
      SplitJoinComma(keys[1..]);
      assert keys[0] + "," + joined == keys[0] + ("," + joined);
      SplitCommaPrefix(keys[0], "," + joined);
      assert ("," + joined)[0] == ',' && ("," + joined)[1..] == joined;
      assert SplitComma("," + joined) == [""] + keys[1..];
      assert keys[0] + "" == keys[0];
      assert keys == [keys[0]] + keys[1..];
    }
  }

  /** What the booking store is given for a priced request. */
  function BookingDataOf(req: Pricing.ReservationRequest, amountCents: int): (r: MemoryDb.BookingData)
    ensures r.dateArrivee == req.dateArrivee && r.dateDepart == req.dateDepart
    ensures r.nom == req.nom && r.email == req.email && r.amountCents == amountCents
    ensures Pricing.OptionKeys(req) == [] ==> r.pack == ""
    ensures var keys := Pricing.OptionKeys(req);
      keys != [] && (forall k :: 0 <= k < |keys| ==> ',' !in keys[k]) ==> SplitComma(r.pack) == keys
  {
    var keys := Pricing.OptionKeys(req);
    var data := MemoryDb.BookingData(req.dateArrivee, req.dateDepart, JoinComma(keys),
                                     req.nom, req.email, req.telephone, req.message, amountCents);
    if keys != [] && (forall k :: 0 <= k < |keys| ==> ',' !in keys[k]) then
      SplitJoinComma(keys);
      data
    else
      data
  }

  /** The payment provider's answer to the request for a checkout session. */
  datatype Checkout = NotConfigured | SessionCreated(url: string) | CreationFailed

  datatype CreateReply =
    | BadRequest(error: Pricing.Rejection)      // 400
    | PaymentUnavailable(bookingId: int)        // 503
    | PaymentPage(url: string, bookingId: int)  // 200
    | ServerError                               // 500

  /** POST /api/create-reservation: reject a request missing a required
      field or priced under one euro; otherwise record a pending booking for
      the priced amount, then hand over to the payment page. */
  method CreateReservation(db: MemoryDb.Store, req: Pricing.ReservationRequest, checkout: Checkout, now: int)
    returns (reply: CreateReply)
    requires db.Valid()
    modifies db
    ensures db.Valid()
    ensures db.blockedDates == old(db.blockedDates)
    ensures reply.BadRequest? <==> Pricing.PriceReservation(req).Err?
    ensures reply.BadRequest? ==>
      reply.error == Pricing.PriceReservation(req).error &&
      db.bookings == old(db.bookings) && db.nextId == old(db.nextId)
    ensures !reply.BadRequest? ==>
      var quote := Pricing.PriceReservation(req).value;
      && quote.amountCents >= Pricing.MinimumCents
      && db.bookings == old(db.bookings) + [MemoryDb.NewBooking(old(db.nextId), BookingDataOf(req, quote.amountCents), now)]
      && db.nextId == old(db.nextId) + 1
    ensures reply.PaymentUnavailable? <==> Pricing.PriceReservation(req).Ok? && checkout.NotConfigured?
    ensures reply.PaymentPage? <==> Pricing.PriceReservation(req).Ok? && checkout.SessionCreated?
    ensures reply.ServerError? <==> Pricing.PriceReservation(req).Ok? && checkout.CreationFailed?
    ensures reply.PaymentUnavailable? ==> reply.bookingId == old(db.nextId)
    ensures reply.PaymentPage? ==> reply.bookingId == old(db.nextId) && reply.url == checkout.url
  {
    if !Pricing.HasRequiredFields(req) {
      return BadRequest(Pricing.MissingFields);
    }
    var keys := Pricing.OptionKeys(req);
    var nights, base := Pricing.ComputeBaseAmountEuros(req.dateArrivee, req.dateDepart);
    var optionsEuros := Pricing.ComputeOptionsEuros(Pricing.Keys(keys));
    var amountCents := Pricing.AmountCents(base, optionsEuros, nights);
    if amountCents < Pricing.MinimumCents {
      return BadRequest(Pricing.InvalidAmount);
    }
    var bookingId := db.CreateBooking(BookingDataOf(req, amountCents), now);
    match checkout
    case NotConfigured =>
      reply := PaymentUnavailable(bookingId);
    case SessionCreated(url) =>
      reply := PaymentPage(url, bookingId);
    case CreationFailed =>
      reply := ServerError;
  }

  /** Once a request is accepted, its nights are unavailable whatever the
      payment provider answers: the pending booking already holds them. */
  lemma AcceptedNightsHeld(bs: seq<MemoryDb.Booking>, id: int, req: Pricing.ReservationRequest, now: int)
    requires Pricing.PriceReservation(req).Ok?
    requires req.dateArrivee.day.Some? && req.dateDepart.day.Some?
    ensures var b := MemoryDb.NewBooking(id, BookingDataOf(req, Pricing.PriceReservation(req).value.amountCents), now);
      forall d :: req.dateArrivee.day.value <= d < req.dateDepart.day.value ==>
        DayKey(d) in MemoryDb.BookedKeys(bs + [b])
  {
    var b := MemoryDb.NewBooking(id, BookingDataOf(req, Pricing.PriceReservation(req).value.amountCents), now);
    assert (bs + [b])[..|bs + [b]| - 1] == bs;
    forall d | req.dateArrivee.day.value <= d < req.dateDepart.day.value
      ensures DayKey(d) in MemoryDb.BookedKeys(bs + [b])
    {
      assert DayKey(d) in MemoryDb.BookingKeys(b);
    }
  }

  // ---- Confirming a paid session -------------------------------------------

  /** The metadata create-reservation attaches to a checkout session, with
      `Number` of the two numeric fields; "" stands for absent. */
  datatype SessionMetadata = SessionMetadata(
    bookingId: string,
    bookingNumber: NumberValue,
    email: string,
    nom: string,
    dateArrivee: string,
    dateDepart: string,
    options: string,
    amountCents: NumberValue)

  /** A retrieved checkout session: paid or not, its metadata and its
      total, 0 when absent. */
  datatype CheckoutSession = CheckoutSession(paid: bool, metadata: SessionMetadata, amountTotal: int)

  /** buildBookingForClient */
  datatype ClientBooking = ClientBooking(nom: string, dateArrivee: string, dateDepart: string, options: string, amountCents: NumberValue)

  function ForClient(b: MemoryDb.Booking): (r: ClientBooking)
    ensures r.nom == b.nom && r.options == b.pack && r.amountCents == Finite(b.amountCents as real)
    ensures r.dateArrivee == b.dateArrivee.text && r.dateDepart == b.dateDepart.text
  {
    ClientBooking(b.nom, b.dateArrivee.text, b.dateDepart.text, b.pack, Finite(b.amountCents as real))
  }

  /** The record rebuilt from the metadata when the store no longer holds the
      booking; the amount is the metadata's unless NaN or 0, then the
      session total. */
  function FromMetadata(s: CheckoutSession): (r: ClientBooking)
    ensures !IsFalsy(s.metadata.amountCents) ==> r.amountCents == s.metadata.amountCents
    ensures IsFalsy(s.metadata.amountCents) ==> r.amountCents == Finite(s.amountTotal as real)
  {
    var m := s.metadata;
    var amount := if IsFalsy(m.amountCents) then Finite(s.amountTotal as real) else m.amountCents;
    ClientBooking(m.nom, m.dateArrivee, m.dateDepart, m.options, amount)
  }

  /** The stored booking the session's metadata names. */
  function StoredBooking(db: MemoryDb.Store, s: CheckoutSession): (r: Option<MemoryDb.Booking>)
    reads db
    ensures r.Some? ==> AsBookingId(s.metadata.bookingNumber).Some? &&
                        r.value in db.bookings && r.value.id == AsBookingId(s.metadata.bookingNumber).value
    ensures r.None? <==>
      || AsBookingId(s.metadata.bookingNumber).None?
      || forall k :: 0 <= k < |db.bookings| ==> db.bookings[k].id != AsBookingId(s.metadata.bookingNumber).value
    ensures r.Some? ==> MemoryDb.IndexOfId(db.bookings, r.value.id).Some? &&
                        r.value == db.bookings[MemoryDb.IndexOfId(db.bookings, r.value.id).value]
  {
    match AsBookingId(s.metadata.bookingNumber)
    case None => None
    case Some(id) => db.GetBookingById(id)
  }

  datatype Confirmation = Refused(status: int) | Confirmed(already: bool, booking: ClientBooking)

  /** GET /api/confirm-session: refuse without a session id or a payment
      provider (400), an unpaid session (400) or a session naming no booking
      (400); with no stored booking fall back on the metadata, or 404
      without an email there. A booking already paid is reported as such and
      left alone; a pending one becomes paid with this session. */
  method ConfirmSession(db: MemoryDb.Store, sessionId: string, stripeConfigured: bool, session: CheckoutSession)
    returns (c: Confirmation)
    requires db.Valid()
    modifies db
    ensures db.Valid()
    ensures db.blockedDates == old(db.blockedDates) && db.nextId == old(db.nextId)
    ensures var ready := sessionId != "" && stripeConfigured && session.paid && session.metadata.bookingId != "";
      && (c == Refused(400) <==> !ready)
      && (c == Refused(404) <==> ready && old(StoredBooking(db, session)).None? && session.metadata.email == "")
      && (ready && old(StoredBooking(db, session)).None? && session.metadata.email != "" ==>
            c == Confirmed(false, FromMetadata(session)))
      && (ready && old(StoredBooking(db, session)).Some? && old(StoredBooking(db, session)).value.status == MemoryDb.Paid ==>
            c == Confirmed(true, ForClient(old(StoredBooking(db, session)).value)))
      && (ready && old(StoredBooking(db, session)).Some? && old(StoredBooking(db, session)).value.status == MemoryDb.Pending ==>
            c == Confirmed(false, ForClient(old(StoredBooking(db, session)).value.(status := MemoryDb.Paid, stripeSessionId := Some(sessionId)))))
    ensures c.Refused? || (c.Confirmed? && c.already) || old(StoredBooking(db, session)).None? ==>
      db.bookings == old(db.bookings)
    ensures old(StoredBooking(db, session)).Some? && c.Confirmed? && !c.already ==>
      db.GetBookingById(old(StoredBooking(db, session)).value.id) ==
        Some(old(StoredBooking(db, session)).value.(status := MemoryDb.Paid, stripeSessionId := Some(sessionId)))
    ensures old(StoredBooking(db, session)).Some? && c.Confirmed? && !c.already ==>
      var i := MemoryDb.IndexOfId(old(db.bookings), old(StoredBooking(db, session)).value.id).value;
      db.bookings == old(db.bookings)[i := old(db.bookings)[i].(status := MemoryDb.Paid, stripeSessionId := Some(sessionId))]
  {
    if sessionId == "" || !stripeConfigured {
      return Refused(400);
    }
    if !session.paid {
      return Refused(400);
    }
    if session.metadata.bookingId == "" {
      return Refused(400);
    }
    var stored := StoredBooking(db, session);
    if stored.None? {
      if session.metadata.email == "" {
        return Refused(404);
      }
      var fallback := FromMetadata(session);
      match AsBookingId(session.metadata.bookingNumber) {
        case None =>
        case Some(id) =>
          db.SetBookingPaid(id, sessionId);
      }
      return Confirmed(false, fallback);
    }
    var booking := stored.value;
    if booking.status == MemoryDb.Paid {
      return Confirmed(true, ForClient(booking));
    }
    db.SetBookingPaid(booking.id, sessionId);
    var updated := db.GetBookingById(booking.id);
    c := Confirmed(false, ForClient(updated.value));
  }

  /** Confirming the same session twice changes the store once: the second
      call finds the booking paid and reports it as already confirmed. */
  method ConfirmTwice(db: MemoryDb.Store, sessionId: string, session: CheckoutSession)
    returns (first: Confirmation, second: Confirmation)
    requires db.Valid()
    requires sessionId != "" && session.paid && session.metadata.bookingId != ""
    requires StoredBooking(db, session).Some?
    modifies db
    ensures db.Valid()
    ensures db.blockedDates == old(db.blockedDates) && db.nextId == old(db.nextId)
    ensures first.Confirmed? && second.Confirmed? && second.already
    ensures first.already <==> old(StoredBooking(db, session)).value.status == MemoryDb.Paid
    ensures second.booking.amountCents == first.booking.amountCents
    ensures StoredBooking(db, session).Some? && StoredBooking(db, session).value.status == MemoryDb.Paid
    ensures var b := old(StoredBooking(db, session)).value;
      var i := MemoryDb.IndexOfId(old(db.bookings), b.id).value;
      && (first.already ==> db.bookings == old(db.bookings))
      && (!first.already ==>
            db.bookings == old(db.bookings)[i := b.(status := MemoryDb.Paid, stripeSessionId := Some(sessionId))])
  {
    first := ConfirmSession(db, sessionId, true, session);
    ghost var afterFirst := db.bookings;
    assert StoredBooking(db, session).Some? && StoredBooking(db, session).value.status == MemoryDb.Paid;
    second := ConfirmSession(db, sessionId, true, session);
    assert db.bookings == afterFirst;
  }

  // ---- Payment webhook -------------------------------------------------------

  /** POST /api/webhook/stripe: 500 without a payment provider and webhook
      secret, 400 for a bad signature; a completed checkout naming a booking
      marks it paid with the session's id; every other event is only
      acknowledged. */
  method Webhook(db: MemoryDb.Store, configured: bool, signatureValid: bool, completed: bool,
                 sessionId: string, session: CheckoutSession)
    returns (status: int)
    requires db.Valid()
    modifies db
    ensures db.Valid()
    ensures db.blockedDates == old(db.blockedDates) && db.nextId == old(db.nextId)
    ensures status == 500 <==> !configured
    ensures status == 400 <==> configured && !signatureValid
    ensures status == 200 <==> configured && signatureValid
    ensures var marks := status == 200 && completed && session.metadata.bookingId != "" &&
                         AsBookingId(session.metadata.bookingNumber).Some?;
      && (!marks ==> db.bookings == old(db.bookings))
      && (marks ==> match MemoryDb.IndexOfId(old(db.bookings), AsBookingId(session.metadata.bookingNumber).value)
            case None => db.bookings == old(db.bookings)
            case Some(i) => db.bookings == old(db.bookings)[i := old(db.bookings)[i].(status := MemoryDb.Paid, stripeSessionId := Some(sessionId))])
  {
    if !configured {
      return 500;
    }
    if !signatureValid {
      return 400;
    }
    if completed && session.metadata.bookingId != "" {
      match AsBookingId(session.metadata.bookingNumber)
      case None =>
      case Some(id) =>
        db.SetBookingPaid(id, sessionId);
    }
    status := 200;
  }
}
