/** The server's price calculator (server.js): the nightly rate by weekday,
    the walk over the nights of a stay, the option surcharges, the 15 %
    discount from two nights on, the conversion to cents and the check that
    turns away a reservation whose amount is under one euro. */
module Pricing {

  import opened Wrappers
  import opened Calendar

  /** A night from Sunday to Thursday. */
  const WeekPrice: nat := 155
  /** A Friday or Saturday night. */
  const WeekendPrice: nat := 205

  /** OPTION_PRICES, in euros. */
  const OptionPrices: map<string, nat> := map[
    "petales" := 30,
    "bouquet" := 50,
    "champagne" := 50,
    "formule80" := 80,
    "arrivee15" := 40,
    "depart14" := 40
  ]

  /** The smallest amount, in cents, a reservation may be charged. */
  const MinimumCents: int := 100

  predicate IsWeekendNight(d: int) {
    Weekday(d) == 5 || Weekday(d) == 6
  }

  /** getNightPrice */
  function NightPrice(d: int): (euros: nat)
    ensures euros == WeekendPrice <==> IsWeekendNight(d)
    ensures euros == WeekPrice <==> !IsWeekendNight(d)
  {
    if IsWeekendNight(d) then WeekendPrice else WeekPrice
  }

  /** The number of calendar days in [arrivee, depart). */
  function Nights(arrivee: int, depart: int): nat {
    if depart <= arrivee then 0 else depart - arrivee
  }

  /** The sum of the nightly prices of the days in [arrivee, depart). */
  function BaseEuros(arrivee: int, depart: int): nat
    decreases depart - arrivee
  {
    if depart <= arrivee then 0 else BaseEuros(arrivee, depart - 1) + NightPrice(depart - 1)
  }

  /** computeBaseAmountEuros: walks a cursor from the arrival day up to the
      departure day, adding each night's price. Either date failing to parse
      gives no nights and no price. */
  method ComputeBaseAmountEuros(dateArrivee: DateText, dateDepart: DateText) returns (nights: nat, base: nat)
    ensures dateArrivee.day.None? || dateDepart.day.None? ==> nights == 0 && base == 0
    ensures dateArrivee.day.Some? && dateDepart.day.Some? ==>
      nights == Nights(dateArrivee.day.value, dateDepart.day.value) &&
      base == BaseEuros(dateArrivee.day.value, dateDepart.day.value)
  {
    if dateArrivee.day.None? || dateDepart.day.None? {
      return 0, 0;
    }
    var start := dateArrivee.day.value;
    var limit := dateDepart.day.value;
    nights, base := 0, 0;
    var cursor := start;
    while cursor < limit
      invariant cursor == start + nights
      invariant nights <= Nights(start, limit)
      invariant base == BaseEuros(start, cursor)
      decreases limit - cursor
    {
      base := base + NightPrice(cursor);
      nights := nights + 1;
      cursor := cursor + 1;
    }
  }

  /** Every night costs between the weekday and the weekend rate. */
  lemma {:induction false} BaseBounds(arrivee: int, depart: int)
    ensures WeekPrice * Nights(arrivee, depart) <= BaseEuros(arrivee, depart)
    ensures BaseEuros(arrivee, depart) <= WeekendPrice * Nights(arrivee, depart)
    decreases depart - arrivee
  {
    if arrivee < depart {
      BaseBounds(arrivee, depart - 1);
      assert Nights(arrivee, depart) == Nights(arrivee, depart - 1) + 1;
    }
  }

  /** A stay split at any day in between costs the sum of its two parts. */
  lemma {:induction false} BaseSplit(arrivee: int, middle: int, depart: int)
    requires arrivee <= middle <= depart
    ensures BaseEuros(arrivee, depart) == BaseEuros(arrivee, middle) + BaseEuros(middle, depart)
    decreases depart - middle
  {
    if middle < depart {
      BaseSplit(arrivee, middle, depart - 1);
    }
  }

  /** The price of a stay does not change when it is moved by a whole week. */
  lemma {:induction false} BaseWeekShift(arrivee: int, depart: int)
    ensures BaseEuros(arrivee + 7, depart + 7) == BaseEuros(arrivee, depart)
    decreases depart - arrivee
  {
    if arrivee < depart {
      BaseWeekShift(arrivee, depart - 1);
      WeekdayPeriodic(depart - 1);
    }
  }

  /** Any seven consecutive nights are five weekday and two weekend nights. */
  lemma FullWeek(arrivee: int)
    ensures BaseEuros(arrivee, arrivee + 7) == 5 * WeekPrice + 2 * WeekendPrice
  {
    var a := arrivee;
    WeekdayNext(a); WeekdayNext(a + 1); WeekdayNext(a + 2);
    WeekdayNext(a + 3); WeekdayNext(a + 4); WeekdayNext(a + 5);
    assert BaseEuros(a, a + 7) ==
      NightPrice(a) + NightPrice(a + 1) + NightPrice(a + 2) + NightPrice(a + 3) +
      NightPrice(a + 4) + NightPrice(a + 5) + NightPrice(a + 6) by {
      assert BaseEuros(a, a + 1) == NightPrice(a);
      assert BaseEuros(a, a + 2) == BaseEuros(a, a + 1) + NightPrice(a + 1);
      assert BaseEuros(a, a + 3) == BaseEuros(a, a + 2) + NightPrice(a + 2);
      assert BaseEuros(a, a + 4) == BaseEuros(a, a + 3) + NightPrice(a + 3);
      assert BaseEuros(a, a + 5) == BaseEuros(a, a + 4) + NightPrice(a + 4);
      assert BaseEuros(a, a + 6) == BaseEuros(a, a + 5) + NightPrice(a + 5);
    }
  }

  /** Friday 2024-03-08 to Sunday 2024-03-10: two nights, both at the weekend rate. */
  lemma SampleWeekend()
    ensures Nights(19790, 19792) == 2
    ensures BaseEuros(19790, 19792) == 2 * WeekendPrice
  {
    SampleDayKeys();
    assert Weekday(19791) == 6;
  }

  /** OPTION_PRICES[key] || 0, for a key the table itself defines. */
  function OptionPrice(key: string): (euros: nat)
    ensures key in OptionPrices ==> euros == OptionPrices[key] && euros > 0
    ensures key !in OptionPrices ==> euros == 0
  {
    if key in OptionPrices then OptionPrices[key] else 0
  }

  /** The `reduce` of computeOptionsEuros over a list of keys, left to right. */
  function OptionsSum(keys: seq<string>): (euros: nat)
    ensures euros <= 80 * |keys|
  {
    if keys == [] then 0 else OptionsSum(keys[..|keys| - 1]) + OptionPrice(keys[|keys| - 1])
  }

  /** The `options` field of a request: a JSON array of keys or anything else. */
  datatype OptionsField = NotAnArray | Keys(keys: seq<string>)

  /** computeOptionsEuros */
  function ComputeOptionsEuros(options: OptionsField): (euros: nat)
    ensures options.NotAnArray? ==> euros == 0
    ensures options.Keys? ==> euros == OptionsSum(options.keys)
  {
    match options
    case NotAnArray => 0
    case Keys(keys) => OptionsSum(keys)
  }

  lemma {:induction false} OptionsSumConcat(a: seq<string>, b: seq<string>)
    ensures OptionsSum(a + b) == OptionsSum(a) + OptionsSum(b)
    decreases |b|
  {
    if b == [] {
      assert a + b == a;
    } else {
      var init := b[..|b| - 1];
      assert (a + b)[..|a + b| - 1] == a + init;
      assert (a + b)[|a + b| - 1] == b[|b| - 1];
      OptionsSumConcat(a, init);
    }
  }

  lemma OptionsSumSingle(k: string)
    ensures OptionsSum([k]) == OptionPrice(k)
  {
    assert [k][..0] == [];
  }

  /** The option total depends on which keys are chosen and how often, not
      on their order. */
  lemma {:induction false} OptionsSumPermutation(a: seq<string>, b: seq<string>)
    requires multiset(a) == multiset(b)
    ensures OptionsSum(a) == OptionsSum(b)
    decreases |a|
  {
    if a == [] {
      assert |b| == |multiset(b)| == 0;
    } else {
      assert a[0] in multiset(b);
      var i :| 0 <= i < |b| && b[i] == a[0];
      var rest := b[..i] + b[i + 1..];
      assert b == b[..i] + [b[i]] + b[i + 1..];
      assert a == [a[0]] + a[1..];
      assert multiset(a[1..]) == multiset(rest) by {
        assert multiset(a) == multiset([a[0]]) + multiset(a[1..]);
        assert multiset(a[1..]) == multiset(a) - multiset([a[0]]);
        assert multiset(b) == multiset(b[..i]) + multiset([b[i]]) + multiset(b[i + 1..]);
        assert multiset(rest) == multiset(b[..i]) + multiset(b[i + 1..]);
        assert multiset(rest) == multiset(b) - multiset([b[i]]);
      }
      OptionsSumPermutation(a[1..], rest);
      OptionsSumConcat([a[0]], a[1..]);
      OptionsSumConcat(b[..i] + [b[i]], b[i + 1..]);
      OptionsSumConcat(b[..i], [b[i]]);
      OptionsSumConcat(b[..i], b[i + 1..]);
      OptionsSumSingle(a[0]);
    }
  }

  /** A key the table does not know, wherever it stands, adds nothing; a
      known key adds its price each time it appears. */
  lemma OptionsSumInsert(a: seq<string>, k: string, b: seq<string>)
    ensures OptionsSum(a + [k] + b) == OptionsSum(a) + OptionPrice(k) + OptionsSum(b)
  {
    OptionsSumConcat(a + [k], b);
    OptionsSumConcat(a, [k]);
    OptionsSumSingle(k);
  }

  /** Math.round: the nearest integer, halves upward. */
  /** Math.round: the nearest integer, halves rounded up. */
  function MathRound(x: real): (r: int)
    ensures x - 0.5 < r as real <= x + 0.5
  {
    (x + 0.5).Floor
  }

  /** The euros of the stay and its options, less 15 % from two nights on,
      in cents and rounded, computed in exact arithmetic. Every price is a
      whole number of euros, so the rounding never matters: the charge is
      85 or 100 cents per euro of the undiscounted total. */
  function AmountCents(baseEuros: nat, optionsEuros: nat, nights: nat): (r: int)
    ensures r == if nights >= 2 then (baseEuros + optionsEuros) * 85 else (baseEuros + optionsEuros) * 100
  {
    var amountEuros: real := (baseEuros + optionsEuros) as real;
    var charged := if nights >= 2 then amountEuros * 0.85 else amountEuros;
    MathRound(charged * 100.0)
  }

  /** The create-reservation request body. Absent text fields are "". */
  datatype ReservationRequest = ReservationRequest(
    dateArrivee: DateText,
    dateDepart: DateText,
    options: OptionsField,
    nom: string,
    email: string,
    telephone: string,
    message: string)

  /** The keys a booking is created with: the options when they are a list. */
  function OptionKeys(req: ReservationRequest): (keys: seq<string>)
    ensures req.options.Keys? ==> keys == req.options.keys
    ensures req.options.NotAnArray? ==> keys == []
  {
    if req.options.Keys? then req.options.keys else []
  }

  predicate HasRequiredFields(req: ReservationRequest) {
    req.dateArrivee.text != "" && req.dateDepart.text != "" && req.nom != "" && req.email != ""
  }

  datatype Quote = Quote(nights: nat, baseEuros: nat, optionsEuros: nat, amountCents: int)

  datatype Rejection = MissingFields | InvalidAmount

  /** The quote of a request's stay, with unparseable dates pricing no nights. */
  function QuoteOf(req: ReservationRequest): (r: Quote)
    ensures req.dateArrivee.day.None? || req.dateDepart.day.None? ==> r.nights == 0
    ensures r.nights == 0 ==> r.baseEuros == 0
    ensures r.optionsEuros == OptionsSum(OptionKeys(req))
    ensures r.amountCents == if r.nights >= 2 then (r.baseEuros + r.optionsEuros) * 85
                             else (r.baseEuros + r.optionsEuros) * 100
  {
    var (nights, base) :=
      if req.dateArrivee.day.Some? && req.dateDepart.day.Some?
      then (Nights(req.dateArrivee.day.value, req.dateDepart.day.value),
            BaseEuros(req.dateArrivee.day.value, req.dateDepart.day.value))
      else (0, 0);
    var options := ComputeOptionsEuros(Keys(OptionKeys(req)));
    Quote(nights, base, options, AmountCents(base, options, nights))
  }

  /** The checks of create-reservation before a booking is made: the four
      required fields, then the amount, which must be at least one euro. */
  function PriceReservation(req: ReservationRequest): (r: Result<Quote, Rejection>)
    ensures r == Err(MissingFields) <==> !HasRequiredFields(req)
    ensures r == Err(InvalidAmount) <==> HasRequiredFields(req) && QuoteOf(req).amountCents < MinimumCents
    ensures r.Ok? ==> r.value == QuoteOf(req) && r.value.amountCents >= MinimumCents
  {
    if !HasRequiredFields(req) then Err(MissingFields)
    else
      var quote := QuoteOf(req);
      if quote.amountCents < MinimumCents then Err(InvalidAmount) else Ok(quote)
  }

  /** What an accepted reservation is charged: the stay and options in whole
      euros, less 15 % from two nights on, with the nights and base price of
      the day-by-day walk. */
  lemma AcceptedCharge(req: ReservationRequest)
    requires PriceReservation(req).Ok?
    requires req.dateArrivee.day.Some? && req.dateDepart.day.Some?
    ensures var q := PriceReservation(req).value;
      var a, d := req.dateArrivee.day.value, req.dateDepart.day.value;
      && q.nights == Nights(a, d)
      && q.baseEuros == BaseEuros(a, d)
      && WeekPrice * q.nights <= q.baseEuros <= WeekendPrice * q.nights
      && q.optionsEuros == OptionsSum(OptionKeys(req))
      && q.amountCents == (if q.nights >= 2 then (q.baseEuros + q.optionsEuros) * 85
                           else (q.baseEuros + q.optionsEuros) * 100)
  {
    var q := PriceReservation(req).value;
    BaseBounds(req.dateArrivee.day.value, req.dateDepart.day.value);
  }

  /** The check looks at the amount only: a stay of no nights is accepted as
      soon as its options reach one euro. */
  lemma ZeroNightsWithOptionAccepted(day: int)
    ensures var req := ReservationRequest(DateText("d", Some(day)), DateText("d", Some(day)),
                                          Keys(["petales"]), "n", "e", "", "");
      PriceReservation(req) == Ok(Quote(0, 0, 30, 3000))
  {
    OptionsSumSingle("petales");
  }

  // ---- The option lookup as written ---------------------------------------

  /** The members every object literal inherits from Object.prototype. */
  const PrototypeMembers: set<string> := {
    "constructor", "__proto__", "toString", "toLocaleString", "valueOf",
    "hasOwnProperty", "isPrototypeOf", "propertyIsEnumerable",
    "__defineGetter__", "__defineSetter__", "__lookupGetter__", "__lookupSetter__"
  }

  /** What `OPTION_PRICES[key] || 0` reads: an own price, 0, or an inherited
      function or object, which is truthy and not a number. */
  datatype Lookup = Price(euros: nat) | Inherited

  function LookupAsWritten(key: string): (r: Lookup)
    ensures r.Inherited? <==> key in PrototypeMembers && key !in OptionPrices
    ensures r.Price? ==> r.euros == OptionPrice(key)
  {
    if key in OptionPrices then Price(OptionPrices[key])
    else if key in PrototypeMembers then Inherited
    else Price(0)
  }

  /** A JavaScript value the sum can become: a number, or a string once an
      inherited member has been added to it (`+` then concatenates). */
  datatype JsSum = Number(n: nat) | Concatenated

  function OptionsSumAsWritten(keys: seq<string>): (r: JsSum)
    ensures r.Concatenated? <==> exists i :: 0 <= i < |keys| && LookupAsWritten(keys[i]).Inherited?
  {
    if keys == [] then Number(0)
    else
      match (OptionsSumAsWritten(keys[..|keys| - 1]), LookupAsWritten(keys[|keys| - 1]))
      case (Number(n), Price(p)) => Number(n + p)
      case (_, _) => Concatenated
  }

  /** amountCents as written: a string total multiplied by 0.85 or 100 is
      NaN, and Math.round keeps it NaN. */
  datatype JsAmount = Cents(cents: int) | NaN

  function AmountCentsAsWritten(baseEuros: nat, options: JsSum, nights: nat): (r: JsAmount)
    ensures r.NaN? <==> options.Concatenated?
    ensures options.Number? ==> r.Cents? && r.cents == if nights >= 2 then (baseEuros + options.n) * 85
                                                        else (baseEuros + options.n) * 100
  {
    match options
    case Number(n) => Cents(AmountCents(baseEuros, n, nights))
    case Concatenated => NaN
  }

  /** `amountCents < 100`, which is false for NaN. */
  predicate RejectedAsWritten(amount: JsAmount) {
    amount.Cents? && amount.cents < MinimumCents
  }

  /** A key naming an inherited member turns the amount into NaN, and NaN
      passes the minimum-amount check, so a booking is created for it. */
  lemma PrototypeKeyPassesCheck(day: int)
    ensures OptionsSumAsWritten(["constructor"]) == Concatenated
    ensures var amount := AmountCentsAsWritten(NightPrice(day), OptionsSumAsWritten(["constructor"]), 1);
      amount == NaN && !RejectedAsWritten(amount)
  {
    assert ["constructor"][..0] == [];
  }

  /** Where the keys are all own or unknown, the lookup as written agrees
      with the own-property lookup of the model. */
  lemma {:induction false} AsWrittenAgreesWithoutPrototypeKeys(keys: seq<string>)
    requires forall i :: 0 <= i < |keys| ==> keys[i] !in PrototypeMembers
    ensures OptionsSumAsWritten(keys) == Number(OptionsSum(keys))
    decreases |keys|
  {
    if keys != [] {
      AsWrittenAgreesWithoutPrototypeKeys(keys[..|keys| - 1]);
    }
  }

  /** With the own-property lookup a key naming an inherited member is an
      unknown key like any other: it adds nothing, and the one-night stay is
      charged its nightly price. */
  lemma PrototypeKeyPricedZero(day: int)
    ensures forall k :: k in PrototypeMembers ==> OptionPrice(k) == 0
    ensures var req := ReservationRequest(DateText("d", Some(day)), DateText("d", Some(day + 1)),
                                          Keys(["constructor"]), "n", "e", "", "");
      PriceReservation(req) == Ok(Quote(1, NightPrice(day), 0, NightPrice(day) * 100))
  {
    OptionsSumSingle("constructor");
    assert BaseEuros(day, day + 1) == NightPrice(day);
  }
}
