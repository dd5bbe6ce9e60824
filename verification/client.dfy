/** The booking page's script (public/js/reservation.js): its own copy of the
    nightly rate and of the option table, the walk that counts the nights of
    the selected stay, the price recap shown before paying, the list of days
    handed to the date pickers and the checks made when the form is sent.

    The pickers give local midnights; a selected day is the local calendar
    day, a day number as in Calendar. The zone is `offsetMinutes` east of
    UTC, fixed (no daylight saving change inside a stay). */
module ReservationClient {

  import opened Wrappers
  import opened Calendar
  import Pricing

  // ---- Prices --------------------------------------------------------------

  /** getNightPrice: 205 on Friday and Saturday, 155 otherwise. */
  function NightPrice(d: int): (euros: nat)
    ensures euros == 205 <==> Weekday(d) == 5 || Weekday(d) == 6
    ensures euros == 155 <==> Weekday(d) != 5 && Weekday(d) != 6
  {
    var day := Weekday(d);
    if day == 5 || day == 6 then 205 else 155
  }

  /** The page charges every night what the server charges. */
  lemma NightPriceAgrees(d: int)
    ensures NightPrice(d) == Pricing.NightPrice(d)
  {
  }

  /** OPTION_PRICES of the page, in euros. */
  const OptionPrices: map<string, nat> := map[
    "petales" := 30,
    "bouquet" := 50,
    "champagne" := 50,
    "formule80" := 80,
    "arrivee15" := 40,
    "depart14" := 40
  ]

  /** The page's option table is the server's. */
  lemma OptionTableAgrees()
    ensures OptionPrices == Pricing.OptionPrices
  {
  }

  /** `OPTION_PRICES[key] || 0` */
  function OptionPrice(key: string): (euros: nat)
    ensures key in OptionPrices ==> euros == OptionPrices[key]
    ensures key !in OptionPrices ==> euros == 0
  {
    if key in OptionPrices then OptionPrices[key] else 0
  }

  /** The `reduce` of updateRecap over the ticked options, left to right. */
  function OptionsTotal(keys: seq<string>): (euros: nat)
    ensures euros <= 80 * |keys|
  {
    if keys == [] then 0 else OptionsTotal(keys[..|keys| - 1]) + OptionPrice(keys[|keys| - 1])
  }

  /** The recap's option total is the server's, for every list of keys. */
  lemma {:induction false} OptionsTotalAgrees(keys: seq<string>)
    ensures OptionsTotal(keys) == Pricing.OptionsSum(keys)
  {
    OptionTableAgrees();
    if keys != [] {
      OptionsTotalAgrees(keys[..|keys| - 1]);
    }
  }

  /** computeBaseAmount: walks a cursor from the arrival day up to the
      departure day, adding the page's price of each night. */
  method ComputeBaseAmount(d1: int, d2: int) returns (nights: nat, base: nat)
    ensures nights == Pricing.Nights(d1, d2)
    ensures base == Pricing.BaseEuros(d1, d2)
  {
    nights, base := 0, 0;
    var cursor := d1;
    while cursor < d2
      invariant cursor == d1 + nights
      invariant nights <= Pricing.Nights(d1, d2)
      invariant base == Pricing.BaseEuros(d1, cursor)
      decreases d2 - cursor
    {
      NightPriceAgrees(cursor);
      base := base + NightPrice(cursor);
      nights := nights + 1;
      cursor := cursor + 1;
    }
  }

  // ---- Recap ---------------------------------------------------------------

  datatype Recap =
    | Hidden
    | Shown(nights: nat, base: nat, optionsTotal: nat,
            totalBeforeDiscount: real, discount: real, totalFinal: real)

  /** updateRecap: hidden until both days are chosen and the stay has a
      night; otherwise the nights, the base and option totals, 15 % off the
      whole from two nights on, and what is left to pay. */
  method UpdateRecap(d1: Option<int>, d2: Option<int>, optionKeys: seq<string>) returns (recap: Recap)
    ensures recap.Hidden? <==> d1.None? || d2.None? || d2.value <= d1.value
    ensures recap.Shown? ==>
      && recap.nights == Pricing.Nights(d1.value, d2.value) && recap.nights >= 1
      && recap.base == Pricing.BaseEuros(d1.value, d2.value)
      && recap.optionsTotal == Pricing.OptionsSum(optionKeys)
      && recap.totalBeforeDiscount == (recap.base + recap.optionsTotal) as real
      && (recap.discount > 0.0 <==> recap.nights >= 2)
      && (recap.nights >= 2 ==> recap.discount == recap.totalBeforeDiscount * 0.15)
      && recap.totalFinal == recap.totalBeforeDiscount - recap.discount
      && recap.totalFinal * 100.0 ==
           Pricing.AmountCents(recap.base, Pricing.OptionsSum(optionKeys), recap.nights) as real
  {
    if d1.None? || d2.None? {
      return Hidden;
    }
    var nights, base := ComputeBaseAmount(d1.value, d2.value);
    if nights <= 0 {
      return Hidden;
    }
    Pricing.BaseBounds(d1.value, d2.value);
    var optionsTotal := OptionsTotal(optionKeys);
    OptionsTotalAgrees(optionKeys);
    var totalBeforeDiscount := (base + optionsTotal) as real;
    var discount := if nights >= 2 then totalBeforeDiscount * 0.15 else 0.0;
    var totalFinal := totalBeforeDiscount - discount;
    recap := Shown(nights, base, optionsTotal, totalBeforeDiscount, discount, totalFinal);
  }

  // ---- Date pickers --------------------------------------------------------

  /** disableDatesForFlatpickr: nothing for a missing or empty list,
      otherwise a copy, element by element. */
  function DisableDatesForFlatpickr(dates: Option<seq<string>>): (r: seq<string>)
    ensures dates.None? ==> r == []
    ensures dates.Some? ==> |r| == |dates.value| && forall k :: 0 <= k < |r| ==> r[k] == dates.value[k]
  {
    if dates.None? || |dates.value| == 0 then []
    else seq(|dates.value|, k requires 0 <= k < |dates.value| => dates.value[k])
  }

  // ---- Sending the form ----------------------------------------------------

  /** The characters `String.prototype.trim` removes: white space and line
      terminators. */
  const JsWhitespace: set<char> := {
    '\t', '\n', '\U{000B}', '\U{000C}', '\r', ' ', '\U{00A0}', '\U{1680}',
    '\U{2000}', '\U{2001}', '\U{2002}', '\U{2003}', '\U{2004}', '\U{2005}',
    '\U{2006}', '\U{2007}', '\U{2008}', '\U{2009}', '\U{200A}',
    '\U{2028}', '\U{2029}', '\U{202F}', '\U{205F}', '\U{3000}', '\U{FEFF}'
  }

  predicate IsJsWhitespace(c: char) {
    c in JsWhitespace
  }

  /** The number of white-space characters the text starts with. */
  function LeadingSpace(s: string): (n: nat)
    ensures n <= |s|
    ensures forall k :: 0 <= k < n ==> IsJsWhitespace(s[k])
    ensures n < |s| ==> !IsJsWhitespace(s[n])
  {
    if s != [] && IsJsWhitespace(s[0]) then 1 + LeadingSpace(s[1..]) else 0
  }

  /** The number of white-space characters the text ends with. */
  function TrailingSpace(s: string): (n: nat)
    ensures n <= |s|
    ensures forall k :: |s| - n <= k < |s| ==> IsJsWhitespace(s[k])
    ensures n < |s| ==> !IsJsWhitespace(s[|s| - n - 1])
  {
    if s != [] && IsJsWhitespace(s[|s| - 1]) then 1 + TrailingSpace(s[..|s| - 1]) else 0
  }

  /** `s.trim()`: the longest infix with no white space at either end;
      what is cut off is white space. */
  function Trim(s: string): (r: string)
    ensures var i := LeadingSpace(s);
      && i + |r| <= |s| && r == s[i..i + |r|]
      && (forall k :: 0 <= k < i ==> IsJsWhitespace(s[k]))
      && (forall k :: i + |r| <= k < |s| ==> IsJsWhitespace(s[k]))
    ensures r == [] || (!IsJsWhitespace(r[0]) && !IsJsWhitespace(r[|r| - 1]))
  {
    var i := LeadingSpace(s);
    if i == |s| then [] else s[i..|s| - TrailingSpace(s)]
  }

  /** A trimmed text is empty exactly when the text is all white space. */
  lemma TrimEmpty(s: string)
    ensures Trim(s) == [] <==> forall k :: 0 <= k < |s| ==> IsJsWhitespace(s[k])
  {
  }

  /** Trimming twice is trimming once. */
  lemma TrimIdempotent(s: string)
    ensures Trim(Trim(s)) == Trim(s)
  {
    var r := Trim(s);
    if r != [] {
      assert LeadingSpace(r) == 0;
      assert TrailingSpace(r) == 0;
      assert r[0..|r|] == r;
    }
  }

  /** The JSON body the form sends to create-reservation. */
  datatype Payload = Payload(
    dateArrivee: string,
    dateDepart: string,
    options: seq<string>,
    nom: string,
    email: string,
    telephone: string,
    message: string)

  datatype SubmitOutcome = AskForDates | AskForNameAndEmail | Send(payload: Payload)

  /** The UTC calendar day in which the local midnight of `localDay` falls,
      in a zone `offsetMinutes` east of UTC. */
  function UtcDayOfLocalMidnight(localDay: int, offsetMinutes: int): int {
    (localDay * 1440 - offsetMinutes) / 1440
  }

  /** West of UTC, and at UTC, a local midnight is still the same day in UTC;
      east of UTC it is the evening before. */
  lemma UtcDayShift(localDay: int, offsetMinutes: int)
    requires -1440 < offsetMinutes <= 1440
    ensures offsetMinutes <= 0 ==> UtcDayOfLocalMidnight(localDay, offsetMinutes) == localDay
    ensures offsetMinutes > 0 ==> UtcDayOfLocalMidnight(localDay, offsetMinutes) == localDay - 1
  {
    var m := localDay * 1440 - offsetMinutes;
    if offsetMinutes <= 0 {
      assert localDay * 1440 <= m < localDay * 1440 + 1440;
    } else {
      assert (localDay - 1) * 1440 <= m < (localDay - 1) * 1440 + 1440;
    }
  }

  /** The submit handler as written: both days chosen, then a name and an
      email once trimmed; each day is sent as the first ten characters of
      `toISOString()` of its local midnight, which is the UTC day. */
  function SubmitAsWritten(d1: Option<int>, d2: Option<int>, offsetMinutes: int, optionKeys: seq<string>,
                           nom: string, email: string, telephone: string, message: string): (r: SubmitOutcome)
    ensures r == AskForDates <==> d1.None? || d2.None?
    ensures r == AskForNameAndEmail <==> d1.Some? && d2.Some? && (Trim(nom) == "" || Trim(email) == "")
    ensures r.Send? ==>
      && r.payload.dateArrivee == DayKey(UtcDayOfLocalMidnight(d1.value, offsetMinutes))
      && r.payload.dateDepart == DayKey(UtcDayOfLocalMidnight(d2.value, offsetMinutes))
      && r.payload.options == optionKeys
      && r.payload.nom == Trim(nom) != "" && r.payload.email == Trim(email) != ""
  {
    if d1.None? || d2.None? then AskForDates
    else
      var n := Trim(nom);
      var e := Trim(email);
      if n == "" || e == "" then AskForNameAndEmail
      else Send(Payload(DayKey(UtcDayOfLocalMidnight(d1.value, offsetMinutes)),
                        DayKey(UtcDayOfLocalMidnight(d2.value, offsetMinutes)),
                        optionKeys, n, e, Trim(telephone), Trim(message)))
  }

  /** The submit handler with each day sent as the local calendar day the
      guest picked. */
  function Submit(d1: Option<int>, d2: Option<int>, optionKeys: seq<string>,
                  nom: string, email: string, telephone: string, message: string): (r: SubmitOutcome)
    ensures r == AskForDates <==> d1.None? || d2.None?
    ensures r == AskForNameAndEmail <==> d1.Some? && d2.Some? && (Trim(nom) == "" || Trim(email) == "")
    ensures r.Send? ==>
      && r.payload.dateArrivee == DayKey(d1.value) && r.payload.dateDepart == DayKey(d2.value)
      && r.payload.options == optionKeys
      && r.payload.nom == Trim(nom) != "" && r.payload.email == Trim(email) != ""
  {
    if d1.None? || d2.None? then AskForDates
    else
      var n := Trim(nom);
      var e := Trim(email);
      if n == "" || e == "" then AskForNameAndEmail
      else Send(Payload(DayKey(d1.value), DayKey(d2.value), optionKeys, n, e, Trim(telephone), Trim(message)))
  }

  /** In a zone at or west of UTC the handler as written sends the same days
      as the corrected one. */
  lemma AsWrittenAgreesWestOfUtc(d1: Option<int>, d2: Option<int>, offsetMinutes: int, optionKeys: seq<string>,
                                 nom: string, email: string, telephone: string, message: string)
    requires -1440 < offsetMinutes <= 0
    ensures SubmitAsWritten(d1, d2, offsetMinutes, optionKeys, nom, email, telephone, message) ==
            Submit(d1, d2, optionKeys, nom, email, telephone, message)
  {
    if d1.Some? && d2.Some? {
      UtcDayShift(d1.value, offsetMinutes);
      UtcDayShift(d2.value, offsetMinutes);
    }
  }

  /** The request create-reservation receives for a payload, with the day
      each date key stands for (a YYYY-MM-DD text is read as that day's UTC
      midnight). */
  function RequestOf(p: Payload, arrivee: int, depart: int): (req: Pricing.ReservationRequest)
    ensures req.dateArrivee.day == Some(arrivee) && req.dateDepart.day == Some(depart)
    ensures req.options == Pricing.Keys(p.options)
    ensures req.nom == p.nom && req.email == p.email
  {
    Pricing.ReservationRequest(
      Calendar.DateText(p.dateArrivee, Some(arrivee)), Calendar.DateText(p.dateDepart, Some(depart)),
      Pricing.Keys(p.options), p.nom, p.email, p.telephone, p.message)
  }

  /** With the corrected handler the server prices the stay the guest
      picked: what it charges is the recap's total in cents, and it accepts
      the request exactly when that is at least one euro. */
  lemma ChargeMatchesRecap(d1: int, d2: int, optionKeys: seq<string>,
                           nom: string, email: string, telephone: string, message: string)
    requires Submit(Some(d1), Some(d2), optionKeys, nom, email, telephone, message).Send?
    ensures var p := Submit(Some(d1), Some(d2), optionKeys, nom, email, telephone, message).payload;
      var amount := Pricing.AmountCents(Pricing.BaseEuros(d1, d2), Pricing.OptionsSum(optionKeys), Pricing.Nights(d1, d2));
      && (Pricing.PriceReservation(RequestOf(p, d1, d2)).Ok? <==> amount >= Pricing.MinimumCents)
      && (Pricing.PriceReservation(RequestOf(p, d1, d2)).Ok? ==>
            Pricing.PriceReservation(RequestOf(p, d1, d2)).value.amountCents == amount)
  {
    var p := Submit(Some(d1), Some(d2), optionKeys, nom, email, telephone, message).payload;
    DayKeyNotEmpty(d1);
    DayKeyNotEmpty(d2);
    assert Pricing.HasRequiredFields(RequestOf(p, d1, d2));
  }

  lemma DayKeyNotEmpty(d: int)
    ensures DayKey(d) != ""
  {
    assert |DayKey(d)| == 10;
  }

  /** East of UTC the handler as written sends each picked day as the day
      before. */
  lemma AsWrittenSendsDayBefore(d1: int, d2: int, offsetMinutes: int, optionKeys: seq<string>,
                                nom: string, email: string, telephone: string, message: string)
    requires 0 < offsetMinutes <= 1440
    requires SubmitAsWritten(Some(d1), Some(d2), offsetMinutes, optionKeys, nom, email, telephone, message).Send?
    ensures var p := SubmitAsWritten(Some(d1), Some(d2), offsetMinutes, optionKeys, nom, email, telephone, message).payload;
      p.dateArrivee == DayKey(d1 - 1) && p.dateDepart == DayKey(d2 - 1)
  {
    UtcDayShift(d1, offsetMinutes);
    UtcDayShift(d2, offsetMinutes);
  }

  /** What the handler as written sends for the sample stay in Paris in
      winter: the keys of the Thursday and the Saturday. */
  lemma AsWrittenSamplePayload()
    ensures SubmitAsWritten(Some(19790), Some(19792), 60, [], "n", "e", "", "") ==
            Send(Payload("2024-03-07", "2024-03-09", [], "n", "e", "", ""))
  {
    UtcDayShift(19790, 60);
    UtcDayShift(19792, 60);
    SampleDayKeysAround();
    TrimSamples();
  }

  lemma TrimSamples()
    ensures Trim("n") == "n" && Trim("e") == "e" && Trim("") == ""
  {
  }

  /** In Paris in winter (one hour east of UTC) a stay picked from Friday
      2024-03-08 to Sunday 2024-03-10 is recapped at 348.50 euros, the
      Friday and Saturday nights; the handler as written sends it as
      2024-03-07 to 2024-03-09, and the server books and charges the
      Thursday and Friday nights, 306 euros. */
  lemma AsWrittenChargesOtherNights()
    ensures UtcDayOfLocalMidnight(19790, 60) == 19789 && UtcDayOfLocalMidnight(19792, 60) == 19791
    ensures Pricing.AmountCents(Pricing.BaseEuros(19790, 19792), 0, 2) == 34850
    ensures var p := Payload("2024-03-07", "2024-03-09", [], "n", "e", "", "");
      && SubmitAsWritten(Some(19790), Some(19792), 60, [], "n", "e", "", "") == Send(p)
      && Pricing.PriceReservation(RequestOf(p, 19789, 19791)) == Wrappers.Ok(Pricing.Quote(2, 360, 0, 30600))
  {
    UtcDayShift(19790, 60);
    UtcDayShift(19792, 60);
    AsWrittenSamplePayload();
    Pricing.SampleWeekend();
    ThursdayAndFridayCharged();
  }

  /** The server's quote for the Thursday and Friday nights of that week
      with no option: two nights at 180 euros, 306 euros after the 15%
      reduction. */
  lemma ThursdayAndFridayCharged()
    ensures var p := Payload("2024-03-07", "2024-03-09", [], "n", "e", "", "");
      Pricing.PriceReservation(RequestOf(p, 19789, 19791)) == Wrappers.Ok(Pricing.Quote(2, 360, 0, 30600))
  {
  }
}
