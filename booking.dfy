/**
 * The admission checks and the pricing that the booking page performs on the
 * query parameters before it shows the booking form.
 */
module BookingRequest {
  import opened Common

  /** The part of a house record the pricing reads. */
  datatype House = House(pricePerNight: Money)

  /**
   * A query parameter as the view receives it: not sent, sent empty,
   * sent but not convertible (a malformed date, id or number), or a value.
   */
  datatype Param<T> = Absent | Blank | Unparsable | Given(value: T) {
    /** Python truthiness of the raw parameter: only a missing or empty one is false. */
    predicate Present() {
      !Absent? && !Blank?
    }
  }

  /** The guest count the view falls back to when the parameter is not sent. */
  const DefaultGuests := 2

  datatype Request = Request(
    viewer: Viewer,
    house: Param<HouseId>,
    checkIn: Param<Day>,
    checkOut: Param<Day>,
    guests: Param<int>)

  /** What the view computes for an admissible request. */
  datatype Quote = Quote(house: House, checkIn: Day, checkOut: Day, guests: int, nights: int, houseCost: Money)

  /** Each way the view turns a request away; each has its own message in the source. */
  datatype Rejection =
    | LoginRequired
    | MissingParameters
    | InvalidData
    | CheckInInPast
    | CheckOutNotAfterCheckIn

  datatype Verdict = Accepted(quote: Quote) | Rejected(reason: Rejection)

  /** The guest count parameter after the default of 2 is applied. */
  function GuestsParam(p: Param<int>): Param<int> {
    if p.Absent? then Given(DefaultGuests) else p
  }

  /** All four parameters are present (after the guest default). */
  predicate AllPresent(req: Request) {
    req.house.Present() && req.checkIn.Present() && req.checkOut.Present() && GuestsParam(req.guests).Present()
  }

  /** Every parameter converts and the house exists in the catalog. */
  predicate WellFormed(catalog: map<HouseId, House>, req: Request) {
    && req.house.Given? && req.house.value in catalog
    && req.checkIn.Given? && req.checkOut.Given?
    && GuestsParam(req.guests).Given?
  }

  /** Price of staying `nights` nights at the given nightly price. */
  function StayCost(h: House, nights: int): Money {
    h.pricePerNight * nights as real
  }

  /**
   * Checks a booking request against the house catalog and today's date and,
   * when it is admissible, prices it. The checks run in the order the view
   * runs them, so the first failing one decides the reason.
   */
  function Validate(catalog: map<HouseId, House>, req: Request, today: Day): (v: Verdict)
    ensures v == Rejected(LoginRequired) <==> req.viewer.Anonymous?
    ensures req.viewer.SignedIn? && !AllPresent(req) ==> v == Rejected(MissingParameters)
    ensures req.viewer.SignedIn? && AllPresent(req) && !WellFormed(catalog, req) ==> v == Rejected(InvalidData)
    ensures v == Rejected(CheckInInPast) <==>
              req.viewer.SignedIn? && WellFormed(catalog, req) && req.checkIn.value < today
    ensures v == Rejected(CheckOutNotAfterCheckIn) <==>
              req.viewer.SignedIn? && WellFormed(catalog, req) && today <= req.checkIn.value
              && req.checkOut.value <= req.checkIn.value
    ensures v.Accepted? <==>
              req.viewer.SignedIn? && WellFormed(catalog, req)
              && today <= req.checkIn.value < req.checkOut.value
    ensures v.Accepted? ==>
              && v.quote.house == catalog[req.house.value]
              && v.quote.checkIn == req.checkIn.value
              && v.quote.checkOut == req.checkOut.value
              && v.quote.guests == GuestsParam(req.guests).value
              && v.quote.nights == v.quote.checkOut - v.quote.checkIn >= 1
              && v.quote.houseCost == StayCost(v.quote.house, v.quote.nights)
  {
    if req.viewer.Anonymous? then Rejected(LoginRequired)
    else if !AllPresent(req) then Rejected(MissingParameters)
    else if !WellFormed(catalog, req) then Rejected(InvalidData)
    else
      var house, checkIn, checkOut := catalog[req.house.value], req.checkIn.value, req.checkOut.value;
      if checkIn < today then Rejected(CheckInInPast)
      else if checkOut <= checkIn then Rejected(CheckOutNotAfterCheckIn)
      else
        var nights := checkOut - checkIn;
        Accepted(Quote(house, checkIn, checkOut, GuestsParam(req.guests).value, nights, StayCost(house, nights)))
  }

  /** With a non-negative nightly price, an accepted request costs at least one night's price. */
  lemma AcceptedCostAtLeastOneNight(catalog: map<HouseId, House>, req: Request, today: Day)
    requires Validate(catalog, req, today).Accepted?
    requires catalog[req.house.value].pricePerNight >= 0.0
    ensures var q := Validate(catalog, req, today).quote;
            q.house.pricePerNight <= q.houseCost
  {
    var q := Validate(catalog, req, today).quote;
    assert q.nights as real >= 1.0;
    assert q.house.pricePerNight * q.nights as real >= q.house.pricePerNight * 1.0;
  }

  /** Nightly price 5000, 1 to 4 June: three nights, 15000. */
  lemma ThreeNightsAtFiveThousand()
    ensures var june1 := 0;
            var v := Validate(map[7 := House(5000.0)],
                              Request(SignedIn(1), Given(7), Given(june1), Given(june1 + 3), Absent), june1);
            v.Accepted? && v.quote.nights == 3 && v.quote.houseCost == 15000.0 && v.quote.guests == 2
  {
  }

  /** Dates given the wrong way round are turned away with the check-out reason. */
  lemma ReversedDatesRejected()
    ensures var june1 := 0;
            Validate(map[7 := House(5000.0)],
                     Request(SignedIn(1), Given(7), Given(june1 + 3), Given(june1), Given(2)), june1)
              == Rejected(CheckOutNotAfterCheckIn)
  {
  }
}
