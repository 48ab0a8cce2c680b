/** The travel specialist (`TravelAgent`): it classifies a task's message by
    the lowercased tokens "flüge" and "hotel", fills origin, destination,
    date and stay length with hardcoded choices, calls the flight and hotel
    tools through the client and, when planning both, keeps the first
    cheapest flight and the first best-rated hotel. */
module Travel {
  import opened Text
  import opened ToolServer
  import opened ToolClient
  import opened Outcomes

  const TravelCard := AgentCard("Travel Agent", "Spezialist für Reisebuchungen, Flüge und Hotels", [
    Skill("flight_booking", "Flugbuchung", "Kann die besten Flüge für Ihre Reise finden"),
    Skill("hotel_booking", "Hotelbuchung", "Kann die passende Unterkunft für Ihren Aufenthalt finden")
  ])

  const TravelQuestion := "Ich bin nicht sicher, was Sie suchen. Möchten Sie Flüge, Hotels oder beides?"

  datatype TravelRoutine = PlanTrip | FindFlightsOnly | FindHotelsOnly | AskTraveller

  /** `process_task`'s dispatch: both tokens plan a trip, either one alone
      searches for it, neither asks back. */
  function ClassifyTravel(message: string): (r: TravelRoutine)
    ensures r == PlanTrip <==> Contains(Lower(message), "flüge") && Contains(Lower(message), "hotel")
    ensures r == FindFlightsOnly <==> Contains(Lower(message), "flüge") && !Contains(Lower(message), "hotel")
    ensures r == FindHotelsOnly <==> !Contains(Lower(message), "flüge") && Contains(Lower(message), "hotel")
    ensures r == AskTraveller <==> !Contains(Lower(message), "flüge") && !Contains(Lower(message), "hotel")
  {
    var lower := Lower(message);
    if Contains(lower, "flüge") && Contains(lower, "hotel") then PlanTrip
    else if Contains(lower, "flüge") then FindFlightsOnly
    else if Contains(lower, "hotel") then FindHotelsOnly
    else AskTraveller
  }

  /** The origin slot: "LAX" when the message names it (case-sensitive), "JFK" otherwise. */
  function Origin(message: string): (origin: string)
    ensures origin == "LAX" || origin == "JFK"
    ensures origin == "LAX" <==> Contains(message, "LAX")
  {
    if Contains(message, "LAX") then "LAX" else "JFK"
  }

  function FlightQuery(message: string): Params
  {
    map["origin" := StrArg(Origin(message)), "destination" := StrArg(CitySlot(message)), "date" := StrArg(DefaultDate)]
  }

  function HotelQuery(message: string): Params
  {
    map["location" := StrArg(CitySlot(message)), "check_in" := StrArg(DefaultDate), "nights" := IntArg(DefaultNights)]
  }

  /** The handlers pass a city name as `destination`, so the route key is
      never a recorded one: every flight search they make gets the fallback. */
  lemma {:induction false} HandlerFlightsAreFallback(message: string)
    ensures ToolResponse("search_flights", FlightQuery(message)) == Result(FlightsOut(FallbackFlights))
  {
    var q := FlightQuery(message);
    assert q.Keys == ParamNames("search_flights");
    var key := RouteKey(q["origin"], q["destination"]);
    assert |key| == 3 + 1 + |CitySlot(message)|;
    assert |key| > 7;
    assert key !in FlightTable;
  }

  /** The city slot is always a recorded hotel location, so every hotel the
      handlers get back carries `total_price = price_per_night * 5`. */
  lemma {:induction false} HandlerHotelsAreAnnotated(message: string)
    ensures ToolResponse("search_hotels", HotelQuery(message))
            == Result(HotelsOut(WithTotals(HotelTable[CitySlot(message)], IntArg(DefaultNights))))
    ensures |HotelTable[CitySlot(message)]| == 3
  {
    var q := HotelQuery(message);
    assert q.Keys == ParamNames("search_hotels");
    assert KnownHotelLocation(q["location"]);
  }

  /** Every entry carries an int `total_price`, as `plan_travel` needs. */
  predicate PricedForStay(hotels: seq<Hotel>)
  {
    forall i :: 0 <= i < |hotels| ==> hotels[i].totalPrice.Some? && hotels[i].totalPrice.value.IntArg?
  }

  /** The selection of `plan_travel`: the first cheapest flight, the first
      best-rated hotel and the sum of the flight price and the hotel's total. */
  function ChooseTrip(flights: seq<Flight>, hotels: seq<Hotel>): (r: TaskResult)
    requires |flights| > 0 && |hotels| > 0 && PricedForStay(hotels)
    ensures r.TravelPlan?
    ensures exists k :: 0 <= k < |flights| && flights[k] == r.flight &&
              (forall j :: 0 <= j < |flights| ==> r.flight.price <= flights[j].price) &&
              (forall j :: 0 <= j < k ==> r.flight.price < flights[j].price)
    ensures exists k :: 0 <= k < |hotels| && hotels[k] == r.hotel &&
              (forall j :: 0 <= j < |hotels| ==> hotels[j].rating <= r.hotel.rating) &&
              (forall j :: 0 <= j < k ==> hotels[j].rating < r.hotel.rating)
    ensures r.hotel.totalPrice.Some? && r.hotel.totalPrice.value.IntArg?
    ensures r.totalCost == r.flight.price + r.hotel.totalPrice.value.n
  {
    var f := FirstMinIndex(Prices(flights));
    var h := FirstMaxIndex(Ratings(hotels));
    assert Prices(flights)[f] == flights[f].price;
    assert Ratings(hotels)[h] == hotels[h].rating;
    TravelPlan(flights[f], hotels[h], flights[f].price + hotels[h].totalPrice.value.n)
  }

  /** The hotel list the handlers receive: the city's hotels priced for five nights. */
  function StayHotels(message: string): (hotels: seq<Hotel>)
    ensures |hotels| == 3 && PricedForStay(hotels)
    ensures var listed := HotelTable[CitySlot(message)];
            |listed| == 3 &&
            forall i :: 0 <= i < 3 ==>
              hotels[i] == listed[i].(totalPrice := Some(IntArg(listed[i].pricePerNight * DefaultNights)))
  {
    var listed := HotelTable[CitySlot(message)];
    assert |listed| == 3;
    WithTotals(listed, IntArg(DefaultNights))
  }

  /** `plan_travel`. */
  function PlanTravelOutcome(message: string): (r: Outcome)
    ensures r == Completed(ChooseTrip(FallbackFlights, StayHotels(message)))
  {
    HandlerFlightsAreFallback(message);
    HandlerHotelsAreAnnotated(message);
    var flights := ToolResponse("search_flights", FlightQuery(message)).value.flights;
    var hotels := ToolResponse("search_hotels", HotelQuery(message)).value.hotels;
    assert flights == FallbackFlights && hotels == StayHotels(message);
    Completed(ChooseTrip(flights, hotels))
  }

  const HawaiiStay := [Hotel("Beach Resort", 240, 45, Some(IntArg(1200))),
                       Hotel("Tropical Paradise", 320, 48, Some(IntArg(1600))),
                       Hotel("Ocean View Lodge", 180, 40, Some(IntArg(900)))]

  /** The three Hawaii hotels priced for five nights. */
  lemma StayHotelsHawaii(message: string)
    requires Contains(message, "Hawaii")
    ensures StayHotels(message) == HawaiiStay
  {
    assert CitySlot(message) == "Hawaii";
  }

  lemma ChooseTripHawaii()
    ensures PricedForStay(HawaiiStay)
    ensures ChooseTrip(FallbackFlights, HawaiiStay) == TravelPlan(FallbackFlights[1], HawaiiStay[1], 2050)
  {
    var t := ChooseTrip(FallbackFlights, HawaiiStay);
    assert t.flight == FallbackFlights[1];
    assert t.hotel == HawaiiStay[1];
  }

  /** For a Hawaii trip the plan is Budget Air (450) and five nights at
      Tropical Paradise (rated 4.8, 1600 in all): 2050. */
  lemma PlanTravelHawaii(message: string)
    requires Contains(message, "Hawaii")
    ensures PlanTravelOutcome(message).result ==
            TravelPlan(Flight("Budget Air", 450, "6h 30m"),
                       Hotel("Tropical Paradise", 320, 48, Some(IntArg(1600))), 2050)
  {
    StayHotelsHawaii(message);
    ChooseTripHawaii();
  }

  /** `find_flights`: the whole candidate list, unranked. */
  function FindFlightsOutcome(message: string): (r: Outcome)
    ensures r == Completed(FlightList(FallbackFlights))
  {
    HandlerFlightsAreFallback(message);
    Completed(FlightList(ToolResponse("search_flights", FlightQuery(message)).value.flights))
  }

  /** `find_hotels`: the whole annotated candidate list, unranked. */
  function FindHotelsOutcome(message: string): (r: Outcome)
    ensures r == Completed(HotelList(StayHotels(message)))
  {
    HandlerHotelsAreAnnotated(message);
    Completed(HotelList(ToolResponse("search_hotels", HotelQuery(message)).value.hotels))
  }

  /** `process_task` of the travel handler. */
  function TravelOutcome(message: string): (r: Outcome)
    ensures r.InputRequired? <==> ClassifyTravel(message) == AskTraveller
    ensures r.InputRequired? ==> r.message == TravelQuestion
    ensures ClassifyTravel(message) == PlanTrip ==> r == PlanTravelOutcome(message)
    ensures ClassifyTravel(message) == FindFlightsOnly ==> r == FindFlightsOutcome(message)
    ensures ClassifyTravel(message) == FindHotelsOnly ==> r == FindHotelsOutcome(message)
  {
    match ClassifyTravel(message)
    case PlanTrip => PlanTravelOutcome(message)
    case FindFlightsOnly => FindFlightsOutcome(message)
    case FindHotelsOnly => FindHotelsOutcome(message)
    case AskTraveller => InputRequired(TravelQuestion)
  }

  class TravelAgent {
    const client: Client
    const card: AgentCard

    constructor (mcpClient: Client)
      ensures client == mcpClient && card == TravelCard
    {
      client := mcpClient;
      card := TravelCard;
    }

    method ProcessTask(task: Task) returns (outcome: Outcome)
      requires client.Valid()
      modifies client
      ensures client.Valid()
      ensures outcome == TravelOutcome(task.message)
      ensures client.availableTools ==
                if outcome.InputRequired? then old(client.availableTools) else Some(ListTools())
    {
      var lower := Lower(task.message);
      if Contains(lower, "flüge") && Contains(lower, "hotel") {
        outcome := PlanTravel(task);
      } else if Contains(lower, "flüge") {
        outcome := FindFlights(task);
      } else if Contains(lower, "hotel") {
        outcome := FindHotels(task);
      } else {
        outcome := InputRequired(TravelQuestion);
      }
    }

    method PlanTravel(task: Task) returns (outcome: Outcome)
      requires client.Valid()
      modifies client
      ensures client.Valid() && client.availableTools == Some(ListTools())
      ensures outcome == PlanTravelOutcome(task.message)
    {
      var message := task.message;
      var origin := Origin(message);
      var destination := CitySlot(message);
      var date := DefaultDate;
      var nights := DefaultNights;
      var flightsResult := client.CallTool("search_flights",
        map["origin" := StrArg(origin), "destination" := StrArg(destination), "date" := StrArg(date)]);
      var hotelsResult := client.CallTool("search_hotels",
        map["location" := StrArg(destination), "check_in" := StrArg(date), "nights" := IntArg(nights)]);
      HandlerFlightsAreFallback(message);
      HandlerHotelsAreAnnotated(message);
      outcome := Completed(ChooseTrip(flightsResult.value.flights, hotelsResult.value.hotels));
    }

    method FindFlights(task: Task) returns (outcome: Outcome)
      requires client.Valid()
      modifies client
      ensures client.Valid() && client.availableTools == Some(ListTools())
      ensures outcome == FindFlightsOutcome(task.message)
    {
      var message := task.message;
      var origin := Origin(message);
      var destination := CitySlot(message);
      var flightsResult := client.CallTool("search_flights",
        map["origin" := StrArg(origin), "destination" := StrArg(destination), "date" := StrArg(DefaultDate)]);
      HandlerFlightsAreFallback(message);
      outcome := Completed(FlightList(flightsResult.value.flights));
    }

    method FindHotels(task: Task) returns (outcome: Outcome)
      requires client.Valid()
      modifies client
      ensures client.Valid() && client.availableTools == Some(ListTools())
      ensures outcome == FindHotelsOutcome(task.message)
    {
      var message := task.message;
      var location := CitySlot(message);
      var hotelsResult := client.CallTool("search_hotels",
        map["location" := StrArg(location), "check_in" := StrArg(DefaultDate), "nights" := IntArg(DefaultNights)]);
      HandlerHotelsAreAnnotated(message);
      outcome := Completed(HotelList(hotelsResult.value.hotels));
    }
  }
}
