/** The in-process tool server (`MCPToolServer`): a registry of four
    table-driven tools and `call_tool`, which wraps every invocation in a
    result/error envelope. The server holds no mutable state (its `tools`
    dictionary is fixed at construction), so its operations are functions of
    their arguments; the one loop of the source, the annotation of hotel
    entries with their total price, is the method `SearchHotels`. */
module ToolServer {
  import opened Text

  /** A keyword argument value as the handlers pass them: an int or a str. */
  datatype Arg = IntArg(n: int) | StrArg(s: string)

  /** The `parameters` dictionary given to `call_tool`. */
  type Params = map<string, Arg>

  /** Python's `str(a)` / `f"{a}"`. */
  function ArgText(a: Arg): string
  {
    match a
    case IntArg(n) => IntToString(n)
    case StrArg(s) => s
  }

  /** Python's `type(a).__name__`. */
  function TypeName(a: Arg): string
  {
    if a.IntArg? then "int" else "str"
  }

  datatype ToolDescriptor = ToolDescriptor(name: string, description: string, parameters: map<string, string>)

  datatype WeatherData = WeatherData(temp: int, condition: string, rainDays: int)

  /** What `get_weather` returns: a report, or a dictionary holding only an
      `error` entry (which `call_tool` still wraps as a result). */
  datatype WeatherReply =
    | Report(location: string, month: Arg, data: WeatherData)
    | NoData(error: string)

  datatype Flight = Flight(airline: string, price: int, duration: string)

  /** A hotel entry; `rating` is in tenths (48 stands for 4.8) and
      `totalPrice` is the `total_price` key, present only once annotated. */
  datatype Hotel = Hotel(name: string, pricePerNight: int, rating: int, totalPrice: Option<Arg>)

  datatype BudgetSplit = BudgetSplit(totalBudget: int, flightCost: int, hotelCost: int, activitiesBudget: int)

  /** The return value of each of the four tools. */
  datatype ToolOutput =
    | BudgetOut(split: BudgetSplit)
    | WeatherOut(reply: WeatherReply)
    | FlightsOut(flights: seq<Flight>)
    | HotelsOut(hotels: seq<Hotel>)

  /** The envelope `{"result": ...}` or `{"error": ...}`: exactly one of the two. */
  datatype CallResult = Result(value: ToolOutput) | Error(message: string)

  // ---------------------------------------------------------------- registry

  const Registry: set<string> := {"calculate_budget", "get_weather", "search_flights", "search_hotels"}

  /** The keyword parameters of each tool's Python signature. */
  function ParamNames(name: string): set<string>
  {
    if name == "calculate_budget" then {"total_budget", "flight_cost", "hotel_cost"}
    else if name == "get_weather" then {"location", "month"}
    else if name == "search_flights" then {"origin", "destination", "date"}
    else if name == "search_hotels" then {"location", "check_in", "nights"}
    else {}
  }

  /** The descriptor `list_tools` publishes for one registered tool. */
  function Describe(name: string): ToolDescriptor
  {
    if name == "calculate_budget" then
      ToolDescriptor("calculate_budget", "Berechnet das verfügbare Budget für Aktivitäten",
        map["total_budget" := "Gesamtbudget für die Reise",
            "flight_cost" := "Kosten für Flüge",
            "hotel_cost" := "Kosten für die Unterkunft"])
    else if name == "get_weather" then
      ToolDescriptor("get_weather", "Gibt Wetterdaten für einen bestimmten Ort zurück",
        map["location" := "Name des Ortes",
            "month" := "Monat (1-12)"])
    else if name == "search_flights" then
      ToolDescriptor("search_flights", "Sucht Flüge zwischen zwei Orten",
        map["origin" := "Abflugort",
            "destination" := "Zielort",
            "date" := "Reisedatum (YYYY-MM-DD)"])
    else
      ToolDescriptor("search_hotels", "Sucht Hotels an einem bestimmten Ort",
        map["location" := "Name des Ortes",
            "check_in" := "Check-in-Datum (YYYY-MM-DD)",
            "nights" := "Anzahl der Übernachtungen"])
  }

  /** `list_tools`: one descriptor per registered tool. */
  function ListTools(): (tools: map<string, ToolDescriptor>)
    ensures tools.Keys == Registry
  {
    map name | name in Registry :: Describe(name)
  }

  /** Each descriptor is filed under its own name and describes exactly the
      parameters of that tool's signature. */
  lemma ListToolsSignatures(name: string)
    requires name in Registry
    ensures ListTools()[name].name == name && ListTools()[name].parameters.Keys == ParamNames(name)
  {
    assert ListTools()[name] == Describe(name);
  }

  // ---------------------------------------------------------------- tools

  /** The TypeError text for `a - b` on operands Python cannot subtract. */
  function OperandError(a: Arg, b: Arg): string
  {
    "unsupported operand type(s) for -: '" + TypeName(a) + "' and '" + TypeName(b) + "'"
  }

  /** `calculate_budget`: echoes its inputs and subtracts both costs from the
      total, with no check that the remainder is non-negative. A str operand
      makes the subtraction raise; the raised message is the error. */
  function CalculateBudget(total: Arg, flight: Arg, hotel: Arg): (r: CallResult)
    ensures r.Result? <==> total.IntArg? && flight.IntArg? && hotel.IntArg?
    ensures r.Result? ==> r.value == BudgetOut(BudgetSplit(total.n, flight.n, hotel.n, total.n - flight.n - hotel.n))
    ensures r.Result? ==> r.value.split.activitiesBudget + r.value.split.flightCost + r.value.split.hotelCost
                          == r.value.split.totalBudget
  {
    if !(total.IntArg? && flight.IntArg?) then Error(OperandError(total, flight))
    else if !hotel.IntArg? then Error(OperandError(IntArg(total.n - flight.n), hotel))
    else Result(BudgetOut(BudgetSplit(total.n, flight.n, hotel.n, total.n - flight.n - hotel.n)))
  }

  const WeatherTable: map<string, map<string, WeatherData>> := map[
    "Hawaii" := map["6" := WeatherData(28, "sonnig", 3),
                    "7" := WeatherData(29, "sonnig", 2),
                    "8" := WeatherData(29, "sonnig", 2)],
    "Paris" := map["6" := WeatherData(22, "gemischt", 7),
                   "7" := WeatherData(25, "sonnig", 5),
                   "8" := WeatherData(24, "sonnig", 6)],
    "Tokyo" := map["6" := WeatherData(24, "regnerisch", 12),
                   "7" := WeatherData(28, "feucht", 10),
                   "8" := WeatherData(30, "feucht", 8)]
  ]

  /** `get_weather`: the recorded entry for a known location and `str(month)`,
      otherwise a reply carrying only an error text. */
  function GetWeather(location: Arg, month: Arg): (r: WeatherReply)
    ensures r.Report? <==> location.StrArg? && location.s in WeatherTable && ArgText(month) in WeatherTable[location.s]
    ensures r.Report? ==> r == Report(location.s, month, WeatherTable[location.s][ArgText(month)])
    ensures !(location.StrArg? && location.s in WeatherTable) ==>
              r == NoData("Keine Wetterdaten für " + ArgText(location) + " verfügbar")
  {
    if !(location.StrArg? && location.s in WeatherTable) then
      NoData("Keine Wetterdaten für " + ArgText(location) + " verfügbar")
    else if ArgText(month) !in WeatherTable[location.s] then
      NoData("Keine Wetterdaten für " + ArgText(location) + " im Monat " + ArgText(month))
    else
      Report(location.s, month, WeatherTable[location.s][ArgText(month)])
  }

  /** For an int month at a recorded location, there is data exactly for June,
      July and August. */
  lemma WeatherKnownMonths(location: string, month: int)
    requires location in WeatherTable
    ensures GetWeather(StrArg(location), IntArg(month)).Report? <==> month in {6, 7, 8}
  {
    IntToStringSingleDigit(month, 6);
    IntToStringSingleDigit(month, 7);
    IntToStringSingleDigit(month, 8);
    assert WeatherTable[location].Keys == {[DigitChar(6)], [DigitChar(7)], [DigitChar(8)]};
  }

  const FlightTable: map<string, seq<Flight>> := map[
    "LAX-HNL" := [Flight("Hawaiian", 450, "5h 45m"), Flight("Delta", 520, "5h 55m"), Flight("United", 480, "6h 10m")],
    "JFK-CDG" := [Flight("Air France", 780, "7h 30m"), Flight("Delta", 820, "7h 20m"), Flight("United", 750, "7h 45m")]
  ]

  const FallbackFlights: seq<Flight> := [Flight("Generic Air", 500, "6h 0m"), Flight("Budget Air", 450, "6h 30m")]

  /** The route key `f"{origin}-{destination}"`. */
  function RouteKey(origin: Arg, destination: Arg): string
  {
    ArgText(origin) + "-" + ArgText(destination)
  }

  /** `search_flights`: the recorded list for a known route key, the fixed
      two-entry fallback for every other key; it never fails. */
  function SearchFlights(origin: Arg, destination: Arg, date: Arg): (r: seq<Flight>)
    ensures |r| > 0
    ensures RouteKey(origin, destination) !in FlightTable ==> r == FallbackFlights
    ensures RouteKey(origin, destination) in FlightTable ==> r == FlightTable[RouteKey(origin, destination)]
  {
    var key := RouteKey(origin, destination);
    if key !in FlightTable then FallbackFlights else FlightTable[key]
  }

  const HotelTable: map<string, seq<Hotel>> := map[
    "Hawaii" := [Hotel("Beach Resort", 240, 45, None), Hotel("Tropical Paradise", 320, 48, None),
                 Hotel("Ocean View Lodge", 180, 40, None)],
    "Paris" := [Hotel("Le Grand Hotel", 270, 46, None), Hotel("Eiffel Apartments", 210, 43, None),
                Hotel("Seine River Hotel", 190, 41, None)],
    "Tokyo" := [Hotel("Sakura Inn", 200, 44, None), Hotel("Tokyo Skyline Hotel", 280, 47, None),
                Hotel("Cherry Blossom Suites", 240, 45, None)]
  ]

  const FallbackHotels: seq<Hotel> := [Hotel("Standard Hotel", 150, 38, None), Hotel("Comfort Inn", 120, 35, None)]

  /** Python's `price_per_night * nights`: a product for an int, repetition
      of the text for a str. */
  function Times(price: int, nights: Arg): Arg
  {
    match nights
    case IntArg(n) => IntArg(price * n)
    case StrArg(s) => StrArg(Repeat(s, price))
  }

  /** A hotel list with `total_price` set on every entry. */
  function WithTotals(hotels: seq<Hotel>, nights: Arg): (r: seq<Hotel>)
    ensures |r| == |hotels|
    ensures forall i :: 0 <= i < |r| ==>
              && r[i].name == hotels[i].name
              && r[i].pricePerNight == hotels[i].pricePerNight
              && r[i].rating == hotels[i].rating
              && r[i].totalPrice == Some(Times(hotels[i].pricePerNight, nights))
  {
    if hotels == [] then []
    else WithTotals(hotels[..|hotels| - 1], nights)
         + [hotels[|hotels| - 1].(totalPrice := Some(Times(hotels[|hotels| - 1].pricePerNight, nights)))]
  }

  predicate KnownHotelLocation(location: Arg)
  {
    location.StrArg? && location.s in HotelTable
  }

  /** The list `search_hotels` returns. */
  function HotelSearch(location: Arg, nights: Arg): seq<Hotel>
  {
    if KnownHotelLocation(location) then WithTotals(HotelTable[location.s], nights) else FallbackHotels
  }

  /** Hotel search never comes back empty; fallback entries carry no total
      price, and every entry for a recorded location carries
      `price_per_night * nights`. */
  lemma HotelSearchTotals(location: Arg, nights: Arg)
    ensures |HotelSearch(location, nights)| > 0
    ensures !KnownHotelLocation(location) ==> HotelSearch(location, nights) == FallbackHotels
    ensures forall h :: h in HotelSearch(location, nights) ==>
              (h.totalPrice.Some? <==> KnownHotelLocation(location))
    ensures forall h :: h in HotelSearch(location, nights) && KnownHotelLocation(location) ==>
              h.totalPrice == Some(Times(h.pricePerNight, nights))
  {
    var r := HotelSearch(location, nights);
    if KnownHotelLocation(location) {
      forall h | h in r
        ensures h.totalPrice == Some(Times(h.pricePerNight, nights))
      {
        var i :| 0 <= i < |r| && r[i] == h;
      }
    }
  }

  /** `search_hotels`, annotating each entry of the freshly built list in a loop. */
  method SearchHotels(location: Arg, checkIn: Arg, nights: Arg) returns (hotels: seq<Hotel>)
    ensures hotels == HotelSearch(location, nights)
  {
    if !KnownHotelLocation(location) {
      return FallbackHotels;
    }
    hotels := HotelTable[location.s];
    ghost var listed := hotels;
    var i := 0;
    while i < |hotels|
      invariant 0 <= i <= |hotels| == |listed|
      invariant forall j :: 0 <= j < i ==> hotels[j] == listed[j].(totalPrice := Some(Times(listed[j].pricePerNight, nights)))
      invariant forall j :: i <= j < |hotels| ==> hotels[j] == listed[j]
    {
      hotels := hotels[i := hotels[i].(totalPrice := Some(Times(hotels[i].pricePerNight, nights)))];
      i := i + 1;
    }
    assert forall j :: 0 <= j < |hotels| ==> hotels[j] == WithTotals(listed, nights)[j];
  }

  // ---------------------------------------------------------------- call_tool

  /** The text of the TypeError Python raises when `tool(**params)` does not
      match the tool's signature (CPython's wording is approximated). */
  function BindError(name: string, params: Params): string
  {
    if !(params.Keys <= ParamNames(name)) then "MCPToolServer." + name + "() got an unexpected keyword argument"
    else "MCPToolServer." + name + "() missing required positional arguments"
  }

  /** The keyword arguments match the tool's signature exactly. */
  predicate Binds(name: string, params: Params)
  {
    params.Keys == ParamNames(name)
  }

  /** The call of a registered tool with matching keyword arguments. */
  function Invoke(name: string, params: Params): CallResult
    requires name in Registry && Binds(name, params)
  {
    if name == "calculate_budget" then
      CalculateBudget(params["total_budget"], params["flight_cost"], params["hotel_cost"])
    else if name == "get_weather" then
      Result(WeatherOut(GetWeather(params["location"], params["month"])))
    else if name == "search_flights" then
      Result(FlightsOut(SearchFlights(params["origin"], params["destination"], params["date"])))
    else
      Result(HotelsOut(HotelSearch(params["location"], params["nights"])))
  }

  /** `call_tool` as a function of the tool name and parameters. */
  function ToolResponse(name: string, params: Params): (r: CallResult)
    ensures name !in Registry ==> r == Error("Tool '" + name + "' nicht gefunden")
    ensures name in Registry && !Binds(name, params) ==> r == Error(BindError(name, params))
  {
    if name !in Registry then Error("Tool '" + name + "' nicht gefunden")
    else if !Binds(name, params) then Error(BindError(name, params))
    else Invoke(name, params)
  }

  /** The envelope holds a result exactly when the tool exists, the keyword
      arguments match its signature and, for `calculate_budget`, all three
      amounts are ints. */
  lemma ToolResponseSucceeds(name: string, params: Params)
    ensures ToolResponse(name, params).Result? <==>
              && name in Registry
              && Binds(name, params)
              && (name == "calculate_budget" ==>
                    params["total_budget"].IntArg? && params["flight_cost"].IntArg? && params["hotel_cost"].IntArg?)
  {
  }


  /** A failed weather lookup is reported inside a successful envelope: the
      caller sees `result` holding a reply whose only entry is `error`. */
  lemma WeatherErrorInsideResult(params: Params)
    requires params.Keys == {"location", "month"}
    requires !GetWeather(params["location"], params["month"]).Report?
    ensures ToolResponse("get_weather", params).Result?
    ensures ToolResponse("get_weather", params).value.reply.NoData?
  {
  }

  /** A well-formed `get_weather` call is answered by the lookup itself. */
  lemma WeatherDispatch(params: Params)
    requires params.Keys == {"location", "month"}
    ensures ToolResponse("get_weather", params) == Result(WeatherOut(GetWeather(params["location"], params["month"])))
  {
    assert params.Keys == ParamNames("get_weather");
  }

  /** `call_tool`: dispatches to the registered tool; hotel search runs its loop. */
  method CallTool(name: string, params: Params) returns (r: CallResult)
    ensures r == ToolResponse(name, params)
  {
    if name !in Registry {
      return Error("Tool '" + name + "' nicht gefunden");
    }
    if !Binds(name, params) {
      return Error(BindError(name, params));
    }
    if name == "search_hotels" {
      var hotels := SearchHotels(params["location"], params["check_in"], params["nights"]);
      r := Result(HotelsOut(hotels));
    } else {
      r := ToolResponse(name, params);
    }
  }
}
