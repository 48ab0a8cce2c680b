/** What the specialist handlers hand back to the coordinator, the task
    records the coordinator keeps, and the pieces the three handlers share:
    Python's first-minimum / first-maximum selection and the city slot. */
module Outcomes {
  import opened Text
  import opened ToolServer

  datatype Skill = Skill(id: string, name: string, description: string)

  /** A handler's `agent_card`; `name` keys its response in the coordinator. */
  datatype AgentCard = AgentCard(name: string, description: string, skills: seq<Skill>)

  /** The `result` dictionaries the handler routines produce. */
  datatype TaskResult =
    | TravelPlan(flight: Flight, hotel: Hotel, totalCost: int)
    | FlightList(flights: seq<Flight>)
    | HotelList(hotels: seq<Hotel>)
    | WeatherInfo(reply: WeatherReply)
    | SeasonAdvice(bestMonth: int, bestMonthName: string, reason: string, allData: map<int, WeatherData>)
    | BudgetReport(totalBudget: int, flightCost: int, hotelCost: int, activitiesBudget: int,
                   dailyBudget: real, assessment: string)
    | BudgetTips(tips: seq<string>)

  /** A handler response: `{"status": "input-required", "message": q}` or
      `{"status": "completed", "result": r}`. */
  datatype Outcome = InputRequired(message: string) | Completed(result: TaskResult)

  datatype Status = Pending | InputRequiredStatus | CompletedStatus

  function StatusOf(o: Outcome): Status
  {
    if o.InputRequired? then InputRequiredStatus else CompletedStatus
  }

  /** A task record of the coordinator's `tasks` dictionary. */
  datatype Task = Task(id: string, message: string, status: Status, result: Option<TaskResult>)

  // ------------------------------------------------------------ selection

  /** Index of the element Python's `min` picks: a minimum, and the first one. */
  function FirstMinIndex(xs: seq<int>): (k: nat)
    requires |xs| > 0
    ensures k < |xs|
    ensures forall j :: 0 <= j < |xs| ==> xs[k] <= xs[j]
    ensures forall j :: 0 <= j < k ==> xs[k] < xs[j]
  {
    if |xs| == 1 then 0
    else
      var k := FirstMinIndex(xs[..|xs| - 1]);
      if xs[|xs| - 1] < xs[k] then |xs| - 1 else k
  }

  /** Index of the element Python's `max` picks: a maximum, and the first one. */
  function FirstMaxIndex(xs: seq<int>): (k: nat)
    requires |xs| > 0
    ensures k < |xs|
    ensures forall j :: 0 <= j < |xs| ==> xs[j] <= xs[k]
    ensures forall j :: 0 <= j < k ==> xs[j] < xs[k]
  {
    if |xs| == 1 then 0
    else
      var k := FirstMaxIndex(xs[..|xs| - 1]);
      if xs[|xs| - 1] > xs[k] then |xs| - 1 else k
  }

  // Projection helpers: they pick one field out of each record so that the
  // index searches above apply; their ensures only serve as proof aids.

  /** The flight prices, in list order. */
  function Prices(flights: seq<Flight>): (r: seq<int>)
    ensures |r| == |flights| && forall i :: 0 <= i < |r| ==> r[i] == flights[i].price
  {
    seq(|flights|, i requires 0 <= i < |flights| => flights[i].price)
  }

  /** The hotels' nightly prices, in list order. */
  function NightlyPrices(hotels: seq<Hotel>): (r: seq<int>)
    ensures |r| == |hotels| && forall i :: 0 <= i < |r| ==> r[i] == hotels[i].pricePerNight
  {
    seq(|hotels|, i requires 0 <= i < |hotels| => hotels[i].pricePerNight)
  }

  /** The hotels' ratings, in list order. */
  function Ratings(hotels: seq<Hotel>): (r: seq<int>)
    ensures |r| == |hotels| && forall i :: 0 <= i < |r| ==> r[i] == hotels[i].rating
  {
    seq(|hotels|, i requires 0 <= i < |hotels| => hotels[i].rating)
  }

  // ------------------------------------------------------------ slots

  /** The destination / location slot every handler fills the same way
      (a case-sensitive test on the original message). */
  function CitySlot(message: string): (city: string)
    ensures city == "Hawaii" || city == "Paris"
    ensures city == "Hawaii" <==> Contains(message, "Hawaii") || Contains(message, "Maui")
  {
    if Contains(message, "Hawaii") || Contains(message, "Maui") then "Hawaii" else "Paris"
  }

  const DefaultDate := "2025-06-15"
  const DefaultNights := 5
}
