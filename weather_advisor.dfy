/** The weather specialist (`WeatherAdvisor`): "wetter" asks for one
    lookup, "beste zeit" / "beste jahreszeit" for a recommendation that
    looks up June, July and August one call at a time and keeps the first
    month with the fewest rain days. */
module WeatherAdvice {
  import opened Text
  import opened ToolServer
  import opened ToolClient
  import opened Outcomes

  const WeatherCard := AgentCard("Weather Advisor", "Spezialist für Wetterberatung und optimale Reisezeiten", [
    Skill("weather_forecast", "Wettervorhersage", "Kann Wetterbedingungen für verschiedene Orte vorhersagen"),
    Skill("travel_season_advice", "Reisezeitenberatung", "Empfiehlt die beste Jahreszeit für bestimmte Reiseziele")
  ])

  const WeatherQuestion :=
    "Möchten Sie Wetterinformationen für einen bestimmten Ort oder eine Empfehlung für die beste Reisezeit?"

  datatype WeatherRoutine = CurrentWeather | BestSeason | AskWeather

  /** `process_task`'s dispatch: "wetter" wins over the season tokens. */
  function ClassifyWeather(message: string): (r: WeatherRoutine)
    ensures r == CurrentWeather <==> Contains(Lower(message), "wetter")
    ensures r == BestSeason <==>
              !Contains(Lower(message), "wetter") &&
              (Contains(Lower(message), "beste zeit") || Contains(Lower(message), "beste jahreszeit"))
  {
    var lower := Lower(message);
    if Contains(lower, "wetter") then CurrentWeather
    else if Contains(lower, "beste zeit") || Contains(lower, "beste jahreszeit") then BestSeason
    else AskWeather
  }

  /** The month slot of `get_weather_info`: June unless July or August is named. */
  function MonthSlot(message: string): (m: int)
    ensures m in {6, 7, 8}
    ensures m == 7 <==> Contains(Lower(message), "juli")
    ensures m == 8 <==> !Contains(Lower(message), "juli") && Contains(Lower(message), "august")
  {
    var lower := Lower(message);
    if Contains(lower, "juli") then 7 else if Contains(lower, "august") then 8 else 6
  }

  function WeatherQuery(location: string, month: int): Params
  {
    map["location" := StrArg(location), "month" := IntArg(month)]
  }

  /** For the handler's cities and months the lookup always finds an entry;
      the "error inside result" reply of `get_weather` never reaches it. */
  lemma {:induction false} HandlerWeatherFound(location: string, month: int)
    requires location == "Hawaii" || location == "Paris"
    requires month in {6, 7, 8}
    ensures ToolResponse("get_weather", WeatherQuery(location, month)) ==
            Result(WeatherOut(Report(location, IntArg(month), WeatherTable[location][IntToString(month)])))
  {
    var q := WeatherQuery(location, month);
    assert q.Keys == {"location", "month"};
    WeatherDispatch(q);
    WeatherKnownMonths(location, month);
  }

  /** `get_weather_info`: the tool's reply for the city and month slots,
      always a recorded report. */
  function WeatherInfoOutcome(message: string): (r: Outcome)
    ensures r == Completed(WeatherInfo(Report(CitySlot(message), IntArg(MonthSlot(message)),
                                              WeatherTable[CitySlot(message)][IntToString(MonthSlot(message))])))
  {
    HandlerWeatherFound(CitySlot(message), MonthSlot(message));
    Completed(WeatherInfo(ToolResponse("get_weather", WeatherQuery(CitySlot(message), MonthSlot(message))).value.reply))
  }

  const SeasonMonths: seq<int> := [6, 7, 8]
  const MonthNames: map<int, string> := map[6 := "Juni", 7 := "Juli", 8 := "August"]

  /** The data entry of one monthly lookup. */
  function MonthData(location: string, month: int): (d: WeatherData)
    requires location == "Hawaii" || location == "Paris"
    requires month in {6, 7, 8}
    ensures IntToString(month) in WeatherTable[location] && d == WeatherTable[location][IntToString(month)]
  {
    HandlerWeatherFound(location, month);
    ToolResponse("get_weather", WeatherQuery(location, month)).value.reply.data
  }

  /** The rain-day counts of the recorded months, in the dictionary's order. */
  function RainDaysOf(months: seq<int>, data: map<int, WeatherData>): (r: seq<int>)
    requires forall i :: 0 <= i < |months| ==> months[i] in data
    ensures |r| == |months| && forall i :: 0 <= i < |r| ==> r[i] == data[months[i]].rainDays
  {
    seq(|months|, i requires 0 <= i < |months| => data[months[i]].rainDays)
  }

  function SeasonReason(d: WeatherData): string
  {
    "Am wenigsten Regentage (" + IntToString(d.rainDays) + " Tage) und durchschnittlich "
    + IntToString(d.temp) + "°C"
  }

  /** The recommendation built from the collected `weather_data`. */
  function SeasonAdviceFrom(data: map<int, WeatherData>): (r: TaskResult)
    requires forall m :: m in SeasonMonths ==> m in data
    ensures r.SeasonAdvice? && r.bestMonth in SeasonMonths && r.allData == data
    ensures forall m :: m in SeasonMonths ==> data[r.bestMonth].rainDays <= data[m].rainDays
    ensures forall i :: 0 <= i < |SeasonMonths| && SeasonMonths[i] < r.bestMonth ==>
              data[r.bestMonth].rainDays < data[SeasonMonths[i]].rainDays
    ensures r.bestMonthName == MonthNames[r.bestMonth]
    ensures r.reason == SeasonReason(data[r.bestMonth])
  {
    var k := FirstMinIndex(RainDaysOf(SeasonMonths, data));
    var best := SeasonMonths[k];
    SeasonAdvice(best, MonthNames[best], SeasonReason(data[best]), data)
  }

  /** The `weather_data` dictionary after the first `n` monthly lookups. */
  function Collected(location: string, n: nat): (data: map<int, WeatherData>)
    requires location == "Hawaii" || location == "Paris"
    requires n <= |SeasonMonths|
    ensures data.Keys == set i | 0 <= i < n :: SeasonMonths[i]
    ensures forall m :: m in data ==> m in {6, 7, 8} && data[m] == MonthData(location, m)
  {
    if n == 0 then map[]
    else
      var month := SeasonMonths[n - 1];
      assert (set i | 0 <= i < n :: SeasonMonths[i]) == (set i | 0 <= i < n - 1 :: SeasonMonths[i]) + {month};
      Collected(location, n - 1)[month := MonthData(location, month)]
  }

  /** One iteration of the collection loop: the reply for the next month is
      a report, and recording its data extends the collected prefix. */
  lemma CollectedStep(location: string, i: nat, data: map<int, WeatherData>, r: CallResult)
    requires location == "Hawaii" || location == "Paris"
    requires i < |SeasonMonths| && data == Collected(location, i)
    requires r == ToolResponse("get_weather", WeatherQuery(location, SeasonMonths[i]))
    ensures r.Result? && r.value.WeatherOut? && r.value.reply.Report?
    ensures data[SeasonMonths[i] := r.value.reply.data] == Collected(location, i + 1)
  {
    HandlerWeatherFound(location, SeasonMonths[i]);
  }

  /** The three season months are collected. */
  lemma CollectedSeasonMonths(location: string)
    requires location == "Hawaii" || location == "Paris"
    ensures Collected(location, 3).Keys == {6, 7, 8}
  {
    assert SeasonMonths[0] == 6 && SeasonMonths[1] == 7 && SeasonMonths[2] == 8;
    assert (set i | 0 <= i < 3 :: SeasonMonths[i]) == {6, 7, 8};
  }

  /** Each collected month holds its table entry. */
  lemma CollectedFromTable(location: string, n: nat)
    requires location == "Hawaii" || location == "Paris"
    requires n <= |SeasonMonths|
    ensures forall m :: m in Collected(location, n) ==>
              Collected(location, n)[m] == WeatherTable[location][IntToString(m)]
  {
    var data := Collected(location, n);
    forall m | m in data
      ensures data[m] == WeatherTable[location][IntToString(m)]
    {
      var d := MonthData(location, m);
    }
  }

  function SeasonData(location: string): (data: map<int, WeatherData>)
    requires location == "Hawaii" || location == "Paris"
    ensures data.Keys == {6, 7, 8}
    ensures forall m :: m in data ==> data[m] == WeatherTable[location][IntToString(m)]
  {
    CollectedSeasonMonths(location);
    CollectedFromTable(location, 3);
    Collected(location, |SeasonMonths|)
  }

  /** `recommend_travel_season`: the first of the driest summer months of
      the city slot, by its recorded rain days. */
  function SeasonOutcome(message: string): (r: Outcome)
    ensures r.Completed? && r.result.SeasonAdvice? && r.result.bestMonth in SeasonMonths
    ensures r.result.allData == SeasonData(CitySlot(message))
    ensures var data := SeasonData(CitySlot(message));
            && (forall m :: m in SeasonMonths ==> data[r.result.bestMonth].rainDays <= data[m].rainDays)
            && (forall i :: 0 <= i < |SeasonMonths| && SeasonMonths[i] < r.result.bestMonth ==>
                  data[r.result.bestMonth].rainDays < data[SeasonMonths[i]].rainDays)
    ensures r.result.bestMonthName == MonthNames[r.result.bestMonth]
  {
    Completed(SeasonAdviceFrom(SeasonData(CitySlot(message))))
  }

  const HawaiiSeason := map[6 := WeatherData(28, "sonnig", 3), 7 := WeatherData(29, "sonnig", 2),
                            8 := WeatherData(29, "sonnig", 2)]

  lemma SeasonDataHawaii()
    ensures SeasonData("Hawaii") == HawaiiSeason
  {
    HandlerWeatherFound("Hawaii", 6);
    HandlerWeatherFound("Hawaii", 7);
    HandlerWeatherFound("Hawaii", 8);
    assert IntToString(6) == "6" && IntToString(7) == "7" && IntToString(8) == "8";
  }

  /** When June is wetter than July and July ties with August, July wins:
      it is the first of the driest months. */
  lemma JulyFirstOfDriest(data: map<int, WeatherData>)
    requires forall m :: m in SeasonMonths ==> m in data
    requires data[7].rainDays < data[6].rainDays && data[7].rainDays == data[8].rainDays
    ensures SeasonAdviceFrom(data).bestMonth == 7
  {
    var r := SeasonAdviceFrom(data);
    assert SeasonMonths[1] == 7;
  }

  lemma SeasonAdviceHawaii()
    ensures SeasonAdviceFrom(HawaiiSeason) ==
            SeasonAdvice(7, "Juli", SeasonReason(WeatherData(29, "sonnig", 2)), HawaiiSeason)
  {
    JulyFirstOfDriest(HawaiiSeason);
  }

  /** Hawaii has 3, 2 and 2 rain days in June, July and August: the first of
      the two driest months, July, is recommended. */
  lemma SeasonForHawaii(message: string)
    requires Contains(message, "Hawaii")
    ensures SeasonOutcome(message) ==
            Completed(SeasonAdvice(7, "Juli", SeasonReason(WeatherData(29, "sonnig", 2)), HawaiiSeason))
  {
    assert CitySlot(message) == "Hawaii";
    SeasonDataHawaii();
    SeasonAdviceHawaii();
  }

  /** The data collected for Paris has 7, 5 and 6 rain days in June, July
      and August. */
  lemma ParisRainDays()
    ensures var data := SeasonData("Paris");
            data[6].rainDays == 7 && data[7].rainDays == 5 && data[8].rainDays == 6
  {
    assert IntToString(6) == "6" && IntToString(7) == "7" && IntToString(8) == "8";
  }

  /** Any message naming neither Hawaii nor Maui asks about Paris, whose
      June, July and August have 7, 5 and 6 rain days: July is recommended. */
  lemma SeasonForParis(message: string)
    requires !Contains(message, "Hawaii") && !Contains(message, "Maui")
    ensures SeasonOutcome(message).result.bestMonth == 7
  {
    assert CitySlot(message) == "Paris";
    ParisRainDays();
  }

  /** `process_task` of the weather handler. */
  function WeatherOutcome(message: string): (r: Outcome)
    ensures r.InputRequired? <==> ClassifyWeather(message) == AskWeather
    ensures r.InputRequired? ==> r.message == WeatherQuestion
    ensures ClassifyWeather(message) == CurrentWeather ==> r == WeatherInfoOutcome(message)
    ensures ClassifyWeather(message) == BestSeason ==> r == SeasonOutcome(message)
  {
    match ClassifyWeather(message)
    case CurrentWeather => WeatherInfoOutcome(message)
    case BestSeason => SeasonOutcome(message)
    case AskWeather => InputRequired(WeatherQuestion)
  }

  class WeatherAdvisor {
    const client: Client
    const card: AgentCard

    constructor (mcpClient: Client)
      ensures client == mcpClient && card == WeatherCard
    {
      client := mcpClient;
      card := WeatherCard;
    }

    method ProcessTask(task: Task) returns (outcome: Outcome)
      requires client.Valid()
      modifies client
      ensures client.Valid()
      ensures outcome == WeatherOutcome(task.message)
      ensures client.availableTools ==
                if outcome.InputRequired? then old(client.availableTools) else Some(ListTools())
    {
      var lower := Lower(task.message);
      if Contains(lower, "wetter") {
        outcome := GetWeatherInfo(task);
      } else if Contains(lower, "beste zeit") || Contains(lower, "beste jahreszeit") {
        outcome := RecommendTravelSeason(task);
      } else {
        outcome := InputRequired(WeatherQuestion);
      }
    }

    method GetWeatherInfo(task: Task) returns (outcome: Outcome)
      requires client.Valid()
      modifies client
      ensures client.Valid() && client.availableTools == Some(ListTools())
      ensures outcome == WeatherInfoOutcome(task.message)
    {
      var message := task.message;
      var location := CitySlot(message);
      var month := 6;
      if Contains(Lower(message), "juli") {
        month := 7;
      } else if Contains(Lower(message), "august") {
        month := 8;
      }
      var weatherResult := client.CallTool("get_weather", map["location" := StrArg(location), "month" := IntArg(month)]);
      HandlerWeatherFound(location, month);
      outcome := Completed(WeatherInfo(weatherResult.value.reply));
    }

    /** Collects one lookup per candidate month into `weather_data`, then
        picks the first month with the fewest rain days. */
    method RecommendTravelSeason(task: Task) returns (outcome: Outcome)
      requires client.Valid()
      modifies client
      ensures client.Valid() && client.availableTools == Some(ListTools())
      ensures outcome == SeasonOutcome(task.message)
    {
      var location := CitySlot(task.message);
      var weatherData: map<int, WeatherData> := map[];
      var i := 0;
      while i < |SeasonMonths|
        invariant 0 <= i <= |SeasonMonths|
        invariant client.Valid()
        invariant i > 0 ==> client.availableTools == Some(ListTools())
        invariant weatherData == Collected(location, i)
      {
        var month := SeasonMonths[i];
        var result := client.CallTool("get_weather", WeatherQuery(location, month));
        CollectedStep(location, i, weatherData, result);
        weatherData := weatherData[month := result.value.reply.data];
        i := i + 1;
      }
      outcome := Completed(SeasonAdviceFrom(weatherData));
    }
  }
}
