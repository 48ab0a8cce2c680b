# Travel assistant: MCP tool layer and A2A delegation, in Dafny

This project models the travel-planning demonstration in
`samples/python/agents/langgraph/a2a_mcp/visualizeMCP_A2A.py`. Its parts are:

- **MCP tool server** (`ToolServer`). It has four registered tools over dummy tables: `calculate_budget`,
  `get_weather`, `search_flights` and `search_hotels`. It also has `list_tools` and `call_tool`. `call_tool`
  answers "not found" for names that are not registered. When a call raises, `call_tool` returns the raised
  message instead.
- **MCP client** (`ToolClient.Client`). It is an object with a discovery cache (`available_tools`). It
  discovers the tools on first use and refuses names that are missing from the cache.
- **Three specialist handlers**. Each one is a class that holds the shared client:
  - `Travel.TravelAgent`;
  - `WeatherAdvice.WeatherAdvisor`;
  - `BudgetPlanning.BudgetPlanner`.

  Each handler classifies the message by lower-cased substring tests, fills fixed slots and calls the tools.
  It returns either `completed` with a result or `input-required` with a domain question.
- **Coordinator** (`Assistant.PersonalAssistant`):
  - It routes the message by three keyword lists, and falls back to all three handlers.
  - For each routed handler it files a task `task_<n>` as `pending`, delegates the task, and then records
    the status and the result.
  - It then integrates the responses. The result is either a clarification request made of every question,
    or a summary text with the detailed results.

The project also models two deterministic pieces of
`samples/python/agents/langgraph/weater_agent/weather_agent.py` (`WeatherAgent`): the simulated
`get_weather` and the choice of the last user message.

How the model is built:

- Each handler routine has a pure specification function (`TravelOutcome`, `WeatherOutcome`,
  `BudgetOutcome`, ...). The handler's methods are proved to return exactly that outcome.
- The coordinator's `ProcessRequest` is proved to return `Answer(message)`. `Answer(message)` integrates
  the responses that `Dispatch(message)` predicts.
- `ProcessRequest` is also proved to leave the task table as `Filed(...)` describes: earlier tasks are kept,
  and one new, consecutively numbered task holds each handler's status and result.

Python values that can have more than one type appear as explicit alternatives:

- A tool argument is an `Arg` (an int or a str), so the `TypeError` paths of `tool(**parameters)` are real
  error paths of the model.
- A hotel's `total_price` is optional.

How Python's operations are modelled:

- Integers are unbounded, as Python's are.
- `str(int)` is `IntToString`.
- `int(digits)` is decimal reading, and `NatToStringRoundTrip` proves it is the inverse of `NatToString`.
- `" ".join` is `Join`.
- `str * int` is `Repeat`. It is what `price_per_night * nights` evaluates to when `nights` is a string.

## Model

| member | source | states |
|---|---|---|
| Text.Lower | samples/python/agents/langgraph/a2a_mcp/visualizeMCP_A2A.py:541 | lower-casing keeps the length and maps every character through the letter folding |
| Text.ContainsOccurs | samples/python/agents/langgraph/a2a_mcp/visualizeMCP_A2A.py:541 | the substring test `word in text` holds iff the word occurs at some position |
| Text.ContainsAnyWitness | samples/python/agents/langgraph/a2a_mcp/visualizeMCP_A2A.py:541 | `any(word in text for word in words)` holds iff some word of the list is a substring |
| Text.DigitChar | samples/python/agents/langgraph/a2a_mcp/visualizeMCP_A2A.py:563 | a decimal digit's character is a digit whose code is the digit's offset from '0' |
| Text.NatToString | samples/python/agents/langgraph/a2a_mcp/visualizeMCP_A2A.py:563 | the decimal rendering is non-empty, all digits, and starts with '0' only for zero (no leading zeros) |
| Text.NatToStringRoundTrip | samples/python/agents/langgraph/a2a_mcp/visualizeMCP_A2A.py:465 | reading the decimal rendering back with `int` gives the number (round trip) |
| Text.NatToStringInjective | samples/python/agents/langgraph/a2a_mcp/visualizeMCP_A2A.py:563 | distinct numbers render as distinct strings |
| Text.IntToString | samples/python/agents/langgraph/a2a_mcp/visualizeMCP_A2A.py:102 | `str(int)` is non-empty and starts with '-' exactly for negative numbers |
| Text.IntToStringSingleDigit | samples/python/agents/langgraph/a2a_mcp/visualizeMCP_A2A.py:102 | `str(n)` is the one-character key "d" iff n is the digit d, so month keys "6", "7", "8" match only those ints |
| Text.Join | samples/python/agents/langgraph/a2a_mcp/visualizeMCP_A2A.py:594 | joining no parts gives "", joining one part gives that part |
| Text.Repeat | samples/python/agents/langgraph/a2a_mcp/visualizeMCP_A2A.py:172 | `str * n` has length n·\|str\| for positive n and is empty otherwise |
| ToolServer.ListTools | samples/python/agents/langgraph/a2a_mcp/visualizeMCP_A2A.py:14-53 | the descriptions are keyed by exactly the four registered tool names |
| ToolServer.ListToolsSignatures | samples/python/agents/langgraph/a2a_mcp/visualizeMCP_A2A.py:14-53 | each description carries its own name and exactly the parameter names its function accepts |
| ToolServer.CalculateBudget | samples/python/agents/langgraph/a2a_mcp/visualizeMCP_A2A.py:69-77 | succeeds iff all three amounts are ints; echoes them with total − flight − hotel (unchecked sign), so the parts add up to the total |
| ToolServer.GetWeather | samples/python/agents/langgraph/a2a_mcp/visualizeMCP_A2A.py:79-109 | a report iff the location is recorded and `str(month)` is one of its month keys; an unrecorded location yields the "Keine Wetterdaten für … verfügbar" reply |
| ToolServer.WeatherKnownMonths | samples/python/agents/langgraph/a2a_mcp/visualizeMCP_A2A.py:99-108 | for a recorded location and an int month, there is a report iff the month is 6, 7 or 8 |
| ToolServer.SearchFlights | samples/python/agents/langgraph/a2a_mcp/visualizeMCP_A2A.py:111-137 | never empty; the recorded list for a known "origin-destination" key, the two fallback flights otherwise |
| ToolServer.WithTotals | samples/python/agents/langgraph/a2a_mcp/visualizeMCP_A2A.py:169-172 | every hotel keeps its fields and gains `total_price = price_per_night * nights` |
| ToolServer.HotelSearchTotals | samples/python/agents/langgraph/a2a_mcp/visualizeMCP_A2A.py:139-174 | never empty; fallback hotels for an unknown location; a hotel has a total price iff its location is recorded, and then it is price × nights |
| ToolServer.SearchHotels | samples/python/agents/langgraph/a2a_mcp/visualizeMCP_A2A.py:139-174 | the annotating loop returns exactly the hotel search result |
| ToolServer.ToolResponse | samples/python/agents/langgraph/a2a_mcp/visualizeMCP_A2A.py:55-65 | an unknown name gives "Tool '…' nicht gefunden"; a keyword set that does not bind gives the call error |
| ToolServer.ToolResponseSucceeds | samples/python/agents/langgraph/a2a_mcp/visualizeMCP_A2A.py:55-65 | a call succeeds iff the tool is registered, the keywords bind its signature and, for `calculate_budget`, the amounts are ints |
| ToolServer.WeatherErrorInsideResult | samples/python/agents/langgraph/a2a_mcp/visualizeMCP_A2A.py:99-103 | a missing weather entry is not a call error: it comes back as a successful result holding the error reply |
| ToolServer.WeatherDispatch | samples/python/agents/langgraph/a2a_mcp/visualizeMCP_A2A.py:55-65 | a `get_weather` call with `location` and `month` returns the weather reply as its result |
| ToolServer.CallTool | samples/python/agents/langgraph/a2a_mcp/visualizeMCP_A2A.py:55-65 | the server's dispatch method returns the specified response |
| ToolClient.Client.constructor | samples/python/agents/langgraph/a2a_mcp/visualizeMCP_A2A.py:182-184 | a new client has no discovered tools |
| ToolClient.Client.DiscoverTools | samples/python/agents/langgraph/a2a_mcp/visualizeMCP_A2A.py:186-189 | caches and returns the server's tool list |
| ToolClient.Client.CallTool | samples/python/agents/langgraph/a2a_mcp/visualizeMCP_A2A.py:191-200 | discovers the tools if needed; refuses an undiscovered name with "ist nicht verfügbar"; otherwise forwards to the server |
| ToolClient.UnavailableIsNotNotFound | samples/python/agents/langgraph/a2a_mcp/visualizeMCP_A2A.py:196-197 | an unregistered name would be refused by the server too, but the client's refusal is a different message |
| Outcomes.FirstMinIndex | samples/python/agents/langgraph/a2a_mcp/visualizeMCP_A2A.py:270 | Python's `min` by key: an index of a smallest element, and the first such index |
| Outcomes.FirstMaxIndex | samples/python/agents/langgraph/a2a_mcp/visualizeMCP_A2A.py:271 | Python's `max` by key: an index of a largest element, and the first such index |
| Outcomes.CitySlot | samples/python/agents/langgraph/a2a_mcp/visualizeMCP_A2A.py:252 | the destination is "Hawaii" iff the message names Hawaii or Maui (case-sensitive), "Paris" otherwise |
| Travel.ClassifyTravel | samples/python/agents/langgraph/a2a_mcp/visualizeMCP_A2A.py:227-242 | the four routines and the exact keyword conditions ("flüge", "hotel" in the lower-cased message) of each |
| Travel.Origin | samples/python/agents/langgraph/a2a_mcp/visualizeMCP_A2A.py:251 | the origin is "LAX" iff the message contains "LAX" (case-sensitive), "JFK" otherwise |
| Travel.HandlerFlightsAreFallback | samples/python/agents/langgraph/a2a_mcp/visualizeMCP_A2A.py:251-261 | the handler's routes (LAX/JFK to Hawaii/Paris) are never recorded keys, so it always receives the two fallback flights |
| Travel.HandlerHotelsAreAnnotated | samples/python/agents/langgraph/a2a_mcp/visualizeMCP_A2A.py:263-267 | the handler's hotel search returns its city's three hotels priced for five nights |
| Travel.ChooseTrip | samples/python/agents/langgraph/a2a_mcp/visualizeMCP_A2A.py:269-280 | the plan holds the first cheapest flight and the first best-rated hotel, and the total cost is flight price + hotel total price |
| Travel.StayHotels | samples/python/agents/langgraph/a2a_mcp/visualizeMCP_A2A.py:303-315 | the city's three recorded hotels, in order, each unchanged except that its total price is the nightly price × 5 |
| Travel.PlanTravelOutcome | samples/python/agents/langgraph/a2a_mcp/visualizeMCP_A2A.py:244-280 | a completed plan chosen from the fallback flights and the city's priced hotels |
| Travel.StayHotelsHawaii | samples/python/agents/langgraph/a2a_mcp/visualizeMCP_A2A.py:143-147 | a Hawaii message gets the three Hawaii hotels priced for five nights |
| Travel.ChooseTripHawaii | samples/python/agents/langgraph/a2a_mcp/visualizeMCP_A2A.py:269-280 | from the fallback flights and the Hawaii hotels the choice is Budget Air and Tropical Paradise at 2050 |
| Travel.PlanTravelHawaii | samples/python/agents/langgraph/a2a_mcp/visualizeMCP_A2A.py:244-280 | a Hawaii trip is Budget Air (450) plus five nights at Tropical Paradise (1600), 2050 in all |
| Travel.FindFlightsOutcome | samples/python/agents/langgraph/a2a_mcp/visualizeMCP_A2A.py:282-301 | the whole fallback flight list, unranked |
| Travel.FindHotelsOutcome | samples/python/agents/langgraph/a2a_mcp/visualizeMCP_A2A.py:303-322 | the whole priced hotel list of the city, unranked |
| Travel.TravelOutcome | samples/python/agents/langgraph/a2a_mcp/visualizeMCP_A2A.py:227-242 | input is required iff neither keyword is present, with the travel question; otherwise the plan, flight-list or hotel-list outcome of the routine the keywords select |
| Travel.TravelAgent.constructor | samples/python/agents/langgraph/a2a_mcp/visualizeMCP_A2A.py:208-225 | keeps the shared client and the travel agent card |
| Travel.TravelAgent.ProcessTask | samples/python/agents/langgraph/a2a_mcp/visualizeMCP_A2A.py:227-242 | returns the specified travel outcome; the client has discovered the tools iff a tool was called |
| Travel.TravelAgent.PlanTravel | samples/python/agents/langgraph/a2a_mcp/visualizeMCP_A2A.py:244-280 | two tool calls whose results are always present; returns the specified plan |
| Travel.TravelAgent.FindFlights | samples/python/agents/langgraph/a2a_mcp/visualizeMCP_A2A.py:282-301 | one flight search; returns the specified flight list |
| Travel.TravelAgent.FindHotels | samples/python/agents/langgraph/a2a_mcp/visualizeMCP_A2A.py:303-322 | one hotel search; returns the specified hotel list |
| WeatherAdvice.ClassifyWeather | samples/python/agents/langgraph/a2a_mcp/visualizeMCP_A2A.py:347-360 | "wetter" selects the lookup; otherwise "beste zeit" or "beste jahreszeit" selects the recommendation |
| WeatherAdvice.MonthSlot | samples/python/agents/langgraph/a2a_mcp/visualizeMCP_A2A.py:368-373 | the month is 6, 7 or 8: July iff "juli" appears, August iff "august" appears without "juli" |
| WeatherAdvice.HandlerWeatherFound | samples/python/agents/langgraph/a2a_mcp/visualizeMCP_A2A.py:376-383 | for the handler's cities and months the lookup is always a recorded report, so indexing `["result"]` never fails |
| WeatherAdvice.WeatherInfoOutcome | samples/python/agents/langgraph/a2a_mcp/visualizeMCP_A2A.py:362-384 | the recorded report for the city slot and the month slot |
| WeatherAdvice.SeasonAdviceFrom | samples/python/agents/langgraph/a2a_mcp/visualizeMCP_A2A.py:403-414 | the best month is a candidate month with the fewest rain days, and the first such; its name and reason come from that month's data |
| WeatherAdvice.MonthData | samples/python/agents/langgraph/a2a_mcp/visualizeMCP_A2A.py:396-400 | the data of one monthly lookup is the recorded entry under `str(month)` for the city |
| WeatherAdvice.Collected | samples/python/agents/langgraph/a2a_mcp/visualizeMCP_A2A.py:394-400 | after n lookups the dictionary holds exactly the first n candidate months, each with its recorded entry |
| WeatherAdvice.CollectedStep | samples/python/agents/langgraph/a2a_mcp/visualizeMCP_A2A.py:395-400 | each monthly lookup is a report, and recording its data extends the collected dictionary by one month |
| WeatherAdvice.SeasonData | samples/python/agents/langgraph/a2a_mcp/visualizeMCP_A2A.py:394-400 | the collected dictionary has exactly the months 6, 7 and 8, each holding that month's recorded entry for the city |
| WeatherAdvice.SeasonOutcome | samples/python/agents/langgraph/a2a_mcp/visualizeMCP_A2A.py:386-414 | a completed recommendation over the collected data: the best month is a candidate with the fewest rain days and the first such, named from the month table |
| WeatherAdvice.SeasonDataHawaii | samples/python/agents/langgraph/a2a_mcp/visualizeMCP_A2A.py:82-86 | the data collected for Hawaii is the recorded June–August table |
| WeatherAdvice.JulyFirstOfDriest | samples/python/agents/langgraph/a2a_mcp/visualizeMCP_A2A.py:403 | on a tie between July and August, both drier than June, July wins (the first minimum) |
| WeatherAdvice.SeasonAdviceHawaii | samples/python/agents/langgraph/a2a_mcp/visualizeMCP_A2A.py:403-414 | the recommendation for the Hawaii table is July with its reason |
| WeatherAdvice.SeasonForHawaii | samples/python/agents/langgraph/a2a_mcp/visualizeMCP_A2A.py:386-414 | a Hawaii season request is answered with July (2 rain days, 29°C) |
| WeatherAdvice.ParisRainDays | samples/python/agents/langgraph/a2a_mcp/visualizeMCP_A2A.py:87-91 | the data collected for Paris has 7, 5 and 6 rain days in June, July and August |
| WeatherAdvice.SeasonForParis | samples/python/agents/langgraph/a2a_mcp/visualizeMCP_A2A.py:87-91 | a message naming neither Hawaii nor Maui is answered with July (Paris: 7, 5, 6 rain days) |
| WeatherAdvice.WeatherOutcome | samples/python/agents/langgraph/a2a_mcp/visualizeMCP_A2A.py:347-360 | input is required iff no routine matches, with the weather question; otherwise the weather report or the season recommendation the keywords select |
| WeatherAdvice.WeatherAdvisor.constructor | samples/python/agents/langgraph/a2a_mcp/visualizeMCP_A2A.py:328-345 | keeps the shared client and the weather agent card |
| WeatherAdvice.WeatherAdvisor.ProcessTask | samples/python/agents/langgraph/a2a_mcp/visualizeMCP_A2A.py:347-360 | returns the specified weather outcome; the client has discovered the tools iff a tool was called |
| WeatherAdvice.WeatherAdvisor.GetWeatherInfo | samples/python/agents/langgraph/a2a_mcp/visualizeMCP_A2A.py:362-384 | one lookup; returns the specified report |
| WeatherAdvice.WeatherAdvisor.RecommendTravelSeason | samples/python/agents/langgraph/a2a_mcp/visualizeMCP_A2A.py:386-414 | the loop of three lookups builds the collected dictionary; returns the specified recommendation |
| BudgetPlanning.ClassifyBudget | samples/python/agents/langgraph/a2a_mcp/visualizeMCP_A2A.py:439-452 | "budget" with "berechnen" selects the calculation; "budget" with "optimieren" but not "berechnen" selects the tips |
| BudgetPlanning.NextDigit | samples/python/agents/langgraph/a2a_mcp/visualizeMCP_A2A.py:463 | the lazy `.*?` scan: the first digit on the same line, or none on the rest of the line |
| BudgetPlanning.RunEnd | samples/python/agents/langgraph/a2a_mcp/visualizeMCP_A2A.py:463 | the greedy `\d+`: the end of the maximal digit run |
| BudgetPlanning.SearchFrom | samples/python/agents/langgraph/a2a_mcp/visualizeMCP_A2A.py:463 | `re.search`: a match at the leftmost position where one can start, or none anywhere |
| BudgetPlanning.SearchFinds | samples/python/agents/langgraph/a2a_mcp/visualizeMCP_A2A.py:463-464 | the search succeeds iff "budget" is followed by a digit on the same line somewhere |
| BudgetPlanning.BudgetFigure | samples/python/agents/langgraph/a2a_mcp/visualizeMCP_A2A.py:463-465 | a figure is read iff the pattern can match the lower-cased message |
| BudgetPlanning.BudgetFigureReadsMatch | samples/python/agents/langgraph/a2a_mcp/visualizeMCP_A2A.py:463-465 | the figure is the value of the first digit run after the leftmost usable "budget" |
| BudgetPlanning.TotalBudget | samples/python/agents/langgraph/a2a_mcp/visualizeMCP_A2A.py:459-465 | 3000 unless a figure is read, and then that figure |
| BudgetPlanning.NoBudgetWordDefault | samples/python/agents/langgraph/a2a_mcp/visualizeMCP_A2A.py:459-465 | without the word "budget" the total is the default 3000 |
| BudgetPlanning.HandlerBudgetComputed | samples/python/agents/langgraph/a2a_mcp/visualizeMCP_A2A.py:475-481 | the handler's call passes three ints, so the tool succeeds with total − 500 − 1200 |
| BudgetPlanning.Assessment | samples/python/agents/langgraph/a2a_mcp/visualizeMCP_A2A.py:493 | "ausreichend" iff more than 500 is left, "knapp" iff at most 500 |
| BudgetPlanning.BudgetReportOf | samples/python/agents/langgraph/a2a_mcp/visualizeMCP_A2A.py:483-495 | the report echoes total, flight, hotel and activities amounts, the daily budget is exactly a fifth of what is left, and the assessment is that of the activities budget |
| BudgetPlanning.AvailableBudgetOutcome | samples/python/agents/langgraph/a2a_mcp/visualizeMCP_A2A.py:454-495 | a completed report with the read total, the fixed costs, and parts that add up to the total |
| BudgetPlanning.AssessmentThreshold | samples/python/agents/langgraph/a2a_mcp/visualizeMCP_A2A.py:468-493 | sufficient iff the total exceeds 2200; the daily budget is (total − 1700)/5, negative when the costs exceed the total |
| BudgetPlanning.DefaultReport | samples/python/agents/langgraph/a2a_mcp/visualizeMCP_A2A.py:459-495 | without a figure: 3000 total, 1300 left, 260.0 a day, "ausreichend" |
| BudgetPlanning.BudgetOutcome | samples/python/agents/langgraph/a2a_mcp/visualizeMCP_A2A.py:439-452 | input is required iff no routine matches; otherwise the tips or the calculation, each as specified |
| BudgetPlanning.BudgetPlanner.constructor | samples/python/agents/langgraph/a2a_mcp/visualizeMCP_A2A.py:420-437 | keeps the shared client and the budget agent card |
| BudgetPlanning.BudgetPlanner.ProcessTask | samples/python/agents/langgraph/a2a_mcp/visualizeMCP_A2A.py:439-452 | returns the specified budget outcome; the client has discovered the tools iff the calculation ran |
| BudgetPlanning.BudgetPlanner.CalculateAvailableBudget | samples/python/agents/langgraph/a2a_mcp/visualizeMCP_A2A.py:454-495 | one tool call whose result is always present; returns the specified report |
| BudgetPlanning.BudgetPlanner.OptimizeBudget | samples/python/agents/langgraph/a2a_mcp/visualizeMCP_A2A.py:497-510 | the four fixed tips, with no tool call |
| Assistant.AgentNamesDistinct | samples/python/agents/langgraph/a2a_mcp/visualizeMCP_A2A.py:559 | the card names used as dictionary keys are distinct: equal names iff the same handler |
| Assistant.Route | samples/python/agents/langgraph/a2a_mcp/visualizeMCP_A2A.py:539-553 | never empty; a handler is routed iff one of its words occurs in the lower-cased message or no list matches; routed in travel, weather, budget order, each once |
| Assistant.ResponsesAppend | samples/python/agents/langgraph/a2a_mcp/visualizeMCP_A2A.py:558-573 | each response depends only on its handler and the message: the responses to two handler lists in turn are the two response lists in turn |
| Assistant.Dispatch | samples/python/agents/langgraph/a2a_mcp/visualizeMCP_A2A.py:539-573 | the responses of exactly the routed handlers, in routing order |
| Assistant.QuestionsExist | samples/python/agents/langgraph/a2a_mcp/visualizeMCP_A2A.py:588-591 | there is a question iff some response requires input |
| Assistant.QuestionsAppend | samples/python/agents/langgraph/a2a_mcp/visualizeMCP_A2A.py:591 | questions are collected in dispatch order: those of a concatenation are the concatenated questions |
| Assistant.OutcomeFor | samples/python/agents/langgraph/a2a_mcp/visualizeMCP_A2A.py:604-622 | the lookup `responses[name]`: the outcome of the handler's response when it responded, and only such an outcome |
| Assistant.InfoKeysDistinct | samples/python/agents/langgraph/a2a_mcp/visualizeMCP_A2A.py:601-622 | the three detail keys are distinct |
| Assistant.WithInfo | samples/python/agents/langgraph/a2a_mcp/visualizeMCP_A2A.py:604-608 | one `update`: adds the handler's key with its result iff it completed, and leaves every other key as it was |
| Assistant.Details | samples/python/agents/langgraph/a2a_mcp/visualizeMCP_A2A.py:601-622 | a domain's key is present iff its handler responded with `completed`, holding that result; no other keys |
| Assistant.MinOf | samples/python/agents/langgraph/a2a_mcp/visualizeMCP_A2A.py:635-638 | `min` of a non-empty list: a member no greater than any member |
| Assistant.DomainLinePresent | samples/python/agents/langgraph/a2a_mcp/visualizeMCP_A2A.py:624-654 | a domain contributes a summary line iff its key is present and its result has one of the keys that domain's template tests |
| Assistant.IntegrateResults | samples/python/agents/langgraph/a2a_mcp/visualizeMCP_A2A.py:583-661 | input required iff some handler asked, with the prefix and the space-joined questions; otherwise the summary holds each completed result under its key and no other key, and its text is the header plus the domain lines |
| Assistant.RouteDistinct | samples/python/agents/langgraph/a2a_mcp/visualizeMCP_A2A.py:556-573 | no handler is dispatched twice, so no dictionary entry is overwritten |
| Assistant.HandlerRenderable | samples/python/agents/langgraph/a2a_mcp/visualizeMCP_A2A.py:627-654 | every completed handler result can be rendered: the indexing and minima of the templates never fail |
| Assistant.DispatchRenderable | samples/python/agents/langgraph/a2a_mcp/visualizeMCP_A2A.py:556-661 | the dispatched responses meet what the integration needs |
| Assistant.FallbackBudgetAsks | samples/python/agents/langgraph/a2a_mcp/visualizeMCP_A2A.py:439-452 | a message with no budget routing word ("budget" among them) gets the budget question |
| Assistant.FallbackAlwaysAsks | samples/python/agents/langgraph/a2a_mcp/visualizeMCP_A2A.py:550-553 | in the route-to-all fallback all three handlers run in order, the answer is always a clarification request, and its last question is the budget question |
| Assistant.CostsWithoutBudgetAsks | samples/python/agents/langgraph/a2a_mcp/visualizeMCP_A2A.py:444-451 | a message with "kosten" but without "budget" is routed to the budget handler, and that handler answers with its question |
| Assistant.FlightCostsGoToBudget | samples/python/agents/langgraph/a2a_mcp/visualizeMCP_A2A.py:539-553 | "Was kosten Flüge?", in any capitalisation, routes to the budget handler alone, because "flug" is not part of "flüge"; the only response is the budget question |
| Assistant.BestSeasonGoesToTravel | samples/python/agents/langgraph/a2a_mcp/visualizeMCP_A2A.py:539-553 | "Paris: beste Jahreszeit?", in any capitalisation, routes to the travel handler alone, although the weather handler would classify it as a season recommendation |
| Assistant.TaskIdInjective | samples/python/agents/langgraph/a2a_mcp/visualizeMCP_A2A.py:563 | `task_<n>` ids are equal iff the numbers are |
| Assistant.IdsUpToRange | samples/python/agents/langgraph/a2a_mcp/visualizeMCP_A2A.py:563 | every id of a session with n tasks is `task_j` for some j in 1..n |
| Assistant.IdAboveUnused | samples/python/agents/langgraph/a2a_mcp/visualizeMCP_A2A.py:563 | an id numbered above n is not among the first n ids |
| Assistant.NextIdFresh | samples/python/agents/langgraph/a2a_mcp/visualizeMCP_A2A.py:563-569 | the next id `task_{len(tasks)+1}` is fresh, so filing it grows the table by one and keeps the numbering |
| Assistant.NewIdsFresh | samples/python/agents/langgraph/a2a_mcp/visualizeMCP_A2A.py:563-569 | the ids of the new tasks were not in use before the request |
| Assistant.FiledStep | samples/python/agents/langgraph/a2a_mcp/visualizeMCP_A2A.py:562-578 | filing one more settled task extends the description of the filed table by one response |
| Assistant.FilingNumbered | samples/python/agents/langgraph/a2a_mcp/visualizeMCP_A2A.py:558-578 | after a request the table has one more task per response and is still consecutively numbered |
| Assistant.FilingFiled | samples/python/agents/langgraph/a2a_mcp/visualizeMCP_A2A.py:558-578 | after a request the earlier tasks are kept and the j-th new task holds the j-th response's status and result |
| Assistant.FilingNext | samples/python/agents/langgraph/a2a_mcp/visualizeMCP_A2A.py:562-578 | handling one more response adds one settled task under the next id |
| Assistant.ResponsesSnoc | samples/python/agents/langgraph/a2a_mcp/visualizeMCP_A2A.py:558-573 | one more loop iteration appends the next handler's response |
| Assistant.Overwrite | samples/python/agents/langgraph/a2a_mcp/visualizeMCP_A2A.py:569-578 | updating the pending task in place leaves only the settled task under its id |
| Assistant.AnswerOfDispatch | samples/python/agents/langgraph/a2a_mcp/visualizeMCP_A2A.py:580-581 | integrating the dispatched responses is defined and gives the answer |
| Assistant.PersonalAssistant.constructor | samples/python/agents/langgraph/a2a_mcp/visualizeMCP_A2A.py:518-529 | one shared client with nothing discovered, the three handlers wired to it, and no tasks |
| Assistant.PersonalAssistant.Delegate | samples/python/agents/langgraph/a2a_mcp/visualizeMCP_A2A.py:572 | `agent.process_task(task)` returns the handler's specified outcome; the shared client's tool list is cached exactly when the handler's routine called a tool, and left as it was otherwise |
| Assistant.PersonalAssistant.RunTask | samples/python/agents/langgraph/a2a_mcp/visualizeMCP_A2A.py:559-578 | files `task_{len+1}` as pending, delegates, then leaves it settled with the outcome's status and result; the client cache is as after `Delegate` |
| Assistant.PersonalAssistant.RunAll | samples/python/agents/langgraph/a2a_mcp/visualizeMCP_A2A.py:556-579 | the delegation loop gathers each handler's response in order and files one settled task per response; the client's tool list is cached iff some handler of the list called a tool |
| Assistant.PersonalAssistant.RunNext | samples/python/agents/langgraph/a2a_mcp/visualizeMCP_A2A.py:558-579 | one turn of the loop: the next handler's task is filed under the next id, its response appended, and the cache updated as `RunAll` states |
| Assistant.PersonalAssistant.ProcessRequest | samples/python/agents/langgraph/a2a_mcp/visualizeMCP_A2A.py:531-581 | returns the integrated answer for the message; the old tasks are kept and one new settled task per routed handler is filed under fresh consecutive ids; the client's tool list is cached iff some routed handler called a tool |
| WeatherAgent.GetWeather | samples/python/agents/langgraph/weater_agent/weather_agent.py:25-35 | a known city's recorded conditions; any other name gets the default 20 degrees "unknown"; the condition is "unknown" iff the city is not recorded |
| WeatherAgent.RecordedConditionsKnown | samples/python/agents/langgraph/weater_agent/weather_agent.py:28-33 | no recorded city reports "unknown" |
| WeatherAgent.LastUserIndex | samples/python/agents/langgraph/weater_agent/weather_agent.py:93 | the position of a user message after which no user message follows, or none when there is no user message |
| WeatherAgent.LastUserMessage | samples/python/agents/langgraph/weater_agent/weather_agent.py:93 | "" when no message is from the user, else the content of the last user message |
| WeatherAgent.AppendMessage | samples/python/agents/langgraph/weater_agent/weather_agent.py:93 | a new user message becomes the request; a message with any other role leaves the request as it was |

## Left out

- Printing is left out: the progress lines of `process_request` and `_integrate_results`.
- `main`, the interactive driver at the end of the file, is left out as I/O. It reads requests with
  `input` until "exit", "quit" or "q", passes each to `process_request`, prints the answer and, when asked,
  prints the detailed results with `json.dumps`. Each of its requests is one `ProcessRequest` call, on one
  assistant that lives across the loop.
- Of `weather_agent.py`, only `get_weather` and the last-user-message choice are modelled. The LLM call
  `process_weather_query`, the FastAPI endpoints and the timestamp-based task id all depend on an external
  service or the clock. `weather_client.py` is not part of this model.
- Hotel ratings are kept in tenths (4.8 is 48). The choice of the best hotel only compares them, so it is
  the same. The ratings inside the plan and the hotel lists of the detailed results do differ: they hold
  48 where the program holds 4.8.
- `daily_budget` is an exact `real`. Python computes `activities_budget / 5` as a float. The model does not
  capture two consequences of that:
  - Float rounding. For large figures the float differs from the exact fifth, so the `:.2f` text differs
    too. For example, 100000000000000003 / 5 prints as "20000000000000000.00" in Python, while the model
    prints "20000000000000000.60".
  - The `OverflowError` that the division raises for figures of about 10^309 and more. It ends
    `process_request` in Python, but the model still returns a summary.
- `FormatCents` renders `:.2f` exactly only for values that are whole cents. Every exact fifth of an
  integer is one.
- `str.lower()` folds only ASCII letters and the umlauts Ä, Ö, Ü. The regular expression `\d` matches only
  ASCII digits. Other Unicode case and digit classes are not modelled.
- The message of a raised `TypeError` is a fixed text built from the tool name and the argument types. It
  is not CPython's exact wording.
- The agent cards are constants. The dictionary `responses`, keyed by card name, is a sequence in insertion
  order. `RouteDistinct` proves that no handler appears in it twice, which is what keying by name gives.
- Assistant.IntegrateResults: requires that completed results can be rendered. A plan needs a hotel total
  price, a list minimum needs a non-empty list and the tips line needs two tips. Otherwise the Python code
  would raise. `HandlerRenderable` proves that the handlers never produce such a result.
- The unchecked `["result"]` indexing in the handlers is modelled on the calls the handlers actually make.
  Lemmas prove that those calls always succeed (`HandlerFlightsAreFallback`, `HandlerHotelsAreAnnotated`,
  `HandlerWeatherFound`, `HandlerBudgetComputed`). The `KeyError` that other arguments would cause is not
  modelled.

Facts of the code that the model keeps:

- The travel handler tests for the German tokens "flüge" and "hotel".
- There is no `failed` status. An error reply is never turned into a failed task: the statuses are
  `pending`, `input-required` and `completed`.
- The clarification message starts with "Ich benötige mehr Informationen: ", followed by the space-joined
  questions.
- An unknown tool gives "Tool '…' nicht gefunden" at the server and "Tool '…' ist nicht verfügbar" at the
  client.

Consequences of the code that the model makes visible:

- The routing list for travel contains "flug", which is not a substring of "flüge". A message that only
  asks for "Flüge" is therefore not routed to the travel handler by that word
  (`Assistant.FlightCostsGoToBudget`).
- The budget handler needs "budget" in the message even when another routing word, such as "kosten",
  routed the message to it (`Assistant.CostsWithoutBudgetAsks`).
- The routing list for weather contains only "beste zeit", which is not a substring of
  "beste jahreszeit". A message asking for the "beste Jahreszeit" is not routed to the weather handler by
  that phrase, although the handler would recognise the phrase (`Assistant.BestSeasonGoesToTravel`).
- In the route-to-all fallback the budget handler always asks its question, so the answer is always a
  clarification request (`Assistant.FallbackAlwaysAsks`).
