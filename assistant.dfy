/** The coordinator (`PersonalAssistant`): it routes a request by three
    keyword lists, opens one numbered task per activated handler in its
    persistent task table, hands each task to its handler in a fixed order,
    and folds the handlers' answers into either one clarification request or
    a templated summary with the detailed results. */
module Assistant {
  import opened Text
  import opened ToolServer
  import opened ToolClient
  import opened Outcomes
  import opened Travel
  import opened WeatherAdvice
  import opened BudgetPlanning

  /** The three specialist handlers, in routing order. */
  datatype Agent = TravelHandler | WeatherHandler | BudgetHandler

  /** The `name` of each handler's agent card, the key of its response. */
  function AgentName(a: Agent): string
  {
    match a
    case TravelHandler => TravelCard.name
    case WeatherHandler => WeatherCard.name
    case BudgetHandler => BudgetCard.name
  }

  /** The three card names differ, so keying the responses by handler is
      keying them by name. */
  lemma AgentNamesDistinct(a: Agent, b: Agent)
    ensures AgentName(a) == AgentName(b) <==> a == b
  {
    if a != b {
      assert AgentName(a)[0] != AgentName(b)[0];
    }
  }

  function Rank(a: Agent): nat
  {
    match a
    case TravelHandler => 0
    case WeatherHandler => 1
    case BudgetHandler => 2
  }

  const TravelWords := ["reise", "urlaub", "trip", "hawaii", "paris", "flug", "hotel"]
  const WeatherWords := ["wetter", "klima", "regen", "sonnig", "temperatur", "beste zeit"]
  const BudgetWords := ["budget", "kosten", "geld", "ausgaben", "sparen"]

  function Words(a: Agent): seq<string>
  {
    match a
    case TravelHandler => TravelWords
    case WeatherHandler => WeatherWords
    case BudgetHandler => BudgetWords
  }

  /** Some keyword of the handler occurs in the lowercased request. */
  predicate Mentions(message: string, a: Agent)
  {
    ContainsAny(Lower(message), Words(a))
  }

  predicate MentionsNone(message: string)
  {
    !Mentions(message, TravelHandler) && !Mentions(message, WeatherHandler) && !Mentions(message, BudgetHandler)
  }

  /** `relevant_agents`: every handler one of whose keywords occurs, in the
      fixed order travel, weather, budget; all three when none occurs. */
  function Route(message: string): (agents: seq<Agent>)
    ensures |agents| > 0
    ensures forall a :: a in agents <==> Mentions(message, a) || MentionsNone(message)
    ensures forall i, j :: 0 <= i < j < |agents| ==> Rank(agents[i]) < Rank(agents[j])
  {
    var picked := (if Mentions(message, TravelHandler) then [TravelHandler] else [])
                  + (if Mentions(message, WeatherHandler) then [WeatherHandler] else [])
                  + (if Mentions(message, BudgetHandler) then [BudgetHandler] else []);
    if picked == [] then [TravelHandler, WeatherHandler, BudgetHandler] else picked
  }

  /** What a handler's `process_task` answers for a request. */
  function HandlerOutcome(a: Agent, message: string): Outcome
  {
    match a
    case TravelHandler => TravelOutcome(message)
    case WeatherHandler => WeatherOutcome(message)
    case BudgetHandler => BudgetOutcome(message)
  }

  /** One entry of the `responses` dictionary, keyed by the handler. */
  datatype Response = Response(agent: Agent, outcome: Outcome)

  /** The responses the given handlers give, in the given order. */
  function Responses(agents: seq<Agent>, message: string): (rs: seq<Response>)
    ensures |rs| == |agents|
    ensures forall i :: 0 <= i < |rs| ==> rs[i] == Response(agents[i], HandlerOutcome(agents[i], message))
  {
    seq(|agents|, i requires 0 <= i < |agents| => Response(agents[i], HandlerOutcome(agents[i], message)))
  }

  /** The responses the activated handlers give, in dispatch order. */
  function Dispatch(message: string): (rs: seq<Response>)
    ensures |rs| == |Route(message)|
    ensures forall i :: 0 <= i < |rs| ==>
              rs[i] == Response(Route(message)[i], HandlerOutcome(Route(message)[i], message))
  {
    Responses(Route(message), message)
  }

  /** A dictionary keyed by handler name holds each handler at most once. */
  predicate DistinctAgents(rs: seq<Response>)
  {
    forall i, j :: 0 <= i < j < |rs| ==> rs[i].agent != rs[j].agent
  }

  predicate AnyInputRequired(rs: seq<Response>)
  {
    exists i :: 0 <= i < |rs| && rs[i].outcome.InputRequired?
  }

  /** The templates index into results: a minimum needs a non-empty list,
      the plan line needs the hotel's `total_price`, the tips line two tips. */
  predicate Renderable(r: TaskResult)
  {
    match r
    case TravelPlan(_, hotel, _) => hotel.totalPrice.Some?
    case FlightList(flights) => |flights| > 0
    case HotelList(hotels) => |hotels| > 0
    case BudgetTips(tips) => |tips| >= 2
    case _ => true
  }

  predicate AllRenderable(rs: seq<Response>)
  {
    forall i :: 0 <= i < |rs| && rs[i].outcome.Completed? ==> Renderable(rs[i].outcome.result)
  }

  /** The questions of the handlers that need input, in dispatch order. */
  function Questions(rs: seq<Response>): seq<string>
  {
    if rs == [] then []
    else
      var last := rs[|rs| - 1];
      Questions(rs[..|rs| - 1]) + (if last.outcome.InputRequired? then [last.outcome.message] else [])
  }

  /** There is a question exactly when some handler needs input. */
  lemma {:induction false} QuestionsExist(rs: seq<Response>)
    ensures |Questions(rs)| > 0 <==> AnyInputRequired(rs)
  {
    if rs != [] {
      var init := rs[..|rs| - 1];
      QuestionsExist(init);
      assert forall i :: 0 <= i < |init| ==> init[i] == rs[i];
      if AnyInputRequired(init) {
        var i :| 0 <= i < |init| && init[i].outcome.InputRequired?;
        assert rs[i].outcome.InputRequired?;
      }
    }
  }

  lemma {:induction false} QuestionsAppend(a: seq<Response>, b: seq<Response>)
    ensures Questions(a + b) == Questions(a) + Questions(b)
    decreases |b|
  {
    if b == [] {
      assert a + b == a;
    } else {
      var b' := b[..|b| - 1];
      assert (a + b)[..|a + b| - 1] == a + b';
      QuestionsAppend(a, b');
    }
  }

  /** The first response of a handler, if it answered. */
  function OutcomeFor(rs: seq<Response>, a: Agent): (o: Option<Outcome>)
    requires DistinctAgents(rs)
    ensures forall i :: 0 <= i < |rs| && rs[i].agent == a ==> o == Some(rs[i].outcome)
    ensures o.Some? ==> exists i :: 0 <= i < |rs| && rs[i].agent == a && rs[i].outcome == o.value
  {
    if rs == [] then None
    else if rs[0].agent == a then Some(rs[0].outcome)
    else
      assert DistinctAgents(rs[1..]);
      var o := OutcomeFor(rs[1..], a);
      assert forall i :: 1 <= i < |rs| ==> rs[1..][i - 1] == rs[i];
      o
  }

  function InfoKey(a: Agent): string
  {
    match a
    case TravelHandler => "travel_info"
    case WeatherHandler => "weather_info"
    case BudgetHandler => "budget_info"
  }

  predicate CompletedFor(rs: seq<Response>, a: Agent)
    requires DistinctAgents(rs)
  {
    OutcomeFor(rs, a).Some? && OutcomeFor(rs, a).value.Completed?
  }

  lemma InfoKeysDistinct()
    ensures forall a, b :: InfoKey(a) == InfoKey(b) ==> a == b
  {
    assert "travel_info"[0] != "weather_info"[0] && "travel_info"[0] != "budget_info"[0];
    assert "weather_info"[0] != "budget_info"[0];
  }

  /** Records the handler's result under its key when it completed. */
  function WithInfo(d: map<string, TaskResult>, rs: seq<Response>, a: Agent): (r: map<string, TaskResult>)
    requires DistinctAgents(rs)
    ensures r.Keys == if CompletedFor(rs, a) then d.Keys + {InfoKey(a)} else d.Keys
    ensures forall k :: k in d && k != InfoKey(a) ==> r[k] == d[k]
    ensures CompletedFor(rs, a) ==> r[InfoKey(a)] == OutcomeFor(rs, a).value.result
  {
    if CompletedFor(rs, a) then d[InfoKey(a) := OutcomeFor(rs, a).value.result] else d
  }

  /** `integrated_result`: the result of every completed handler under
      `travel_info`, `weather_info` or `budget_info`. */
  function Details(rs: seq<Response>): (d: map<string, TaskResult>)
    requires DistinctAgents(rs)
    ensures forall a :: InfoKey(a) in d <==> CompletedFor(rs, a)
    ensures forall a :: CompletedFor(rs, a) ==> d[InfoKey(a)] == OutcomeFor(rs, a).value.result
    ensures d.Keys <= {"travel_info", "weather_info", "budget_info"}
  {
    InfoKeysDistinct();
    var d1 := WithInfo(map[], rs, TravelHandler);
    var d2 := WithInfo(d1, rs, WeatherHandler);
    WithInfo(d2, rs, BudgetHandler)
  }

  const ClarificationPrefix := "Ich benötige mehr Informationen: "
  const SummaryHeader := "Hier ist meine Zusammenfassung basierend auf den Informationen unserer Experten:\n\n"

  /** The smallest element, as Python's `min` of a non-empty list. */
  function MinOf(xs: seq<int>): (m: int)
    requires |xs| > 0
    ensures m in xs && forall x :: x in xs ==> m <= x
  {
    xs[FirstMinIndex(xs)]
  }

  /** The travel line of the summary, chosen by which keys the result has. */
  function TravelLine(r: TaskResult): string
    requires Renderable(r)
  {
    match r
    case TravelPlan(flight, hotel, _) =>
      "Reise: Flug mit " + flight.airline + " für $" + IntToString(flight.price) + " und Aufenthalt im "
      + hotel.name + " für $" + ArgText(hotel.totalPrice.value) + ".\n"
    case FlightList(flights) =>
      "Flugoptionen: " + NatToString(|flights|) + " verfügbare Flüge, beginnend bei $"
      + IntToString(MinOf(Prices(flights))) + ".\n"
    case HotelList(hotels) =>
      "Hoteloptionen: " + NatToString(|hotels|) + " verfügbare Hotels, beginnend bei $"
      + IntToString(MinOf(NightlyPrices(hotels))) + " pro Nacht.\n"
    case _ => ""
  }

  /** The weather line: a report, or a recommendation; a reply holding only
      `error` has neither key and gives no line. */
  function WeatherLine(r: TaskResult): string
  {
    match r
    case WeatherInfo(Report(location, _, data)) =>
      "Wetter in " + location + ": " + IntToString(data.temp) + "°C, " + data.condition + " mit etwa "
      + IntToString(data.rainDays) + " Regentagen pro Monat.\n"
    case SeasonAdvice(_, monthName, reason, _) => "Beste Reisezeit: " + monthName + " - " + reason + ".\n"
    case _ => ""
  }

  /** The budget line: the computed amounts, or the first two tips. */
  function BudgetLine(r: TaskResult): string
    requires Renderable(r)
  {
    match r
    case BudgetReport(total, _, _, activities, daily, _) =>
      "Budget: $" + IntToString(total) + " Gesamtbudget, davon $" + IntToString(activities)
      + " für Aktivitäten ($" + FormatCents(daily) + " pro Tag).\n"
    case BudgetTips(tips) => "Budgettipps: " + tips[0] + " und " + tips[1] + ".\n"
    case _ => ""
  }

  /** The summary line of one domain: empty when its key is absent. */
  function DomainLine(a: Agent, d: map<string, TaskResult>): string
    requires forall k :: k in d ==> Renderable(d[k])
  {
    if InfoKey(a) !in d then ""
    else
      match a
      case TravelHandler => TravelLine(d[InfoKey(a)])
      case WeatherHandler => WeatherLine(d[InfoKey(a)])
      case BudgetHandler => BudgetLine(d[InfoKey(a)])
  }

  /** A domain contributes a line exactly when its result is present and of
      a kind that domain's template knows. */
  predicate HasTemplate(a: Agent, r: TaskResult)
  {
    match a
    case TravelHandler => r.TravelPlan? || r.FlightList? || r.HotelList?
    case WeatherHandler => (r.WeatherInfo? && r.reply.Report?) || r.SeasonAdvice?
    case BudgetHandler => r.BudgetReport? || r.BudgetTips?
  }

  lemma DomainLinePresent(a: Agent, d: map<string, TaskResult>)
    requires forall k :: k in d ==> Renderable(d[k])
    ensures DomainLine(a, d) != "" <==> InfoKey(a) in d && HasTemplate(a, d[InfoKey(a)])
  {
    if InfoKey(a) in d && HasTemplate(a, d[InfoKey(a)]) {
      assert |DomainLine(a, d)| > 0;
    }
  }

  /** The summary text: the header, then the travel, weather and budget lines. */
  function SummaryText(d: map<string, TaskResult>): string
    requires forall k :: k in d ==> Renderable(d[k])
  {
    SummaryHeader + DomainLine(TravelHandler, d) + DomainLine(WeatherHandler, d) + DomainLine(BudgetHandler, d)
  }

  /** The coordinator's answer: a clarification request, or a summary with
      the detailed results. */
  datatype Aggregated = NeedsInput(message: string) | Summary(message: string, detailedResults: map<string, TaskResult>)

  /** `_integrate_results`. */
  function IntegrateResults(rs: seq<Response>): (r: Aggregated)
    requires DistinctAgents(rs)
    requires AnyInputRequired(rs) || AllRenderable(rs)
    ensures r.NeedsInput? <==> AnyInputRequired(rs)
    ensures r.NeedsInput? ==> r.message == ClarificationPrefix + Join(" ", Questions(rs))
    ensures r.Summary? ==> forall i :: 0 <= i < |rs| ==>
              InfoKey(rs[i].agent) in r.detailedResults && r.detailedResults[InfoKey(rs[i].agent)] == rs[i].outcome.result
    ensures r.Summary? ==> forall a :: InfoKey(a) in r.detailedResults ==> exists i :: 0 <= i < |rs| && rs[i].agent == a
    ensures r.Summary? ==> r.detailedResults.Keys <= {"travel_info", "weather_info", "budget_info"}
    ensures r.Summary? ==> (forall k :: k in r.detailedResults ==> Renderable(r.detailedResults[k])) &&
                           r.message == SummaryText(r.detailedResults)
  {
    if AnyInputRequired(rs) then NeedsInput(ClarificationPrefix + Join(" ", Questions(rs)))
    else
      var d := Details(rs);
      assert forall i :: 0 <= i < |rs| ==> rs[i].outcome.Completed?;
      assert forall k :: k in d ==> Renderable(d[k]) by {
        forall k | k in d
          ensures Renderable(d[k])
        {
          var a := if k == "travel_info" then TravelHandler else if k == "weather_info" then WeatherHandler else BudgetHandler;
          assert k == InfoKey(a);
        }
      }
      Summary(SummaryText(d), d)
  }

  // ------------------------------------------------------------ dispatch facts

  lemma RouteDistinct(message: string)
    ensures DistinctAgents(Dispatch(message))
  {
    var rs := Dispatch(message);
    forall i, j | 0 <= i < j < |rs|
      ensures rs[i].agent != rs[j].agent
    {
      assert Rank(Route(message)[i]) < Rank(Route(message)[j]);
    }
  }

  /** Every completed handler answer can be rendered by its template. */
  lemma HandlerRenderable(a: Agent, message: string)
    ensures HandlerOutcome(a, message).Completed? ==> Renderable(HandlerOutcome(a, message).result)
  {
    if a == TravelHandler && ClassifyTravel(message) == PlanTrip {
      assert PricedForStay(StayHotels(message));
    }
  }

  lemma DispatchRenderable(message: string)
    ensures DistinctAgents(Dispatch(message)) && AllRenderable(Dispatch(message))
  {
    RouteDistinct(message);
    var rs := Dispatch(message);
    forall i | 0 <= i < |rs| && rs[i].outcome.Completed?
      ensures Renderable(rs[i].outcome.result)
    {
      HandlerRenderable(rs[i].agent, message);
    }
  }

  /** The coordinator's answer to a request. */
  function Answer(message: string): Aggregated
  {
    DispatchRenderable(message);
    IntegrateResults(Dispatch(message))
  }

  /** Without a budget keyword the message lacks "budget", so the budget
      handler asks back. */
  lemma FallbackBudgetAsks(message: string)
    requires !Mentions(message, BudgetHandler)
    ensures HandlerOutcome(BudgetHandler, message) == InputRequired(BudgetQuestion)
  {
    ContainsAnyWitness(Lower(message), BudgetWords);
    assert !Contains(Lower(message), BudgetWords[0]);
  }

  /** A request with no keyword of any list activates all three handlers, and
      the budget handler, which needs "budget" (itself a keyword), always asks
      back: such a request never gets a summary, and its clarification ends
      with the budget question. */
  lemma {:induction false} FallbackAlwaysAsks(message: string)
    requires MentionsNone(message)
    ensures Route(message) == [TravelHandler, WeatherHandler, BudgetHandler]
    ensures Answer(message).NeedsInput?
    ensures var qs := Questions(Dispatch(message)); |qs| > 0 && qs[|qs| - 1] == BudgetQuestion
  {
    FallbackBudgetAsks(message);
    var rs := Dispatch(message);
    assert rs[2] == Response(BudgetHandler, HandlerOutcome(BudgetHandler, message));
    assert AnyInputRequired(rs);
  }

  /** "kosten" routes a request to the budget handler, which still asks its
      question unless "budget" occurs as well. */
  lemma CostsWithoutBudgetAsks(message: string)
    requires Contains(Lower(message), "kosten") && !Contains(Lower(message), "budget")
    ensures Mentions(message, BudgetHandler) && BudgetHandler in Route(message)
    ensures HandlerOutcome(BudgetHandler, message) == InputRequired(BudgetQuestion)
  {
    ContainsAnyWitness(Lower(message), BudgetWords);
    assert Contains(Lower(message), BudgetWords[1]);
  }

  /** Without 'r', 'u', 'h' and 'p' no travel keyword can occur. */
  lemma TravelWordsNeed(s: string)
    requires 'r' !in s && 'u' !in s && 'h' !in s && 'p' !in s
    ensures !ContainsAny(s, TravelWords)
  {
    NotContainsMissingChar(s, "reise", 'r');
    NotContainsMissingChar(s, "urlaub", 'u');
    NotContainsMissingChar(s, "trip", 'r');
    NotContainsMissingChar(s, "hawaii", 'h');
    NotContainsMissingChar(s, "paris", 'p');
    NotContainsMissingChar(s, "flug", 'u');
    NotContainsMissingChar(s, "hotel", 'h');
    ContainsAnyWitness(s, TravelWords);
  }

  /** Without 'r', 'i' and 'b' no weather keyword can occur. */
  lemma WeatherWordsNeed(s: string)
    requires 'r' !in s && 'i' !in s && 'b' !in s
    ensures !ContainsAny(s, WeatherWords)
  {
    NotContainsMissingChar(s, "wetter", 'r');
    NotContainsMissingChar(s, "klima", 'i');
    NotContainsMissingChar(s, "regen", 'r');
    NotContainsMissingChar(s, "sonnig", 'i');
    NotContainsMissingChar(s, "temperatur", 'r');
    NotContainsMissingChar(s, "beste zeit", 'b');
    ContainsAnyWitness(s, WeatherWords);
  }

  /** Without 'w', 'k', 'g', 'o' and 'm', only "beste zeit" could occur of
      the weather keywords. */
  lemma WeatherWordsBesideBesteZeit(s: string)
    requires 'w' !in s && 'k' !in s && 'g' !in s && 'o' !in s && 'm' !in s
    requires !Contains(s, "beste zeit")
    ensures !ContainsAny(s, WeatherWords)
  {
    NotContainsMissingChar(s, "wetter", 'w');
    NotContainsMissingChar(s, "klima", 'k');
    NotContainsMissingChar(s, "regen", 'g');
    NotContainsMissingChar(s, "sonnig", 'o');
    NotContainsMissingChar(s, "temperatur", 'm');
    ContainsAnyWitness(s, WeatherWords);
  }

  /** Without 'u', 'k', 'g' and 'n' no budget keyword can occur. */
  lemma BudgetWordsNeed(s: string)
    requires 'u' !in s && 'k' !in s && 'g' !in s && 'n' !in s
    ensures !ContainsAny(s, BudgetWords)
  {
    NotContainsMissingChar(s, "budget", 'u');
    NotContainsMissingChar(s, "kosten", 'k');
    NotContainsMissingChar(s, "geld", 'g');
    NotContainsMissingChar(s, "ausgaben", 'u');
    NotContainsMissingChar(s, "sparen", 'n');
    ContainsAnyWitness(s, BudgetWords);
  }

  /** The letters of "was kosten flüge?" that the routing depends on. */
  lemma FlightCostsLetters(s: string)
    requires s == "was kosten flüge?"
    ensures forall k :: 0 <= k < |s| ==>
              s[k] != 'r' && s[k] != 'u' && s[k] != 'h' && s[k] != 'p' && s[k] != 'i' && s[k] != 'b'
  {
  }

  lemma FlightCostsKeyword(s: string)
    requires s == "was kosten flüge?"
    ensures Contains(s, "kosten")
  {
    assert s[4..10] == "kosten";
    ContainsOccurs(s, "kosten");
    assert OccursAt(s, "kosten", 4);
  }

  /** "flug" is not part of "flüge": a question about the cost of flights
      mentions only a budget keyword, and not "budget" itself. */
  lemma FlightCostsWords(message: string)
    requires Lower(message) == "was kosten flüge?"
    ensures !Mentions(message, TravelHandler) && !Mentions(message, WeatherHandler)
    ensures Contains(Lower(message), "kosten") && !Contains(Lower(message), "budget")
  {
    var lower := Lower(message);
    FlightCostsLetters(lower);
    FlightCostsKeyword(lower);
    TravelWordsNeed(lower);
    WeatherWordsNeed(lower);
    NotContainsMissingChar(lower, "budget", 'b');
  }

  /** A request that mentions only the budget keywords goes to the budget
      handler alone. */
  lemma RoutedToBudgetAlone(message: string)
    requires !Mentions(message, TravelHandler) && !Mentions(message, WeatherHandler)
    requires Mentions(message, BudgetHandler)
    ensures Route(message) == [BudgetHandler]
  {
  }

  /** So "Was kosten Flüge?", in any capitalisation, goes to the budget
      handler alone, which asks back. */
  lemma FlightCostsGoToBudget(message: string)
    requires Lower(message) == "was kosten flüge?"
    ensures Route(message) == [BudgetHandler]
    ensures Dispatch(message) == [Response(BudgetHandler, InputRequired(BudgetQuestion))]
  {
    FlightCostsWords(message);
    CostsWithoutBudgetAsks(message);
    RoutedToBudgetAlone(message);
    assert Dispatch(message)[0] == Response(BudgetHandler, HandlerOutcome(BudgetHandler, message));
  }

  /** "beste zeit" does not occur in "paris: beste jahreszeit?": its only
      'b' is followed by "este j", not "este z". */
  lemma NoBesteZeit(s: string)
    requires s == "paris: beste jahreszeit?"
    ensures !Contains(s, "beste zeit")
  {
    forall i | 0 <= i <= |s| - 10 && s[i] == 'b'
      ensures s[i + 6] != 'z'
    {
      assert i == 7;
    }
    NotContainsMismatch(s, "beste zeit", 6);
  }

  /** The letters of "paris: beste jahreszeit?" that the routing depends on. */
  lemma BestSeasonLetters(s: string)
    requires s == "paris: beste jahreszeit?"
    ensures forall k :: 0 <= k < |s| ==>
              s[k] != 'w' && s[k] != 'k' && s[k] != 'g' && s[k] != 'o' && s[k] != 'm' && s[k] != 'u' && s[k] != 'n'
  {
  }

  lemma BestSeasonKeywords(s: string)
    requires s == "paris: beste jahreszeit?"
    ensures Contains(s, "paris") && Contains(s, "beste jahreszeit")
  {
    assert s[0..5] == "paris";
    var season := "beste jahreszeit";
    assert forall k :: 0 <= k < 16 ==> s[7..23][k] == season[k];
    assert s[7..23] == season;
    ContainsOccurs(s, "paris");
    assert OccursAt(s, "paris", 0);
    ContainsOccurs(s, "beste jahreszeit");
    assert OccursAt(s, "beste jahreszeit", 7);
  }

  /** Asked for the best season of Paris, the message mentions a travel
      keyword and no weather or budget keyword, while the weather handler
      would recognise "beste jahreszeit". */
  lemma BestSeasonWords(message: string)
    requires Lower(message) == "paris: beste jahreszeit?"
    ensures Mentions(message, TravelHandler)
    ensures !Mentions(message, WeatherHandler) && !Mentions(message, BudgetHandler)
    ensures Contains(Lower(message), "beste jahreszeit")
  {
    var lower := Lower(message);
    BestSeasonLetters(lower);
    BestSeasonKeywords(lower);
    NoBesteZeit(lower);
    ContainsAnyWitness(lower, TravelWords);
    assert Contains(lower, TravelWords[4]);
    WeatherWordsBesideBesteZeit(lower);
    BudgetWordsNeed(lower);
  }

  /** The routing list has only "beste zeit": "Paris: beste Jahreszeit?", in
      any capitalisation, goes to the travel handler alone, though the
      weather handler would answer it with a season recommendation. */
  lemma BestSeasonGoesToTravel(message: string)
    requires Lower(message) == "paris: beste jahreszeit?"
    ensures Route(message) == [TravelHandler]
    ensures ClassifyWeather(message) == BestSeason
  {
    BestSeasonWords(message);
  }

  // ------------------------------------------------------------ task table

  /** The id of the `n`-th task: "task_" and `n` in decimal. */
  function TaskId(n: nat): string
  {
    "task_" + NatToString(n)
  }

  lemma TaskIdInjective(a: nat, b: nat)
    ensures TaskId(a) == TaskId(b) <==> a == b
  {
    if TaskId(a) == TaskId(b) {
      assert TaskId(a)[5..] == NatToString(a);
      assert TaskId(b)[5..] == NatToString(b);
      NatToStringInjective(a, b);
    }
  }

  function ResultOf(o: Outcome): Option<TaskResult>
  {
    if o.Completed? then Some(o.result) else None
  }

  /** The task record after its handler answered: the status it reported,
      and its result when there is one. */
  function Settled(id: string, message: string, o: Outcome): Task
  {
    Task(id, message, StatusOf(o), ResultOf(o))
  }

  /** `task_1` … `task_n`. */
  function IdsUpTo(n: nat): set<string>
  {
    if n == 0 then {} else IdsUpTo(n - 1) + {TaskId(n)}
  }

  /** Every id in `IdsUpTo(n)` is the id of some number in 1 … n. */
  lemma {:induction false} IdsUpToRange(n: nat, k: string)
    requires k in IdsUpTo(n)
    ensures exists j: nat :: 1 <= j <= n && k == TaskId(j)
  {
    if k != TaskId(n) {
      IdsUpToRange(n - 1, k);
    }
  }

  /** No id numbered above `n` is among `task_1` … `task_n`. */
  lemma IdAboveUnused(n: nat, m: nat)
    requires m > n
    ensures TaskId(m) !in IdsUpTo(n)
  {
    if TaskId(m) in IdsUpTo(n) {
      IdsUpToRange(n, TaskId(m));
      var j: nat :| 1 <= j <= n && TaskId(m) == TaskId(j);
      TaskIdInjective(m, j);
    }
  }

  /** The table holds exactly `task_1` … `task_n` for its size `n`, each
      under its own id. */
  ghost predicate Numbered(tasks: map<string, Task>)
  {
    && tasks.Keys == IdsUpTo(|tasks|)
    && (forall k :: k in tasks ==> tasks[k].id == k)
  }

  /** The next id is fresh, and filing a task under it keeps the numbering. */
  lemma NextIdFresh(tasks: map<string, Task>, t: Task)
    requires Numbered(tasks) && t.id == TaskId(|tasks| + 1)
    ensures TaskId(|tasks| + 1) !in tasks
    ensures |tasks[t.id := t]| == |tasks| + 1 && Numbered(tasks[t.id := t])
  {
    IdAboveUnused(|tasks|, |tasks| + 1);
  }

  /** The id of the `j`-th task a request files on a table of `base` entries. */
  function NewId(base: nat, j: nat): string
  {
    TaskId(base + j + 1)
  }

  /** The table `t` after the tasks of the responses `rs` have been filed
      on top of `t0`: the old entries untouched, and entry `j` under
      `task_{|t0|+j+1}`, settled with the `j`-th response. */
  ghost predicate Filed(t0: map<string, Task>, t: map<string, Task>, message: string, rs: seq<Response>)
  {
    && |t| == |t0| + |rs|
    && (forall k :: k in t0 ==> k in t && t[k] == t0[k])
    && (forall j :: 0 <= j < |rs| ==>
          NewId(|t0|, j) in t && t[NewId(|t0|, j)] == Settled(NewId(|t0|, j), message, rs[j].outcome))
  }

  /** Every id a request files is new to the table it started from: ids are
      never reused, however many requests came before. */
  lemma NewIdsFresh(t0: map<string, Task>, j: nat)
    requires Numbered(t0)
    ensures NewId(|t0|, j) !in t0
  {
    IdAboveUnused(|t0|, |t0| + j + 1);
  }

  lemma FiledStep(t0: map<string, Task>, before: map<string, Task>, after: map<string, Task>,
                  message: string, rs: seq<Response>)
    requires |rs| > 0 && Filed(t0, before, message, rs[..|rs| - 1])
    requires TaskId(|before| + 1) !in before && |after| == |before| + 1
    requires after == before[TaskId(|before| + 1) := Settled(TaskId(|before| + 1), message, rs[|rs| - 1].outcome)]
    ensures Filed(t0, after, message, rs)
  {
    var n := |rs| - 1;
    assert NewId(|t0|, n) == TaskId(|before| + 1);
    forall j | 0 <= j < n
      ensures NewId(|t0|, j) in after && after[NewId(|t0|, j)] == Settled(NewId(|t0|, j), message, rs[j].outcome)
    {
      assert rs[..n][j] == rs[j];
      assert NewId(|t0|, j) in before;
    }
  }

  /** The table after the tasks of the responses `rs` are filed on `t0`. */
  function Filing(t0: map<string, Task>, message: string, rs: seq<Response>): map<string, Task>
  {
    if rs == [] then t0
    else
      var n := |rs| - 1;
      Filing(t0, message, rs[..n])[NewId(|t0|, n) := Settled(NewId(|t0|, n), message, rs[n].outcome)]
  }

  /** Filing tasks one after another keeps the numbering. */
  lemma {:induction false} FilingNumbered(t0: map<string, Task>, message: string, rs: seq<Response>)
    requires Numbered(t0)
    ensures |Filing(t0, message, rs)| == |t0| + |rs| && Numbered(Filing(t0, message, rs))
  {
    if rs != [] {
      var n := |rs| - 1;
      FilingNumbered(t0, message, rs[..n]);
      NextIdFresh(Filing(t0, message, rs[..n]), Settled(NewId(|t0|, n), message, rs[n].outcome));
    }
  }

  /** ... and leaves every older entry in place. */
  lemma {:induction false} FilingFiled(t0: map<string, Task>, message: string, rs: seq<Response>)
    requires Numbered(t0)
    ensures Filed(t0, Filing(t0, message, rs), message, rs)
  {
    if rs != [] {
      var n := |rs| - 1;
      FilingFiled(t0, message, rs[..n]);
      FilingNumbered(t0, message, rs[..n]);
      var prev := Filing(t0, message, rs[..n]);
      NextIdFresh(prev, Settled(NewId(|t0|, n), message, rs[n].outcome));
      FiledStep(t0, prev, Filing(t0, message, rs), message, rs);
    }
  }

  /** One more filed task extends the table by the id after its size. */
  lemma FilingNext(t0: map<string, Task>, message: string, rs: seq<Response>, r: Response, before: map<string, Task>)
    requires Numbered(t0) && before == Filing(t0, message, rs)
    ensures Filing(t0, message, rs + [r]) == before[TaskId(|before| + 1) := Settled(TaskId(|before| + 1), message, r.outcome)]
  {
    FilingNumbered(t0, message, rs);
    assert (rs + [r])[..|rs|] == rs;
    assert NewId(|t0|, |rs|) == TaskId(|before| + 1);
  }

  /** Each handler's response depends only on that handler and the message:
      dispatching two lists in turn gives the two lists of responses in turn. */
  lemma ResponsesAppend(a: seq<Agent>, b: seq<Agent>, message: string)
    ensures Responses(a + b, message) == Responses(a, message) + Responses(b, message)
  {
    var l, r := Responses(a + b, message), Responses(a, message) + Responses(b, message);
    forall i | 0 <= i < |l|
      ensures l[i] == r[i]
    {
      if i < |a| {
        assert (a + b)[i] == a[i];
      } else {
        assert (a + b)[i] == b[i - |a|];
      }
    }
  }

  lemma ResponsesSnoc(agents: seq<Agent>, i: nat, message: string)
    requires i < |agents|
    ensures Responses(agents[..i + 1], message) ==
            Responses(agents[..i], message) + [Response(agents[i], HandlerOutcome(agents[i], message))]
  {
    assert agents[..i + 1] == agents[..i] + [agents[i]];
    ResponsesAppend(agents[..i], [agents[i]], message);
  }

  /** Settling a task replaces its pending entry. */
  lemma Overwrite(m: map<string, Task>, k: string, pending: Task, settled: Task)
    ensures m[k := pending][k := settled] == m[k := settled]
  {
  }

  /** The responses collected in dispatch order are the ones `Answer` folds. */
  lemma AnswerOfDispatch(message: string, rs: seq<Response>)
    requires rs == Dispatch(message)
    ensures DistinctAgents(rs) && AllRenderable(rs) && IntegrateResults(rs) == Answer(message)
  {
    DispatchRenderable(message);
  }

  /** Whether a handler's routine for the message goes through the shared
      client: every routine does except the question and the budget tips. */
  predicate CallsTools(a: Agent, message: string)
  {
    match a
    case BudgetHandler => HandlerOutcome(a, message).Completed? && HandlerOutcome(a, message).result.BudgetReport?
    case _ => !HandlerOutcome(a, message).InputRequired?
  }

  /** Whether some handler of the list goes through the client. */
  predicate AnyCallsTools(agents: seq<Agent>, message: string)
  {
    |agents| > 0 && (AnyCallsTools(agents[..|agents| - 1], message) || CallsTools(agents[|agents| - 1], message))
  }

  /** One more handler reaches the client iff it does or an earlier one did. */
  lemma AnyCallsToolsSnoc(agents: seq<Agent>, i: nat, message: string)
    requires i < |agents|
    ensures AnyCallsTools(agents[..i + 1], message) <==> AnyCallsTools(agents[..i], message) || CallsTools(agents[i], message)
  {
    assert agents[..i + 1][..i] == agents[..i];
  }

  class PersonalAssistant {
    const client: Client
    const travelAgent: TravelAgent
    const weatherAdvisor: WeatherAdvisor
    const budgetPlanner: BudgetPlanner
    /** `tasks`: every task ever opened, never cleared. */
    var tasks: map<string, Task>

    /** The three handlers share the coordinator's client. */
    ghost predicate Wired()
      reads this, client
    {
      && client.Valid()
      && travelAgent.client == client && weatherAdvisor.client == client && budgetPlanner.client == client
    }

    ghost predicate Valid()
      reads this, client
    {
      Wired() && Numbered(tasks)
    }

    constructor ()
      ensures Valid() && tasks == map[] && client.availableTools == None
    {
      var mcpClient := new Client();
      client := mcpClient;
      travelAgent := new TravelAgent(mcpClient);
      weatherAdvisor := new WeatherAdvisor(mcpClient);
      budgetPlanner := new BudgetPlanner(mcpClient);
      tasks := map[];
    }

    /** Hands one task to a handler. */
    method Delegate(a: Agent, task: Task) returns (outcome: Outcome)
      requires Wired()
      modifies client
      ensures Wired()
      ensures outcome == HandlerOutcome(a, task.message)
      ensures client.availableTools ==
                if CallsTools(a, task.message) then Some(ListTools()) else old(client.availableTools)
    {
      match a
      case TravelHandler => outcome := travelAgent.ProcessTask(task);
      case WeatherHandler => outcome := weatherAdvisor.ProcessTask(task);
      case BudgetHandler => outcome := budgetPlanner.ProcessTask(task);
    }

    /** One pass of the dispatch loop: the task is filed as pending under
        `task_{|tasks|+1}`, handed over, and settled with the answer. */
    method RunTask(a: Agent, message: string) returns (outcome: Outcome)
      requires Wired()
      modifies this, client
      ensures Wired()
      ensures outcome == HandlerOutcome(a, message)
      ensures client.availableTools ==
                if CallsTools(a, message) then Some(ListTools()) else old(client.availableTools)
      ensures tasks == old(tasks)[TaskId(|old(tasks)| + 1) := Settled(TaskId(|old(tasks)| + 1), message, outcome)]
    {
      ghost var before := tasks;
      var taskId := TaskId(|tasks| + 1);
      var task := Task(taskId, message, Pending, None);
      tasks := tasks[taskId := task];
      outcome := Delegate(a, task);
      var settled := Settled(taskId, message, outcome);
      Overwrite(before, taskId, task, settled);
      tasks := tasks[taskId := settled];
    }

    /** One turn of the dispatch loop: the next handler's task is filed and
        its response appended. */
    method RunNext(agents: seq<Agent>, i: nat, message: string, responses: seq<Response>,
                   ghost start: map<string, Task>, ghost cache: Option<map<string, ToolDescriptor>>)
        returns (next: seq<Response>)
      requires Wired() && Numbered(start) && i < |agents|
      requires responses == Responses(agents[..i], message)
      requires tasks == Filing(start, message, responses)
      requires client.availableTools == if AnyCallsTools(agents[..i], message) then Some(ListTools()) else cache
      modifies this, client
      ensures Wired()
      ensures next == Responses(agents[..i + 1], message)
      ensures tasks == Filing(start, message, next)
      ensures client.availableTools == if AnyCallsTools(agents[..i + 1], message) then Some(ListTools()) else cache
    {
      ghost var before := tasks;
      var outcome := RunTask(agents[i], message);
      FilingNext(start, message, responses, Response(agents[i], outcome), before);
      ResponsesSnoc(agents, i, message);
      AnyCallsToolsSnoc(agents, i, message);
      next := responses + [Response(agents[i], outcome)];
    }

    /** The dispatch loop of `process_request`: one task per handler, in
        the given order, numbered on from the size of the table. */
    method RunAll(agents: seq<Agent>, message: string) returns (responses: seq<Response>)
      requires Wired() && Numbered(tasks)
      modifies this, client
      ensures Wired()
      ensures responses == Responses(agents, message)
      ensures tasks == Filing(old(tasks), message, responses)
      ensures client.availableTools ==
                if AnyCallsTools(agents, message) then Some(ListTools()) else old(client.availableTools)
    {
      responses := [];
      var i := 0;
      while i < |agents|
        invariant 0 <= i <= |agents|
        invariant Wired()
        invariant responses == Responses(agents[..i], message)
        invariant tasks == Filing(old(tasks), message, responses)
        invariant client.availableTools ==
                    if AnyCallsTools(agents[..i], message) then Some(ListTools()) else old(client.availableTools)
      {
        responses := RunNext(agents, i, message, responses, old(tasks), old(client.availableTools));
        i := i + 1;
      }
      assert agents[..i] == agents;
    }

    /** `process_request`: one new task per activated handler, in routing
        order, numbered on from the size of the table; then the answers are
        folded into one reply. */
    method ProcessRequest(userMessage: string) returns (answer: Aggregated)
      requires Valid()
      modifies this, client
      ensures Valid()
      ensures answer == Answer(userMessage)
      ensures Filed(old(tasks), tasks, userMessage, Dispatch(userMessage))
      ensures client.availableTools ==
                if AnyCallsTools(Route(userMessage), userMessage) then Some(ListTools()) else old(client.availableTools)
    {
      var agents := Route(userMessage);
      var responses := RunAll(agents, userMessage);
      FilingNumbered(old(tasks), userMessage, responses);
      FilingFiled(old(tasks), userMessage, responses);
      AnswerOfDispatch(userMessage, responses);
      answer := IntegrateResults(responses);
    }
  }
}
