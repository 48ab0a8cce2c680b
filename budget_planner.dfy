/** The budget specialist (`BudgetPlanner`): "budget" with "berechnen" asks
    for the amount left for activities, "budget" with "optimieren" for fixed
    saving tips. The total is read from the message with the pattern
    `budget.*?(\d+)` on the lowercased text, and defaults to 3000. */
module BudgetPlanning {
  import opened Text
  import opened ToolServer
  import opened ToolClient
  import opened Outcomes

  const BudgetCard := AgentCard("Budget Planner", "Spezialist für Reisebudgetplanung und -optimierung", [
    Skill("budget_calculation", "Budgetberechnung", "Kann das verfügbare Budget für Aktivitäten berechnen"),
    Skill("budget_optimization", "Budgetoptimierung", "Empfiehlt Möglichkeiten zur Kostenoptimierung")
  ])

  const BudgetQuestion :=
    "Möchten Sie Ihr verfügbares Budget berechnen oder Tipps zur Budgetoptimierung erhalten?"

  datatype BudgetRoutine = AvailableBudget | SavingTips | AskPlanner

  /** `process_task`'s dispatch: "berechnen" wins over "optimieren", and
      both need "budget". */
  function ClassifyBudget(message: string): (r: BudgetRoutine)
    ensures r == AvailableBudget <==> Contains(Lower(message), "budget") && Contains(Lower(message), "berechnen")
    ensures r == SavingTips <==>
              Contains(Lower(message), "budget") && !Contains(Lower(message), "berechnen") &&
              Contains(Lower(message), "optimieren")
  {
    var lower := Lower(message);
    if Contains(lower, "budget") && Contains(lower, "berechnen") then AvailableBudget
    else if Contains(lower, "budget") && Contains(lower, "optimieren") then SavingTips
    else AskPlanner
  }

  // ------------------------------------------------------------ the pattern

  /** No line break in `s[i..t]`: Python's `.` matches every character but `\n`. */
  predicate SameLine(s: string, i: nat, t: nat)
    requires i <= t <= |s|
  {
    forall u :: i <= u < t ==> s[u] != '\n'
  }

  /** Where the lazy `.*?` stops when started at `i`: the first digit on the
      rest of the line, if there is one. */
  function NextDigit(s: string, i: nat): (j: Option<nat>)
    requires i <= |s|
    ensures j.Some? ==> i <= j.value < |s| && IsDigit(s[j.value]) && SameLine(s, i, j.value)
    ensures j.Some? ==> forall t :: i <= t < j.value ==> !IsDigit(s[t])
    ensures j.None? ==> forall t :: i <= t < |s| && SameLine(s, i, t) ==> !IsDigit(s[t])
    decreases |s| - i
  {
    if i == |s| || s[i] == '\n' then None
    else if IsDigit(s[i]) then Some(i)
    else NextDigit(s, i + 1)
  }

  /** Where the greedy `\d+` stops when started at a digit `j`. */
  function RunEnd(s: string, j: nat): (k: nat)
    requires j <= |s|
    ensures j <= k <= |s|
    ensures forall t :: j <= t < k ==> IsDigit(s[t])
    ensures k == |s| || !IsDigit(s[k])
    decreases |s| - j
  {
    if j == |s| || !IsDigit(s[j]) then j else RunEnd(s, j + 1)
  }

  /** A match of `budget.*?(\d+)` found at `start`: "budget", then no digit
      and no line break up to `digits`, then the digit run `s[digits..end]`
      that cannot be extended. */
  datatype Match = Match(start: nat, digits: nat, end: nat)

  predicate IsMatch(s: string, m: Match)
  {
    && OccursAt(s, "budget", m.start)
    && m.start + 6 <= m.digits < m.end <= |s|
    && SameLine(s, m.start + 6, m.digits)
    && (forall t :: m.start + 6 <= t < m.digits ==> !IsDigit(s[t]))
    && (forall t :: m.digits <= t < m.end ==> IsDigit(s[t]))
    && (m.end == |s| || !IsDigit(s[m.end]))
  }

  /** The pattern can match starting at `p`: "budget" is there and a digit
      follows on the same line. */
  predicate CanMatchAt(s: string, p: nat)
  {
    && OccursAt(s, "budget", p)
    && exists t :: p + 6 <= t < |s| && SameLine(s, p + 6, t) && IsDigit(s[t])
  }

  /** `re.search` from position `p` on: the leftmost start at which the
      pattern matches, with the lazy and greedy choices of the pattern. */
  function SearchFrom(s: string, p: nat): (r: Option<Match>)
    requires p <= |s|
    ensures r.Some? ==> IsMatch(s, r.value) && p <= r.value.start
    ensures r.Some? ==> forall q :: p <= q < r.value.start ==> !CanMatchAt(s, q)
    ensures r.None? ==> forall q :: p <= q <= |s| ==> !CanMatchAt(s, q)
    decreases |s| - p
  {
    if p + 6 > |s| then None
    else if OccursAt(s, "budget", p) && NextDigit(s, p + 6).Some? then
      var j := NextDigit(s, p + 6).value;
      Some(Match(p, j, RunEnd(s, j)))
    else
      SearchFrom(s, p + 1)
  }

  /** The search finds a match exactly when the pattern can match somewhere. */
  lemma SearchFinds(s: string)
    ensures SearchFrom(s, 0).Some? ==> CanMatchAt(s, SearchFrom(s, 0).value.start)
    ensures SearchFrom(s, 0).None? ==> forall p: nat :: !CanMatchAt(s, p)
  {
    var r := SearchFrom(s, 0);
    if r.Some? {
      var m := r.value;
      assert IsDigit(s[m.digits]) && SameLine(s, m.start + 6, m.digits);
    }
  }

  /** `int(budget_match.group(1))` when the lowercased message has a match. */
  function BudgetFigure(message: string): (r: Option<nat>)
    ensures r.Some? ==> exists p :: CanMatchAt(Lower(message), p)
    ensures r.None? ==> forall p: nat :: !CanMatchAt(Lower(message), p)
  {
    var s := Lower(message);
    var found := SearchFrom(s, 0);
    SearchFinds(s);
    if found.None? then None
    else
      assert CanMatchAt(Lower(message), found.value.start);
      Some(DigitsValue(s[found.value.digits..found.value.end]))
  }

  /** The first digit run after the leftmost usable "budget" is what is read. */
  lemma {:induction false} BudgetFigureReadsMatch(message: string)
    requires BudgetFigure(message).Some?
    ensures exists m :: IsMatch(Lower(message), m) &&
              (forall q :: 0 <= q < m.start ==> !CanMatchAt(Lower(message), q)) &&
              BudgetFigure(message).value == DigitsValue(Lower(message)[m.digits..m.end])
  {
    var s := Lower(message);
    var m := SearchFrom(s, 0).value;
    assert IsMatch(s, m);
  }

  const DefaultTotal := 3000
  const DefaultFlightCost := 500
  const DefaultHotelCost := 1200

  /** The total budget slot: the figure from the message, else 3000. */
  function TotalBudget(message: string): (total: nat)
    ensures BudgetFigure(message).None? ==> total == DefaultTotal
    ensures BudgetFigure(message).Some? ==> total == BudgetFigure(message).value
  {
    match BudgetFigure(message)
    case None => DefaultTotal
    case Some(n) => n
  }

  /** A message without "budget" always gets the default total. */
  lemma NoBudgetWordDefault(message: string)
    requires !Contains(Lower(message), "budget")
    ensures TotalBudget(message) == DefaultTotal
  {
    ContainsOccurs(Lower(message), "budget");
  }

  function BudgetQuery(total: int): Params
  {
    map["total_budget" := IntArg(total), "flight_cost" := IntArg(DefaultFlightCost),
        "hotel_cost" := IntArg(DefaultHotelCost)]
  }

  /** The handler always passes three ints, so the arithmetic tool succeeds. */
  lemma {:induction false} HandlerBudgetComputed(total: int)
    ensures ToolResponse("calculate_budget", BudgetQuery(total)) ==
            Result(BudgetOut(BudgetSplit(total, DefaultFlightCost, DefaultHotelCost,
                                         total - DefaultFlightCost - DefaultHotelCost)))
  {
    var q := BudgetQuery(total);
    assert q.Keys == ParamNames("calculate_budget");
    assert q["total_budget"].IntArg? && q["flight_cost"].IntArg? && q["hotel_cost"].IntArg?;
  }

  /** `budget_assessment`: strictly more than 500 left is enough. */
  function Assessment(activities: int): (a: string)
    ensures a == "ausreichend" <==> activities > 500
    ensures a == "knapp" <==> activities <= 500
  {
    if activities > 500 then "ausreichend" else "knapp"
  }

  /** The report `calculate_available_budget` builds from the tool's result. */
  function BudgetReportOf(split: BudgetSplit): (r: TaskResult)
    ensures r.BudgetReport? && r.totalBudget == split.totalBudget
    ensures r.flightCost == split.flightCost && r.hotelCost == split.hotelCost
    ensures r.activitiesBudget == split.activitiesBudget
    ensures r.assessment == Assessment(split.activitiesBudget)
    ensures r.dailyBudget * 5.0 == split.activitiesBudget as real
  {
    BudgetReport(split.totalBudget, split.flightCost, split.hotelCost, split.activitiesBudget,
                 split.activitiesBudget as real / 5.0, Assessment(split.activitiesBudget))
  }

  /** `calculate_available_budget`. */
  function AvailableBudgetOutcome(message: string): (r: Outcome)
    ensures r.Completed? && r.result.BudgetReport?
    ensures r.result.totalBudget == TotalBudget(message)
    ensures r.result.flightCost == DefaultFlightCost && r.result.hotelCost == DefaultHotelCost
    ensures r.result.activitiesBudget + r.result.flightCost + r.result.hotelCost == r.result.totalBudget
  {
    var total := TotalBudget(message);
    HandlerBudgetComputed(total);
    Completed(BudgetReportOf(ToolResponse("calculate_budget", BudgetQuery(total)).value.split))
  }

  /** With the fixed costs (1700 in all), the budget is judged sufficient
      exactly when the total exceeds 2200; the daily share is a fifth of what
      is left, negative when the costs exceed the total. */
  lemma AssessmentThreshold(message: string)
    ensures AvailableBudgetOutcome(message).result.assessment == "ausreichend" <==> TotalBudget(message) > 2200
    ensures AvailableBudgetOutcome(message).result.dailyBudget ==
            (TotalBudget(message) - 1700) as real / 5.0
  {
  }

  /** Without a figure in the message: 3000 in all, 1300 left, 260 a day. */
  lemma DefaultReport(message: string)
    requires BudgetFigure(message).None?
    ensures AvailableBudgetOutcome(message) ==
            Completed(BudgetReport(3000, 500, 1200, 1300, 260.0, "ausreichend"))
  {
  }

  const SavingTipList := [
    "Vergleichen Sie verschiedene Fluggesellschaften für bessere Preise",
    "Erwägen Sie eine Unterkunft etwas außerhalb des Zentrums",
    "Buchen Sie Aktivitäten im Voraus für Rabatte",
    "Nutzen Sie öffentliche Verkehrsmittel statt Taxis"
  ]

  /** `process_task` of the budget handler. */
  function BudgetOutcome(message: string): (r: Outcome)
    ensures r.InputRequired? <==> ClassifyBudget(message) == AskPlanner
    ensures r.InputRequired? ==> r.message == BudgetQuestion
    ensures ClassifyBudget(message) == SavingTips ==> r == Completed(BudgetTips(SavingTipList))
    ensures ClassifyBudget(message) == AvailableBudget ==> r == AvailableBudgetOutcome(message)
  {
    match ClassifyBudget(message)
    case AvailableBudget => AvailableBudgetOutcome(message)
    case SavingTips => Completed(BudgetTips(SavingTipList))
    case AskPlanner => InputRequired(BudgetQuestion)
  }

  class BudgetPlanner {
    const client: Client
    const card: AgentCard

    constructor (mcpClient: Client)
      ensures client == mcpClient && card == BudgetCard
    {
      client := mcpClient;
      card := BudgetCard;
    }

    method ProcessTask(task: Task) returns (outcome: Outcome)
      requires client.Valid()
      modifies client
      ensures client.Valid()
      ensures outcome == BudgetOutcome(task.message)
      ensures client.availableTools ==
                if outcome.Completed? && outcome.result.BudgetReport? then Some(ListTools())
                else old(client.availableTools)
    {
      var lower := Lower(task.message);
      if Contains(lower, "budget") && Contains(lower, "berechnen") {
        outcome := CalculateAvailableBudget(task);
      } else if Contains(lower, "budget") && Contains(lower, "optimieren") {
        outcome := OptimizeBudget(task);
      } else {
        outcome := InputRequired(BudgetQuestion);
      }
    }

    method CalculateAvailableBudget(task: Task) returns (outcome: Outcome)
      requires client.Valid()
      modifies client
      ensures client.Valid() && client.availableTools == Some(ListTools())
      ensures outcome == AvailableBudgetOutcome(task.message)
    {
      var totalBudget := DefaultTotal;
      var budgetMatch := BudgetFigure(task.message);
      if budgetMatch.Some? {
        totalBudget := budgetMatch.value;
      }
      var budgetResult := client.CallTool("calculate_budget", BudgetQuery(totalBudget));
      HandlerBudgetComputed(totalBudget);
      outcome := Completed(BudgetReportOf(budgetResult.value.split));
    }

    method OptimizeBudget(task: Task) returns (outcome: Outcome)
      ensures outcome == Completed(BudgetTips(SavingTipList))
    {
      outcome := Completed(BudgetTips(SavingTipList));
    }
  }
}
