/** The standalone weather agent's deterministic parts: the simulated
    weather service and the choice of the request text, the content of the
    last message whose role is "user". */
module WeatherAgent {
  import opened Text

  datatype Message = Message(role: string, content: string)

  datatype Conditions = Conditions(temp: int, condition: string)

  /** The four simulated cities. */
  const CityWeather: map<string, Conditions> := map[
    "Berlin" := Conditions(15, "cloudy"),
    "New York" := Conditions(22, "sunny"),
    "Tokyo" := Conditions(18, "rainy"),
    "London" := Conditions(12, "foggy")
  ]

  /** What any other location gets. */
  const UnknownConditions := Conditions(20, "unknown")

  /** `get_weather`: the recorded conditions of a known city, the "unknown"
      default for every other name (lookup by exact name). */
  function GetWeather(location: string): (w: Conditions)
    ensures location in CityWeather ==> w == CityWeather[location]
    ensures location !in CityWeather ==> w == UnknownConditions && w.temp == 20
    ensures w.condition == "unknown" <==> location !in CityWeather
  {
    if location in CityWeather then CityWeather[location] else UnknownConditions
  }

  /** No recorded city reports "unknown", so the default is recognisable. */
  lemma RecordedConditionsKnown(location: string)
    requires location in CityWeather
    ensures CityWeather[location].condition != "unknown"
  {
  }

  predicate IsUser(m: Message)
  {
    m.role == "user"
  }

  /** The position of the last user message, scanning from the end. */
  function LastUserIndex(messages: seq<Message>): (r: Option<nat>)
    ensures r.Some? ==> r.value < |messages| && IsUser(messages[r.value]) &&
                        forall j :: r.value < j < |messages| ==> !IsUser(messages[j])
    ensures r.None? ==> forall j :: 0 <= j < |messages| ==> !IsUser(messages[j])
  {
    if messages == [] then None
    else if IsUser(messages[|messages| - 1]) then Some(|messages| - 1)
    else
      var r := LastUserIndex(messages[..|messages| - 1]);
      assert forall j :: 0 <= j < |messages| - 1 ==> messages[..|messages| - 1][j] == messages[j];
      r
  }

  /** The request text `create_task` hands on: the content of the user
      message after which no user message follows, or "" when there is none. */
  function LastUserMessage(messages: seq<Message>): (s: string)
    ensures (forall j :: 0 <= j < |messages| ==> !IsUser(messages[j])) ==> s == ""
    ensures forall i :: 0 <= i < |messages| && IsUser(messages[i]) ==>
              (forall j :: i < j < |messages| ==> !IsUser(messages[j])) ==> s == messages[i].content
  {
    var r := LastUserIndex(messages);
    if r.None? then "" else messages[r.value].content
  }

  /** A new user message becomes the request; a message of any other role
      leaves the request as it was. */
  lemma {:induction false} AppendMessage(messages: seq<Message>, m: Message)
    ensures LastUserMessage(messages + [m]) == if IsUser(m) then m.content else LastUserMessage(messages)
  {
    var ms := messages + [m];
    if !IsUser(m) {
      var r := LastUserIndex(messages);
      if r.Some? {
        assert ms[r.value] == messages[r.value];
      } else {
        assert forall j :: 0 <= j < |ms| ==> !IsUser(ms[j]) by {
          forall j | 0 <= j < |ms|
            ensures !IsUser(ms[j])
          {
            if j < |messages| {
              assert ms[j] == messages[j];
            }
          }
        }
      }
    }
  }
}
