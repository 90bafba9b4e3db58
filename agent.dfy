/**
 * The agent service: one chat turn with the remote model, routed through at
 * most one tool call, and the one-shot risk analysis. The remote model is an
 * oracle: a `ChatScript` fixes what each request to it returns, so every
 * branch of the turn can be stated. Clock readings and record stamps arrive
 * in a `TurnEnv`.
 */
module Agent {
  import opened Types
  import opened Text
  import opened Constants
  import opened Logging

  // ---------------------------------------------------------------------
  // The remote model, seen from the dashboard
  // ---------------------------------------------------------------------

  /** A function call the model asks for. `call.args` may be absent
      (`None`); when present its string-valued entries are the arguments (a
      missing key reads as `undefined`). */
  datatype FunctionCall = FunctionCall(name: string, args: Option<map<string, string>>)

  /** What one request to the model yields: a reply (its `text`, "" when
      absent, and its `functionCalls`) or an exception with its message. */
  datatype Outcome = Replied(text: string, calls: seq<FunctionCall>) | Threw(message: string)

  /** The model's behaviour for one turn: the reply to the user message, the
      reply to the function response, and the history `getHistory` returns. */
  datatype ChatScript = ChatScript(first: Outcome, second: Outcome, history: seq<Content>)

  /** What the turn sends to the model. */
  datatype Outbound =
    | OpenChat(focus: string, tools: seq<ToolDeclaration>, history: seq<Content>)
    | UserMessage(text: string)
    | FunctionResponse(name: string, result: string)

  datatype ParamKind = StringParam | NumberParam | StringListParam
  datatype Param = Param(name: string, kind: ParamKind)
  datatype ToolDeclaration = ToolDeclaration(name: string, params: seq<Param>, required: seq<string>)

  /** Stamps and clock readings (`Date.now() - startTime`) for the records a
      turn writes, in the order it writes them. */
  datatype TurnEnv = TurnEnv(stamp1: Stamp, latency1: int, stamp2: Stamp, latency2: int)

  // ---------------------------------------------------------------------
  // Tool declarations
  // ---------------------------------------------------------------------

  const GET_GLOBAL_RISK := "get_global_risk"
  const FIND_SHELTERS := "find_shelters"
  const NAVIGATE_TO_BASIN := "navigate_to_basin"
  const GENERATE_ALERT := "generate_alert"

  const GLOBAL_RISK_DECL := ToolDeclaration(GET_GLOBAL_RISK,
    [Param("basin", StringParam), Param("country", StringParam), Param("city", StringParam)], ["country"])
  const FIND_SHELTERS_DECL := ToolDeclaration(FIND_SHELTERS,
    [Param("country", StringParam), Param("state", StringParam), Param("radius_km", NumberParam)], ["country", "state"])
  const NAVIGATE_DECL := ToolDeclaration(NAVIGATE_TO_BASIN,
    [Param("basin_id", StringParam)], ["basin_id"])
  const ALERT_DECL := ToolDeclaration(GENERATE_ALERT,
    [Param("language", StringParam), Param("districts", StringListParam)], ["language"])

  const TOOLS: seq<ToolDeclaration> := [GLOBAL_RISK_DECL, FIND_SHELTERS_DECL, NAVIGATE_DECL, ALERT_DECL]

  /** The four declarations have distinct names, each required argument is
      one of the tool's declared parameters, and the required lists are
      country; country and state; basin_id; language. */
  lemma DeclarationsWellFormed()
    ensures |TOOLS| == 4
    ensures forall i, j :: 0 <= i < j < |TOOLS| ==> TOOLS[i].name != TOOLS[j].name
    ensures forall i, k :: 0 <= i < |TOOLS| && 0 <= k < |TOOLS[i].required| ==>
      exists p :: p in TOOLS[i].params && p.name == TOOLS[i].required[k]
    ensures GLOBAL_RISK_DECL.required == ["country"] && FIND_SHELTERS_DECL.required == ["country", "state"]
    ensures NAVIGATE_DECL.required == ["basin_id"] && ALERT_DECL.required == ["language"]
  {
    assert GLOBAL_RISK_DECL.params[1].name == "country";
    assert FIND_SHELTERS_DECL.params[0].name == "country" && FIND_SHELTERS_DECL.params[1].name == "state";
    assert NAVIGATE_DECL.params[0].name == "basin_id";
    assert ALERT_DECL.params[0].name == "language";
  }

  // ---------------------------------------------------------------------
  // Fixed texts
  // ---------------------------------------------------------------------

  const DATA_NOT_FOUND := "Data not found"
  const GENERAL_RISK := "General regional risk is ELEVATED."
  const ALERT_RESULT := "ALERT GENERATED: 'URGENT: CAT 4 STORM SURGE IMMINENT. EVACUATE ZONE A IMMEDIATELY.' (Broadcast sent to towers)"
  const INTERRUPTED := "Connection to Shield Core interrupted."
  const NO_TEXT_REPLY := "I copy."
  const NO_TEXT_AFTER_TOOL := "Command executed."
  /** The message of the TypeError `undefined.toUpperCase()` raises. */
  const UNDEFINED_BASIN_ERROR := "Cannot read properties of undefined (reading 'toUpperCase')"
  /** The TypeErrors the three argument-reading handlers raise when the call
      carries no `args` at all: reading `basin_id` off it, and destructuring
      it. The texts are V8's. */
  const NO_ARGS_NAVIGATE_ERROR := "Cannot read properties of undefined (reading 'basin_id')"
  const NO_ARGS_RISK_ERROR := "Cannot destructure property 'basin' of 'call.args' as it is undefined."
  const NO_ARGS_SHELTER_ERROR := "Cannot destructure property 'country' of 'call.args' as it is undefined."

  const ANALYSIS_UNAVAILABLE := "Analysis currently unavailable."
  const ANALYSIS_ERROR := "Error generating AI analysis."

  /** The focus line of the system instruction. */
  function Focus(activeBasinId: string): string
  {
    if activeBasinId == "na" then "North Atlantic (USA/Florida focus)" else "North Indian (India/Chennai focus)"
  }

  /** `text || fallback`. */
  function OrDefault(text: string, fallback: string): string
  {
    if text == "" then fallback else text
  }

  // ---------------------------------------------------------------------
  // Tool handlers
  // ---------------------------------------------------------------------

  /** `${args.key}`: the argument, or "undefined" when it is missing. */
  function ArgText(args: map<string, string>, key: string): string
  {
    if key in args then args[key] else "undefined"
  }

  /** The risk tool's basin: North Atlantic when the lower-cased country
      contains "usa" or the basin (case kept) contains "atlantic". */
  function RiskBasin(args: map<string, string>): (r: string)
    ensures r == "na" || r == "ni"
    ensures r == "na" <==>
      ("country" in args && Contains(ToLower(args["country"]), "usa")) ||
      ("basin" in args && Contains(args["basin"], "atlantic"))
  {
    if ("country" in args && Contains(ToLower(args["country"]), "usa")) || ("basin" in args && Contains(args["basin"], "atlantic"))
    then "na" else "ni"
  }

  /** The shelter tool's basin: North Atlantic when the lower-cased country
      contains "usa"; the state plays no part. */
  function ShelterBasin(args: map<string, string>): (r: string)
    ensures r == "na" || r == "ni"
    ensures r == "na" <==> "country" in args && Contains(ToLower(args["country"]), "usa")
  {
    if "country" in args && Contains(ToLower(args["country"]), "usa") then "na" else "ni"
  }

  /** `d.name.toLowerCase().includes(city.toLowerCase())`. */
  predicate NameMatches(d: DistrictRisk, city: string)
  {
    Contains(ToLower(d.name), ToLower(city))
  }

  /** `districts.find(...)`, by position: the first district whose name
      contains the city, ignoring case, or none. */
  function FindDistrict(districts: seq<DistrictRisk>, city: string): (r: Option<nat>)
    ensures r.Some? ==> r.value < |districts| && NameMatches(districts[r.value], city)
    ensures r.Some? ==> forall j :: 0 <= j < r.value ==> !NameMatches(districts[j], city)
    ensures r.None? <==> forall j :: 0 <= j < |districts| ==> !NameMatches(districts[j], city)
  {
    if |districts| == 0 then None
    else if NameMatches(districts[0], city) then Some(0)
    else
      var k := FindDistrict(districts[1..], city);
      if k.None? then None else Some(k.value + 1)
  }

  const FOUND_PREFIX := "City: "

  /** The line about a found district: it opens with "City: " and names the
      district. */
  function DistrictLine(d: DistrictRisk): (r: string)
    ensures StartsWith(r, FOUND_PREFIX) && Contains(r, d.name)
  {
    PrefixStartsWith(FOUND_PREFIX, DistrictFacts(d));
    ContainsInfix(FOUND_PREFIX, d.name, DistrictTail(d));
    FOUND_PREFIX + DistrictFacts(d)
  }

  function DistrictFacts(d: DistrictRisk): string
  {
    d.name + DistrictTail(d)
  }

  function DistrictTail(d: DistrictRisk): string
  {
    ", State: " + d.state + ". Risk Score: " + NumberText(d.riskScore) +
    "/10. Pop: " + Fixed1(d.populationAffected as real / 1000000.0) + "M. Infra at Risk: " +
    IntText(d.criticalInfrastructureCount) + " units."
  }

  /** The line about a city no district matches: it names the city, and it
      never opens like a found district's line. */
  function CityNotFound(city: string): (r: string)
    ensures Contains(r, city) && !StartsWith(r, FOUND_PREFIX)
  {
    ContainsInfix("City ", city, " not found in high-priority impact zone list.");
    assert ("City " + (city + " not found in high-priority impact zone list."))[4] == ' ';
    "City " + (city + " not found in high-priority impact zone list.")
  }

  /** The risk line: general without a (non-empty) city, else the first
      matching district's line, else the not-found line. */
  function RiskInfo(args: map<string, string>, districts: seq<DistrictRisk>): (r: string)
    ensures r == GENERAL_RISK <==> "city" !in args || args["city"] == ""
    ensures "city" in args && args["city"] != "" ==>
      (StartsWith(r, FOUND_PREFIX) <==> exists j :: 0 <= j < |districts| && NameMatches(districts[j], args["city"]))
    ensures "city" in args && args["city"] != "" && !StartsWith(r, FOUND_PREFIX) ==> r == CityNotFound(args["city"])
    ensures StartsWith(r, FOUND_PREFIX) ==>
      exists j :: 0 <= j < |districts| && r == DistrictLine(districts[j]) && NameMatches(districts[j], args["city"])
        && forall i :: 0 <= i < j ==> !NameMatches(districts[i], args["city"])
  {
    assert GENERAL_RISK[1] == 'e';
    if "city" !in args || args["city"] == "" then GENERAL_RISK
    else
      var found := FindDistrict(districts, args["city"]);
      if found.Some? then DistrictLine(districts[found.value]) else CityNotFound(args["city"])
  }

  function RiskHeader(args: map<string, string>): string
  {
    "RISK ASSESSMENT [" + ArgText(args, "country") + "]: "
  }

  /** The risk tool's response: the header naming the country, then the
      general line, the not-found line, or the line of a district of the
      basin the arguments choose that matches the city. The districts are
      read from the chosen basin's data (`Constants.GetSimulationData`). */
  function RiskResult(args: map<string, string>): (r: string)
    ensures StartsWith(r, RiskHeader(args))
    ensures "city" !in args || args["city"] == "" ==> r == RiskHeader(args) + GENERAL_RISK
    ensures "city" in args && args["city"] != "" ==>
      || r == RiskHeader(args) + CityNotFound(args["city"])
      || exists j :: 0 <= j < |DistrictsFor(RiskBasin(args))| && NameMatches(DistrictsFor(RiskBasin(args))[j], args["city"])
           && r == RiskHeader(args) + DistrictLine(DistrictsFor(RiskBasin(args))[j])
  {
    PrefixStartsWith(RiskHeader(args), RiskInfo(args, DistrictsFor(RiskBasin(args))));
    RiskHeader(args) + RiskInfo(args, DistrictsFor(RiskBasin(args)))
  }

  function ShelterHeader(args: map<string, string>): string
  {
    "SHELTER OPS [" + ArgText(args, "state") + "]: "
  }

  /** The shelter tool's response, about `data.shelters[0]` of the chosen
      basin; both basins it can choose have shelters. It opens with the
      header naming the state and names that shelter. */
  function ShelterResult(args: map<string, string>): (r: string)
    ensures StartsWith(r, ShelterHeader(args))
    ensures Contains(r, SheltersFor(ShelterBasin(args))[0].name)
  {
    var s := SheltersFor(ShelterBasin(args))[0];
    PrefixStartsWith(ShelterHeader(args), ShelterFacts(s));
    ContainsInfix(SHELTER_LEAD, s.name, ShelterTail(s));
    ContainsAfter(ShelterHeader(args), ShelterFacts(s), s.name);
    ShelterHeader(args) + ShelterFacts(s)
  }

  const SHELTER_LEAD := "Nearest hardened facility is '"

  function ShelterFacts(s: Shelter): string
  {
    SHELTER_LEAD + (s.name + ShelterTail(s))
  }

  function ShelterTail(s: Shelter): string
  {
    "' (" + s.kind.Text() + "). Capacity: " +
    IntText(s.occupied) + "/" + IntText(s.capacity) + "."
  }

  const NAVIGATE_PREFIX := "Acknowledged. Rerouting satellite feed to "

  /** The navigation tool's response: the fixed acknowledgement naming the
      upper-cased basin id. */
  function NavigateResult(basinId: string): (r: string)
    ensures StartsWith(r, NAVIGATE_PREFIX) && Contains(r, ToUpper(basinId))
  {
    PrefixStartsWith(NAVIGATE_PREFIX, ToUpper(basinId) + " basin.");
    ContainsInfix(NAVIGATE_PREFIX, ToUpper(basinId), " basin.");
    NAVIGATE_PREFIX + (ToUpper(basinId) + " basin.")
  }

  /** What handling one call produces: the function response and the action,
      or the exception a handler raised. */
  datatype ToolRun = Ran(response: string, action: Option<AgentAction>) | ToolThrew(message: string)

  /** The three handlers that read `call.args`. */
  predicate ReadsArgs(name: string)
  {
    name == NAVIGATE_TO_BASIN || name == GET_GLOBAL_RISK || name == FIND_SHELTERS
  }

  /** The calls whose handler throws: a handler that reads its arguments
      given none, or a navigation without `basin_id`. */
  predicate ToolThrows(call: FunctionCall)
  {
    || (ReadsArgs(call.name) && call.args.None?)
    || (call.name == NAVIGATE_TO_BASIN && call.args.Some? && "basin_id" !in call.args.value)
  }

  /** The action a call that goes through hands to the dashboard: only a
      navigation with a basin id has one. */
  function ToolAction(call: FunctionCall): Option<AgentAction>
  {
    if call.name == NAVIGATE_TO_BASIN && call.args.Some? && "basin_id" in call.args.value
    then Some(AgentAction(Navigate, call.args.value["basin_id"]))
    else None
  }

  /** The tool chain as a reference definition for the turn. A handler that
      reads its arguments throws when the call has none; the navigation
      handler also throws when `basin_id` is missing. */
  function Dispatch(call: FunctionCall): (r: ToolRun)
    ensures r.ToolThrew? <==> ToolThrows(call)
    ensures r.Ran? && r.action.Some? <==> call.name == NAVIGATE_TO_BASIN && call.args.Some? && "basin_id" in call.args.value
    ensures r.Ran? && r.action.Some? ==> r.action.value == AgentAction(Navigate, call.args.value["basin_id"])
    ensures call.args.None? && call.name == NAVIGATE_TO_BASIN ==> r == ToolThrew(NO_ARGS_NAVIGATE_ERROR)
    ensures call.args.None? && call.name == GET_GLOBAL_RISK ==> r == ToolThrew(NO_ARGS_RISK_ERROR)
    ensures call.args.None? && call.name == FIND_SHELTERS ==> r == ToolThrew(NO_ARGS_SHELTER_ERROR)
    ensures call.args.Some? && call.name == NAVIGATE_TO_BASIN && "basin_id" !in call.args.value ==>
      r == ToolThrew(UNDEFINED_BASIN_ERROR)
    ensures !ReadsArgs(call.name) && call.name != GENERATE_ALERT ==> r == Ran(DATA_NOT_FOUND, None)
    ensures call.name == GET_GLOBAL_RISK && call.args.Some? ==>
      r.Ran? && StartsWith(r.response, RiskHeader(call.args.value))
    ensures call.name == FIND_SHELTERS && call.args.Some? ==>
      r.Ran? && StartsWith(r.response, ShelterHeader(call.args.value))
    ensures call.name == GENERATE_ALERT ==> r == Ran(ALERT_RESULT, None)
  {
    if call.name == NAVIGATE_TO_BASIN then
      if call.args.None? then ToolThrew(NO_ARGS_NAVIGATE_ERROR)
      else if "basin_id" in call.args.value then
        Ran(NavigateResult(call.args.value["basin_id"]), Some(AgentAction(Navigate, call.args.value["basin_id"])))
      else ToolThrew(UNDEFINED_BASIN_ERROR)
    else if call.name == GET_GLOBAL_RISK then
      if call.args.None? then ToolThrew(NO_ARGS_RISK_ERROR) else Ran(RiskResult(call.args.value), None)
    else if call.name == FIND_SHELTERS then
      if call.args.None? then ToolThrew(NO_ARGS_SHELTER_ERROR) else Ran(ShelterResult(call.args.value), None)
    else if call.name == GENERATE_ALERT then Ran(ALERT_RESULT, None)
    else Ran(DATA_NOT_FOUND, None)
  }

  /** The risk tool with no city reports the general line, whatever the
      country and basin. */
  lemma RiskWithoutCity(args: map<string, string>)
    requires "city" !in args || args["city"] == ""
    ensures Dispatch(FunctionCall(GET_GLOBAL_RISK, Some(args))) ==
      Ran("RISK ASSESSMENT [" + ArgText(args, "country") + "]: " + GENERAL_RISK, None)
  {
  }

  /** With a non-empty city, the risk line is the not-found line exactly
      when no district's name contains the city, ignoring case. */
  lemma {:induction false} RiskCityFoundIff(args: map<string, string>, districts: seq<DistrictRisk>)
    requires "city" in args && args["city"] != ""
    ensures RiskInfo(args, districts) == CityNotFound(args["city"]) <==>
      forall j :: 0 <= j < |districts| ==> !NameMatches(districts[j], args["city"])
  {
    var found := FindDistrict(districts, args["city"]);
    if found.Some? {
      FoundLineDiffers(districts[found.value], args["city"]);
    }
  }

  /** A district's line never reads as the not-found line. */
  lemma FoundLineDiffers(d: DistrictRisk, city: string)
    ensures DistrictLine(d) != CityNotFound(city)
  {
    assert DistrictLine(d)[4] == ':';
    assert CityNotFound(city)[4] == ' ';
  }

  /** Asking about Miami in the USA reads the Florida districts and reports
      the first of them, Miami-Dade. */
  lemma MiamiRisk()
    ensures FLORIDA_DISTRICTS[0].name == "Miami-Dade"
    ensures Dispatch(FunctionCall(GET_GLOBAL_RISK, Some(map["country" := "USA", "city" := "Miami"]))) ==
      Ran("RISK ASSESSMENT [USA]: " + DistrictLine(FLORIDA_DISTRICTS[0]), None)
  {
    var args := map["country" := "USA", "city" := "Miami"];
    MiamiArgs(args);
    MiamiFound(FLORIDA_DISTRICTS);
    assert RiskInfo(args, FLORIDA_DISTRICTS) == DistrictLine(FLORIDA_DISTRICTS[0]);
  }

  lemma MiamiArgs(args: map<string, string>)
    requires args == map["country" := "USA", "city" := "Miami"]
    ensures RiskBasin(args) == "na" && DistrictsFor(RiskBasin(args)) == FLORIDA_DISTRICTS
    ensures RiskHeader(args) == "RISK ASSESSMENT [USA]: "
    ensures "city" in args && args["city"] == "Miami"
  {
    assert ToLower("USA") == "usa";
    assert OccursAt("usa", "usa", 0);
  }

  lemma MiamiFound(districts: seq<DistrictRisk>)
    requires districts == FLORIDA_DISTRICTS
    ensures districts[0].name == "Miami-Dade"
    ensures FindDistrict(districts, "Miami") == Some(0)
  {
    var d := districts[0];
    assert d.name == "Miami-Dade";
    assert ToLower("Miami") == "miami";
    assert ToLower(d.name)[..5] == "miami";
    assert OccursAt(ToLower(d.name), ToLower("Miami"), 0);
  }

  /** The shelter tool for India reports the first Tamil Nadu shelter. */
  lemma ChennaiShelter()
    ensures SHELTERS[0].name == "Chennai Corp. Community Hall"
    ensures Dispatch(FunctionCall(FIND_SHELTERS, Some(map["country" := "India", "state" := "Tamil Nadu"]))) ==
      Ran("SHELTER OPS [Tamil Nadu]: " + ShelterFacts(SHELTERS[0]), None)
  {
    var args := map["country" := "India", "state" := "Tamil Nadu"];
    assert ShelterBasin(args) == "ni" by {
      assert ToLower("India") == "india";
      MissingCharNotContained("india", "usa", 0);
    }
    assert SheltersFor("ni")[0] == SHELTERS[0];
    assert ShelterHeader(args) == "SHELTER OPS [Tamil Nadu]: ";
  }

  // ---------------------------------------------------------------------
  // One turn
  // ---------------------------------------------------------------------

  function FailureLog(message: string, latency: int): LogInput
  {
    LogInput("Gemini 3 Pro", Failure, latency, "Agent Error: " + message)
  }

  function ToolLog(name: string, latency: int): LogInput
  {
    LogInput("Gemini 3 Pro Tool", Success, latency, "Tool Executed: " + name)
  }

  function ChatLog(latency: int): LogInput
  {
    LogInput("Gemini 3 Pro Chat", Success, latency, "processed message")
  }

  /** The degraded reply: fixed text, the caller's history, no action. */
  function Degraded(chatHistory: seq<Content>): AgentResponse
  {
    AgentResponse(INTERRUPTED, chatHistory, None)
  }

  /** The turn fails: the first request throws, or its first function
      call's handler throws, or the request carrying the function response
      throws. */
  predicate TurnFails(script: ChatScript)
  {
    || script.first.Threw?
    || (|script.first.calls| > 0 && (ToolThrows(script.first.calls[0]) || script.second.Threw?))
  }

  /** The reply a turn resolves to, given the model's behaviour: a failing
      turn resolves to the degraded reply over the caller's history, any
      other to a non-empty text over the chat's own history; it navigates
      exactly when the model's first call is a navigation with a basin id
      and the function response goes through. */
  function TurnResult(script: ChatScript, chatHistory: seq<Content>): (r: AgentResponse)
    ensures r.text != ""
    ensures TurnFails(script) ==> r == Degraded(chatHistory)
    ensures !TurnFails(script) ==> r.newHistory == script.history
    ensures r.action.Some? <==>
      && script.first.Replied? && |script.first.calls| > 0 && script.second.Replied?
      && script.first.calls[0].name == NAVIGATE_TO_BASIN
      && script.first.calls[0].args.Some? && "basin_id" in script.first.calls[0].args.value
    ensures r.action.Some? ==> r.action.value == AgentAction(Navigate, script.first.calls[0].args.value["basin_id"])
  {
    match script.first
    case Threw(_) => Degraded(chatHistory)
    case Replied(text, calls) =>
      if |calls| == 0 then AgentResponse(OrDefault(text, NO_TEXT_REPLY), script.history, None)
      else
        if ToolThrows(calls[0]) || script.second.Threw? then Degraded(chatHistory)
        else AgentResponse(OrDefault(script.second.text, NO_TEXT_AFTER_TOOL), script.history, ToolAction(calls[0]))
  }

  /** A navigation, risk or shelter call that carries no arguments at all
      makes the turn fail: degraded reply, no navigation. */
  lemma ArgumentlessCallFails(script: ChatScript, chatHistory: seq<Content>)
    requires script.first.Replied? && |script.first.calls| > 0
    requires ReadsArgs(script.first.calls[0].name) && script.first.calls[0].args.None?
    ensures TurnFails(script)
    ensures TurnResult(script, chatHistory) == Degraded(chatHistory)
  {
  }

  /** `getAgentResponse`: open a chat over `chatHistory`, send the message,
      handle only the first function call (if any) and send its response
      back once. Every exception ends in the degraded reply and one failure
      record; a tool call is recorded before the resubmission. */
  method GetAgentResponse(store: LogStore, userMessage: string, chatHistory: seq<Content>, activeBasinId: string,
                          script: ChatScript, env: TurnEnv)
    returns (resp: AgentResponse, sent: seq<Outbound>)
    requires store.Valid()
    modifies store`logs, store`records, store`delivered
    ensures store.Valid() && store.listeners == old(store.listeners)
    ensures |store.records| > |old(store.records)| && store.records[..|old(store.records)|] == old(store.records)
    ensures store.delivered == old(store.delivered) +
      Deliveries(store.listeners, old(store.records), store.records[|old(store.records)|..])
    ensures 2 <= |sent| <= 3
    ensures resp == TurnResult(script, chatHistory)
    ensures resp.action.Some? ==> resp.action.value.kind == Navigate
    ensures sent[..2] == [OpenChat(Focus(activeBasinId), TOOLS, chatHistory), UserMessage(userMessage)]
    // The first request fails.
    ensures script.first.Threw? ==>
      && resp == Degraded(chatHistory) && |sent| == 2
      && store.records == old(store.records) + [Entry(FailureLog(script.first.message, env.latency1), env.stamp1)]
    // A reply without a function call.
    ensures script.first.Replied? && |script.first.calls| == 0 ==>
      && resp == AgentResponse(OrDefault(script.first.text, NO_TEXT_REPLY), script.history, None) && |sent| == 2
      && store.records == old(store.records) + [Entry(ChatLog(env.latency1), env.stamp1)]
    // The first call's handler throws.
    ensures script.first.Replied? && |script.first.calls| > 0 && Dispatch(script.first.calls[0]).ToolThrew? ==>
      && resp == Degraded(chatHistory) && |sent| == 2
      && store.records == old(store.records) +
           [Entry(FailureLog(Dispatch(script.first.calls[0]).message, env.latency1), env.stamp1)]
    // The first call is handled and its response sent back.
    ensures script.first.Replied? && |script.first.calls| > 0 && Dispatch(script.first.calls[0]).Ran? ==>
      var call := script.first.calls[0];
      var run := Dispatch(call);
      && |sent| == 3 && sent[2] == FunctionResponse(call.name, run.response)
      && (script.second.Threw? ==>
            && resp == Degraded(chatHistory)
            && store.records == old(store.records) +
                 [Entry(ToolLog(call.name, env.latency1), env.stamp1), Entry(FailureLog(script.second.message, env.latency2), env.stamp2)])
      && (script.second.Replied? ==>
            && resp == AgentResponse(OrDefault(script.second.text, NO_TEXT_AFTER_TOOL), script.history, run.action)
            && store.records == old(store.records) + [Entry(ToolLog(call.name, env.latency1), env.stamp1)])
  {
    sent := [OpenChat(Focus(activeBasinId), TOOLS, chatHistory), UserMessage(userMessage)];
    ghost var records0 := store.records;
    var result := script.first;
    if result.Threw? {
      Fail(store, records0, result.message, env.latency1, env.stamp1);
      resp := Degraded(chatHistory);
      return;
    }
    if |result.calls| > 0 {
      var call := result.calls[0];
      var run := RunTool(call);
      if run.ToolThrew? {
        Fail(store, records0, run.message, env.latency1, env.stamp1);
        resp := Degraded(chatHistory);
        return;
      }
      var reply;
      reply, resp := SendToolResponse(store, records0, call.name, run, script, chatHistory, env);
      sent := sent + [reply];
      return;
    }
    Record(store, records0, ChatLog(env.latency1), env.stamp1);
    resp := AgentResponse(OrDefault(result.text, NO_TEXT_REPLY), script.history, None);
  }

  /** The second half of a turn whose function call was handled: record the
      tool run, send its response back and take the final reply, or the
      degraded reply with a second (failure) record. */
  method SendToolResponse(store: LogStore, ghost records0: seq<ApiLog>, name: string, run: ToolRun,
                          script: ChatScript, chatHistory: seq<Content>, env: TurnEnv)
    returns (reply: Outbound, resp: AgentResponse)
    requires store.Valid() && store.records == records0 && run.Ran?
    modifies store`logs, store`records, store`delivered
    ensures store.Valid() && store.listeners == old(store.listeners)
    ensures |store.records| > |records0| && store.records[..|records0|] == records0
    ensures store.delivered == old(store.delivered) +
      Deliveries(store.listeners, records0, store.records[|records0|..])
    ensures reply == FunctionResponse(name, run.response)
    ensures script.second.Threw? ==>
      && resp == Degraded(chatHistory)
      && store.records == records0 +
           [Entry(ToolLog(name, env.latency1), env.stamp1), Entry(FailureLog(script.second.message, env.latency2), env.stamp2)]
    ensures script.second.Replied? ==>
      && resp == AgentResponse(OrDefault(script.second.text, NO_TEXT_AFTER_TOOL), script.history, run.action)
      && store.records == records0 + [Entry(ToolLog(name, env.latency1), env.stamp1)]
  {
    Record(store, records0, ToolLog(name, env.latency1), env.stamp1);
    reply := FunctionResponse(name, run.response);
    var finalRes := script.second;
    if finalRes.Threw? {
      store.AddLog(FailureLog(finalRes.message, env.latency2), env.stamp2);
      DeliveriesAppend(store.listeners, records0, [Entry(ToolLog(name, env.latency1), env.stamp1)],
                       Entry(FailureLog(finalRes.message, env.latency2), env.stamp2));
      assert store.records[|records0|..] ==
        [Entry(ToolLog(name, env.latency1), env.stamp1), Entry(FailureLog(finalRes.message, env.latency2), env.stamp2)];
      resp := Degraded(chatHistory);
      return;
    }
    resp := AgentResponse(OrDefault(finalRes.text, NO_TEXT_AFTER_TOOL), script.history, run.action);
    assert store.records[|records0|..] == [Entry(ToolLog(name, env.latency1), env.stamp1)];
  }

  /** The handler chain of `getAgentResponse` for the first function call:
      the response text, the action (navigation only), or the exception a
      handler raises on missing arguments. */
  method RunTool(call: FunctionCall) returns (run: ToolRun)
    ensures run == Dispatch(call)
  {
    var action: Option<AgentAction> := None;
    var functionResponse := DATA_NOT_FOUND;
    if call.name == NAVIGATE_TO_BASIN {
      if call.args.None? {
        return ToolThrew(NO_ARGS_NAVIGATE_ERROR);
      }
      if "basin_id" !in call.args.value {
        return ToolThrew(UNDEFINED_BASIN_ERROR);
      }
      var bid := call.args.value["basin_id"];
      action := Some(AgentAction(Navigate, bid));
      functionResponse := NavigateResult(bid);
    } else if call.name == GET_GLOBAL_RISK {
      if call.args.None? {
        return ToolThrew(NO_ARGS_RISK_ERROR);
      }
      functionResponse := RiskResult(call.args.value);
    } else if call.name == FIND_SHELTERS {
      if call.args.None? {
        return ToolThrew(NO_ARGS_SHELTER_ERROR);
      }
      functionResponse := ShelterResult(call.args.value);
    } else if call.name == GENERATE_ALERT {
      functionResponse := ALERT_RESULT;
    }
    run := Ran(functionResponse, action);
  }

  /** Writes the first record of a turn. */
  method Record(store: LogStore, ghost records0: seq<ApiLog>, log: LogInput, stamp: Stamp)
    requires store.Valid() && store.records == records0
    modifies store`logs, store`records, store`delivered
    ensures store.Valid() && store.listeners == old(store.listeners)
    ensures store.records == records0 + [Entry(log, stamp)] && store.logs[0] == Entry(log, stamp)
    ensures store.delivered == old(store.delivered) + Deliveries(store.listeners, records0, [Entry(log, stamp)])
  {
    store.AddLog(log, stamp);
    assert Deliveries(store.listeners, records0, [Entry(log, stamp)]) ==
      Broadcast(store.listeners, Newest(records0 + [Entry(log, stamp)])) + Deliveries(store.listeners, records0 + [Entry(log, stamp)], []);
  }

  /** The catch block of a turn that fails before writing anything: one
      FAILURE record against the chat endpoint carrying the error message. */
  method Fail(store: LogStore, ghost records0: seq<ApiLog>, message: string, latency: int, stamp: Stamp)
    requires store.Valid() && store.records == records0
    modifies store`logs, store`records, store`delivered
    ensures store.Valid() && store.listeners == old(store.listeners)
    ensures store.records == records0 + [Entry(FailureLog(message, latency), stamp)]
    ensures store.logs[0].endpoint == "Gemini 3 Pro" && store.logs[0].status == Failure
    ensures store.logs[0].details == "Agent Error: " + message
    ensures store.delivered == old(store.delivered) +
      Deliveries(store.listeners, records0, [Entry(FailureLog(message, latency), stamp)])
  {
    Record(store, records0, FailureLog(message, latency), stamp);
  }

  lemma DeliveriesAppend(listeners: seq<ListenerId>, records: seq<ApiLog>, added: seq<ApiLog>, e: ApiLog)
    ensures Deliveries(listeners, records, added + [e]) ==
      Deliveries(listeners, records, added) + Broadcast(listeners, Newest(records + added + [e]))
    decreases |added|
  {
    if added == [] {
      assert added + [e] == [e] && records + added == records;
      assert Deliveries(listeners, records, [e]) ==
        Broadcast(listeners, Newest(records + [e])) + Deliveries(listeners, records + [e], []);
    } else {
      assert (added + [e])[1..] == added[1..] + [e];
      DeliveriesAppend(listeners, records + [added[0]], added[1..], e);
      assert records + [added[0]] + added[1..] == records + added;
    }
  }

  // ---------------------------------------------------------------------
  // Risk analysis
  // ---------------------------------------------------------------------

  /** What `analyzeRisk` resolves to: it never rejects, and it never
      resolves to an empty text. */
  function AnalysisText(outcome: Outcome): (r: string)
    ensures r != ""
    ensures outcome.Threw? ==> r == ANALYSIS_ERROR
    ensures outcome.Replied? && outcome.text != "" ==> r == outcome.text
    ensures outcome.Replied? && outcome.text == "" ==> r == ANALYSIS_UNAVAILABLE
  {
    match outcome
    case Replied(text, _) => OrDefault(text, ANALYSIS_UNAVAILABLE)
    case Threw(_) => ANALYSIS_ERROR
  }

  function AnalysisLog(district: DistrictRisk, outcome: Outcome, latency: int): LogInput
  {
    match outcome
    case Replied(_, _) => LogInput("Gemini 2.5 Flash", Success, latency, "Generated risk report for " + district.name)
    case Threw(message) => LogInput("Gemini 2.5 Flash", Failure, latency, "Failed to generate report: " + message)
  }

  /** `analyzeRisk`: one request, one record, a text in every case. */
  method AnalyzeRisk(store: LogStore, district: DistrictRisk, outcome: Outcome, stamp: Stamp, latency: int)
    returns (text: string)
    requires store.Valid()
    modifies store`logs, store`records, store`delivered
    ensures store.Valid() && store.listeners == old(store.listeners)
    ensures text == AnalysisText(outcome) && text != ""
    ensures store.records == old(store.records) + [Entry(AnalysisLog(district, outcome, latency), stamp)]
    ensures store.logs[0].status == (if outcome.Threw? then Failure else Success)
    ensures store.delivered == old(store.delivered) + Broadcast(store.listeners, store.logs)
  {
    match outcome {
      case Replied(t, _) =>
        store.AddLog(LogInput("Gemini 2.5 Flash", Success, latency, "Generated risk report for " + district.name), stamp);
        text := OrDefault(t, ANALYSIS_UNAVAILABLE);
      case Threw(message) =>
        store.AddLog(LogInput("Gemini 2.5 Flash", Failure, latency, "Failed to generate report: " + message), stamp);
        text := ANALYSIS_ERROR;
    }
  }
}
