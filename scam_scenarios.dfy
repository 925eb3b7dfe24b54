/** The scenario registry of src/config/scamScenarios.ts: the seven scam
    types, the three written personas, the two detection tools every persona
    offers the language model, and the total lookup `getScenario`.
    The prompt texts, descriptions and opening lines are content and are not
    part of the model. */
module ScamScenarios {
  import opened Wrappers

  datatype ScamType = Grandchild | BankSecurity | HydroQuebec | Irs | TechSupport | Romance | Lottery

  /** The types that have a persona of their own. */
  predicate HasOwnPersona(t: ScamType) {
    t == Grandchild || t == BankSecurity || t == HydroQuebec
  }

  // ---------------------------------------------------------------------
  // Voice identifiers

  const YoungDistressed: string := "JBFqnCBsd6RMkjVDRZzb"
  const BankAgent: string := "onwK4e9ZLuTAKqWW03F9"
  const Automated: string := "XB0fDUnXU5powFXDhCwa"
  const DefaultVoice: string := "JBFqnCBsd6RMkjVDRZzb"

  // ---------------------------------------------------------------------
  // Tool schemas

  /** One entry of a tool's `properties`: its JSON type and optional `enum`. */
  datatype Property = Property(kind: string, options: Option<seq<string>>)

  /** A function tool: its name, its parameter properties and the required names. */
  datatype Tool = Tool(name: string, properties: map<string, Property>, required: seq<string>)

  const SensitiveInfoTool: Tool := Tool(
    "victim_provided_sensitive_info",
    map[
      "info_type" := Property("string", Some([
        "bank_details", "card_number", "gift_card_code", "agreed_to_send_money",
        "agreed_to_buy_gift_cards", "personal_id", "password_or_pin",
        "social_security", "other_sensitive"])),
      "details" := Property("string", None),
      "urgency_level" := Property("string", Some(["hesitant", "convinced", "eager"]))
    ],
    ["info_type", "details"])

  const SuspicionTool: Tool := Tool(
    "victim_showed_suspicion",
    map[
      "suspicion_type" := Property("string", Some([
        "verification_question", "threatened_authorities", "wants_to_verify",
        "direct_accusation", "needs_to_think", "asking_callback_number"])),
      "details" := Property("string", None)
    ],
    ["suspicion_type", "details"])

  const DetectionTools: seq<Tool> := [SensitiveInfoTool, SuspicionTool]

  // ---------------------------------------------------------------------
  // Personas

  /** `voices`: a voice for the opening line and one for the conversation. */
  datatype Voices = Voices(opening: Option<string>, conversation: Option<string>)

  datatype Scenario = Scenario(
    id: ScamType,
    name: string,
    callerName: string,
    callerNumber: string,
    tools: seq<Tool>,
    voiceId: Option<string>,
    voices: Option<Voices>)

  const GrandchildScam: Scenario := Scenario(
    Grandchild, "Grandchild in Crisis", "Unknown", "+1 (514) 555-0123",
    DetectionTools, Some(YoungDistressed), None)

  const BankSecurityScam: Scenario := Scenario(
    BankSecurity, "Bank Security Alert", "Desjardins Security", "+1 (800) 224-7737",
    DetectionTools, None, Some(Voices(Some(Automated), Some(BankAgent))))

  const HydroQuebecScam: Scenario := Scenario(
    HydroQuebec, "Hydro-Québec Emergency", "Hydro-Québec Service", "+1 (888) 385-7252",
    DetectionTools, None, Some(Voices(Some(Automated), Some(BankAgent))))

  /** `SCAM_SCENARIOS`: the four types without a persona share the grandchild one. */
  const Registry: map<ScamType, Scenario> := map[
    Grandchild := GrandchildScam,
    BankSecurity := BankSecurityScam,
    HydroQuebec := HydroQuebecScam,
    Irs := GrandchildScam,
    TechSupport := GrandchildScam,
    Romance := GrandchildScam,
    Lottery := GrandchildScam
  ]

  /** Every scam type has a registry entry. */
  lemma RegistryIsTotal(t: ScamType)
    ensures t in Registry
  {
    match t
    case Grandchild =>
    case BankSecurity =>
    case HydroQuebec =>
    case Irs =>
    case TechSupport =>
    case Romance =>
    case Lottery =>
  }

  /** `getScenario`: the registry entry, with the grandchild persona as the
      fallback for a missing one. Every type has an entry, so the fallback is
      never taken. */
  function GetScenario(t: ScamType): (s: Scenario)
    ensures t in Registry && s == Registry[t]
  {
    RegistryIsTotal(t);
    if t in Registry then Registry[t] else GrandchildScam
  }

  /** A persona carries the type it was looked up by exactly for the three written ones. */
  lemma IdMatchesIff(t: ScamType)
    ensures GetScenario(t).id == t <==> HasOwnPersona(t)
  {
  }

  /** The four placeholder types all get the grandchild persona. */
  lemma PlaceholdersAreGrandchild(t: ScamType)
    requires !HasOwnPersona(t)
    ensures GetScenario(t) == GrandchildScam && GetScenario(t).id == Grandchild
  {
  }

  /** Bank security and Hydro-Québec switch from the automated voice to the
      agent's voice; the grandchild persona (and every placeholder) has a
      single voice and no `voices` entry. */
  lemma VoiceConfiguration(t: ScamType)
    ensures GetScenario(t).voices.Some? <==> t == BankSecurity || t == HydroQuebec
    ensures GetScenario(t).voiceId.Some? <==> GetScenario(t).voices.None?
    ensures GetScenario(t).voices.Some? ==>
              && GetScenario(t).voices.value == Voices(Some(Automated), Some(BankAgent))
              && Automated != BankAgent
    ensures GetScenario(t).voiceId.Some? ==> GetScenario(t).voiceId.value == YoungDistressed
  {
    assert Automated[0] != BankAgent[0];
  }

  /** Every persona offers the same two detection tools. */
  lemma ToolsAreDetectionTools(t: ScamType)
    ensures GetScenario(t).tools == DetectionTools
    ensures |DetectionTools| == 2
    ensures DetectionTools[0].name == "victim_provided_sensitive_info"
    ensures DetectionTools[1].name == "victim_showed_suspicion"
  {
  }

  /** A tool schema is well formed when every required name is a property. */
  predicate WellFormedTool(tool: Tool) {
    forall i :: 0 <= i < |tool.required| ==> tool.required[i] in tool.properties
  }

  lemma DetectionToolsWellFormed(t: ScamType)
    ensures forall k :: 0 <= k < |GetScenario(t).tools| ==> WellFormedTool(GetScenario(t).tools[k])
  {
    assert WellFormedTool(SensitiveInfoTool);
    assert WellFormedTool(SuspicionTool);
  }
}
