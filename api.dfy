/** The mock back-end services (src/services/api.ts): the keyword-based chat
    reply, the health-metrics update (a record override on the mock data),
    alert creation (a field copy) and alert resolution (an in-place update of
    the module's alert list). The artificial delays, the promises and the
    console logging are not modelled; instants are integer milliseconds
    rather than ISO strings. */
module Api {
  import opened Base
  import opened Dispatch

  // ---------------------------------------------------------------------
  // chatAPI.sendMessage
  // ---------------------------------------------------------------------

  /** The replies chatAPI.sendMessage can give. */
  datatype ChatReply = LonelyReply | MedicationReply | PainReply | FamilyReply | SleepReply | DefaultReply

  /** The reply rules in priority order; the medication rule needs both of
      its words. */
  const ChatReplyRules: seq<Rule<ChatReply>> := [
    Rule([["lonely", "sad"]], LonelyReply),
    Rule([["remind"], ["medication"]], MedicationReply),
    Rule([["pain", "hurt"]], PainReply),
    Rule([["family", "children"]], FamilyReply),
    Rule([["sleep", "tired"]], SleepReply)
  ]

  /** The reply chosen for `message`: the first rule the lower-cased message
      satisfies, or the default when none does. */
  function ChatReplyKind(message: string): (k: ChatReply)
    ensures k == DefaultReply <==> forall i | 0 <= i < |ChatReplyRules| :: !Matches(Lower(message), ChatReplyRules[i])
    ensures forall i :: FirstMatching(Lower(message), ChatReplyRules, i) ==> k == ChatReplyRules[i].action
  {
    FirstMatchSpec(Lower(message), ChatReplyRules);
    FirstMatch(Lower(message), ChatReplyRules).GetOr(DefaultReply)
  }

  function ChatReplyText(k: ChatReply): string {
    match k
    case LonelyReply =>
      "I'm sorry you're feeling lonely. It's completely normal to feel this way sometimes. Would you like to talk about what's making you feel this way, or perhaps we could discuss something that usually brings you joy?"
    case MedicationReply =>
      "I'll help you remember your medication! I've noted your request. Taking medication on time is so important for your health. Is there a specific time you'd like me to remind you?"
    case PainReply =>
      "I'm concerned about your pain. While I can provide emotional support, it's important to speak with your doctor about any physical discomfort. In the meantime, are you comfortable, and is there anything I can do to help you feel better?"
    case FamilyReply =>
      "Family is so important! I'd love to hear about your family. Sharing stories about loved ones often brings such joy. Would you like to tell me about them?"
    case SleepReply =>
      "Sleep is crucial for your wellbeing. I can see from your health data that your sleep patterns have been good lately. Are you having trouble sleeping, or would you like some tips for better rest?"
    case DefaultReply =>
      "I understand how you're feeling. Would you like to talk about it?"
  }

  /** chatAPI.sendMessage: the text of the chosen reply. */
  function SendChatMessage(message: string): string {
    ChatReplyText(ChatReplyKind(message))
  }

  /** Each rule of the table, as a test on keywords. */
  lemma ChatRulesByKeywords(lower: string)
    ensures Matches(lower, ChatReplyRules[0]) == AnyContains(lower, ["lonely", "sad"])
    ensures Matches(lower, ChatReplyRules[1]) == (Contains(lower, "remind") && Contains(lower, "medication"))
    ensures Matches(lower, ChatReplyRules[2]) == AnyContains(lower, ["pain", "hurt"])
    ensures Matches(lower, ChatReplyRules[3]) == AnyContains(lower, ["family", "children"])
    ensures Matches(lower, ChatReplyRules[4]) == AnyContains(lower, ["sleep", "tired"])
  {
    assert ChatReplyRules[0].clauses[0] == ["lonely", "sad"];
    assert ChatReplyRules[1].clauses[0] == ["remind"] && ChatReplyRules[1].clauses[1] == ["medication"];
    assert ["remind"][1..] == [] && ["medication"][1..] == [];
    assert AnyContains(lower, ["remind"]) == Contains(lower, "remind");
    assert AnyContains(lower, ["medication"]) == Contains(lower, "medication");
    assert ChatReplyRules[2].clauses[0] == ["pain", "hurt"];
    assert ChatReplyRules[3].clauses[0] == ["family", "children"];
    assert ChatReplyRules[4].clauses[0] == ["sleep", "tired"];
  }

  /** The reply in terms of the words the lower-cased message includes:
      lonely/sad > remind AND medication > pain/hurt > family/children >
      sleep/tired > default, each chosen exactly when its words are there
      and no earlier rule's are. */
  lemma ChatReplyByKeywords(message: string)
    ensures var lower, k := Lower(message), ChatReplyKind(message);
            var lonely, medication := AnyContains(lower, ["lonely", "sad"]), Contains(lower, "remind") && Contains(lower, "medication");
            var pain, family, sleep := AnyContains(lower, ["pain", "hurt"]), AnyContains(lower, ["family", "children"]), AnyContains(lower, ["sleep", "tired"]);
            && (k == LonelyReply <==> lonely)
            && (k == MedicationReply <==> !lonely && medication)
            && (k == PainReply <==> !lonely && !medication && pain)
            && (k == FamilyReply <==> !lonely && !medication && !pain && family)
            && (k == SleepReply <==> !lonely && !medication && !pain && !family && sleep)
            && (k == DefaultReply <==> !lonely && !medication && !pain && !family && !sleep)
  {
    var lower := Lower(message);
    ChatRulesByKeywords(lower);
    if Matches(lower, ChatReplyRules[0]) {
      assert FirstMatching(lower, ChatReplyRules, 0);
    } else if Matches(lower, ChatReplyRules[1]) {
      assert FirstMatching(lower, ChatReplyRules, 1);
    } else if Matches(lower, ChatReplyRules[2]) {
      assert FirstMatching(lower, ChatReplyRules, 2);
    } else if Matches(lower, ChatReplyRules[3]) {
      assert FirstMatching(lower, ChatReplyRules, 3);
    } else if Matches(lower, ChatReplyRules[4]) {
      assert FirstMatching(lower, ChatReplyRules, 4);
    }
  }

  /** "remind" alone, or "medication" alone, never gets the medication
      reply. */
  lemma MedicationNeedsBothWords(message: string)
    requires !Contains(Lower(message), "remind") || !Contains(Lower(message), "medication")
    ensures ChatReplyKind(message) != MedicationReply
  {
    ChatReplyByKeywords(message);
  }

  // ---------------------------------------------------------------------
  // healthAPI.updateHealthMetrics
  // ---------------------------------------------------------------------

  datatype BloodPressure = BloodPressure(systolic: real, diastolic: real)

  /** A health-metrics record; the dashboard's weekly series and goals are
      optional. */
  datatype HealthMetrics = HealthMetrics(
    sleepHours: real,
    steps: real,
    moodRating: real,
    heartRate: real,
    bloodPressure: BloodPressure,
    lastUpdated: int,
    weeklySteps: Option<seq<real>>,
    weeklySleep: Option<seq<real>>,
    weeklyMood: Option<seq<real>>,
    stepsGoal: Option<real>,
    sleepGoal: Option<real>)

  /** A `Partial<HealthMetrics>`: each field that is supplied. */
  datatype MetricsPatch = MetricsPatch(
    sleepHours: Option<real>,
    steps: Option<real>,
    moodRating: Option<real>,
    heartRate: Option<real>,
    bloodPressure: Option<BloodPressure>,
    lastUpdated: Option<int>,
    weeklySteps: Option<seq<real>>,
    weeklySleep: Option<seq<real>>,
    weeklyMood: Option<seq<real>>,
    stepsGoal: Option<real>,
    sleepGoal: Option<real>)

  const EmptyPatch := MetricsPatch(None, None, None, None, None, None, None, None, None, None, None)

  /** The module's mock record; `loadedAt` is the instant the module was
      loaded, which becomes its `lastUpdated`. */
  function MockHealthData(loadedAt: int): HealthMetrics {
    HealthMetrics(7.8, 4250.0, 8.0, 72.0, BloodPressure(120.0, 80.0), loadedAt,
      Some([3800.0, 4200.0, 3600.0, 4500.0, 4800.0, 5200.0, 4250.0]),
      Some([7.2, 8.1, 6.8, 7.9, 8.2, 8.5, 7.8]),
      Some([7.0, 8.0, 6.0, 9.0, 8.0, 9.0, 8.0]),
      Some(5000.0),
      Some(8.0))
  }

  /** `{ ...base, ...patch }`: the record with the supplied fields of
      `patch` written over those of `base`. */
  function Override(base: HealthMetrics, patch: MetricsPatch): HealthMetrics {
    HealthMetrics(
      if patch.sleepHours.Some? then patch.sleepHours.value else base.sleepHours,
      if patch.steps.Some? then patch.steps.value else base.steps,
      if patch.moodRating.Some? then patch.moodRating.value else base.moodRating,
      if patch.heartRate.Some? then patch.heartRate.value else base.heartRate,
      if patch.bloodPressure.Some? then patch.bloodPressure.value else base.bloodPressure,
      if patch.lastUpdated.Some? then patch.lastUpdated.value else base.lastUpdated,
      if patch.weeklySteps.Some? then patch.weeklySteps else base.weeklySteps,
      if patch.weeklySleep.Some? then patch.weeklySleep else base.weeklySleep,
      if patch.weeklyMood.Some? then patch.weeklyMood else base.weeklyMood,
      if patch.stepsGoal.Some? then patch.stepsGoal else base.stepsGoal,
      if patch.sleepGoal.Some? then patch.sleepGoal else base.sleepGoal)
  }

  /** Every supplied field replaces the base's. */
  lemma OverrideReplacesSupplied(base: HealthMetrics, patch: MetricsPatch)
    ensures var m := Override(base, patch);
            && (patch.sleepHours.Some? ==> m.sleepHours == patch.sleepHours.value)
            && (patch.steps.Some? ==> m.steps == patch.steps.value)
            && (patch.moodRating.Some? ==> m.moodRating == patch.moodRating.value)
            && (patch.heartRate.Some? ==> m.heartRate == patch.heartRate.value)
            && (patch.bloodPressure.Some? ==> m.bloodPressure == patch.bloodPressure.value)
            && (patch.lastUpdated.Some? ==> m.lastUpdated == patch.lastUpdated.value)
            && (patch.weeklySteps.Some? ==> m.weeklySteps == patch.weeklySteps)
            && (patch.weeklySleep.Some? ==> m.weeklySleep == patch.weeklySleep)
            && (patch.weeklyMood.Some? ==> m.weeklyMood == patch.weeklyMood)
            && (patch.stepsGoal.Some? ==> m.stepsGoal == patch.stepsGoal)
            && (patch.sleepGoal.Some? ==> m.sleepGoal == patch.sleepGoal)
  {
  }

  /** Every field not supplied keeps the base's value. */
  lemma OverrideKeepsUnsupplied(base: HealthMetrics, patch: MetricsPatch)
    ensures var m := Override(base, patch);
            && (patch.sleepHours.None? ==> m.sleepHours == base.sleepHours)
            && (patch.steps.None? ==> m.steps == base.steps)
            && (patch.moodRating.None? ==> m.moodRating == base.moodRating)
            && (patch.heartRate.None? ==> m.heartRate == base.heartRate)
            && (patch.bloodPressure.None? ==> m.bloodPressure == base.bloodPressure)
            && (patch.lastUpdated.None? ==> m.lastUpdated == base.lastUpdated)
            && (patch.weeklySteps.None? ==> m.weeklySteps == base.weeklySteps)
            && (patch.weeklySleep.None? ==> m.weeklySleep == base.weeklySleep)
            && (patch.weeklyMood.None? ==> m.weeklyMood == base.weeklyMood)
            && (patch.stepsGoal.None? ==> m.stepsGoal == base.stepsGoal)
            && (patch.sleepGoal.None? ==> m.sleepGoal == base.sleepGoal)
  {
  }

  /** healthAPI.updateHealthMetrics: the mock record overridden by the
      supplied fields. The mock itself is a value and stays as it was. */
  function UpdateHealthMetrics(patch: MetricsPatch, loadedAt: int): HealthMetrics {
    Override(MockHealthData(loadedAt), patch)
  }

  /** The patch of every field of `m`. */
  function FullPatch(m: HealthMetrics): MetricsPatch {
    MetricsPatch(Some(m.sleepHours), Some(m.steps), Some(m.moodRating), Some(m.heartRate), Some(m.bloodPressure),
      Some(m.lastUpdated), m.weeklySteps, m.weeklySleep, m.weeklyMood, m.stepsGoal, m.sleepGoal)
  }

  /** Supplying nothing returns the mock record itself. */
  lemma EmptyUpdateIsMock(loadedAt: int)
    ensures UpdateHealthMetrics(EmptyPatch, loadedAt) == MockHealthData(loadedAt)
  {
  }

  /** Overriding twice with the same patch is overriding once. */
  lemma OverrideIdempotent(base: HealthMetrics, patch: MetricsPatch)
    ensures Override(Override(base, patch), patch) == Override(base, patch)
  {
  }

  /** A record supplied in full comes back unchanged, whatever the mock
      holds -- unless it leaves an optional field out, which the mock then
      fills in. */
  lemma FullUpdateReturnsRecord(m: HealthMetrics, loadedAt: int)
    requires m.weeklySteps.Some? && m.weeklySleep.Some? && m.weeklyMood.Some? && m.stepsGoal.Some? && m.sleepGoal.Some?
    ensures UpdateHealthMetrics(FullPatch(m), loadedAt) == m
  {
  }

  // ---------------------------------------------------------------------
  // Alerts: createAlert and resolveAlert
  // ---------------------------------------------------------------------

  datatype AlertType = HealthAlert | ActivityAlert | MedicationAlert | EmergencyAlert
  datatype Severity = Low | Medium | High | Urgent

  /** A caregiver alert; `kind` is the source's `type` field. */
  datatype Alert = Alert(
    id: string,
    kind: AlertType,
    severity: Severity,
    title: string,
    description: string,
    timestamp: int,
    resolved: bool)

  /** An alert without its `id` and `timestamp`, as createAlert takes it. */
  datatype NewAlert = NewAlert(kind: AlertType, severity: Severity, title: string, description: string, resolved: bool)

  /** alertsAPI.createAlert: the supplied fields, with the generated `id`
      and the creation instant added. */
  function CreateAlert(a: NewAlert, id: string, createdAt: int): (r: Alert)
    ensures r.id == id && r.timestamp == createdAt
    ensures r.kind == a.kind && r.severity == a.severity && r.title == a.title
    ensures r.description == a.description && r.resolved == a.resolved
  {
    Alert(id, a.kind, a.severity, a.title, a.description, createdAt, a.resolved)
  }

  /** An alert without its `id` and `timestamp`. */
  function Strip(a: Alert): NewAlert {
    NewAlert(a.kind, a.severity, a.title, a.description, a.resolved)
  }

  /** createAlert keeps every supplied field and adds only the id and the
      timestamp: stripping those gives back what was supplied, and an alert
      is rebuilt exactly from its stripped form, id and timestamp. */
  lemma CreateAlertAddsOnlyIdAndTimestamp(a: NewAlert, id: string, createdAt: int, b: Alert)
    ensures Strip(CreateAlert(a, id, createdAt)) == a
    ensures CreateAlert(Strip(b), b.id, b.timestamp) == b
  {
  }

  /** The index `find` stops at: the first alert with id `id`. */
  function IndexOf(alerts: seq<Alert>, id: string): (r: Option<nat>)
    ensures r.None? <==> forall j | 0 <= j < |alerts| :: alerts[j].id != id
    ensures r.Some? ==> r.value < |alerts| && alerts[r.value].id == id
    ensures r.Some? ==> forall j | 0 <= j < r.value :: alerts[j].id != id
  {
    if alerts == [] then None
    else if alerts[0].id == id then Some(0)
    else
      match IndexOf(alerts[1..], id)
      case None => None
      case Some(i) => Some(i + 1)
  }

  /** The list after resolving `id`: the first alert with that id is marked
      resolved, and nothing else changes. */
  function ResolveFirst(alerts: seq<Alert>, id: string): seq<Alert> {
    match IndexOf(alerts, id)
    case None => alerts
    case Some(i) => alerts[i := alerts[i].(resolved := true)]
  }

  /** An unknown id leaves the list as it is. */
  lemma ResolveUnknownIdChangesNothing(alerts: seq<Alert>, id: string)
    requires forall j | 0 <= j < |alerts| :: alerts[j].id != id
    ensures ResolveFirst(alerts, id) == alerts
  {
  }

  /** Resolving twice has the effect of resolving once. */
  lemma ResolveIdempotent(alerts: seq<Alert>, id: string)
    ensures ResolveFirst(ResolveFirst(alerts, id), id) == ResolveFirst(alerts, id)
  {
    var r := ResolveFirst(alerts, id);
    match IndexOf(alerts, id)
    case None =>
    case Some(i) =>
      assert forall j | 0 <= j < |r| :: r[j].id == alerts[j].id;
      assert IndexOf(r, id) == Some(i);
  }

  /** Resolution touches only the first alert with the id, and only its
      `resolved` field; every other alert, and the length, stay the same. */
  lemma ResolveChangesOnlyFirstMatch(alerts: seq<Alert>, id: string, i: nat)
    requires i < |alerts| && alerts[i].id == id
    requires forall j | 0 <= j < i :: alerts[j].id != id
    ensures var r := ResolveFirst(alerts, id);
            && |r| == |alerts|
            && r[i] == alerts[i].(resolved := true)
            && forall j | 0 <= j < |alerts| && j != i :: r[j] == alerts[j]
  {
    assert IndexOf(alerts, id) == Some(i);
  }

  /** The module's alert list, whose alerts resolveAlert updates in place. */
  class AlertStore {
    const alerts: array<Alert>

    /** The store holding `initial`. */
    constructor (initial: seq<Alert>)
      ensures alerts[..] == initial && fresh(alerts)
    {
      alerts := new Alert[|initial|](i requires 0 <= i < |initial| => initial[i]);
    }

    /** alertsAPI.resolveAlert: the first alert with the id is marked
        resolved in place and returned; for an unknown id nothing changes and
        nothing is returned. */
    method ResolveAlert(id: string) returns (r: Option<Alert>)
      modifies alerts
      ensures alerts[..] == ResolveFirst(old(alerts[..]), id)
      ensures r.None? <==> forall j | 0 <= j < alerts.Length :: alerts[j].id != id
      ensures r.Some? ==> r.value.id == id && r.value.resolved && r.value in alerts[..]
      ensures r.Some? ==> IndexOf(old(alerts[..]), id).Some?
                          && r.value == alerts[IndexOf(old(alerts[..]), id).value]
                          && r.value == old(alerts[..])[IndexOf(old(alerts[..]), id).value].(resolved := true)
    {
      match IndexOf(alerts[..], id)
      case None =>
        r := None;
      case Some(i) =>
        alerts[i] := alerts[i].(resolved := true);
        r := Some(alerts[i]);
    }
  }
}
