/** The keyword classifier of the chat companion: an utterance is given at most
    one mood label and at most one topic label by ordered, case-insensitive
    keyword tests (src/components/AICompanion.tsx, detectMoodAndTopic). */
module CompanionClassifier {
  import opened Base
  import opened Dispatch

  /** The closed label sets; "" stands for "no label". */
  const MoodLabels: set<string> := {"", "happy", "sad", "worried", "tired", "lonely"}
  const TopicLabels: set<string> := {"", "family", "health", "hobbies", "social", "memories"}

  /** Mood keyword groups in priority order. */
  const MoodRules: seq<Rule<string>> := [
    Rule([["happy", "good", "great", "wonderful"]], "happy"),
    Rule([["sad", "down", "upset", "depressed"]], "sad"),
    Rule([["worried", "anxious", "nervous", "concerned"]], "worried"),
    Rule([["tired", "exhausted", "sleepy"]], "tired"),
    Rule([["lonely", "alone", "isolated"]], "lonely")
  ]

  /** Topic keyword groups in priority order. */
  const TopicRules: seq<Rule<string>> := [
    Rule([["family", "children", "grandchildren"]], "family"),
    Rule([["health", "doctor", "medicine", "pain"]], "health"),
    Rule([["hobby", "garden", "reading", "music"]], "hobbies"),
    Rule([["friend", "neighbor", "social"]], "social"),
    Rule([["memory", "remember", "forget"]], "memories")
  ]

  datatype Classification = Classification(mood: string, topic: string)

  /** The label of the first group of `rules` that the lower-cased text
      matches, or "" when none does (FirstLabelSpec). */
  function FirstLabel(lower: string, rules: seq<Rule<string>>): string {
    FirstMatch(lower, rules).GetOr("")
  }

  /** With no rule labelled "", the label is "" exactly when no group
      matches, and otherwise it is the label of the first matching group. */
  lemma FirstLabelSpec(lower: string, rules: seq<Rule<string>>)
    requires forall i | 0 <= i < |rules| :: rules[i].action != ""
    ensures var name := FirstLabel(lower, rules);
            && (name == "" <==> forall i | 0 <= i < |rules| :: !Matches(lower, rules[i]))
            && (name != "" ==> exists i :: FirstMatching(lower, rules, i) && name == rules[i].action)
            && (forall i :: FirstMatching(lower, rules, i) ==> name == rules[i].action)
  {
    FirstMatchSpec(lower, rules);
  }

  /** detectMoodAndTopic (DetectMoodAndTopicSpec). */
  function DetectMoodAndTopic(message: string): Classification {
    var lower := Lower(message);
    Classification(FirstLabel(lower, MoodRules), FirstLabel(lower, TopicRules))
  }

  /** Each label is "" exactly when no group of its axis matches, and
      otherwise it is the label of the FIRST matching group (happy > sad >
      worried > tired > lonely; family > health > hobbies > social >
      memories). */
  lemma DetectMoodAndTopicSpec(message: string)
    ensures var c := DetectMoodAndTopic(message);
            && (c.mood == "" <==> forall i | 0 <= i < |MoodRules| :: !Matches(Lower(message), MoodRules[i]))
            && (c.topic == "" <==> forall i | 0 <= i < |TopicRules| :: !Matches(Lower(message), TopicRules[i]))
            && (forall i :: FirstMatching(Lower(message), MoodRules, i) ==> c.mood == MoodRules[i].action)
            && (forall i :: FirstMatching(Lower(message), TopicRules, i) ==> c.topic == TopicRules[i].action)
  {
    FirstLabelSpec(Lower(message), MoodRules);
    FirstLabelSpec(Lower(message), TopicRules);
  }

  /** Each label is "" or one member of its closed five-label set. */
  lemma LabelsAreClosed(message: string)
    ensures DetectMoodAndTopic(message).mood in MoodLabels
    ensures DetectMoodAndTopic(message).topic in TopicLabels
  {
    var lower := Lower(message);
    FirstLabelSpec(lower, MoodRules);
    FirstLabelSpec(lower, TopicRules);
    assert forall i | 0 <= i < |MoodRules| :: MoodRules[i].action in MoodLabels;
    assert forall i | 0 <= i < |TopicRules| :: TopicRules[i].action in TopicLabels;
  }

  /** Classification ignores letter case: an utterance and its lower-cased
      form get the same labels. */
  lemma ClassifyCaseInsensitive(message: string)
    ensures DetectMoodAndTopic(Lower(message)) == DetectMoodAndTopic(message)
  {
    LowerIdempotent(message);
  }

  /** A happy keyword, written in any letter case, makes the mood `happy`
      whatever other mood words the utterance holds. */
  lemma HappyKeywordWins(message: string, word: string)
    requires Contains(message, word)
    requires Lower(word) in MoodRules[0].clauses[0]
    ensures DetectMoodAndTopic(message).mood == "happy"
  {
    ContainsLower(message, word);
    var k :| 0 <= k < 4 && MoodRules[0].clauses[0][k] == Lower(word);
    AnyContainsIff(Lower(message), MoodRules[0].clauses[0]);
    assert FirstMatching(Lower(message), MoodRules, 0);
    DetectMoodAndTopicSpec(message);
  }

  /** A family keyword, written in any letter case, makes the topic `family`
      whatever other topic words the utterance holds. */
  lemma FamilyKeywordWins(message: string, word: string)
    requires Contains(message, word)
    requires Lower(word) in TopicRules[0].clauses[0]
    ensures DetectMoodAndTopic(message).topic == "family"
  {
    ContainsLower(message, word);
    var k :| 0 <= k < 3 && TopicRules[0].clauses[0][k] == Lower(word);
    AnyContainsIff(Lower(message), TopicRules[0].clauses[0]);
    assert FirstMatching(Lower(message), TopicRules, 0);
    DetectMoodAndTopicSpec(message);
  }

  /** A worked example of first-match-wins: "good" outranks "sad", and the
      lower-ranked mood word does not matter. */
  lemma GoodAndSadIsHappy()
    ensures DetectMoodAndTopic("I feel Good but SAD").mood == "happy"
  {
    var m := "I feel Good but SAD";
    assert m[7..11] == "Good";
    assert OccursAt(m, "Good", 7);
    assert Lower("Good") == "good";
    HappyKeywordWins(m, "Good");
  }
}
