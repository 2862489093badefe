/** The tiered reply selector of the chat companion
    (src/components/AICompanion.tsx, getContextualResponse): a canned reply
    when the message holds one of twelve trigger phrases, else a template for
    the detected mood, else one for the detected topic, else a general one.
    `Math.random` is replaced by the index `pick` it would have produced.

    Selection (which reply) and rendering (its words) are kept apart: the
    properties are proved about ChooseReply, and ReplyText holds the fixed
    texts, filled in from the memory record it is given. */
module CompanionReply {
  import opened Base
  import opened Dispatch
  import opened CompanionClassifier
  import opened CompanionMemory

  /** The trigger phrases, lower-case, in the order they are tested; the
      action is the number of the canned reply (see CannedReply). */
  const TriggerRules: seq<Rule<nat>> := [
    Rule([["remind me to take my blood pressure pill at 6 pm"]], 0),
    Rule([["i need help remembering to drink water"]], 1),
    Rule([["remind me about my doctor appointment tomorrow"]], 2),
    Rule([["i feel a bit lonely today"]], 3),
    Rule([["i'm worried about my family"]], 4),
    Rule([["can we talk about something cheerful"]], 5),
    Rule([["how was my day yesterday"]], 6),
    Rule([["tell me something interesting"]], 7),
    Rule([["what's the weather like today"]], 8),
    Rule([["help me call my daughter"]], 9),
    Rule([["i want to share a memory about my grandchildren"]], 10),
    Rule([["can you help me stay connected with friends"]], 11)
  ]

  /** The moods and topics that have templates of their own; the other
      labels (tired, lonely; hobbies, social, memories) fall through. */
  const FollowUpMoods: set<string> := {"happy", "sad", "worried"}
  const FollowUpTopics: set<string> := {"family", "health"}

  datatype FollowUpMood = Happy | Sad | Worried
  datatype FollowUpTopic = Family | Health

  /** Which reply is given: canned reply number `index`, template `pick` of a
      mood or topic tier, or general template `pick`. */
  datatype ReplyChoice =
    | Canned(index: nat)
    | MoodFollowUp(mood: FollowUpMood, pick: nat)
    | TopicFollowUp(topic: FollowUpTopic, pick: nat)
    | General(pick: nat)

  function MoodKey(mood: FollowUpMood): string {
    match mood
    case Happy => "happy"
    case Sad => "sad"
    case Worried => "worried"
  }

  function TopicKey(topic: FollowUpTopic): string {
    match topic
    case Family => "family"
    case Health => "health"
  }

  /** The table lookup `followUpMood[detectedMood]`: the template set of a
      label, when it has one. */
  function MoodEntry(mood: string): (e: Option<FollowUpMood>)
    ensures e.Some? <==> mood in FollowUpMoods
    ensures e.Some? ==> MoodKey(e.value) == mood
  {
    if mood == "happy" then Some(Happy)
    else if mood == "sad" then Some(Sad)
    else if mood == "worried" then Some(Worried)
    else None
  }

  /** The table lookup `topicFollowUp[detectedTopic]`. */
  function TopicEntry(topic: string): (e: Option<FollowUpTopic>)
    ensures e.Some? <==> topic in FollowUpTopics
    ensures e.Some? ==> TopicKey(e.value) == topic
  {
    if topic == "family" then Some(Family)
    else if topic == "health" then Some(Health)
    else None
  }

  predicate NoTriggerIn(lower: string) {
    forall i | 0 <= i < |TriggerRules| :: !Matches(lower, TriggerRules[i])
  }

  /** The template tiers, tried when no trigger phrase matches: a mood with
      templates picks from its tier, else a topic with templates picks from
      its tier, else a general template is picked. Every tier has two
      entries, and `pick` says which. */
  function TemplateChoice(mood: string, topic: string, pick: nat): (c: ReplyChoice)
    requires pick < 2
    ensures !c.Canned? && c.pick == pick
    ensures c.MoodFollowUp? <==> mood in FollowUpMoods
    ensures c.TopicFollowUp? <==> mood !in FollowUpMoods && topic in FollowUpTopics
    ensures c.General? <==> mood !in FollowUpMoods && topic !in FollowUpTopics
    ensures c.MoodFollowUp? ==> MoodKey(c.mood) == mood
    ensures c.TopicFollowUp? ==> TopicKey(c.topic) == topic
  {
    match MoodEntry(mood)
    case Some(m) => MoodFollowUp(m, pick)
    case None =>
      match TopicEntry(topic)
      case Some(t) => TopicFollowUp(t, pick)
      case None => General(pick)
  }

  /** The decision getContextualResponse makes: the first trigger phrase the
      lower-cased message holds decides outright, and only when there is
      none do the template tiers come into play. */
  function ChooseReply(userMessage: string, mood: string, topic: string, pick: nat): (c: ReplyChoice)
    requires pick < 2
    ensures forall i :: FirstMatching(Lower(userMessage), TriggerRules, i) ==> c == Canned(TriggerRules[i].action)
    ensures c.Canned? <==> !NoTriggerIn(Lower(userMessage))
    ensures NoTriggerIn(Lower(userMessage)) ==> c == TemplateChoice(mood, topic, pick)
  {
    FirstMatchSpec(Lower(userMessage), TriggerRules);
    match FirstMatch(Lower(userMessage), TriggerRules)
    case Some(k) => Canned(k)
    case None => TemplateChoice(mood, topic, pick)
  }

  /** Canned reply `i` belongs to trigger phrase `i`. */
  lemma TriggerActionsAreIndexes()
    ensures forall i | 0 <= i < |TriggerRules| :: TriggerRules[i].action == i
  {
  }

  /** The fixed reply to trigger phrase `k`. */
  function CannedReply(k: nat): string {
    if k == 0 then
      "Of course. I've set a reminder for you to take your blood pressure pill at 6 PM. I'll gently nudge you when it's time. Taking care of your health is so important, and I'm here to help you with that."
    else if k == 1 then
      "Staying hydrated is key to feeling your best. I can certainly help with that. How about I remind you every hour to have a glass of water? We can adjust the frequency if you like."
    else if k == 2 then
      "I've made a note of your doctor's appointment tomorrow. I'll remind you in the morning so you have plenty of time to prepare. Is there anything you'd like to discuss with the doctor that we can make a note of?"
    else if k == 3 then
      "I'm sorry to hear you're feeling lonely. Please know that you're not alone in feeling this way, and I'm here to keep you company. Would you like to talk about what's on your mind, or perhaps we could do something to lift your spirits, like listening to some music or talking about a happy memory?"
    else if k == 4 then
      "It's completely understandable to be worried about your family. They are so important to you. I'm here to listen if you'd like to share what's on your mind. Sometimes talking about our worries can make them feel a little lighter."
    else if k == 5 then
      "I would love that! Let's talk about something that brings you joy. Do you have a favorite memory, a hobby you enjoy, or perhaps a place you've always dreamed of visiting? I'm all ears."
    else if k == 6 then
      "Let me see. Based on our conversation yesterday, you mentioned that you had a nice chat with your daughter in the morning, and you spent some time in the garden in the afternoon. You also told me you were feeling quite happy. Does that sound right?"
    else if k == 7 then
      "Did you know that the oldest known living tree is a Bristlecone Pine named Methuselah, and it's over 4,800 years old? It lives in the White Mountains of California. Isn't it amazing to think about all the history that tree has witnessed?"
    else if k == 8 then
      "The sun is shining brightly today, and it's a beautiful day to be outside. The temperature is a pleasant 72 degrees with a gentle breeze. It would be a perfect day for a short walk in the park, if you're feeling up to it."
    else if k == 9 then
      "Of course. I can help you with that. I'll initiate a call to your daughter, Sarah, right away. Please hold on for a moment while I connect you."
    else if k == 10 then
      "I would be absolutely delighted to hear a memory about your grandchildren. They bring so much joy to your life. Please, tell me all about it."
    else
      "Staying connected with friends is so important for our happiness. I can help you with that in a few ways. We can schedule regular video calls, I can help you write emails, or I can even help you find local groups or activities that you might enjoy. What sounds best to you?"
  }

  /** Mood template `pick` (0 or 1), filled in from `memory`. */
  function MoodTemplate(mood: FollowUpMood, pick: nat, memory: ConversationMemory): string {
    match mood
    case Happy =>
      if pick == 0 then
        "I'm so happy to hear you're feeling good! Last time you seemed " + memory.lastMood
        + ", so it's wonderful to see this positive change. What's been bringing you joy?"
      else
        "Your happiness is contagious! I remember you were " + memory.lastMood
        + " before, and I'm thrilled things are looking up. Tell me more about what's lifted your spirits."
    case Sad =>
      if pick == 0 then
        "I can hear that you're feeling down, and that's okay. "
        + (if memory.lastMood == "happy"
           then "I know last time you were feeling much brighter, and that shows you have that happiness inside you."
           else "I'm here to listen and support you through this.")
        + " What's been weighing on your heart?"
      else
        "I'm sorry you're feeling sad today. "
        + (if memory.lastTopic != ""
           then "I remember we talked about " + memory.lastTopic + " before - is that still on your mind?"
           else "Would you like to share what's troubling you?")
    case Worried =>
      if pick == 0 then
        "I can sense your worry, and I want you to know that's completely understandable. "
        + (if memory.lastMood == "worried" then "I remember you had some concerns last time too." else "")
        + " Sometimes sharing our worries can help lighten the load. What's been on your mind?"
      else
        "Your concerns are valid, and I'm here to listen. "
        + (if memory.lastTopic == "health"
           then "Is this related to the health concerns we discussed before?"
           else "What's been causing you to feel this way?")
  }

  /** Topic template `pick` (0 or 1), filled in from `memory`. */
  function TopicTemplate(topic: FollowUpTopic, pick: nat, memory: ConversationMemory): string {
    match topic
    case Family =>
      if pick == 0 then
        "Family is so important! "
        + (if memory.lastTopic == "family"
           then "I remember you mentioning your family before. How are they doing now?"
           else "Tell me about your family - they clearly mean a lot to you.")
      else
        "It's lovely that you're thinking about family. "
        + (if "family" in memory.importantTopics
           then "You've mentioned them before, and I can tell how much they mean to you."
           else "")
        + " What's happening with them?"
    case Health =>
      if pick == 0 then
        "Your health is so important, and I'm glad you're thinking about it. "
        + (if memory.lastTopic == "health"
           then "How have you been feeling since we last talked about your health?"
           else "How are you feeling physically today?")
      else
        "Taking care of yourself is wonderful. "
        + (if memory.lastMood == "tired"
           then "Last time you mentioned feeling tired - has that improved?"
           else "What aspects of your health are on your mind?")
  }

  /** General template `pick` (0 or 1), filled in from `memory`. */
  function GeneralTemplate(pick: nat, memory: ConversationMemory): string {
    if pick == 0 then
      "Thank you for sharing that with me. "
      + (if memory.lastTopic != "" then "Last time we talked about " + memory.lastTopic + ", and" else "")
      + " I always enjoy learning more about your experiences. Please, tell me more."
    else
      "I really value our conversations. "
      + (if memory.lastMood != "" then "I remember you were feeling " + memory.lastMood + " when we last spoke." else "")
      + " How are things with you today?"
  }

  /** The words of a reply; only templates read the memory. */
  function ReplyText(c: ReplyChoice, memory: ConversationMemory): string {
    match c
    case Canned(k) => CannedReply(k)
    case MoodFollowUp(m, pick) => MoodTemplate(m, pick, memory)
    case TopicFollowUp(t, pick) => TopicTemplate(t, pick, memory)
    case General(pick) => GeneralTemplate(pick, memory)
  }

  /** getContextualResponse: the chosen reply, in words. */
  function ContextualResponse(userMessage: string, mood: string, topic: string, memory: ConversationMemory, pick: nat): string
    requires pick < 2
  {
    ReplyText(ChooseReply(userMessage, mood, topic, pick), memory)
  }

  /** A message holding trigger phrase `k`, in any letter case, gets a canned
      reply: that of phrase `k` or of an earlier phrase. */
  lemma TriggerPhraseWins(userMessage: string, k: nat, phrase: string, mood: string, topic: string, pick: nat)
    requires k < |TriggerRules| && pick < 2
    requires Contains(userMessage, phrase) && Lower(phrase) == TriggerRules[k].clauses[0][0]
    ensures var c := ChooseReply(userMessage, mood, topic, pick);
            c.Canned? && c.index <= k
  {
    var lower := Lower(userMessage);
    ContainsLower(userMessage, phrase);
    assert AnyContains(lower, TriggerRules[k].clauses[0]);
    EarlierRuleWins(lower, TriggerRules, k);
    TriggerActionsAreIndexes();
  }

  /** Once a trigger phrase matches, the reply is the same whatever the
      mood, topic, memory and random pick. */
  lemma CannedReplyIgnoresContext(userMessage: string, mood: string, topic: string, memory: ConversationMemory, pick: nat,
                                  mood': string, topic': string, memory': ConversationMemory, pick': nat)
    requires pick < 2 && pick' < 2 && !NoTriggerIn(Lower(userMessage))
    ensures ContextualResponse(userMessage, mood', topic', memory', pick')
            == ContextualResponse(userMessage, mood, topic, memory, pick)
  {
    var c := ChooseReply(userMessage, mood, topic, pick);
    var c' := ChooseReply(userMessage, mood', topic', pick');
    FirstMatchSpec(Lower(userMessage), TriggerRules);
    var i :| FirstMatching(Lower(userMessage), TriggerRules, i);
    assert c == c' == Canned(TriggerRules[i].action);
  }

  /** Reply selection ignores the letter case of the message. */
  lemma ResponseCaseInsensitive(userMessage: string, mood: string, topic: string, memory: ConversationMemory, pick: nat)
    requires pick < 2
    ensures ContextualResponse(Lower(userMessage), mood, topic, memory, pick)
            == ContextualResponse(userMessage, mood, topic, memory, pick)
  {
    LowerIdempotent(userMessage);
  }

  /** Tired and lonely have no templates: with either mood the reply is the
      one an utterance without a mood gets. */
  lemma MoodsWithoutTemplatesFallThrough(userMessage: string, mood: string, topic: string, memory: ConversationMemory, pick: nat)
    requires pick < 2 && mood in {"tired", "lonely"}
    ensures ContextualResponse(userMessage, mood, topic, memory, pick)
            == ContextualResponse(userMessage, "", topic, memory, pick)
  {
  }

  /** A classified utterance with no trigger phrase gets a template from
      exactly the tier its labels call for: happy/sad/worried pick a mood
      template; otherwise family/health a topic template; otherwise --
      tired, lonely, hobbies, social, memories or no label -- a general one. */
  lemma TierOfClassifiedUtterance(userMessage: string, pick: nat)
    requires pick < 2 && NoTriggerIn(Lower(userMessage))
    ensures var l := DetectMoodAndTopic(userMessage);
            var c := ChooseReply(userMessage, l.mood, l.topic, pick);
            && (l.mood in {"happy", "sad", "worried"} ==> c == MoodFollowUp(MoodEntry(l.mood).value, pick))
            && (l.mood in {"", "tired", "lonely"} && l.topic in {"family", "health"} ==> c == TopicFollowUp(TopicEntry(l.topic).value, pick))
            && (l.mood in {"", "tired", "lonely"} && l.topic in {"", "hobbies", "social", "memories"} ==> c == General(pick))
  {
    var l := DetectMoodAndTopic(userMessage);
    assert ChooseReply(userMessage, l.mood, l.topic, pick) == TemplateChoice(l.mood, l.topic, pick);
    LabelsAreClosed(userMessage);
  }
}
