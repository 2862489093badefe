/** Messages and the conversation memory of the chat companion, and the merge
    that folds one utterance's labels into the memory
    (src/components/AICompanion.tsx, the `updatedMemory` record built in
    handleSendMessage). */
module CompanionMemory {
  import opened Base
  import opened CompanionClassifier

  datatype Sender = User | Ai

  /** A chat message. Timestamps are milliseconds since the epoch. A user
      message carries the labels detected in it ("" included); an AI message
      carries none. */
  datatype Message = Message(
    id: int,
    text: string,
    sender: Sender,
    timestamp: int,
    mood: Option<string>,
    topic: Option<string>)

  /** The memory record. `lastConversationDate` is None for the empty date
      string, otherwise the instant it denotes, in milliseconds. */
  datatype ConversationMemory = ConversationMemory(
    lastMood: string,
    lastTopic: string,
    importantTopics: seq<string>,
    userPreferences: seq<string>,
    lastConversationDate: Option<int>)

  const EmptyMemory := ConversationMemory("", "", [], [], None)

  predicate NoDuplicates(s: seq<string>) {
    forall i, j | 0 <= i < j < |s| :: s[i] != s[j]
  }

  /** The invariant of a memory built by the companion itself: its labels are
      drawn from the closed label sets and its topic list is duplicate-free. */
  predicate WellFormed(m: ConversationMemory) {
    && m.lastMood in MoodLabels
    && m.lastTopic in TopicLabels
    && NoDuplicates(m.importantTopics)
    && forall i | 0 <= i < |m.importantTopics| :: m.importantTopics[i] in TopicLabels - {""}
  }

  /** The memory after an utterance labelled (`mood`, `topic`) at instant
      `now`. A non-empty label overwrites the remembered one and an empty one
      keeps it; the date becomes `now`; the preferences do not change; the
      topic list keeps its entries in their order and gains `topic` at the end
      exactly when `topic` is non-empty and not yet listed, so it never gains
      a duplicate. */
  function UpdatedMemory(memory: ConversationMemory, mood: string, topic: string, now: int): (m: ConversationMemory)
    ensures m.lastMood == (if mood != "" then mood else memory.lastMood)
    ensures m.lastTopic == (if topic != "" then topic else memory.lastTopic)
    ensures m.userPreferences == memory.userPreferences
    ensures m.lastConversationDate == Some(now)
    ensures memory.importantTopics <= m.importantTopics
    ensures m.importantTopics == memory.importantTopics <==> (topic == "" || topic in memory.importantTopics)
    ensures m.importantTopics != memory.importantTopics ==> m.importantTopics == memory.importantTopics + [topic]
    ensures topic != "" ==> topic in m.importantTopics
    ensures NoDuplicates(memory.importantTopics) ==> NoDuplicates(m.importantTopics)
  {
    ConversationMemory(
      if mood != "" then mood else memory.lastMood,
      if topic != "" then topic else memory.lastTopic,
      if topic != "" && topic !in memory.importantTopics then memory.importantTopics + [topic] else memory.importantTopics,
      memory.userPreferences,
      Some(now))
  }

  /** An utterance with no label only moves the date. */
  lemma UpdateWithoutLabelsOnlyMovesDate(memory: ConversationMemory, now: int)
    ensures UpdatedMemory(memory, "", "", now) == memory.(lastConversationDate := Some(now))
  {
  }

  /** In a duplicate-free list, a listed entry occurs exactly once. */
  lemma {:induction false} NoDuplicatesOccursOnce(s: seq<string>, t: string)
    requires NoDuplicates(s) && t in s
    ensures multiset(s)[t] == 1
  {
    if s[0] == t {
      assert s == [s[0]] + s[1..];
      assert t !in s[1..];
    } else {
      assert s == [s[0]] + s[1..];
      NoDuplicatesOccursOnce(s[1..], t);
    }
  }

  /** Mentioning the same topic twice leaves exactly one entry for it. */
  lemma UpdateTwiceSameTopic(memory: ConversationMemory, mood1: string, mood2: string, topic: string, t1: int, t2: int)
    requires NoDuplicates(memory.importantTopics) && topic != ""
    ensures var m := UpdatedMemory(UpdatedMemory(memory, mood1, topic, t1), mood2, topic, t2);
            multiset(m.importantTopics)[topic] == 1
  {
    var m1 := UpdatedMemory(memory, mood1, topic, t1);
    var m2 := UpdatedMemory(m1, mood2, topic, t2);
    assert m2.importantTopics == m1.importantTopics;
    NoDuplicatesOccursOnce(m1.importantTopics, topic);
  }

  /** Merging labels from the closed sets keeps a well-formed memory
      well-formed. */
  lemma UpdateKeepsWellFormed(memory: ConversationMemory, mood: string, topic: string, now: int)
    requires WellFormed(memory) && mood in MoodLabels && topic in TopicLabels
    ensures WellFormed(UpdatedMemory(memory, mood, topic, now))
  {
    var m := UpdatedMemory(memory, mood, topic, now);
    assert forall i | 0 <= i < |m.importantTopics| :: m.importantTopics[i] in memory.importantTopics || m.importantTopics[i] == topic;
  }

  /** Merging the labels the classifier finds keeps a well-formed memory
      well-formed: the remembered labels stay inside the closed sets. */
  lemma UpdatePreservesWellFormed(memory: ConversationMemory, message: string, now: int)
    requires WellFormed(memory)
    ensures var c := DetectMoodAndTopic(message);
            WellFormed(UpdatedMemory(memory, c.mood, c.topic, now))
  {
    var c := DetectMoodAndTopic(message);
    LabelsAreClosed(message);
    UpdateKeepsWellFormed(memory, c.mood, c.topic, now);
  }

  lemma EmptyMemoryWellFormed()
    ensures WellFormed(EmptyMemory)
  {
  }
}
