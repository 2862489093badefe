/** The chat companion's session state and the actions that change it
    (src/components/AICompanion.tsx: the initial load, handleSendMessage and
    its reply timer, handleSurpriseSelect and clearMemory). Sending a message
    appends it, merges its labels into the memory and schedules the reply;
    the reply is appended when its timer fires. The reply is worded from the
    memory as it was BEFORE the message was merged into it, because the
    timer callback still sees the memory of the render in which the message
    was sent. Timers all have the same delay, so they fire in the order they
    were set: the scheduled replies form a queue. */
module CompanionSession {
  import opened Base
  import opened CompanionClassifier
  import opened CompanionMemory
  import opened CompanionReply
  import opened CompanionWelcome

  /** Message `i` of the list (counting from 0) has id `i + 1`. */
  predicate IdsSequential(messages: seq<Message>) {
    forall i | 0 <= i < |messages| :: messages[i].id == i + 1
  }

  /** Appending the next message keeps the ids sequential. */
  lemma AppendKeepsIdsSequential(messages: seq<Message>, m: Message)
    requires IdsSequential(messages) && m.id == |messages| + 1
    ensures IdsSequential(messages + [m])
  {
    assert forall i | 0 <= i < |messages| :: (messages + [m])[i] == messages[i];
  }

  /** `messageText || inputMessage`: a chosen prompt, when there is one,
      else the input box. */
  function TextToSend(messageText: string, inputMessage: string): (text: string)
    ensures text == messageText || text == inputMessage
    ensures messageText != "" ==> text == messageText
    ensures messageText == "" ==> text == inputMessage
  {
    if messageText != "" then messageText else inputMessage
  }

  /** What a reply timer's callback has captured: the id it will use, the
      text sent, its labels and the memory of the render it was set in. */
  datatype PendingReply = PendingReply(id: int, text: string, mood: string, topic: string, memory: ConversationMemory)

  /** The user's message: number `n`, carrying both labels the classifier
      finds in it (an empty label included). */
  function UserMessage(n: int, text: string, sentAt: int): (m: Message)
    ensures m.sender == User && m.id == n && m.text == text && m.timestamp == sentAt
    ensures m.mood == Some(DetectMoodAndTopic(text).mood) && m.topic == Some(DetectMoodAndTopic(text).topic)
  {
    var labels := DetectMoodAndTopic(text);
    Message(n, text, User, sentAt, Some(labels.mood), Some(labels.topic))
  }

  /** The reply a fired timer appends: its captured id, worded from what it
      captured, from the AI, without labels. */
  function ReplyMessage(p: PendingReply, pick: nat, repliedAt: int): (m: Message)
    requires pick < 2
    ensures m.sender == Ai && m.id == p.id && m.timestamp == repliedAt
    ensures m.mood.None? && m.topic.None?
    ensures m.text == ContextualResponse(p.text, p.mood, p.topic, p.memory, pick)
  {
    Message(p.id, ContextualResponse(p.text, p.mood, p.topic, p.memory, pick), Ai, repliedAt, None, None)
  }

  class Companion {
    var messages: seq<Message>
    var memory: ConversationMemory
    var inputMessage: string
    var isTyping: bool
    var showExamplePrompts: bool
    /** The reply timers set and not yet fired, oldest first. */
    var pendingReplies: seq<PendingReply>

    /** The component as it stands once the load effect has run, given what
        storage held (already decoded): the stored messages, or else a
        single welcome message composed from the stored memory; the stored
        memory, or else the empty one. */
    constructor Mount(savedMessages: Option<seq<Message>>, savedMemory: Option<ConversationMemory>, now: int)
      ensures messages == if savedMessages.Some? then savedMessages.value else [WelcomeMessage(savedMemory, now)]
      ensures showExamplePrompts == (savedMessages.None? || savedMessages.value == [])
      ensures memory == savedMemory.GetOr(EmptyMemory)
      ensures inputMessage == "" && !isTyping && pendingReplies == []
    {
      match savedMessages {
        case Some(saved) =>
          messages := saved;
          showExamplePrompts := |saved| == 0;
        case None =>
          messages := [WelcomeMessage(savedMemory, now)];
          showExamplePrompts := true;
      }
      memory := savedMemory.GetOr(EmptyMemory);
      inputMessage := "";
      isTyping := false;
      pendingReplies := [];
    }

    /** The example prompts are offered only on a fresh conversation. */
    predicate PromptsVisible()
      reads this
    {
      showExamplePrompts && |messages| <= 1
    }

    /** No reply is outstanding and the ids run 1, 2, 3, ... */
    predicate Settled()
      reads this
    {
      IdsSequential(messages) && pendingReplies == []
    }

    /** One reply is outstanding, and it will take the next id. */
    predicate AwaitingReply()
      reads this
    {
      IdsSequential(messages) && |pendingReplies| == 1 && pendingReplies[0].id == |messages| + 1
    }

    /** The input box's onChange. */
    method SetInput(text: string)
      modifies this`inputMessage
      ensures inputMessage == text
    {
      inputMessage := text;
    }

    /** handleSendMessage. The text sent is `messageText` when it is
        non-empty (a chosen example prompt), else the input box.
        Whitespace-only text changes nothing. Otherwise the labelled user
        message takes id n+1 (n messages so far) and is appended; a reply
        with id n+2, to be worded from the memory before this message, is
        scheduled; the memory takes the message's labels and `sentAt` as its
        date; the input box is emptied, the typing indicator shown and the
        prompts hidden. From a settled conversation, a send leaves exactly one
        reply outstanding, and it will take the next id. */
    method SendMessage(messageText: string, sentAt: int)
      modifies this
      ensures var text := TextToSend(messageText, old(inputMessage));
              AllWhitespace(text) ==>
                && messages == old(messages) && memory == old(memory) && pendingReplies == old(pendingReplies)
                && inputMessage == old(inputMessage) && isTyping == old(isTyping)
                && showExamplePrompts == old(showExamplePrompts)
      ensures var text := TextToSend(messageText, old(inputMessage));
              var labels := DetectMoodAndTopic(text);
              !AllWhitespace(text) ==>
                && messages == old(messages) + [UserMessage(|old(messages)| + 1, text, sentAt)]
                && pendingReplies == old(pendingReplies)
                                     + [PendingReply(|old(messages)| + 2, text, labels.mood, labels.topic, old(memory))]
                && memory == UpdatedMemory(old(memory), labels.mood, labels.topic, sentAt)
                && inputMessage == "" && isTyping && !showExamplePrompts
      ensures old(Settled()) ==> Settled() || AwaitingReply()
    {
      var text := TextToSend(messageText, inputMessage);
      // `!textToSend.trim()`: the trimmed text is empty exactly when the
      // text is all whitespace (TrimEmptyIff)
      if AllWhitespace(text) {
        return;
      }
      showExamplePrompts := false;
      var labels := DetectMoodAndTopic(text);
      var n := |messages|;
      var user := UserMessage(n + 1, text, sentAt);
      if IdsSequential(messages) {
        AppendKeepsIdsSequential(messages, user);
      }
      messages := messages + [user];
      inputMessage := "";
      isTyping := true;
      pendingReplies := pendingReplies + [PendingReply(n + 2, text, labels.mood, labels.topic, memory)];
      memory := UpdatedMemory(memory, labels.mood, labels.topic, sentAt);
    }

    /** The oldest reply timer fires: its reply is appended and the typing
        indicator hidden; nothing else changes. A reply awaited by a
        conversation whose ids are sequential settles it. */
    method ReplyTimerFires(repliedAt: int, pick: nat)
      requires pendingReplies != [] && pick < 2
      modifies this`messages, this`pendingReplies, this`isTyping
      ensures messages == old(messages) + [ReplyMessage(old(pendingReplies[0]), pick, repliedAt)]
      ensures pendingReplies == old(pendingReplies[1..])
      ensures !isTyping
      ensures old(AwaitingReply()) ==> Settled()
    {
      var reply := ReplyMessage(pendingReplies[0], pick, repliedAt);
      if IdsSequential(messages) && reply.id == |messages| + 1 {
        AppendKeepsIdsSequential(messages, reply);
      }
      messages := messages + [reply];
      pendingReplies := pendingReplies[1..];
      isTyping := false;
    }

    /** handleSurpriseSelect: the surprise is appended as the AI's message
        n+1 and the prompts are hidden; the memory is untouched. */
    method SelectSurprise(content: string, now: int)
      modifies this`messages, this`showExamplePrompts
      ensures messages == old(messages) + [Message(|old(messages)| + 1, content, Ai, now, None, None)]
      ensures !showExamplePrompts
      ensures old(IdsSequential(messages)) ==> IdsSequential(messages)
    {
      if IdsSequential(messages) {
        AppendKeepsIdsSequential(messages, Message(|messages| + 1, content, Ai, now, None, None));
      }
      messages := messages + [Message(|messages| + 1, content, Ai, now, None, None)];
      showExamplePrompts := false;
    }

    /** clearMemory: storage is emptied before the welcome is composed, so the
        conversation restarts from exactly the default greeting, with an
        empty memory and the prompts on offer again. */
    method ClearMemory(now: int)
      modifies this`messages, this`memory, this`showExamplePrompts
      ensures messages == [WelcomeMessage(None, now)]
      ensures memory == EmptyMemory
      ensures showExamplePrompts && PromptsVisible()
      ensures IdsSequential(messages) && WellFormed(memory)
    {
      var stored: Option<ConversationMemory> := None; // removeItem runs first
      messages := [WelcomeMessage(stored, now)];
      memory := EmptyMemory;
      showExamplePrompts := true;
      EmptyMemoryWellFormed();
    }
  }

  /** After a clear, the next welcome -- composed from the (empty) memory the
      component then stores -- is the default greeting again. */
  lemma WelcomeAfterClearIsDefault(now: int)
    ensures ChooseGreeting(Some(EmptyMemory), now) == DefaultGreeting
    ensures WelcomeMessage(Some(EmptyMemory), now) == WelcomeMessage(None, now)
  {
  }

  /** After a send, the welcome composed from the stored memory on the same
      day is the same-day greeting exactly when the message carried a mood
      or an earlier one was remembered, and the default greeting otherwise. */
  lemma WelcomeAfterSend(memory: ConversationMemory, text: string, sentAt: int, now: int)
    requires sentAt <= now < sentAt + MsPerDay
    ensures var labels := DetectMoodAndTopic(text);
            var m := UpdatedMemory(memory, labels.mood, labels.topic, sentAt);
            ChooseGreeting(Some(m), now) == (if m.lastMood == "" then DefaultGreeting else SameDay)
  {
    var labels := DetectMoodAndTopic(text);
    var m := UpdatedMemory(memory, labels.mood, labels.topic, sentAt);
    if m.lastMood != "" {
      DayBoundaries(m, sentAt, now);
    }
  }
}
