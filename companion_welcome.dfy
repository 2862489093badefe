/** The welcome composer of the chat companion
    (src/components/AICompanion.tsx, getWelcomeMessage): a greeting chosen by
    how many whole days have passed since the stored memory's last
    conversation. Instants are integer milliseconds; `now` is passed in
    instead of being read from the clock. */
module CompanionWelcome {
  import opened Base
  import opened CompanionMemory

  const MsPerDay: int := 1000 * 60 * 60 * 24

  /** The greetings getWelcomeMessage chooses between. */
  datatype Greeting = DefaultGreeting | SameDay | NextDay | WithinWeek | LongAbsence

  /** `Math.floor((now - last) / MsPerDay)`: the number of whole days from
      `last` to `now`, rounded down, so negative when `last` lies in the
      future. */
  function DaysSince(now: int, last: int): (days: int)
    ensures days * MsPerDay <= now - last < (days + 1) * MsPerDay
  {
    (now - last) / MsPerDay
  }

  /** The greeting for the memory found in storage (None when nothing is
      stored, which the source reads as `{}`). Without both a last date and
      a last mood it is the default greeting; otherwise the bucket is chosen
      by elapsed days: 0, 1, up to 7 (negative values included), else the
      long-absence greeting. */
  function ChooseGreeting(stored: Option<ConversationMemory>, now: int): (g: Greeting)
    ensures g == DefaultGreeting <==>
              stored.None? || stored.value.lastConversationDate.None? || stored.value.lastMood == ""
    ensures g != DefaultGreeting ==>
              var days := DaysSince(now, stored.value.lastConversationDate.value);
              && (g == SameDay <==> days == 0)
              && (g == NextDay <==> days == 1)
              && (g == WithinWeek <==> days < 0 || 2 <= days <= 7)
              && (g == LongAbsence <==> days > 7)
  {
    match stored
    case None => DefaultGreeting
    case Some(memory) =>
      if memory.lastConversationDate.None? || memory.lastMood == "" then DefaultGreeting
      else
        var days := DaysSince(now, memory.lastConversationDate.value);
        if days == 0 then SameDay
        else if days == 1 then NextDay
        else if days <= 7 then WithinWeek
        else LongAbsence
  }

  /** The words of a greeting, filled in from the remembered mood and topic. */
  function GreetingText(g: Greeting, lastMood: string, lastTopic: string): string {
    match g
    case DefaultGreeting => "Hello there! I'm so glad to see you today."
    case SameDay =>
      "Welcome back! Earlier you mentioned feeling " + lastMood + ". How are you feeling now?"
    case NextDay =>
      "Good to see you again! Yesterday you seemed " + lastMood
      + (if lastTopic != "" then " and we talked about " + lastTopic else "")
      + ". How has your day been today?"
    case WithinWeek =>
      "It's wonderful to see you again! Last time we spoke, you were feeling " + lastMood
      + (if lastTopic != "" then " and we discussed " + lastTopic else "")
      + ". How have you been since then?"
    case LongAbsence =>
      "Hello, my dear friend! It's been a while since we last talked. I remember you mentioning "
      + (if lastTopic != "" then lastTopic else "some important things")
      + ". I'd love to catch up - how have you been?"
  }

  /** getWelcomeMessage: always message 1, from the AI, stamped `now`,
      without labels, worded by the chosen greeting. */
  function WelcomeMessage(stored: Option<ConversationMemory>, now: int): (m: Message)
    ensures m.id == 1 && m.sender == Ai && m.timestamp == now
    ensures m.mood.None? && m.topic.None?
    ensures stored.None? ==> m.text == GreetingText(DefaultGreeting, "", "")
    ensures m.text == GreetingText(ChooseGreeting(stored, now), stored.GetOr(EmptyMemory).lastMood, stored.GetOr(EmptyMemory).lastTopic)
  {
    var g := ChooseGreeting(stored, now);
    var text := match stored
      case None => GreetingText(g, "", "")
      case Some(memory) => GreetingText(g, memory.lastMood, memory.lastTopic);
    Message(1, text, Ai, now, None, None)
  }

  /** The bucket boundaries in milliseconds: a last conversation between 7
      and 8 days ago (7 days exactly included) is "within a week"; from 8
      days on it is a long absence; a date in the future counts as within a
      week too. */
  lemma {:induction false} WeekBoundary(memory: ConversationMemory, last: int, now: int)
    requires memory.lastMood != "" && memory.lastConversationDate == Some(last)
    ensures last + 7 * MsPerDay <= now < last + 8 * MsPerDay ==> ChooseGreeting(Some(memory), now) == WithinWeek
    ensures last + 8 * MsPerDay <= now ==> ChooseGreeting(Some(memory), now) == LongAbsence
    ensures now < last ==> ChooseGreeting(Some(memory), now) == WithinWeek
  {
    var days := DaysSince(now, last);
    if last + 7 * MsPerDay <= now < last + 8 * MsPerDay {
      assert days * MsPerDay < 8 * MsPerDay;
      assert 7 * MsPerDay < (days + 1) * MsPerDay;
    }
    if last + 8 * MsPerDay <= now {
      assert 8 * MsPerDay < (days + 1) * MsPerDay;
    }
    if now < last {
      assert days * MsPerDay < 0;
    }
  }

  /** The same-day and next-day buckets in milliseconds. */
  lemma {:induction false} DayBoundaries(memory: ConversationMemory, last: int, now: int)
    requires memory.lastMood != "" && memory.lastConversationDate == Some(last)
    ensures last <= now < last + MsPerDay ==> ChooseGreeting(Some(memory), now) == SameDay
    ensures last + MsPerDay <= now < last + 2 * MsPerDay ==> ChooseGreeting(Some(memory), now) == NextDay
  {
    var days := DaysSince(now, last);
    if last <= now < last + MsPerDay {
      assert 0 < (days + 1) * MsPerDay && days * MsPerDay < MsPerDay;
    }
    if last + MsPerDay <= now < last + 2 * MsPerDay {
      assert MsPerDay < (days + 1) * MsPerDay && days * MsPerDay < 2 * MsPerDay;
    }
  }
}
