/** The voice-command layer (src/hooks/useVoiceCommands.ts): a first-match
    dispatcher from a spoken command to the callbacks it invokes and the
    sentence it speaks, and the listening state machine around the speech
    recognizer. The browser's recognizer and synthesizer are not modelled;
    what `speak` would say is appended to a log instead. */
module Voice {
  import opened Base
  import opened Dispatch

  /** The branches of processCommand, in the order they are tried. */
  datatype Command = StartChatCommand | HealthCommand | HelpCommand | CaregiversCommand | AlertsCommand | Unrecognised

  /** The callbacks of the hook's configuration. */
  datatype Callback = StartChat | ReadHealthSummary | CallForHelp | NavigateTo(tab: string)

  /** What one command does: the callbacks invoked, in order, and the
      sentence spoken. */
  datatype Outcome = Outcome(callbacks: seq<Callback>, speech: string)

  const ChatPhrases: seq<string> := ["start chat", "chat with ai", "talk to companion"]
  const HealthPhrases: seq<string> := ["read health", "health summary", "my health"]
  const HelpPhrases: seq<string> := ["call for help", "emergency", "help"]
  const CaregiverPhrases: seq<string> := ["show caregivers", "family"]
  const AlertPhrases: seq<string> := ["show alerts", "care alerts"]

  const CommandRules: seq<Rule<Command>> := [
    Rule([ChatPhrases], StartChatCommand),
    Rule([HealthPhrases], HealthCommand),
    Rule([HelpPhrases], HelpCommand),
    Rule([CaregiverPhrases], CaregiversCommand),
    Rule([AlertPhrases], AlertsCommand)
  ]

  const FallbackSpeech := "I didn't understand that command. Try saying start chat, read health summary, or call for help"

  /** The branch processCommand takes for `command`: the first group of
      phrases the lower-cased command includes, or the fallback when none
      does. */
  function CommandBranch(command: string): (b: Command)
    ensures b == Unrecognised <==> forall i | 0 <= i < |CommandRules| :: !Matches(Lower(command), CommandRules[i])
    ensures forall i :: FirstMatching(Lower(command), CommandRules, i) ==> b == CommandRules[i].action
  {
    FirstMatchSpec(Lower(command), CommandRules);
    FirstMatch(Lower(command), CommandRules).GetOr(Unrecognised)
  }

  /** What each branch does. */
  function BranchOutcome(b: Command): Outcome {
    match b
    case StartChatCommand => Outcome([StartChat, NavigateTo("companion")], "Starting chat with your AI companion")
    case HealthCommand => Outcome([ReadHealthSummary, NavigateTo("health")], "Opening your health summary")
    case HelpCommand => Outcome([CallForHelp], "Calling for emergency help")
    case CaregiversCommand => Outcome([NavigateTo("caregivers")], "Opening family and caregivers")
    case AlertsCommand => Outcome([NavigateTo("alerts")], "Opening care alerts")
    case Unrecognised => Outcome([], FallbackSpeech)
  }

  /** processCommand: the callbacks and speech of the branch taken. */
  function ProcessCommand(command: string): Outcome {
    BranchOutcome(CommandBranch(command))
  }

  /** The tab of the first navigation among `callbacks`, if any. */
  function NavigationTarget(callbacks: seq<Callback>): (tab: Option<string>)
    ensures tab.None? <==> forall i | 0 <= i < |callbacks| :: !callbacks[i].NavigateTo?
    ensures tab.Some? ==> exists i | 0 <= i < |callbacks| :: callbacks[i] == NavigateTo(tab.value)
                            && forall j | 0 <= j < i :: !callbacks[j].NavigateTo?
  {
    if callbacks == [] then None
    else if callbacks[0].NavigateTo? then Some(callbacks[0].tab)
    else NavigationTarget(callbacks[1..])
  }

  /** Different branches invoke different callbacks: from the callbacks a
      command invoked one can tell which branch ran. */
  lemma {:induction false} BranchesAreDistinguishable(b1: Command, b2: Command)
    requires b1 != b2
    ensures BranchOutcome(b1).callbacks != BranchOutcome(b2).callbacks
  {
    var c1, c2 := BranchOutcome(b1).callbacks, BranchOutcome(b2).callbacks;
    if |c1| == |c2| && |c1| > 0 {
      assert c1[0] != c2[0];
    }
  }

  /** Each rule of the table is its one group of phrases. */
  lemma RuleMatchesItsPhrases(lower: string)
    ensures Matches(lower, CommandRules[0]) == AnyContains(lower, ChatPhrases)
    ensures Matches(lower, CommandRules[1]) == AnyContains(lower, HealthPhrases)
    ensures Matches(lower, CommandRules[2]) == AnyContains(lower, HelpPhrases)
    ensures Matches(lower, CommandRules[3]) == AnyContains(lower, CaregiverPhrases)
    ensures Matches(lower, CommandRules[4]) == AnyContains(lower, AlertPhrases)
  {
    assert CommandRules[0].clauses == [ChatPhrases] && CommandRules[0].clauses[0] == ChatPhrases;
    assert CommandRules[1].clauses == [HealthPhrases] && CommandRules[1].clauses[0] == HealthPhrases;
    assert CommandRules[2].clauses == [HelpPhrases] && CommandRules[2].clauses[0] == HelpPhrases;
    assert CommandRules[3].clauses == [CaregiverPhrases] && CommandRules[3].clauses[0] == CaregiverPhrases;
    assert CommandRules[4].clauses == [AlertPhrases] && CommandRules[4].clauses[0] == AlertPhrases;
  }

  /** The branch taken, in terms of the phrase groups the lower-cased command
      includes: each branch runs exactly when its group is included and no
      group of higher priority is. */
  lemma CommandBranchByPhrases(command: string)
    ensures var lower, b := Lower(command), CommandBranch(command);
            var chat, health, help := AnyContains(lower, ChatPhrases), AnyContains(lower, HealthPhrases), AnyContains(lower, HelpPhrases);
            var family, alerts := AnyContains(lower, CaregiverPhrases), AnyContains(lower, AlertPhrases);
            && (b == StartChatCommand <==> chat)
            && (b == HealthCommand <==> !chat && health)
            && (b == HelpCommand <==> !chat && !health && help)
            && (b == CaregiversCommand <==> !chat && !health && !help && family)
            && (b == AlertsCommand <==> !chat && !health && !help && !family && alerts)
            && (b == Unrecognised <==> !chat && !health && !help && !family && !alerts)
  {
    var lower := Lower(command);
    RuleMatchesItsPhrases(lower);
    if Matches(lower, CommandRules[0]) {
      assert FirstMatching(lower, CommandRules, 0);
    } else if Matches(lower, CommandRules[1]) {
      assert FirstMatching(lower, CommandRules, 1);
    } else if Matches(lower, CommandRules[2]) {
      assert FirstMatching(lower, CommandRules, 2);
    } else if Matches(lower, CommandRules[3]) {
      assert FirstMatching(lower, CommandRules, 3);
    } else if Matches(lower, CommandRules[4]) {
      assert FirstMatching(lower, CommandRules, 4);
    }
  }

  /** The phrase groups decide the tab, in priority order: a chat phrase
      opens the companion; otherwise a health phrase opens the health
      summary; a help phrase then navigates nowhere; otherwise a caregivers
      phrase opens the caregivers tab and an alerts phrase the alerts tab;
      an unrecognised command navigates nowhere. */
  lemma NavigationTargets(command: string)
    ensures var lower, target := Lower(command), NavigationTarget(ProcessCommand(command).callbacks);
            var chat, health, help := AnyContains(lower, ChatPhrases), AnyContains(lower, HealthPhrases), AnyContains(lower, HelpPhrases);
            var family, alerts := AnyContains(lower, CaregiverPhrases), AnyContains(lower, AlertPhrases);
            && (chat ==> target == Some("companion"))
            && (!chat && health ==> target == Some("health"))
            && (!chat && !health && help ==> target == None)
            && (!chat && !health && !help && family ==> target == Some("caregivers"))
            && (!chat && !health && !help && !family && alerts ==> target == Some("alerts"))
            && (!chat && !health && !help && !family && !alerts ==> target == None)
  {
    CommandBranchByPhrases(command);
  }

  /** A command that asks for help, with no chat or health phrase, calls for
      help and navigates nowhere -- even when it also mentions the family. */
  lemma HelpNeverNavigates(command: string)
    requires Contains(Lower(command), "help") || Contains(Lower(command), "emergency")
    requires !AnyContains(Lower(command), ChatPhrases) && !AnyContains(Lower(command), HealthPhrases)
    ensures ProcessCommand(command).callbacks == [CallForHelp]
    ensures NavigationTarget(ProcessCommand(command).callbacks).None?
  {
    var lower := Lower(command);
    AnyContainsIff(lower, HelpPhrases);
    assert Contains(lower, HelpPhrases[2]) || Contains(lower, HelpPhrases[1]);
    CommandBranchByPhrases(command);
  }

  /** A command that no phrase group matches invokes no callback and only
      speaks the fallback sentence. */
  lemma UnrecognisedOnlySpeaksFallback(command: string)
    requires !AnyContains(Lower(command), ChatPhrases) && !AnyContains(Lower(command), HealthPhrases)
    requires !AnyContains(Lower(command), HelpPhrases) && !AnyContains(Lower(command), CaregiverPhrases)
    requires !AnyContains(Lower(command), AlertPhrases)
    ensures ProcessCommand(command) == Outcome([], FallbackSpeech)
  {
    CommandBranchByPhrases(command);
  }

  /** Commands are matched ignoring letter case. */
  lemma ProcessCommandCaseInsensitive(command: string)
    ensures ProcessCommand(Lower(command)) == ProcessCommand(command)
  {
    LowerIdempotent(command);
  }

  /** The hook's listening state. `supported` is fixed when the hook mounts:
      the browser offers both a recognizer and a synthesizer. Handlers are
      attached to the recognizer the first time it starts. */
  class VoiceListener {
    const supported: bool
    var isListening: bool
    var handlersAttached: bool
    /** What has been spoken, oldest first. */
    var spoken: seq<string>
    /** The configuration callbacks invoked, oldest first. */
    var invoked: seq<Callback>

    /** Listening implies a recognizer with its handlers attached. */
    predicate Valid()
      reads this
    {
      (isListening ==> handlersAttached) && (handlersAttached ==> supported)
    }

    constructor (supported: bool)
      ensures this.supported == supported && !isListening && !handlersAttached
      ensures spoken == [] && invoked == []
      ensures Valid()
    {
      this.supported := supported;
      isListening := false;
      handlersAttached := false;
      spoken := [];
      invoked := [];
    }

    /** speak: heard only when the synthesizer exists. */
    method Speak(text: string)
      modifies this`spoken
      ensures spoken == old(spoken) + (if supported then [text] else [])
    {
      if supported {
        spoken := spoken + [text];
      }
    }

    /** startListening: a no-op without a recognizer or while already
        listening; otherwise listening starts, the handlers are attached and
        the prompt is spoken. */
    method StartListening()
      requires Valid()
      modifies this
      ensures Valid() && invoked == old(invoked)
      ensures !supported || old(isListening) ==>
                isListening == old(isListening) && handlersAttached == old(handlersAttached) && spoken == old(spoken)
      ensures supported && !old(isListening) ==>
                isListening && handlersAttached && spoken == old(spoken) + ["Listening for your command"]
    {
      if supported && !isListening {
        isListening := true;
        handlersAttached := true;
        Speak("Listening for your command");
      }
    }

    /** stopListening: a no-op unless listening; otherwise listening stops
        and that is announced. */
    method StopListening()
      requires Valid()
      modifies this`isListening, this`spoken
      ensures Valid()
      ensures !old(isListening) ==> !isListening && spoken == old(spoken)
      ensures old(isListening) ==> !isListening && spoken == old(spoken) + ["Stopped listening"]
    {
      if supported && isListening {
        isListening := false;
        Speak("Stopped listening");
      }
    }

    /** toggleListening: stop when listening, start otherwise. */
    method ToggleListening()
      requires Valid()
      modifies this
      ensures Valid() && invoked == old(invoked)
      ensures old(isListening) ==>
                !isListening && handlersAttached == old(handlersAttached) && spoken == old(spoken) + ["Stopped listening"]
      ensures !old(isListening) && supported ==>
                isListening && handlersAttached && spoken == old(spoken) + ["Listening for your command"]
      ensures !old(isListening) && !supported ==>
                !isListening && handlersAttached == old(handlersAttached) && spoken == old(spoken)
    {
      if isListening {
        StopListening();
      } else {
        StartListening();
      }
    }

    /** The recognizer's error handler: listening stops and an apology is
        spoken. Before the handlers are attached, nothing happens. */
    method OnError()
      requires Valid()
      modifies this`isListening, this`spoken
      ensures Valid() && !isListening
      ensures spoken == old(spoken) + (if handlersAttached then ["Sorry, I had trouble hearing you"] else [])
    {
      if handlersAttached {
        isListening := false;
        Speak("Sorry, I had trouble hearing you");
      }
    }

    /** The recognizer's end handler: listening stops. */
    method OnEnd()
      requires Valid()
      modifies this`isListening
      ensures Valid() && !isListening
    {
      if handlersAttached {
        isListening := false;
      }
    }

    /** The recognizer's result handler: a final transcript is processed as
        a command; an interim one is ignored. */
    method OnResult(transcript: string, isFinal: bool)
      requires Valid()
      modifies this`invoked, this`spoken
      ensures Valid()
      ensures handlersAttached && isFinal ==>
                var o := ProcessCommand(transcript);
                invoked == old(invoked) + o.callbacks && spoken == old(spoken) + [o.speech]
      ensures !(handlersAttached && isFinal) ==> invoked == old(invoked) && spoken == old(spoken)
    {
      if handlersAttached && isFinal {
        var o := ProcessCommand(transcript);
        invoked := invoked + o.callbacks;
        Speak(o.speech);
      }
    }
  }
}
