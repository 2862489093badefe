# RevolutAging companion core, modelled in Dafny

This project models the behavioural core of RevolutAging, a web application that keeps an older person company and
keeps their caregivers informed. It covers four parts:

- **The chat companion** (`src/components/AICompanion.tsx`):
  - a keyword classifier that labels each utterance with at most one mood and one topic;
  - the conversation memory that merges those labels;
  - the tiered reply selector: a canned reply for one of twelve trigger phrases, else a mood template, else a
    topic template, else a general one;
  - the welcome greeting, chosen by how many days have passed since the last conversation;
  - the session itself: sending a message, the reply timer, surprises and clearing the memory.
- **The voice-command hook** (`src/hooks/useVoiceCommands.ts`): the first-match command dispatcher and the
  listening state machine around the speech recognizer.
- **The mock back-end services** (`src/services/api.ts`):
  - the keyword-based chat reply;
  - the `{ ...mock, ...patch }` health-metrics update;
  - alert creation;
  - in-place alert resolution.
- **The caregiver alert view** (`src/components/CaregiverAlertSystem.tsx`): the alert filter, the three counters
  and the two filter controls.

All four keyword classifiers share one shape, an ordered `if ... else if ...` chain of `includes` tests. Module
`Dispatch` models that shape once as a rule table with a first-match function. Each classifier is its own table.

## Modules

- `Base`:
  - `Option`;
  - ASCII `toLowerCase`;
  - `includes` as substring containment;
  - JavaScript `trim`, as far as the empty-after-trim test needs it.
- `Dispatch`: rule tables and `FirstMatch`, with their specification lemma.
- `CompanionClassifier`, `CompanionMemory`, `CompanionReply`, `CompanionWelcome`: the pure parts of the chat
  companion.
- `CompanionSession`: class `Companion`, which holds the component's state.
  - Its methods change that state as the event handlers do.
  - Reply timers form a queue of pending replies. A reply is worded from the memory as it was when its message
    was sent, because the timer callback sees the state of the render in which it was set.
  - The ids run 1, 2, 3, … as long as each reply arrives before the next message is sent. Predicates `Settled`
    and `AwaitingReply` state this, and `SendMessage` and `ReplyTimerFires` keep it.
  - When two messages are sent before the first reply arrives, the source gives two messages the same id. The
    model does the same.
- `Voice`: the command dispatcher and class `VoiceListener`. Instead of reaching a browser, the listener logs what
  it would speak and which callbacks it invokes.
- `Api`: the chat reply, the metrics override, alert creation, and class `AlertStore`, whose array of alerts
  `ResolveAlert` updates in place.
- `AlertView`: the filter, the counters and the controls.

## Model

| member | source | states |
|---|---|---|
| `Base.LowerIdempotent` | src/components/AICompanion.tsx:115 | lower-casing an already lower-cased text changes nothing |
| `Base.ContainsLower` | src/components/AICompanion.tsx:115-118 | if a text includes a word, its lower-cased form includes the lower-cased word |
| `Base.TrimEmptyIff` | src/components/AICompanion.tsx:231 | the trimmed text is empty exactly when the text is all whitespace |
| `Dispatch.AnyContainsIff` | src/components/AICompanion.tsx:118 | a keyword group holds exactly when some keyword of the group occurs in the text |
| `Dispatch.FirstMatchSpec` | src/components/AICompanion.tsx:117-128 | the if-chain yields nothing exactly when no rule matches; otherwise it yields the action of the first matching rule |
| `Dispatch.EarlierRuleWins` | src/components/AICompanion.tsx:117-128 | when rule i matches, the chosen rule is rule i or an earlier one |
| `CompanionClassifier.FirstLabelSpec` | src/components/AICompanion.tsx:117-128 | one axis's label is "" exactly when no group matches; otherwise it is the label of the first matching group |
| `CompanionClassifier.DetectMoodAndTopicSpec` | src/components/AICompanion.tsx:114-144 | mood and topic are each "" exactly when no group of their axis matches; otherwise each is the label of the first matching group, in the source's priority order |
| `CompanionClassifier.LabelsAreClosed` | src/components/AICompanion.tsx:117-141 | every label is "" or one of the five labels of its axis |
| `CompanionClassifier.ClassifyCaseInsensitive` | src/components/AICompanion.tsx:115 | an utterance and its lower-cased form get the same labels |
| `CompanionClassifier.HappyKeywordWins` | src/components/AICompanion.tsx:118-119 | a happy keyword in any letter case makes the mood happy, whatever other mood words occur |
| `CompanionClassifier.FamilyKeywordWins` | src/components/AICompanion.tsx:131-132 | a family keyword in any letter case makes the topic family, whatever other topic words occur |
| `CompanionClassifier.GoodAndSadIsHappy` | src/components/AICompanion.tsx:118-121 | "I feel Good but SAD" is labelled happy: the first group wins |
| `CompanionMemory.UpdatedMemory` | src/components/AICompanion.tsx:250-258 | a non-empty label overwrites the remembered one and an empty label keeps it; the date becomes the send time; preferences are kept; the topic list keeps its order and gains the topic at its end exactly when the topic is new and non-empty; no duplicate is ever added |
| `CompanionMemory.UpdateWithoutLabelsOnlyMovesDate` | src/components/AICompanion.tsx:250-258 | an utterance with no labels changes only the date |
| `CompanionMemory.UpdateTwiceSameTopic` | src/components/AICompanion.tsx:255-257 | mentioning a topic twice leaves exactly one entry for it |
| `CompanionMemory.UpdateKeepsWellFormed` | src/components/AICompanion.tsx:250-258 | merging labels from the closed sets keeps the memory well-formed: closed labels, and a duplicate-free topic list of non-empty topics |
| `CompanionMemory.UpdatePreservesWellFormed` | src/components/AICompanion.tsx:234-259 | merging the labels the classifier finds keeps the memory well-formed |
| `CompanionMemory.EmptyMemoryWellFormed` | src/components/AICompanion.tsx:35-41 | the initial memory is well-formed |
| `CompanionReply.MoodEntry` | src/components/AICompanion.tsx:218-219 | a mood has a template set exactly when it is happy, sad or worried, and the set found is that mood's |
| `CompanionReply.TopicEntry` | src/components/AICompanion.tsx:221-222 | a topic has a template set exactly when it is family or health, and the set found is that topic's |
| `CompanionReply.TemplateChoice` | src/components/AICompanion.tsx:218-226 | the mood tier is used exactly when the mood has templates; otherwise the topic tier exactly when the topic has templates; otherwise the general tier; the random pick selects the template within the tier |
| `CompanionReply.ChooseReply` | src/components/AICompanion.tsx:146-227 | a canned reply is given exactly when a trigger phrase occurs, and it is the first phrase's reply; with no trigger phrase the template tiers decide |
| `CompanionReply.TriggerActionsAreIndexes` | src/components/AICompanion.tsx:150-185 | trigger phrase i answers with canned reply i |
| `CompanionReply.TriggerPhraseWins` | src/components/AICompanion.tsx:149-185 | a message holding trigger phrase k in any letter case gets the canned reply of phrase k or of an earlier phrase |
| `CompanionReply.CannedReplyIgnoresContext` | src/components/AICompanion.tsx:149-185 | once a trigger phrase matches, the reply does not depend on mood, topic, memory or random pick |
| `CompanionReply.ResponseCaseInsensitive` | src/components/AICompanion.tsx:147 | the reply ignores the letter case of the message |
| `CompanionReply.MoodsWithoutTemplatesFallThrough` | src/components/AICompanion.tsx:218-226 | with mood tired or lonely, the reply is the one an unlabelled mood gets |
| `CompanionReply.TierOfClassifiedUtterance` | src/components/AICompanion.tsx:218-226 | for a classified utterance without a trigger phrase: happy/sad/worried give a mood template; otherwise family/health give a topic template; otherwise a general template |
| `CompanionWelcome.DaysSince` | src/components/AICompanion.tsx:93 | the whole number of days elapsed, rounded down (negative for a future date) |
| `CompanionWelcome.ChooseGreeting` | src/components/AICompanion.tsx:90-104 | the default greeting exactly when nothing is stored, or no date, or no mood; otherwise 0 days gives same-day, 1 day gives next-day, up to 7 days (or a future date) gives within-a-week, more gives long-absence |
| `CompanionWelcome.WelcomeMessage` | src/components/AICompanion.tsx:84-112 | the welcome is message 1, from the AI, unlabelled, stamped now; its text is the chosen greeting filled with the stored mood and topic (none when nothing is stored, which gives the default greeting) |
| `CompanionWelcome.WeekBoundary` | src/components/AICompanion.tsx:99-103 | 7 to 8 days ago is within a week; from 8 days on is a long absence; a future date is within a week |
| `CompanionWelcome.DayBoundaries` | src/components/AICompanion.tsx:95-98 | less than a day ago is same-day; one to two days ago is next-day |
| `CompanionSession.AppendKeepsIdsSequential` | src/components/AICompanion.tsx:236-245 | appending a message whose id is the length plus one keeps the ids sequential |
| `CompanionSession.TextToSend` | src/components/AICompanion.tsx:230 | the chosen prompt when one is given, and exactly the input box otherwise |
| `CompanionSession.UserMessage` | src/components/AICompanion.tsx:236-243 | the user message has the given number, text and time, and carries the mood and topic the classifier gives its text |
| `CompanionSession.ReplyMessage` | src/components/AICompanion.tsx:262-267 | the reply carries the id its timer captured, comes from the AI, is stamped when the timer fires, carries no labels, and its text is the contextual response to the captured text, labels and memory |
| `CompanionSession.Companion.Mount` | src/components/AICompanion.tsx:51-71 | stored messages are restored, or else a single welcome is shown; prompts show only for an empty history; the stored memory is restored, or else the empty one |
| `CompanionSession.Companion.SetInput` | src/components/AICompanion.tsx:361 | the input box holds the typed text |
| `CompanionSession.Companion.SendMessage` | src/components/AICompanion.tsx:229-259 | whitespace-only text changes nothing; otherwise the labelled message n+1 is appended, a reply with id n+2 and the pre-send memory is queued, the memory is merged, the input is cleared, typing is shown and prompts are hidden; from a settled conversation the result is settled or awaiting exactly the next id |
| `CompanionSession.Companion.ReplyTimerFires` | src/components/AICompanion.tsx:261-271 | the oldest queued reply is appended and typing is hidden; an awaited reply settles the conversation |
| `CompanionSession.Companion.SelectSurprise` | src/components/AICompanion.tsx:295-305 | the surprise is appended as AI message n+1, prompts are hidden, and sequential ids stay sequential (the source never renders the surprise picker, so this handler is unreachable there) |
| `CompanionSession.Companion.ClearMemory` | src/components/AICompanion.tsx:280-293 | the conversation restarts from the default welcome with the empty, well-formed memory, and prompts are on offer |
| `CompanionSession.WelcomeAfterClearIsDefault` | src/components/AICompanion.tsx:280-293 | after a clear, the welcome composed from the stored empty memory is the default one |
| `CompanionSession.WelcomeAfterSend` | src/components/AICompanion.tsx:92-96 | on the day of a send, the welcome is the same-day greeting exactly when a mood is remembered |
| `Voice.CommandBranch` | src/hooks/useVoiceCommands.ts:44-68 | the fallback branch runs exactly when no phrase group matches; otherwise the first matching group's branch runs |
| `Voice.NavigationTarget` | src/hooks/useVoiceCommands.ts:50-63 | no tab exactly when no navigation callback was invoked; otherwise the tab of the first navigation callback |
| `Voice.BranchesAreDistinguishable` | src/hooks/useVoiceCommands.ts:48-67 | different branches invoke different callbacks |
| `Voice.RuleMatchesItsPhrases` | src/hooks/useVoiceCommands.ts:48-62 | each rule of the table is exactly its phrase group |
| `Voice.CommandBranchByPhrases` | src/hooks/useVoiceCommands.ts:44-68 | each branch runs exactly when its phrase group occurs and no group of higher priority does |
| `Voice.NavigationTargets` | src/hooks/useVoiceCommands.ts:48-64 | the tab opened for each priority case: companion, health, none for help, caregivers, alerts, none |
| `Voice.HelpNeverNavigates` | src/hooks/useVoiceCommands.ts:56-58 | a help command without chat or health phrases only calls for help, even when it mentions family |
| `Voice.UnrecognisedOnlySpeaksFallback` | src/hooks/useVoiceCommands.ts:65-67 | an unmatched command invokes nothing and speaks only the fallback sentence |
| `Voice.ProcessCommandCaseInsensitive` | src/hooks/useVoiceCommands.ts:45 | commands are matched ignoring letter case |
| `Voice.VoiceListener.constructor` | src/hooks/useVoiceCommands.ts:12-32 | the hook starts not listening, with nothing spoken or invoked |
| `Voice.VoiceListener.Speak` | src/hooks/useVoiceCommands.ts:34-42 | text is spoken only when the synthesizer exists |
| `Voice.VoiceListener.StartListening` | src/hooks/useVoiceCommands.ts:70-93 | nothing happens without a recognizer or while already listening; otherwise listening starts, handlers are attached and the prompt is spoken |
| `Voice.VoiceListener.StopListening` | src/hooks/useVoiceCommands.ts:95-101 | nothing happens unless listening; otherwise listening stops and that is announced |
| `Voice.VoiceListener.ToggleListening` | src/hooks/useVoiceCommands.ts:103-109 | when listening it stops with an announcement and leaves the handlers alone; otherwise, with a recognizer, it attaches the handlers, listens and announces it, and without one nothing changes |
| `Voice.VoiceListener.OnError` | src/hooks/useVoiceCommands.ts:83-87 | listening stops, and the apology is spoken when the handlers are attached |
| `Voice.VoiceListener.OnEnd` | src/hooks/useVoiceCommands.ts:89-91 | listening stops |
| `Voice.VoiceListener.OnResult` | src/hooks/useVoiceCommands.ts:76-81 | a final transcript invokes its command's callbacks and speaks its sentence; an interim one changes nothing |
| `Api.ChatReplyKind` | src/services/api.ts:156-174 | the default reply exactly when no rule matches; otherwise the first matching rule's reply |
| `Api.ChatRulesByKeywords` | src/services/api.ts:164-174 | each rule as keyword tests; the medication rule needs both "remind" and "medication" |
| `Api.ChatReplyByKeywords` | src/services/api.ts:160-174 | each reply is given exactly when its keywords occur and no higher-priority keywords do |
| `Api.MedicationNeedsBothWords` | src/services/api.ts:166 | "remind" or "medication" alone never gives the medication reply |
| `Api.OverrideReplacesSupplied` | src/services/api.ts:101-105 | every supplied field replaces the mock's |
| `Api.OverrideKeepsUnsupplied` | src/services/api.ts:104 | every field not supplied keeps the mock's value |
| `Api.EmptyUpdateIsMock` | src/services/api.ts:104 | an empty update returns the mock record |
| `Api.OverrideIdempotent` | src/services/api.ts:104 | applying the same patch twice is the same as applying it once |
| `Api.FullUpdateReturnsRecord` | src/services/api.ts:104 | a record supplied in full comes back unchanged |
| `Api.CreateAlert` | src/services/api.ts:141-151 | the new alert has every supplied field, plus the generated id and the creation time |
| `Api.CreateAlertAddsOnlyIdAndTimestamp` | src/services/api.ts:143-147 | removing id and timestamp from a created alert gives back the input, and re-creating an alert from its parts gives the same alert |
| `Api.IndexOf` | src/services/api.ts:133 | find's index: none exactly when no alert has the id; otherwise the first alert with it |
| `Api.ResolveUnknownIdChangesNothing` | src/services/api.ts:133-134 | an unknown id leaves the alerts unchanged |
| `Api.ResolveIdempotent` | src/services/api.ts:131-138 | resolving twice has the effect of resolving once |
| `Api.ResolveChangesOnlyFirstMatch` | src/services/api.ts:133-134 | only the first alert with the id changes, and only its resolved flag, which becomes true |
| `Api.AlertStore.constructor` | src/services/api.ts:60-88 | the store holds the given alerts in a fresh array |
| `Api.AlertStore.ResolveAlert` | src/services/api.ts:131-138 | the array becomes the list with the first matching alert resolved; the result is none exactly when no alert has the id, and otherwise the first alert with that id, now resolved, as stored in the array |
| `AlertView.FilteredAlerts` | src/components/CaregiverAlertSystem.tsx:21-25 | an alert is kept exactly when it is in the list and passes both controls, as many times as it occurs in the list; the list never grows |
| `AlertView.FilteredIsSubsequence` | src/components/CaregiverAlertSystem.tsx:21-25 | the kept alerts keep their list order |
| `AlertView.FilterHonoursControls` | src/components/CaregiverAlertSystem.tsx:22-23 | with resolved alerts hidden none is shown; with a priority selected only that severity is shown |
| `AlertView.FilterWithoutControlsKeepsAll` | src/components/CaregiverAlertSystem.tsx:21-25 | with no priority selected and resolved alerts shown, the whole list is shown |
| `AlertView.Count` | src/components/CaregiverAlertSystem.tsx:121-141 | a counter never exceeds the list length, and is zero exactly when no alert is counted by it |
| `AlertView.CountAppend` | src/components/CaregiverAlertSystem.tsx:121-141 | counting a joined list adds the two counts, and one alert counts one exactly when it is counted, so a counter is the number of counted alerts, duplicates included |
| `AlertView.CountersExclusive` | src/components/CaregiverAlertSystem.tsx:121-141 | no alert is counted by two counters |
| `AlertView.CountersBounded` | src/components/CaregiverAlertSystem.tsx:116-146 | the three counters together never exceed the number of alerts |
| `AlertView.SelectPriority` | src/components/CaregiverAlertSystem.tsx:85 | clicking the selected priority clears the selection; clicking any other priority selects it |
| `AlertView.SelectPriorityTwice` | src/components/CaregiverAlertSystem.tsx:85 | clicking a priority twice from no selection returns to no selection; after two different clicks the second priority is selected |
| `AlertView.ToggleShowResolved` | src/components/CaregiverAlertSystem.tsx:102 | the show-resolved button flips its flag |

## Left out

- Persistence: `localStorage` and JSON (de)serialisation are not modelled.
  - `Companion.Mount` takes what storage held, already decoded.
  - The save effects are not modelled.
- Timers and promises: delays are not modelled, and every mock service is a function of its inputs.
  - The reply timers all have the same delay, so the model fires them oldest first.
- Randomness: `Math.random` is replaced by the template index `pick` it would produce. The random alert id is a
  parameter of `CreateAlert`.
- Clocks: `new Date()` and `Date.now()` are parameters in integer milliseconds. ISO date strings are modelled as
  the instants they denote, and an empty date string as `None`.
- Case mapping: `toLowerCase` is modelled only for ASCII letters.
- Lookups: the template lookup by label ignores JavaScript's inherited object keys (a label such as
  `constructor` cannot come from the classifier anyway).
- Patches: a patch key that is present but `undefined` is not distinguished from an absent key.
- Speech: the browser's recognizer and synthesizer are not modelled. The listener logs what it would speak and
  which callbacks it invokes. Console logging is left out.
- Recognition results: only the transcript of the newest result is modelled.
- `ResolveAlert` missing ids: the source returns `undefined` when no alert has the id; the model returns `None`.
- `CompanionReply.ContextualResponse`: the reply texts are given but not reasoned about. The properties are
  proved about which reply is chosen (`ChooseReply`). Their wording is the source's text.
- `Api.Override`: the field-by-field meaning of `{ ...base, ...patch }` is stated by
  `OverrideReplacesSupplied` and `OverrideKeepsUnsupplied` rather than on the function.
- `CompanionSession.Companion.SendMessage`: that the memory stays well-formed is stated separately, by
  `UpdatePreservesWellFormed`.
- Other parts of the repository are not part of this model:
  - the dashboards and pages;
  - Firebase;
  - the presentational components;
  - `handleKeyPress`;
  - `getHealthMetrics`, `getHealthTrends` and `getAlerts`, which only return the mock data after a delay;
  - `getChatHistory` and `saveChatMessage`.
