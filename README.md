# Privacy-mode configurator: a Dafny model of its scoring and document pipeline

The application asks a developer a questionnaire about a repository: project type, visibility, data sensitivity, compliance regimes, assistant usage, collaboration, storage and reminders. From the answers it derives:

- a risk score from 1 to 8;
- a risk tier (low, guarded, elevated or critical);
- three deduplicated recommendation lists (focus areas, guardrails and watchwords) and a list of reminder bullets;
- a markdown preview of a configuration file for a coding assistant;
- the prompt a language model is asked to expand into that file.

The pipeline exists twice.

- The library in `src/lib/privacyUtils.ts` builds an `AGENTS.md` brief. It has its own constant tables in `src/lib/options.ts`.
- An older inline copy in the application component `src/App.tsx` builds a `cursor.md` file. It differs from the library in these ways:
  - it has no nudge level;
  - its default answers differ;
  - its reminder rules lead to two extra guardrails;
  - its reminder bullets are labels, with a fallback bullet when no reminder is selected;
  - its prompt drops empty lines.
- The component also keeps the survey state: the answers, the current question and the status of the generation request. Its handlers update that state.

The Dafny modules follow that structure:

| module | file | models |
|---|---|---|
| `Types` | `types.dfy` | the closed value sets and the questionnaire record of `src/types/privacy.ts` |
| `Options` | `options.dfy` | the constant tables of `src/lib/options.ts` |
| `Text` | `text.dfy` | the JavaScript built-ins the code relies on: `trim`, `join`, `filter(Boolean)`, `toLowerCase`, `map`, and an insertion-ordered `Set` read back with `Array.from` |
| `PrivacyUtils` | `privacy_utils.dfy` | the library: scoring, tiers, recommendations, reminder bullets, preview and prompt |
| `App` | `app.dfy` | the component's copy of the pipeline, the two label switches and the multi-select toggle |
| `AppState` | `app_state.dfy` | the component's state, as a `Survey` class whose methods are the handlers and as transition functions on a `SurveyState` value |

Modelling notes:

- The scorers and the two `generateRecommendations` are methods. They follow the source's sequence of `if`s and `add`s, and are proved equal to specification functions.
  - A set filled by conditional `add`s is specified by a rule table. `Collect(rules, k)` is the set after the first `k` rules have been applied in order.
  - The long sequence of `if`s is split into consecutive methods, each covering a few questions. Each method states how far through the rule table the sets are afterwards.
- The builders of the preview, prompt and bullets are pure functions. Their lemmas state the exact line layout.
- The survey handlers are methods of `AppState.Survey`.
  - Each method performs the handler's setter calls in order.
  - Each method keeps `Valid()`.
  - Each method's `ensures` gives the new state as a transition function of the old state.
  - The properties are lemmas about those functions.

Three behaviours of the code that are easy to miss:

- Reminder bullets follow the order in which reminders were selected, not the declaration order of the options (`src/lib/privacyUtils.ts:121`, `src/App.tsx:611-613`).
- The preview prints the compliance list whenever it is non-empty, including a list that holds only "None". Only the prompt treats "None" as "none noted" (`src/lib/privacyUtils.ts:155-157`, `196-198`).
- A late response is not dropped: it is applied to whatever the state is when it arrives (`AppState.LateAnswerAfterReset`).

The one departure from the code is the title of the library preview (see "## Findings"). `PrivacyUtils.BuildAgentsMdPreviewAsWritten` builds the preview with the title literal as written. `PrivacyUtils.BuildAgentsMdPreview`, which the rest of the model uses, builds it with the intended title. The two differ only in their first line.

## Model

| member | source | states |
|---|---|---|
| Types.ValuesAreDistinct | src/types/privacy.ts:1-5 | distinct answers print as distinct strings, for every closed field |
| Options.RiskLabel | src/lib/options.ts:85-102 | every level has a non-empty title and blurb |
| Options.QuestionOrderCoversForm | src/lib/options.ts:104-117 | twelve keys, no duplicates, and every questionnaire field among them |
| Options.RiskLabelTitlesDistinct | src/lib/options.ts:85-102 | the four titles are pairwise different |
| Options.OptionListsDistinct | src/lib/options.ts:61-83 | five compliance options including "None"; every option list free of duplicates |
| Text.Trim | src/lib/privacyUtils.ts:90-91 | the result is a contiguous middle part of the input, with only whitespace cut from either end, and does not itself start or end with whitespace |
| Text.TrimEmptyIffWhitespace | src/lib/privacyUtils.ts:90 | a string trims to "" exactly when it is all whitespace, which is when the `if` on the trimmed examples is false |
| Text.TrimIdempotent | src/lib/privacyUtils.ts:90-91 | trimming twice is trimming once |
| Text.DropEmpty | src/App.tsx:661 | `filter(Boolean)` keeps exactly the non-empty strings |
| Text.Add | src/lib/privacyUtils.ts:53 | `Set.add` on an insertion-ordered set: the set is kept or grows by the new element at the end, always holds it afterwards, and stays free of duplicates |
| Text.CollectMembership | src/lib/privacyUtils.ts:49-99 | an entry is in the set exactly when one of the applied rules for it fired |
| Text.CollectNoDuplicates | src/lib/privacyUtils.ts:97-99 | `Array.from` of the set never holds an entry twice |
| Text.CollectFirst | src/lib/privacyUtils.ts:53 | when the first rule fires, its entry comes first |
| Text.CollectLast | src/lib/privacyUtils.ts:90-92 | when the last rule fires with an entry no earlier rule has, that entry comes last |
| Text.ToLower | src/App.tsx:656 | `toLowerCase` maps each character and keeps the length |
| PrivacyUtils.RawScore | src/lib/privacyUtils.ts:13-34 | the unclamped sum of weights and bonuses lies in [0, 12] |
| PrivacyUtils.Clamp | src/lib/privacyUtils.ts:36 | `Math.min(Math.max(x, lo), hi)` is within bounds, is the identity inside them, and is the bound outside them |
| PrivacyUtils.RiskScore | src/lib/privacyUtils.ts:12-37 | the score is in [1, 8] |
| PrivacyUtils.CalculateRiskScore | src/lib/privacyUtils.ts:12-37 | the step-by-step score is in [1, 8] and equals the clamped raw score |
| PrivacyUtils.ClampEndsReachable | src/lib/privacyUtils.ts:13-36 | some answers sum to 0 and score 1, and others sum to 12 and score 8 |
| PrivacyUtils.StorageBonusAtMostOne | src/lib/privacyUtils.ts:29-34 | storage adds exactly 1 when shared-drive or cloud-synced is present (also when both are) and 0 otherwise |
| PrivacyUtils.ComplianceBonus | src/lib/privacyUtils.ts:27 | a list holding only "None" adds nothing; any other entry adds exactly 1 |
| PrivacyUtils.DeriveRiskLevel | src/lib/privacyUtils.ts:39-44 | the four tiers partition the integers at 2, 4 and 6, in both directions |
| PrivacyUtils.DeriveRiskLevelMonotone | src/lib/privacyUtils.ts:39-44 | a higher score never gives a lower tier |
| PrivacyUtils.EveryLevelReachable | src/lib/privacyUtils.ts:39-44 | every tier is the tier of some score in [1, 8] |
| PrivacyUtils.DefaultFormIsGuarded | src/lib/options.ts:15-28 | empty multi-selects, balanced nudges, "source code"; the defaults score 4, guarded |
| PrivacyUtils.FixedGuardrailsAreNotFlagged | src/lib/privacyUtils.ts:57-91 | no fixed guardrail text starts like a flagged-assets entry |
| PrivacyUtils.AdviceTextsInjective | src/lib/privacyUtils.ts:53-91 | distinct advice gives distinct texts, in each of the three lists |
| PrivacyUtils.GuardrailTextsDiffer | src/lib/privacyUtils.ts:57-91 | two guardrails with the same text are the same guardrail |
| PrivacyUtils.AdviseOnProject | src/lib/privacyUtils.ts:49-69 | after the level, project-type and sensitivity questions, the focus areas are complete and the other two sets hold what their first rules add |
| PrivacyUtils.AdviseOnAssistant | src/lib/privacyUtils.ts:71-76 | the usage question adds the approval or the weekly-log guardrail, and the human-in-loop watchword |
| PrivacyUtils.AdviseOnHandling | src/lib/privacyUtils.ts:78-92 | the storage, visibility, compliance and flagged-assets questions complete the guardrails and watchwords |
| PrivacyUtils.CollectAdvice | src/lib/privacyUtils.ts:48-92 | the three sets equal the rule-table specification |
| PrivacyUtils.GenerateRecommendations | src/lib/privacyUtils.ts:48-102 | the returned lists are the specified sets read back in insertion order, next to the reminder bullets |
| PrivacyUtils.RecommendationsAreTextSets | src/lib/privacyUtils.ts:97-99 | each text is in its list exactly when its advice is in the set, and no list holds a text twice |
| PrivacyUtils.FocusAreasFollowAnswers | src/lib/privacyUtils.ts:53-67 | the first focus area is air-gapped reviews for a critical tier, scoped sharing otherwise; each focus area is present exactly when its condition holds |
| PrivacyUtils.AssistantGuardrailsExclusive | src/lib/privacyUtils.ts:71-76 | the approval guardrail iff autonomous, the weekly log iff paired, never both, and neither when sparingly |
| PrivacyUtils.FlaggedAssetsGuardrail | src/lib/privacyUtils.ts:90-92 | a flagged-assets entry exists exactly when the trimmed examples are non-empty, and it is the one carrying them |
| PrivacyUtils.FlaggedAssetsLast | src/lib/privacyUtils.ts:90-92 | the flagged-assets entry is the last guardrail |
| PrivacyUtils.FlaggedAssetsText | src/lib/privacyUtils.ts:91 | a guardrail text starts with "Flagged assets: " exactly for the flagged entry, which is that prefix plus the examples |
| PrivacyUtils.ComplianceWatchwords | src/lib/privacyUtils.ts:86-88 | each compliance watchword is present exactly when its regime is selected |
| PrivacyUtils.ProprietaryExampleScore | src/lib/privacyUtils.ts:12-44 | the proprietary, high-sensitivity, autonomous, cross-org example sums to 11, clamps to 8 and is critical |
| PrivacyUtils.ProprietaryExampleFocus | src/lib/privacyUtils.ts:53-67 | its focus areas are exactly air-gapped reviews and least-privilege prompts |
| PrivacyUtils.ProprietaryExampleGuardrails | src/lib/privacyUtils.ts:60-80 | its guardrails are exactly NDA isolation, redacted buffers, human approval and cloud sync, in that order |
| PrivacyUtils.ProprietaryExampleWatchwords | src/lib/privacyUtils.ts:62-88 | its watchwords are exactly NDA scope, redaction-first, human-in-loop and client code names |
| PrivacyUtils.CourseworkExampleScore | src/lib/privacyUtils.ts:12-44 | a solo, air-gapped, sparing, low-sensitivity coursework project sums to 0, clamps to 1 and is low |
| PrivacyUtils.CourseworkExampleAdvice | src/lib/privacyUtils.ts:48-92 | its advice is exactly scoped sharing and the integrity proof, the disclosure guardrail, and no watchword |
| PrivacyUtils.BaseBullets | src/lib/privacyUtils.ts:105-119 | two base bullets for light and balanced, three for intense, none empty |
| PrivacyUtils.BuildReminderBullets | src/lib/privacyUtils.ts:104-137 | no bullet is empty |
| PrivacyUtils.ReminderOptionsAllMapped | src/lib/privacyUtils.ts:121-134 | every reminder option has a distinct non-empty bullet; any other value maps to "" |
| PrivacyUtils.ReminderBulletsShape | src/lib/privacyUtils.ts:136 | the base bullets, then the mapped reminders in selection order without the empty ones; for valid options nothing is dropped and the length is the base length plus the number of reminders |
| PrivacyUtils.PreviewTitle | src/lib/privacyUtils.ts:148 | the intended title with a middle dot and no stray character |
| PrivacyUtils.PreviewTitleMojibake | src/lib/privacyUtils.ts:148 | the title as written holds an extra U+00C2 before the dot, one character longer than intended |
| PrivacyUtils.PreviewComplianceLine | src/lib/privacyUtils.ts:155-157 | the line starts with the compliance label; for a selection of the offered options it reads "none noted" exactly when nothing is selected, so a selected "None" is listed |
| PrivacyUtils.PreviewFlaggedLine | src/lib/privacyUtils.ts:158-160 | the line starts with the flagged-assets label; it is the placeholder line exactly when the trimmed examples are blank or are the placeholder text, and otherwise ends with the trimmed examples |
| PrivacyUtils.Header | src/lib/privacyUtils.ts:148-162 | the title first, the guardrails heading last, four lines around the snapshot |
| PrivacyUtils.AgentsMdPreview | src/lib/privacyUtils.ts:141-170 | the preview under any title starts with that title and ends with the posture footer on its own line |
| PrivacyUtils.BuildAgentsMdPreview | src/lib/privacyUtils.ts:141-170 | the preview with the intended title starts with that title and ends with the posture footer on its own line |
| PrivacyUtils.BuildAgentsMdPreviewAsWritten | src/lib/privacyUtils.ts:141-170 | the preview as written starts with the title literal as written |
| PrivacyUtils.PreviewTitleFirst | src/lib/privacyUtils.ts:147-148 | the title is the first line, and the text after it does not depend on the title |
| PrivacyUtils.PreviewAsWrittenDiffersInTitleOnly | src/lib/privacyUtils.ts:147-170 | the preview as written and as intended continue with the same text after their titles |
| PrivacyUtils.PreviewAsWrittenMojibake | src/lib/privacyUtils.ts:148 | the preview as written holds U+00C2 at index 15 and differs from the intended one for every input |
| PrivacyUtils.SectionsLayout | src/lib/privacyUtils.ts:147-169 | the exact positions of the header, the bulleted guardrails, a blank line, the bullets heading, the bulleted reminders, a blank line and the footer |
| PrivacyUtils.PreviewLayout | src/lib/privacyUtils.ts:147-169 | fifteen fixed lines plus one per guardrail and per bullet: the eleven header lines (title, snapshot, guardrails heading) first, then the guardrails, a blank line, the nudges heading, the bullets, a blank line and the posture line |
| PrivacyUtils.PromptContext | src/lib/privacyUtils.ts:184-202 | sixteen opening lines, starting with the request naming the project |
| PrivacyUtils.BuildAgentsMdPrompt | src/lib/privacyUtils.ts:174-232 | the prompt starts with the request, and ends with the draft heading, the preview verbatim, a blank line and the closing line |
| PrivacyUtils.PromptEnding | src/lib/privacyUtils.ts:228-230 | the preview is followed by exactly one blank line and the closing line |
| PrivacyUtils.PromptAnchorLines | src/lib/privacyUtils.ts:196-199 | compliance reads "none noted" for an empty list or one with "None", and for valid options only then; storage reads "none" for an empty list, and for valid options only then |
| App.QuestionOrderShape | src/App.tsx:97-109 | eleven distinct keys: the library's order without the nudge level, with every other key present |
| App.CalculateRiskScore | src/App.tsx:493-542 | the component's score is in [1, 8] and equals the library's score of the same answers |
| App.DefaultFormIsGuarded | src/App.tsx:26-38 | the component's defaults also score 4, guarded |
| App.Remove | src/App.tsx:204 | `filter((item) => item !== value)` removes every occurrence and keeps the count of every other value |
| App.RemoveAppend | src/App.tsx:204 | removing from a concatenation removes from each part |
| App.RemoveAbsent | src/App.tsx:204 | removing an absent value changes nothing |
| App.RemoveNoDuplicates | src/App.tsx:204 | removal keeps a list free of duplicates |
| App.Toggle | src/App.tsx:201-208 | the value ends up present exactly when it was absent; other values keep their counts; an absent value is appended at the end |
| App.ToggleKeepsNoDuplicates | src/App.tsx:201-208 | a list without duplicates stays without duplicates |
| App.ToggleTwice | src/App.tsx:204-205 | toggling an absent value twice restores the list; toggling a present one twice moves it to the end |
| App.ToggleField | src/App.tsx:201-208 | only the named multi-select field changes, and it is toggled; every other field is unchanged |
| App.FormatReminderLabel | src/App.tsx:680-693 | an unknown value is shown as itself |
| App.FormatStorageLabel | src/App.tsx:665-678 | an unknown value is shown as itself |
| App.ReminderLabelsDistinct | src/App.tsx:680-693 | a known reminder's label is neither its value nor the fallback bullet, and distinct reminders have distinct labels |
| App.StorageLabelsDistinct | src/App.tsx:665-678 | a known storage mode's label is not its value, and distinct modes have distinct labels |
| App.ReminderBullets | src/App.tsx:611-613 | one label per reminder, in selection order, or the fallback bullet alone; for a selection of reminder options the fallback shows exactly when nothing is selected |
| App.ReminderBulletsDetermineSelection | src/App.tsx:611-613 | for valid options, the bullets determine the selection, order included |
| App.FixedGuardrailStarts | src/App.tsx:560-594 | no fixed guardrail text of the component starts with "F" |
| App.GuardrailTextsDiffer | src/App.tsx:556-608 | two guardrails with the same text are the same guardrail |
| App.AdviseOnProject | src/App.tsx:552-572 | after the level, project-type and sensitivity questions, the focus areas are complete and the other sets hold what their first rules add |
| App.AdviseOnAssistant | src/App.tsx:574-579 | the usage question adds the approval or the weekly-log guardrail, and the human-in-loop watchword |
| App.AdviseOnSharing | src/App.tsx:581-595 | the storage, visibility and two reminder questions extend the guardrails |
| App.AdviseOnCompliance | src/App.tsx:597-609 | the compliance and flagged-assets questions complete the guardrails and watchwords |
| App.CollectAdvice | src/App.tsx:551-609 | the three sets equal the rule-table specification |
| App.GenerateRecommendations | src/App.tsx:551-621 | the returned lists are the specified sets read back, next to the labelled reminder bullets |
| App.ReminderGuardrails | src/App.tsx:589-595 | the redaction-sweep guardrail is present iff manual-redaction is selected, and the audit-parity guardrail iff session-audits is |
| App.DefaultFormReminderGuardrails | src/App.tsx:35-36 | the component's defaults ask for audit parity and not for a redaction sweep |
| App.RecommendationsAreTextSets | src/App.tsx:616-618 | each guardrail text is in the list exactly when its guardrail is in the set, and no list holds a text twice |
| App.BuildCursorMdPreview | src/App.tsx:623-648 | the preview starts with its title and ends with the posture footer on its own line |
| App.CursorMdLayout | src/App.tsx:629-646 | fifteen fixed lines plus one per guardrail and per bullet: the component's eleven header lines (title, snapshot, guardrails heading) first, then the guardrails, a blank line, the reminders heading, the bullets, a blank line and the posture line |
| App.FlaggedSentence | src/App.tsx:654 | the flagged-assets sentence is non-empty exactly when the trimmed examples are |
| App.ComplianceSentence | src/App.tsx:655 | the compliance sentence is non-empty exactly when the list is non-empty and has no "None" |
| App.CursorPromptShape | src/App.tsx:650-663 | the filter keeps the five fixed lines, drops each optional line exactly when it is empty, and drops the preview only when it is empty |
| App.BuildCursorPrompt | src/App.tsx:650-663 | the prompt starts with the request naming the project and ends with the draft request followed by the preview verbatim |
| App.ToneSentencesDistinct | src/App.tsx:656 | distinct tiers ask for distinct tones |
| AppState.ProjectName | src/App.tsx:181 | the printed name is never empty and is the trimmed entry when there is one |
| AppState.ProjectNameIsTrimmed | src/App.tsx:181 | the printed name has no surrounding whitespace |
| AppState.UntitledProjectIsTrimmed | src/App.tsx:181 | the fallback name is its own trim |
| AppState.CursorPromptFrames | src/App.tsx:183-195 | the memoised prompt opens with the project's name and ends with the memoised preview, which ends with the posture of the answers |
| AppState.NavigationStaysInRange | src/App.tsx:231-237 | next and previous stay in [0, totalQuestions]; next then previous, and previous then next, return to the step; the review stage is the only fixed point of next, step 0 the only one of previous |
| AppState.ForwardStopsAtReview | src/App.tsx:231-233 | n presses of next move n steps on or stop at the review stage |
| AppState.ResultScreenNeedsNoFileCheck | src/App.tsx:326-328 | in a consistent state the result screen is up exactly when started and shown, and a success has a file |
| AppState.InitialStateConsistent | src/App.tsx:170-177 | the initial state is consistent, not at the review stage and not on the result screen |
| AppState.EditingKeepsConsistent | src/App.tsx:201-237 | toggling and navigation keep the state consistent and change only the form or the step |
| AppState.ResetForgets | src/App.tsx:239-263 | a reset keeps nothing but, when asked to, `hasStarted`; it is idempotent; returning to the landing page restores the initial state; starting or restarting from any state gives the same started survey |
| AppState.EditFromResultReturnsToReview | src/App.tsx:265-271 | editing from the result returns to the review stage, status idle, no file, with the answers and `hasStarted` kept |
| AppState.ApiKey | src/App.tsx:276-277 | the key is one of the two variables or empty, and counts as missing exactly when the first defined variable is empty or neither is defined |
| AppState.GenerateBehaviour | src/App.tsx:273-285 | nothing while loading; a missing key gives an error with the fixed message and sends nothing; otherwise the request is sent, the button disabled and the result hidden; the form and step never change |
| AppState.SettleBehaviour | src/App.tsx:303-322 | success exactly for an answer whose trimmed content is non-empty, showing that content; otherwise an error with the message of the failure, everything else kept |
| AppState.AnsweredRequestShowsResult | src/App.tsx:273-317 | a started survey whose request is answered with content shows that content, trimmed, on the result screen |
| AppState.LateAnswerAfterReset | src/App.tsx:239-317 | an answer arriving after a reset still stores its file and reports success over the fresh answers; the file is shown after a restart within the flow, and stays hidden behind the landing page after a return to it |
| AppState.FailureMessagesDiffer | src/App.tsx:279-321 | the four failure messages are pairwise different |
| AppState.Survey.constructor | src/App.tsx:170-177 | the component starts in the initial state |
| AppState.Survey.ToggleArrayField | src/App.tsx:201-208 | the form's field is toggled and the state stays consistent |
| AppState.Survey.HandleNext | src/App.tsx:231-233 | the step moves on by one, up to the review stage |
| AppState.Survey.HandlePrevious | src/App.tsx:235-237 | the step moves back by one, down to the first question |
| AppState.Survey.ResetSurveyState | src/App.tsx:239-249 | default form, step 0, idle, no file, no error, nothing shown; `hasStarted` cleared only when not preserved |
| AppState.Survey.HandleStart | src/App.tsx:251-254 | a reset that then marks the survey started |
| AppState.Survey.HandleRestartWithinFlow | src/App.tsx:256-259 | the same as starting |
| AppState.Survey.HandleReturnToLanding | src/App.tsx:261-263 | a full reset to the initial state |
| AppState.Survey.HandleEditFromResult | src/App.tsx:265-271 | back to the review stage with the file discarded and the status idle |
| AppState.Survey.GenerateCursorMd | src/App.tsx:273-285 | the loading guard and the missing-key error; it returns the prompt to send exactly when it sends one |
| AppState.Survey.SettleGeneration | src/App.tsx:310-322 | the success or failure transition, keeping the state consistent |

## Left out

- The request to the language model is I/O and is not modelled: the `fetch`, its headers and body, and the JSON parsing of the reply (`src/App.tsx:287-308`). Its outcome enters the model as a `Response` value: the content of the first choice, the error message of a failed response, or the message of an exception.
- The API key comes from two build-time environment variables. They are parameters of `GenerateCursorMd`.
- AppState.Survey.GenerateCursorMd: the prompt it sends is a parameter, not recomputed from the form. The handler closes over the memoised `cursorPrompt` of its render, which is `AppState.CursorPrompt(form)`.
- Concurrency is not modelled. The `await` between sending the request and settling it is the boundary between `GenerateCursorMd` and `SettleGeneration`. Interleavings are whatever calls a client makes in between. No guard against late responses is modelled, because the source has none.
- `handleFieldChange` (`src/App.tsx:197-199`), a generic keyed update of one field, is not modelled. The only edits the model makes are toggles and resets.
- Clipboard copying and its feedback state (`handleCopy`, `copiedField`) are browser side effects and are not modelled.
- `progressPercent` uses floating-point division and `Math.round`, and is not modelled.
- Rendering is not modelled: the JSX, the step metadata, the option labels of the intake forms, `src/components/*` and `tailwind.config.ts`.
- `useMemo` caching is not modelled. The derived values are plain functions of the form.
- The component's `deriveRiskLevel` (`src/App.tsx:544-549`) is the same text as the library's, so the model uses `PrivacyUtils.DeriveRiskLevel` for both.
- The component's own copies of the option lists and of `riskLabels` (`src/App.tsx:71-93`) equal the library's, so the model uses the `Options` constants for both.
- The component's record has no nudge level. `App.AsLibraryForm` fills in the library default, which nothing in the component reads.
- Text.ToLower: only ASCII letters are lowered. The only strings lowered are the four ASCII tier titles.
- Text.Trim: JavaScript strings are UTF-16 code units. Dafny strings are sequences of Unicode scalar values, so text outside the Basic Multilingual Plane is one character here and two code units there; no result shown here depends on the difference.
- PrivacyUtils.BuildAgentsMdPreview: it prints the corrected title "# AGENTS brief · ", not the double-encoded "Â·" of `src/lib/privacyUtils.ts:148`. The preview as written is `PrivacyUtils.BuildAgentsMdPreviewAsWritten`.
- Long string constants are written as concatenations of shorter literals with the same text.

## Findings

| source | as written | input that shows it | evidently intended | confidence | as-written member | corrected member |
|---|---|---|---|---|---|---|
| src/lib/privacyUtils.ts:148 | the title literal holds "Â·" (U+00C2 U+00B7), a UTF-8 middle dot read as Latin-1; the component's copy (`src/App.tsx:630`) has a plain "·" | any project name, e.g. "" | "# AGENTS brief · " followed by the name | not executed | PrivacyUtils.PreviewTitleAsWritten, PrivacyUtils.PreviewTitleMojibake, PrivacyUtils.BuildAgentsMdPreviewAsWritten, PrivacyUtils.PreviewAsWrittenMojibake | PrivacyUtils.PreviewTitle, PrivacyUtils.BuildAgentsMdPreview |
