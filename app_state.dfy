/** The state the application component keeps between renders
    (src/App.tsx): the answers, the question being asked, whether the survey
    has started, and the generation of cursor.md by the language model. Each
    state setter of the component is a field of `Survey`; each handler is a
    method that makes the setter calls of the handler in order. The same
    steps are also written as functions on a `SurveyState` value, which the
    lemmas below are about. */
module AppState {
  import opened Types
  import opened Text
  import PU = PrivacyUtils
  import App

  datatype Option<T> = None | Some(value: T)

  // ======================================================= derived values

  const UntitledProject := "Untitled Project"

  /** `form.projectName.trim() || 'Untitled Project'`: the name the documents
      print, never empty and never padded with whitespace. */
  function ProjectName(form: App.LegacyForm): (name: string)
    ensures name != ""
    ensures Trim(form.projectName) != "" ==> name == Trim(form.projectName)
  {
    if Trim(form.projectName) != "" then Trim(form.projectName) else UntitledProject
  }

  /** The displayed name is already trimmed. */
  lemma ProjectNameIsTrimmed(form: App.LegacyForm)
    ensures Trim(ProjectName(form)) == ProjectName(form)
  {
    if Trim(form.projectName) != "" {
      TrimIdempotent(form.projectName);
    } else {
      UntitledProjectIsTrimmed();
    }
  }

  lemma UntitledProjectIsTrimmed()
    ensures Trim(UntitledProject) == UntitledProject
  {
    assert UntitledProject[0] == 'U' && UntitledProject[|UntitledProject| - 1] == 't';
    TrimUnpadded(UntitledProject);
  }

  /** The chain of memoised values: score, level, recommendations, preview,
      and the prompt that is sent to the model. */
  function RiskLevelOf(form: App.LegacyForm): RiskLevel {
    PU.DeriveRiskLevel(PU.RiskScore(App.AsLibraryForm(form)))
  }

  function CursorMdPreview(form: App.LegacyForm): string {
    var level := RiskLevelOf(form);
    App.BuildCursorMdPreview(ProjectName(form), form, level, App.Recommend(form, level))
  }

  function CursorPrompt(form: App.LegacyForm): string {
    App.BuildCursorPrompt(ProjectName(form), form, RiskLevelOf(form), CursorMdPreview(form))
  }

  /** The prompt opens with the project's name and ends with the whole
      preview, whose last line states the posture of the answers. */
  lemma CursorPromptFrames(form: App.LegacyForm)
    ensures IsPrefix(App.CursorOpening(ProjectName(form)), CursorPrompt(form))
    ensures IsSuffix(App.DraftSentence + "\n" + CursorMdPreview(form), CursorPrompt(form))
    ensures IsSuffix("\n" + PU.PostureLine(RiskLevelOf(form)), CursorMdPreview(form))
  {
    assert |CursorMdPreview(form)| > 0;
  }

  // ========================================================== navigation

  /** `Math.min(prev + 1, totalQuestions)`. */
  function NextStep(step: int): int {
    PU.Min(step + 1, App.TotalQuestions)
  }

  /** `Math.max(prev - 1, 0)`. */
  function PreviousStep(step: int): int {
    PU.Max(step - 1, 0)
  }

  /** Moving forward and back never leaves the range from the first
      question to the review stage; going forward from a question and back
      again returns to it, and so does going back and forward again. */
  lemma NavigationStaysInRange(step: int)
    requires 0 <= step <= App.TotalQuestions
    ensures 0 <= NextStep(step) <= App.TotalQuestions
    ensures 0 <= PreviousStep(step) <= App.TotalQuestions
    ensures step < App.TotalQuestions ==> PreviousStep(NextStep(step)) == step
    ensures 0 < step ==> NextStep(PreviousStep(step)) == step
    ensures NextStep(step) == step <==> step == App.TotalQuestions
    ensures PreviousStep(step) == step <==> step == 0
  {
  }

  /** Pressing "next" `n` times. */
  function Forward(n: nat, step: int): int
    decreases n
  {
    if n == 0 then step else Forward(n - 1, NextStep(step))
  }

  /** From any question, `n` presses of "next" move `n` questions on, or
      stop at the review stage; eleven presses reach it from the start. */
  lemma {:induction false} ForwardStopsAtReview(n: nat, step: int)
    requires 0 <= step <= App.TotalQuestions
    ensures Forward(n, step) == PU.Min(step + n, App.TotalQuestions)
    decreases n
  {
    if n > 0 {
      ForwardStopsAtReview(n - 1, NextStep(step));
    }
  }

  // =============================================================== state

  datatype SurveyState = SurveyState(
    form: App.LegacyForm,
    currentStep: int,
    hasStarted: bool,
    showResult: bool,
    generatedCursorMd: string,
    generationStatus: GenerationStatus,
    generationError: string)

  /** The initial values of the component's `useState` calls. */
  const InitialState := SurveyState(App.DefaultForm, 0, false, false, "", Idle, "")

  /** `isFinalStage`: past the last question. */
  predicate IsFinalStage(s: SurveyState) { s.currentStep >= App.TotalQuestions }

  /** `hasResultScreen`: the generated file is shown. */
  predicate HasResultScreen(s: SurveyState) {
    s.hasStarted && s.showResult && s.generatedCursorMd != ""
  }

  /** `isGenerateDisabled`. */
  predicate IsGenerateDisabled(s: SurveyState) { s.generationStatus == Loading }

  /** What the handlers keep true of the state: the step is within range; a
      result is shown only for a generated file, and a success always shows
      it; while a request is pending nothing is shown and no error is
      reported; and an idle state has neither a file nor an error. */
  predicate Consistent(s: SurveyState) {
    && 0 <= s.currentStep <= App.TotalQuestions
    && (s.showResult ==> s.generatedCursorMd != "")
    && (s.generationStatus == Success ==> s.showResult)
    && (s.generationStatus == Loading ==> !s.showResult && s.generationError == "")
    && (s.generationStatus == Idle ==> !s.showResult && s.generatedCursorMd == "" && s.generationError == "")
  }

  /** Once consistent, the result screen is up exactly when the survey has
      started and a result is to be shown, and a success has something on
      it. */
  lemma ResultScreenNeedsNoFileCheck(s: SurveyState)
    requires Consistent(s)
    ensures HasResultScreen(s) <==> s.hasStarted && s.showResult
    ensures s.generationStatus == Success ==> s.generatedCursorMd != ""
  {
  }

  lemma InitialStateConsistent()
    ensures Consistent(InitialState)
    ensures !IsFinalStage(InitialState) && !HasResultScreen(InitialState)
  {
  }

  // ========================================================== transitions

  /** `toggleArrayField(field, value)`. */
  function Toggled(s: SurveyState, field: MultiSelectField, value: string): SurveyState {
    s.(form := App.ToggleField(s.form, field, value))
  }

  function Next(s: SurveyState): SurveyState {
    s.(currentStep := NextStep(s.currentStep))
  }

  function Previous(s: SurveyState): SurveyState {
    s.(currentStep := PreviousStep(s.currentStep))
  }

  /** `resetSurveyState(preserveStart)`. */
  function Reset(s: SurveyState, preserveStart: bool): SurveyState {
    SurveyState(App.DefaultForm, 0, if preserveStart then s.hasStarted else false, false, "", Idle, "")
  }

  /** `handleStart` and `handleRestartWithinFlow`, which do the same. */
  function Start(s: SurveyState): SurveyState {
    Reset(s, true).(hasStarted := true)
  }

  function ReturnToLanding(s: SurveyState): SurveyState {
    Reset(s, false)
  }

  function EditFromResult(s: SurveyState): SurveyState {
    s.(showResult := false, generatedCursorMd := "", generationStatus := Idle,
       generationError := "", currentStep := App.TotalQuestions)
  }

  /** Toggling an answer and moving between questions change only what they
      name, and keep the state consistent. */
  lemma EditingKeepsConsistent(s: SurveyState, field: MultiSelectField, value: string)
    requires Consistent(s)
    ensures Consistent(Toggled(s, field, value)) && Consistent(Next(s)) && Consistent(Previous(s))
    ensures Toggled(s, field, value).(form := s.form) == s
    ensures Next(s).(currentStep := s.currentStep) == s
    ensures Previous(s).(currentStep := s.currentStep) == s
  {
    NavigationStaysInRange(s.currentStep);
  }

  /** A reset forgets everything but, when asked to, whether the survey has
      started: two states that agree on that reset to the same state, and
      resetting twice is resetting once. Returning to the landing page
      restores the very first state, and starting (or restarting) from any
      state gives the same fresh, started survey. */
  lemma ResetForgets(s: SurveyState, t: SurveyState, preserveStart: bool)
    ensures Consistent(Reset(s, preserveStart)) && Consistent(Start(s))
    ensures (!preserveStart || s.hasStarted == t.hasStarted) ==>
      Reset(s, preserveStart) == Reset(t, preserveStart)
    ensures Reset(Reset(s, preserveStart), preserveStart) == Reset(s, preserveStart)
    ensures ReturnToLanding(s) == InitialState
    ensures Start(s) == Start(t) == InitialState.(hasStarted := true)
  {
  }

  /** Editing from the result screen returns to the review stage with the
      answers kept and the generated file discarded. */
  lemma EditFromResultReturnsToReview(s: SurveyState)
    ensures Consistent(EditFromResult(s))
    ensures IsFinalStage(EditFromResult(s)) && !HasResultScreen(EditFromResult(s))
    ensures EditFromResult(s).form == s.form && EditFromResult(s).hasStarted == s.hasStarted
    ensures !IsGenerateDisabled(EditFromResult(s))
  {
  }

  // =========================================================== generation

  const MissingKeyMessage :=
    "Missing OpenAI API key. " + "Add VITE_OPENAI_API_KEY to your .env file and reload."
  const NoContentMessage := "OpenAI returned no content " + "for cursor.md."
  const RequestFailedMessage := "OpenAI request failed."
  const GenerationFailedMessage := "Failed to generate " + "cursor.md."

  /** `VITE_OPENAI_API_KEY ?? VITE_OPENAI_KEY ?? ''`: the first variable that
      is defined, even when it is defined as the empty string. The key is
      one of the two values or empty, and it counts as missing exactly when
      the first defined variable is empty or neither is defined: an empty
      `VITE_OPENAI_API_KEY` hides a set `VITE_OPENAI_KEY`. */
  function ApiKey(primary: Option<string>, fallback: Option<string>): (key: string)
    ensures key == "" || primary == Some(key) || fallback == Some(key)
    ensures key == "" <==>
      (primary == Some("") || (primary.None? && (fallback.None? || fallback == Some(""))))
  {
    match primary
    case Some(k) => k
    case None => if fallback.Some? then fallback.value else ""
  }

  /** The synchronous part of `generateCursorMd`: nothing while a request
      is pending, an error for a missing key, and otherwise the pending
      state in which the request is sent. */
  function Generate(s: SurveyState, apiKey: string): SurveyState {
    if s.generationStatus == Loading then s
    else if apiKey == "" then s.(generationStatus := Error, generationError := MissingKeyMessage)
    else s.(generationStatus := Loading, generationError := "", showResult := false)
  }

  /** Whether that call sends a request. */
  predicate Requests(s: SurveyState, apiKey: string) {
    s.generationStatus != Loading && apiKey != ""
  }

  /** How the request ended, as far as `generateCursorMd` looks at it: a
      successful response with the first choice's content (`None` when it is
      absent), a failed response with the message of its error body (`None`
      when there is none or the body does not parse), or an exception from
      the request or the parsing, with its message (`None` for a thrown value
      that is not an `Error`). */
  datatype Response =
    | Answered(content: Option<string>)
    | Refused(errorMessage: Option<string>)
    | Threw(message: Option<string>)

  /** The trimmed content of an answer, or "" when there is none. */
  function Content(content: Option<string>): string {
    if content.Some? then Trim(content.value) else ""
  }

  /** The message the `catch` block stores for a failure. */
  function FailureMessage(r: Response): string {
    match r
    case Answered(_) => NoContentMessage
    case Refused(m) => if m.Some? then m.value else RequestFailedMessage
    case Threw(m) => if m.Some? then m.value else GenerationFailedMessage
  }

  /** The asynchronous part of `generateCursorMd`, applied to whatever the
      state is when the request ends. */
  function Settle(s: SurveyState, r: Response): SurveyState {
    if r.Answered? && Content(r.content) != "" then
      s.(generatedCursorMd := Content(r.content), generationStatus := Success, showResult := true)
    else
      s.(generationStatus := Error, generationError := FailureMessage(r))
  }

  /** Asking for a file keeps the answers and the step and the state
      consistent; a second request while one is pending changes nothing;
      a missing key is reported without sending anything; and once a
      request is sent, the button is disabled and no result is shown. */
  lemma GenerateBehaviour(s: SurveyState, apiKey: string)
    requires Consistent(s)
    ensures Consistent(Generate(s, apiKey))
    ensures Generate(s, apiKey).form == s.form && Generate(s, apiKey).currentStep == s.currentStep
    ensures s.generationStatus == Loading ==> Generate(s, apiKey) == s
    ensures Requests(s, apiKey) <==> !IsGenerateDisabled(s) && IsGenerateDisabled(Generate(s, apiKey))
    ensures Requests(s, apiKey) ==> IsGenerateDisabled(Generate(s, apiKey)) && !HasResultScreen(Generate(s, apiKey))
    ensures s.generationStatus != Loading && apiKey == "" ==>
      Generate(s, apiKey).generationStatus == Error && Generate(s, apiKey).generationError == MissingKeyMessage
  {
  }

  /** The end of a request keeps the state consistent, whatever happened in
      between; it shows a result exactly when the model answered with
      content that is not blank, and that result is the trimmed content.
      Otherwise the error names what went wrong and the answers, the step
      and any file already shown are kept. */
  lemma SettleBehaviour(s: SurveyState, r: Response)
    requires Consistent(s)
    ensures Consistent(Settle(s, r))
    ensures Settle(s, r).generationStatus == Success <==> r.Answered? && Content(r.content) != ""
    ensures Settle(s, r).generationStatus == Success ==>
      Settle(s, r).showResult && Settle(s, r).generatedCursorMd == Content(r.content)
    ensures Settle(s, r).generationStatus != Success ==>
      Settle(s, r) == s.(generationStatus := Error, generationError := FailureMessage(r))
    ensures Settle(s, r).form == s.form && Settle(s, r).currentStep == s.currentStep
    ensures Settle(s, r).hasStarted == s.hasStarted
  {
  }

  /** A started survey whose request is answered with content is on the
      result screen, showing that content without surrounding whitespace. */
  lemma AnsweredRequestShowsResult(s: SurveyState, apiKey: string, content: string)
    requires Consistent(s) && s.hasStarted && Requests(s, apiKey)
    requires Trim(content) != ""
    ensures HasResultScreen(Settle(Generate(s, apiKey), Answered(Some(content))))
    ensures Trim(Settle(Generate(s, apiKey), Answered(Some(content))).generatedCursorMd)
      == Settle(Generate(s, apiKey), Answered(Some(content))).generatedCursorMd
  {
    TrimIdempotent(content);
  }

  /** Nothing ties a response to the flow that asked for it: an answer that
      arrives after the survey was reset still stores its file and reports
      success over the fresh answers. After a restart within the flow the
      file is shown; after a return to the landing page it stays hidden
      behind that page. */
  lemma LateAnswerAfterReset(s: SurveyState, preserveStart: bool, content: string)
    requires Trim(content) != ""
    ensures var t := Settle(Reset(s, preserveStart), Answered(Some(content)));
      && t.form == App.DefaultForm && t.currentStep == 0
      && t.generationStatus == Success && t.showResult
      && t.generatedCursorMd == Trim(content)
    ensures preserveStart && s.hasStarted ==>
      HasResultScreen(Settle(Reset(s, preserveStart), Answered(Some(content))))
    ensures !preserveStart ==> !HasResultScreen(Settle(Reset(s, preserveStart), Answered(Some(content))))
  {
    TrimEmptyIffWhitespace(content);
  }

  /** The messages a failure can leave are told apart: a blank answer and
      the two fallbacks each have their own. */
  lemma FailureMessagesDiffer()
    ensures NoContentMessage != RequestFailedMessage
    ensures NoContentMessage != GenerationFailedMessage
    ensures RequestFailedMessage != GenerationFailedMessage
    ensures MissingKeyMessage != NoContentMessage && MissingKeyMessage != RequestFailedMessage
    ensures MissingKeyMessage != GenerationFailedMessage
  {
    assert |NoContentMessage| == 41 && |RequestFailedMessage| == 22 && |GenerationFailedMessage| == 29;
    assert |MissingKeyMessage| == 77;
  }

  // =============================================================== object

  /** The component's state: one field per `useState` it keeps (the copy
      feedback of the clipboard button is not modelled). */
  class Survey {
    var form: App.LegacyForm
    var currentStep: int
    var hasStarted: bool
    var showResult: bool
    var generatedCursorMd: string
    var generationStatus: GenerationStatus
    var generationError: string

    function State(): SurveyState
      reads this
    {
      SurveyState(form, currentStep, hasStarted, showResult,
        generatedCursorMd, generationStatus, generationError)
    }

    ghost predicate Valid()
      reads this
    {
      Consistent(State())
    }

    constructor ()
      ensures State() == InitialState && Valid()
    {
      form := App.DefaultForm;
      currentStep := 0;
      hasStarted := false;
      showResult := false;
      generatedCursorMd := "";
      generationStatus := Idle;
      generationError := "";
    }

    /** `toggleArrayField`: remove the value when it is selected, append it
        otherwise. */
    method ToggleArrayField(field: MultiSelectField, value: string)
      requires Valid()
      modifies this
      ensures Valid()
      ensures State() == Toggled(old(State()), field, value)
    {
      var current := App.Selected(form, field);
      var next;
      if value in current {
        next := App.Remove(current, value);
      } else {
        next := current + [value];
      }
      form := App.WithSelected(form, field, next);
      EditingKeepsConsistent(old(State()), field, value);
    }

    method HandleNext()
      requires Valid()
      modifies this
      ensures Valid()
      ensures State() == Next(old(State()))
    {
      currentStep := PU.Min(currentStep + 1, App.TotalQuestions);
      NavigationStaysInRange(old(currentStep));
    }

    method HandlePrevious()
      requires Valid()
      modifies this
      ensures Valid()
      ensures State() == Previous(old(State()))
    {
      currentStep := PU.Max(currentStep - 1, 0);
      NavigationStaysInRange(old(currentStep));
    }

    method ResetSurveyState(preserveStart: bool)
      modifies this
      ensures Valid()
      ensures State() == Reset(old(State()), preserveStart)
    {
      form := App.DefaultForm;
      currentStep := 0;
      generatedCursorMd := "";
      generationStatus := Idle;
      generationError := "";
      showResult := false;
      if !preserveStart {
        hasStarted := false;
      }
    }

    method HandleStart()
      modifies this
      ensures Valid()
      ensures State() == Start(old(State()))
    {
      ResetSurveyState(true);
      hasStarted := true;
    }

    method HandleRestartWithinFlow()
      modifies this
      ensures Valid()
      ensures State() == Start(old(State()))
    {
      ResetSurveyState(true);
      hasStarted := true;
    }

    method HandleReturnToLanding()
      modifies this
      ensures Valid()
      ensures State() == ReturnToLanding(old(State()))
    {
      ResetSurveyState(false);
    }

    method HandleEditFromResult()
      modifies this
      ensures Valid()
      ensures State() == EditFromResult(old(State()))
    {
      showResult := false;
      generatedCursorMd := "";
      generationStatus := Idle;
      generationError := "";
      currentStep := App.TotalQuestions;
    }

    /** The synchronous part of `generateCursorMd`, given the two
        environment variables and the prompt of the render the handler
        belongs to (`CursorPrompt(form)`); it returns the prompt it sends,
        if any. */
    method GenerateCursorMd(primaryKey: Option<string>, fallbackKey: Option<string>, prompt: string)
      returns (request: Option<string>)
      requires Valid()
      modifies this
      ensures Valid()
      ensures State() == Generate(old(State()), ApiKey(primaryKey, fallbackKey))
      ensures request.Some? <==> Requests(old(State()), ApiKey(primaryKey, fallbackKey))
      ensures request.Some? ==> request.value == prompt
    {
      if generationStatus == Loading {
        return None;
      }
      var apiKey := ApiKey(primaryKey, fallbackKey);
      if apiKey == "" {
        generationStatus := Error;
        generationError := MissingKeyMessage;
        return None;
      }
      generationStatus := Loading;
      generationError := "";
      showResult := false;
      request := Some(prompt);
    }

    /** The end of the request started by `GenerateCursorMd`. */
    method SettleGeneration(response: Response)
      requires Valid()
      modifies this
      ensures Valid()
      ensures State() == Settle(old(State()), response)
    {
      ghost var next := Settle(State(), response);
      SettleBehaviour(State(), response);
      var content := if response.Answered? then Content(response.content) else "";
      if content != "" {
        generatedCursorMd := content;
        generationStatus := Success;
        showResult := true;
      } else {
        generationStatus := Error;
        generationError := FailureMessage(response);
      }
      assert State() == next;
    }
  }
}
