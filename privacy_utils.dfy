/** The scoring, recommendation and document-assembly pipeline of the
    library (src/lib/privacyUtils.ts): a questionnaire becomes a score in
    [1, 8], a risk level, three insertion-ordered sets of advice plus the
    session reminder bullets, a markdown preview, and the prompt that embeds
    the preview. */
module PrivacyUtils {
  import opened Types
  import opened Text
  import Options

  // ================================================================ scoring

  function SensitivityWeight(s: Sensitivity): int {
    match s
    case Low => 0
    case Medium => 1
    case High => 2
  }

  function ProjectWeight(p: ProjectType): int {
    match p
    case Coursework => 0
    case Personal => 0
    case Research => 1
    case Proprietary => 2
  }

  function AiWeight(a: AiUsage): int {
    match a
    case Sparingly => 0
    case Paired => 1
    case Autonomous => 2
  }

  function VisibilityWeight(v: RepoVisibility): int {
    match v
    case Public => 1
    case Private => 0
    case AirGapped => -1
  }

  function CollaborationWeight(c: Collaboration): int {
    match c
    case Solo => 0
    case SmallTeam => 1
    case CrossOrg => 2
  }

  /** `compliance.some((c) => c !== 'None')`. */
  predicate HasBindingCompliance(compliance: seq<string>) {
    exists c :: c in compliance && c != "None"
  }

  /** `storage.includes('shared-drive') || storage.includes('cloud-synced')`. */
  predicate HasSharedStorage(storage: seq<string>) {
    "shared-drive" in storage || "cloud-synced" in storage
  }

  /** The score before clamping: the base 1, the five weights, one point
      for a binding compliance regime and one for shared storage. It lies
      in [0, 12]. Both copies of the scorer use it. */
  function RawScore(
    sensitivity: Sensitivity, project: ProjectType, ai: AiUsage,
    visibility: RepoVisibility, collaboration: Collaboration,
    compliance: seq<string>, storage: seq<string>): (r: int)
    ensures 0 <= r <= 12
  {
    1 + SensitivityWeight(sensitivity) + ProjectWeight(project) + AiWeight(ai)
      + VisibilityWeight(visibility) + CollaborationWeight(collaboration)
      + (if HasBindingCompliance(compliance) then 1 else 0)
      + (if HasSharedStorage(storage) then 1 else 0)
  }

  function RawScoreOf(form: Form): int {
    RawScore(form.dataSensitivity, form.projectType, form.aiUsage,
      form.repoVisibility, form.collaboration, form.compliance, form.storage)
  }

  /** `Math.min(Math.max(x, lo), hi)`. */
  function Clamp(x: int, lo: int, hi: int): (r: int)
    requires lo <= hi
    ensures lo <= r <= hi
    ensures lo <= x <= hi ==> r == x
    ensures x < lo ==> r == lo
    ensures x > hi ==> r == hi
  {
    if x < lo then lo else if x > hi then hi else x
  }

  /** The risk score: the raw score truncated (not wrapped) into [1, 8]. */
  function RiskScore(form: Form): (r: int)
    ensures 1 <= r <= 8
  {
    Clamp(RawScoreOf(form), 1, 8)
  }

  /** `calculateRiskScore`: starts at 1 and adds each contribution in turn,
      then clamps. */
  method CalculateRiskScore(form: Form) returns (score: int)
    ensures 1 <= score <= 8
    ensures score == RiskScore(form)
  {
    score := 1;
    score := score + SensitivityWeight(form.dataSensitivity);
    score := score + ProjectWeight(form.projectType);
    score := score + AiWeight(form.aiUsage);
    score := score + VisibilityWeight(form.repoVisibility);
    score := score + CollaborationWeight(form.collaboration);
    if exists c :: c in form.compliance && c != "None" {
      score := score + 1;
    }
    if "shared-drive" in form.storage || "cloud-synced" in form.storage {
      score := score + 1;
    }
    score := Min(Max(score, 1), 8);
  }

  function Max(a: int, b: int): int { if a < b then b else a }
  function Min(a: int, b: int): int { if a < b then a else b }

  /** Both ends of the clamp are reached: an air-gapped, minimal
      questionnaire sums to 0 and scores 1; a maximal one sums to 12 and
      scores 8. */
  lemma ClampEndsReachable()
    ensures exists f: Form :: RawScoreOf(f) == 0 && RiskScore(f) == 1
    ensures exists f: Form :: RawScoreOf(f) == 12 && RiskScore(f) == 8
  {
    var low := Options.DefaultForm.(dataSensitivity := Low, aiUsage := Sparingly,
      repoVisibility := AirGapped, collaboration := Solo);
    assert !HasBindingCompliance(low.compliance);
    assert RawScoreOf(low) == 0;
    var high := Options.DefaultForm.(dataSensitivity := High, projectType := Proprietary,
      aiUsage := Autonomous, repoVisibility := Public, collaboration := CrossOrg,
      compliance := ["HIPAA"], storage := ["cloud-synced"]);
    assert "HIPAA" in high.compliance;
    assert RawScoreOf(high) == 12;
  }

  /** Shared storage adds at most one point, even when both "shared-drive"
      and "cloud-synced" are selected, and only those two values add it. */
  lemma StorageBonusAtMostOne(form: Form)
    ensures RawScoreOf(form) - RawScoreOf(form.(storage := [])) ==
      (if "shared-drive" in form.storage || "cloud-synced" in form.storage then 1 else 0)
  {
  }

  /** A compliance list holding only "None" adds nothing; one entry other
      than "None" adds exactly one point, however many there are. */
  lemma ComplianceBonus(form: Form)
    ensures (forall i :: 0 <= i < |form.compliance| ==> form.compliance[i] == "None") ==>
      RawScoreOf(form) == RawScoreOf(form.(compliance := []))
    ensures (exists i :: 0 <= i < |form.compliance| && form.compliance[i] != "None") ==>
      RawScoreOf(form) == RawScoreOf(form.(compliance := [])) + 1
  {
    if exists i :: 0 <= i < |form.compliance| && form.compliance[i] != "None" {
      var i :| 0 <= i < |form.compliance| && form.compliance[i] != "None";
      assert form.compliance[i] in form.compliance;
    }
  }

  // ================================================================ levels

  /** `deriveRiskLevel`: bands (-inf, 2], (2, 4], (4, 6], (6, +inf). */
  function DeriveRiskLevel(score: int): (level: RiskLevel)
    ensures level == LowRisk <==> score <= 2
    ensures level == Guarded <==> 2 < score <= 4
    ensures level == Elevated <==> 4 < score <= 6
    ensures level == Critical <==> 6 < score
  {
    if score <= 2 then LowRisk
    else if score <= 4 then Guarded
    else if score <= 6 then Elevated
    else Critical
  }

  function Rank(level: RiskLevel): nat {
    match level
    case LowRisk => 0
    case Guarded => 1
    case Elevated => 2
    case Critical => 3
  }

  /** A higher score never gives a lower level. */
  lemma DeriveRiskLevelMonotone(a: int, b: int)
    requires a <= b
    ensures Rank(DeriveRiskLevel(a)) <= Rank(DeriveRiskLevel(b))
  {
  }

  /** Every level is the level of some score in [1, 8]. */
  lemma EveryLevelReachable(level: RiskLevel)
    ensures exists s :: 1 <= s <= 8 && DeriveRiskLevel(s) == level
  {
    match level
    case LowRisk => assert DeriveRiskLevel(1) == level;
    case Guarded => assert DeriveRiskLevel(3) == level;
    case Elevated => assert DeriveRiskLevel(5) == level;
    case Critical => assert DeriveRiskLevel(7) == level;
  }

  /** The starting questionnaire scores 1 + 1 + 0 + 1 + 0 + 1 = 4, a
      guarded posture. */
  lemma DefaultFormIsGuarded()
    ensures Options.DefaultForm.compliance == [] && Options.DefaultForm.storage == []
    ensures Options.DefaultForm.reminders == [] && Options.DefaultForm.nudgeLevel == Balanced
    ensures Options.DefaultForm.highestRiskArea == "source code"
    ensures RiskScore(Options.DefaultForm) == 4
    ensures DeriveRiskLevel(RiskScore(Options.DefaultForm)) == Guarded
  {
    assert !HasBindingCompliance(Options.DefaultForm.compliance);
  }

  // ======================================================= recommendations

  /** The advice `generateRecommendations` can give. Each value stands for
      the fixed message it prints (see the `*Text` functions); the
      flagged-assets guardrail carries the trimmed `dataExamples`. The
      messages are pairwise distinct (`AdviceTextsInjective`), so a set of
      messages and the set of their texts hold the same entries. */
  datatype FocusArea = AirGappedReviews | ScopedSharing | AcademicIntegrityProof | LeastPrivilegePrompts

  datatype Guardrail =
    | CourseworkDisclosure | NdaIsolation | RedactedBuffers | HumanDiffApproval
    | WeeklySuggestionLog | CloudSyncedAsShared | MinimizedSnippets
    | FlaggedAssets(assets: string)

  datatype Watchword = NdaScope | RedactionFirst | HumanInLoop | StudentPrivacy | PhiHandling | ClientCodeNames

  const AirGappedReviewsText := "Air-gapped reviews"
  const ScopedSharingText := "Scoped sharing"
  const AcademicIntegrityProofText := "Academic integrity proof"
  const LeastPrivilegePromptsText := "Least privilege prompts"

  // The long messages are written in two parts so that the verifier can
  // read their first letters.
  const CourseworkDisclosureText :=
    "Document which " + "code was AI-assisted to comply with coursework policies."
  const NdaIsolationText :=
    "Keep NDA " + "modules out of default assistant context; rely on sanitized stubs."
  const RedactedBuffersText :=
    "Route assistant " + "edits through redacted buffers before committing."
  const HumanDiffApprovalText :=
    "Require human " + "diff approvals before merging assistant-authored commits."
  const WeeklySuggestionLogText :=
    "Log notable " + "assistant suggestions and compare against privacy expectations weekly."
  const CloudSyncedAsSharedText :=
    "Treat cloud-synced " + "folders as shared; move sensitive edits to encrypted local storage."
  const MinimizedSnippetsText :=
    "Use minimized " + "snippets instead of raw unreleased files when prompting."
  const FlaggedAssetsPrefix := "Flagged assets: "

  const NdaScopeText := "NDA scope"
  const RedactionFirstText := "Redaction-first"
  const HumanInLoopText := "Human-in-loop"
  const StudentPrivacyText := "Student privacy"
  const PhiHandlingText := "PHI handling"
  const ClientCodeNamesText := "Client code names"

  function FocusText(f: FocusArea): string {
    match f
    case AirGappedReviews => AirGappedReviewsText
    case ScopedSharing => ScopedSharingText
    case AcademicIntegrityProof => AcademicIntegrityProofText
    case LeastPrivilegePrompts => LeastPrivilegePromptsText
  }

  function GuardrailText(g: Guardrail): string {
    match g
    case CourseworkDisclosure => CourseworkDisclosureText
    case NdaIsolation => NdaIsolationText
    case RedactedBuffers => RedactedBuffersText
    case HumanDiffApproval => HumanDiffApprovalText
    case WeeklySuggestionLog => WeeklySuggestionLogText
    case CloudSyncedAsShared => CloudSyncedAsSharedText
    case MinimizedSnippets => MinimizedSnippetsText
    case FlaggedAssets(assets) => FlaggedAssetsPrefix + assets
  }

  function WatchwordText(w: Watchword): string {
    match w
    case NdaScope => NdaScopeText
    case RedactionFirst => RedactionFirstText
    case HumanInLoop => HumanInLoopText
    case StudentPrivacy => StudentPrivacyText
    case PhiHandling => PhiHandlingText
    case ClientCodeNames => ClientCodeNamesText
  }

  /** No fixed guardrail begins like the flagged-assets guardrail: their
      first letters are D, K, R, R, L, T and U, against F. */
  lemma FixedGuardrailsAreNotFlagged(g: Guardrail)
    requires !g.FlaggedAssets?
    ensures |GuardrailText(g)| > 0 && GuardrailText(g)[0] != 'F'
    ensures !IsPrefix(FlaggedAssetsPrefix, GuardrailText(g))
  {
    assert FlaggedAssetsPrefix[0] == 'F';
    match g
    case CourseworkDisclosure => assert CourseworkDisclosureText[0] == 'D';
    case NdaIsolation => assert NdaIsolationText[0] == 'K';
    case RedactedBuffers => assert RedactedBuffersText[0] == 'R';
    case HumanDiffApproval => assert HumanDiffApprovalText[0] == 'R';
    case WeeklySuggestionLog => assert WeeklySuggestionLogText[0] == 'L';
    case CloudSyncedAsShared => assert CloudSyncedAsSharedText[0] == 'T';
    case MinimizedSnippets => assert MinimizedSnippetsText[0] == 'U';
  }

  /** Distinct advice prints as distinct text. */
  lemma AdviceTextsInjective()
    ensures Injective(FocusText)
    ensures Injective(GuardrailText)
    ensures Injective(WatchwordText)
  {
    forall a: FocusArea, b: FocusArea | FocusText(a) == FocusText(b) ensures a == b {
      assert FocusText(a)[0] == FocusText(b)[0];
      assert FocusText(a)[1] == FocusText(b)[1];
    }
    forall a: Guardrail, b: Guardrail | GuardrailText(a) == GuardrailText(b) ensures a == b {
      GuardrailTextsDiffer(a, b);
    }
    forall a: Watchword, b: Watchword | WatchwordText(a) == WatchwordText(b) ensures a == b {
      assert WatchwordText(a)[0] == WatchwordText(b)[0];
      assert WatchwordText(a)[1] == WatchwordText(b)[1];
    }
  }

  lemma GuardrailTextsDiffer(a: Guardrail, b: Guardrail)
    requires GuardrailText(a) == GuardrailText(b)
    ensures a == b
  {
    if a.FlaggedAssets? && b.FlaggedAssets? {
      assert GuardrailText(a)[|FlaggedAssetsPrefix|..] == a.assets;
      assert GuardrailText(b)[|FlaggedAssetsPrefix|..] == b.assets;
    } else if a.FlaggedAssets? {
      assert GuardrailText(a)[0] == 'F';
      FixedGuardrailsAreNotFlagged(b);
    } else if b.FlaggedAssets? {
      assert GuardrailText(b)[0] == 'F';
      FixedGuardrailsAreNotFlagged(a);
    } else {
      assert GuardrailText(a)[0] == GuardrailText(b)[0];
      assert GuardrailText(a)[1] == GuardrailText(b)[1];
    }
  }

  /** The conditional `add`s of `generateRecommendations`, one table per
      set, in the order the source makes them. The first focus area is
      added unconditionally. */
  function FocusRules(form: Form, level: RiskLevel): seq<Rule<FocusArea>> {
    [ Rule(true, if level == Critical then AirGappedReviews else ScopedSharing),
      Rule(form.projectType == Coursework, AcademicIntegrityProof),
      Rule(form.dataSensitivity == High, LeastPrivilegePrompts) ]
  }

  /** The `else if` of the assistant-usage question needs no condition of
      its own: usage is autonomous or paired, never both. The flagged-assets
      guardrail carries the trimmed examples. */
  function GuardrailRules(form: Form): seq<Rule<Guardrail>> {
    GuardrailTable(form, Trim(form.dataExamples))
  }

  /** The guardrail rules for the given trimmed examples. */
  function GuardrailTable(form: Form, flagged: string): seq<Rule<Guardrail>> {
    [ Rule(form.projectType == Coursework, CourseworkDisclosure),
      Rule(form.projectType == Proprietary, NdaIsolation),
      Rule(form.dataSensitivity == High, RedactedBuffers),
      Rule(form.aiUsage == Autonomous, HumanDiffApproval),
      Rule(form.aiUsage == Paired, WeeklySuggestionLog),
      Rule("cloud-synced" in form.storage, CloudSyncedAsShared),
      Rule(form.repoVisibility == Public, MinimizedSnippets),
      Rule(flagged != "", FlaggedAssets(flagged)) ]
  }

  function WatchwordRules(form: Form): seq<Rule<Watchword>> {
    [ Rule(form.projectType == Proprietary, NdaScope),
      Rule(form.dataSensitivity == High, RedactionFirst),
      Rule(form.aiUsage == Autonomous, HumanInLoop),
      Rule("FERPA" in form.compliance, StudentPrivacy),
      Rule("HIPAA" in form.compliance, PhiHandling),
      Rule("Corporate NDA" in form.compliance, ClientCodeNames) ]
  }

  function FocusSet(form: Form, level: RiskLevel): seq<FocusArea> {
    Collect(FocusRules(form, level), 3)
  }

  function GuardrailSet(form: Form): seq<Guardrail> {
    Collect(GuardrailRules(form), 8)
  }

  function WatchwordSet(form: Form): seq<Watchword> {
    Collect(WatchwordRules(form), 6)
  }

  /** The three sets of advice, each in insertion order. */
  datatype Advice = Advice(focusAreas: seq<FocusArea>, guardrails: seq<Guardrail>, watchwords: seq<Watchword>)

  function Advise(form: Form, level: RiskLevel): Advice {
    Advice(FocusSet(form, level), GuardrailSet(form), WatchwordSet(form))
  }

  /** The advice printed, next to the reminder bullets. */
  function Render(advice: Advice, bullets: seq<string>): Recommendations {
    Recommendations(Map(FocusText, advice.focusAreas), Map(GuardrailText, advice.guardrails),
      Map(WatchwordText, advice.watchwords), bullets)
  }

  /** What `generateRecommendations` returns: the three sets read back
      with `Array.from`, and the reminder bullets. */
  function Recommend(form: Form, level: RiskLevel): Recommendations {
    Render(Advise(form, level), BuildReminderBullets(form.nudgeLevel, form.reminders))
  }

  /** The start of `generateRecommendations`: the first focus area and
      the questions on project type and sensitivity. After each question
      the sets hold what the rules applied so far add; the focus areas are
      then complete. */
  method AdviseOnProject(form: Form, level: RiskLevel) returns (advice: Advice)
    ensures advice.focusAreas == FocusSet(form, level)
    ensures advice.guardrails == Collect(GuardrailRules(form), 3)
    ensures advice.watchwords == Collect(WatchwordRules(form), 2)
  {
    ghost var fr, gr, wr := FocusRules(form, level), GuardrailRules(form), WatchwordRules(form);
    var focusAreas: seq<FocusArea> := [];
    var guardrails: seq<Guardrail> := [];
    var watchwords: seq<Watchword> := [];

    focusAreas := Add(focusAreas, if level == Critical then AirGappedReviews else ScopedSharing);
    assert focusAreas == Collect(fr, 1);

    if form.projectType == Coursework {
      focusAreas := Add(focusAreas, AcademicIntegrityProof);
      guardrails := Add(guardrails, CourseworkDisclosure);
    }
    assert focusAreas == Collect(fr, 2) && guardrails == Collect(gr, 1);

    if form.projectType == Proprietary {
      guardrails := Add(guardrails, NdaIsolation);
      watchwords := Add(watchwords, NdaScope);
    }
    assert guardrails == Collect(gr, 2) && watchwords == Collect(wr, 1);

    if form.dataSensitivity == High {
      guardrails := Add(guardrails, RedactedBuffers);
      focusAreas := Add(focusAreas, LeastPrivilegePrompts);
      watchwords := Add(watchwords, RedactionFirst);
    }
    advice := Advice(focusAreas, guardrails, watchwords);
  }

  /** The assistant-usage question: autonomous use or, failing that,
      paired use. */
  method AdviseOnAssistant(form: Form, sofar: Advice) returns (advice: Advice)
    requires sofar.guardrails == Collect(GuardrailRules(form), 3)
    requires sofar.watchwords == Collect(WatchwordRules(form), 2)
    ensures advice == sofar.(guardrails := Collect(GuardrailRules(form), 5),
      watchwords := Collect(WatchwordRules(form), 3))
  {
    ghost var gr := GuardrailRules(form);
    var guardrails := sofar.guardrails;
    var watchwords := sofar.watchwords;
    assert Collect(gr, 4) == AddIf(guardrails, form.aiUsage == Autonomous, HumanDiffApproval);

    if form.aiUsage == Autonomous {
      guardrails := Add(guardrails, HumanDiffApproval);
      watchwords := Add(watchwords, HumanInLoop);
    } else if form.aiUsage == Paired {
      guardrails := Add(guardrails, WeeklySuggestionLog);
    }
    advice := sofar.(guardrails := guardrails, watchwords := watchwords);
  }

  /** The second half of `generateRecommendations`: the questions on
      storage, visibility, compliance and data examples, applied to the
      sets the first half filled. */
  method AdviseOnHandling(form: Form, sofar: Advice) returns (advice: Advice)
    requires sofar.guardrails == Collect(GuardrailRules(form), 5)
    requires sofar.watchwords == Collect(WatchwordRules(form), 3)
    ensures advice == sofar.(guardrails := GuardrailSet(form), watchwords := WatchwordSet(form))
  {
    ghost var gr, wr := GuardrailRules(form), WatchwordRules(form);
    var guardrails := sofar.guardrails;
    var watchwords := sofar.watchwords;

    if "cloud-synced" in form.storage {
      guardrails := Add(guardrails, CloudSyncedAsShared);
    }
    assert guardrails == Collect(gr, 6);

    if form.repoVisibility == Public {
      guardrails := Add(guardrails, MinimizedSnippets);
    }
    assert guardrails == Collect(gr, 7);

    if "FERPA" in form.compliance {
      watchwords := Add(watchwords, StudentPrivacy);
    }
    assert watchwords == Collect(wr, 4);

    if "HIPAA" in form.compliance {
      watchwords := Add(watchwords, PhiHandling);
    }
    assert watchwords == Collect(wr, 5);

    if "Corporate NDA" in form.compliance {
      watchwords := Add(watchwords, ClientCodeNames);
    }

    var flagged := Trim(form.dataExamples);
    if flagged != "" {
      guardrails := Add(guardrails, FlaggedAssets(flagged));
    }
    advice := sofar.(guardrails := guardrails, watchwords := watchwords);
  }

  /** The body of `generateRecommendations` up to its `return`: fills
      three insertion-ordered sets one `add` at a time, in the order of the
      source. */
  method CollectAdvice(form: Form, level: RiskLevel) returns (advice: Advice)
    ensures advice == Advise(form, level)
  {
    advice := AdviseOnProject(form, level);
    advice := AdviseOnAssistant(form, advice);
    advice := AdviseOnHandling(form, advice);
  }

  /** `generateRecommendations`: the filled sets read back with
      `Array.from`, and the reminder bullets. */
  method GenerateRecommendations(form: Form, level: RiskLevel) returns (recs: Recommendations)
    ensures recs == Recommend(form, level)
  {
    var advice := CollectAdvice(form, level);
    var reminderBullets := BuildReminderBullets(form.nudgeLevel, form.reminders);
    recs := Render(advice, reminderBullets);
  }

  /** The printed lists are the sets of strings the source fills: each text
      is in a list exactly when its advice is, and no text occurs twice. */
  lemma RecommendationsAreTextSets(form: Form, level: RiskLevel)
    ensures forall f :: FocusText(f) in Recommend(form, level).focusAreas <==> f in FocusSet(form, level)
    ensures forall g :: GuardrailText(g) in Recommend(form, level).guardrails <==> g in GuardrailSet(form)
    ensures forall w :: WatchwordText(w) in Recommend(form, level).watchwords <==> w in WatchwordSet(form)
    ensures NoDuplicates(Recommend(form, level).focusAreas)
    ensures NoDuplicates(Recommend(form, level).guardrails)
    ensures NoDuplicates(Recommend(form, level).watchwords)
  {
    var a := Advise(form, level);
    AdviceTextsInjective();
    CollectNoDuplicates(FocusRules(form, level), 3);
    CollectNoDuplicates(GuardrailRules(form), 8);
    CollectNoDuplicates(WatchwordRules(form), 6);
    MapNoDuplicates(FocusText, a.focusAreas);
    MapNoDuplicates(GuardrailText, a.guardrails);
    MapNoDuplicates(WatchwordText, a.watchwords);
    forall f ensures FocusText(f) in Recommend(form, level).focusAreas <==> f in a.focusAreas {
      MapMembership(FocusText, a.focusAreas, f);
    }
    forall g ensures GuardrailText(g) in Recommend(form, level).guardrails <==> g in a.guardrails {
      MapMembership(GuardrailText, a.guardrails, g);
    }
    forall w ensures WatchwordText(w) in Recommend(form, level).watchwords <==> w in a.watchwords {
      MapMembership(WatchwordText, a.watchwords, w);
    }
  }

  /** The first focus area tells whether the level is critical; the
      coursework and high-sensitivity focus areas appear exactly for those
      answers. */
  lemma FocusAreasFollowAnswers(form: Form, level: RiskLevel)
    ensures |FocusSet(form, level)| > 0
    ensures FocusSet(form, level)[0] == (if level == Critical then AirGappedReviews else ScopedSharing)
    ensures AirGappedReviews in FocusSet(form, level) <==> level == Critical
    ensures ScopedSharing in FocusSet(form, level) <==> level != Critical
    ensures AcademicIntegrityProof in FocusSet(form, level) <==> form.projectType == Coursework
    ensures LeastPrivilegePrompts in FocusSet(form, level) <==> form.dataSensitivity == High
  {
    var rules := FocusRules(form, level);
    CollectFirst(rules, 3);
    CollectHolds(rules, AirGappedReviews);
    CollectHolds(rules, ScopedSharing);
    CollectHolds(rules, AcademicIntegrityProof);
    CollectHolds(rules, LeastPrivilegePrompts);
  }

  /** Autonomous use yields the human-approval guardrail, paired use the
      weekly-log guardrail, never both; sparing use yields neither. */
  lemma AssistantGuardrailsExclusive(form: Form)
    ensures HumanDiffApproval in GuardrailSet(form) <==> form.aiUsage == Autonomous
    ensures WeeklySuggestionLog in GuardrailSet(form) <==> form.aiUsage == Paired
    ensures !(HumanDiffApproval in GuardrailSet(form) && WeeklySuggestionLog in GuardrailSet(form))
  {
    AssistantRules(form, Trim(form.dataExamples));
  }

  /** The same, for the guardrail rules of any trimmed examples. */
  lemma AssistantRules(form: Form, flagged: string)
    ensures HumanDiffApproval in Collect(GuardrailTable(form, flagged), 8) <==> form.aiUsage == Autonomous
    ensures WeeklySuggestionLog in Collect(GuardrailTable(form, flagged), 8) <==> form.aiUsage == Paired
  {
    var rules := GuardrailTable(form, flagged);
    CollectHolds(rules, HumanDiffApproval);
    CollectHolds(rules, WeeklySuggestionLog);
  }

  /** A non-blank `dataExamples` yields exactly one flagged-assets
      guardrail, carrying the trimmed text; a blank one yields none. */
  lemma FlaggedAssetsGuardrail(form: Form)
    ensures forall g :: (g in GuardrailSet(form) && g.FlaggedAssets?
      <==> Trim(form.dataExamples) != "" && g == FlaggedAssets(Trim(form.dataExamples)))
  {
    FlaggedRule(form, Trim(form.dataExamples));
  }

  /** The same, for the guardrail rules of any trimmed examples. */
  lemma FlaggedRule(form: Form, flagged: string)
    ensures forall g :: (g in Collect(GuardrailTable(form, flagged), 8) && g.FlaggedAssets?
      <==> flagged != "" && g == FlaggedAssets(flagged))
  {
    var rules := GuardrailTable(form, flagged);
    forall g: Guardrail ensures g in Collect(rules, 8) && g.FlaggedAssets? <==> flagged != "" && g == FlaggedAssets(flagged) {
      CollectHolds(rules, g);
    }
  }

  /** The flagged-assets guardrail is added last. */
  lemma FlaggedAssetsLast(form: Form)
    requires Trim(form.dataExamples) != ""
    ensures |GuardrailSet(form)| > 0
    ensures GuardrailSet(form)[|GuardrailSet(form)| - 1] == FlaggedAssets(Trim(form.dataExamples))
  {
    var flagged := Trim(form.dataExamples);
    assert GuardrailRules(form) == GuardrailTable(form, flagged);
    FlaggedRuleLast(form, flagged);
  }

  /** The same, for the guardrail rules of any non-empty trimmed examples. */
  lemma FlaggedRuleLast(form: Form, flagged: string)
    requires flagged != ""
    ensures |Collect(GuardrailTable(form, flagged), 8)| > 0
    ensures Collect(GuardrailTable(form, flagged), 8)[|Collect(GuardrailTable(form, flagged), 8)| - 1]
      == FlaggedAssets(flagged)
  {
    var rules := GuardrailTable(form, flagged);
    assert forall i :: 0 <= i < |rules| - 1 ==> !rules[i].entry.FlaggedAssets?;
    CollectLast(rules, FlaggedAssets(flagged));
  }

  /** Printed, the flagged-assets guardrail is the only one that starts
      with "Flagged assets: ", followed by the assets. */
  lemma FlaggedAssetsText(g: Guardrail)
    ensures IsPrefix(FlaggedAssetsPrefix, GuardrailText(g)) <==> g.FlaggedAssets?
    ensures g.FlaggedAssets? ==> GuardrailText(g) == FlaggedAssetsPrefix + g.assets
  {
    if !g.FlaggedAssets? {
      FixedGuardrailsAreNotFlagged(g);
    }
  }

  /** The compliance watchwords echo exactly the regimes selected. */
  lemma ComplianceWatchwords(form: Form)
    ensures StudentPrivacy in WatchwordSet(form) <==> "FERPA" in form.compliance
    ensures PhiHandling in WatchwordSet(form) <==> "HIPAA" in form.compliance
    ensures ClientCodeNames in WatchwordSet(form) <==> "Corporate NDA" in form.compliance
  {
    var rules := WatchwordRules(form);
    CollectHolds(rules, StudentPrivacy);
    CollectHolds(rules, PhiHandling);
    CollectHolds(rules, ClientCodeNames);
  }

  /** The proprietary high-sensitivity example form. */
  const ProprietaryForm := Options.DefaultForm.(projectType := Proprietary, dataSensitivity := High,
    aiUsage := Autonomous, repoVisibility := Private, collaboration := CrossOrg,
    compliance := ["Corporate NDA"], storage := ["cloud-synced"])

  /** Its raw score 11 saturates at 8, and the level is critical; it has
      the answers the advice examples below start from. */
  lemma ProprietaryExampleScore()
    ensures RawScoreOf(ProprietaryForm) == 11 && RiskScore(ProprietaryForm) == 8
    ensures DeriveRiskLevel(RiskScore(ProprietaryForm)) == Critical
    ensures ProprietaryAnswers(ProprietaryForm)
  {
    assert "Corporate NDA" in ProprietaryForm.compliance;
    assert HasBindingCompliance(ProprietaryForm.compliance);
  }

  /** A form with the example's answers that matter to the advice: the
      project type, sensitivity, assistant usage, visibility, storage,
      compliance and blank data examples. */
  predicate ProprietaryAnswers(f: Form) {
    && f.projectType == Proprietary && f.dataSensitivity == High && f.aiUsage == Autonomous
    && f.repoVisibility == Private && f.storage == ["cloud-synced"]
    && f.compliance == ["Corporate NDA"] && Trim(f.dataExamples) == ""
  }

  /** Its focus areas, in the order they are added. */
  lemma ProprietaryExampleFocus(f: Form)
    requires ProprietaryAnswers(f)
    ensures FocusSet(f, Critical) == [AirGappedReviews, LeastPrivilegePrompts]
  {
    var fr := FocusRules(f, Critical);
    assert Collect(fr, 1) == [AirGappedReviews];
    assert Collect(fr, 2) == [AirGappedReviews];
  }

  /** Its guardrails, in the order they are added. */
  lemma ProprietaryExampleGuardrails(f: Form)
    requires ProprietaryAnswers(f)
    ensures GuardrailSet(f) == [NdaIsolation, RedactedBuffers, HumanDiffApproval, CloudSyncedAsShared]
  {
    ProprietaryTableGuardrails(f, Trim(f.dataExamples));
  }

  /** The same, over the rule table with the trimmed data examples passed in. */
  lemma ProprietaryTableGuardrails(f: Form, flagged: string)
    requires f.projectType == Proprietary && f.dataSensitivity == High && f.aiUsage == Autonomous
    requires f.repoVisibility == Private && f.storage == ["cloud-synced"]
    requires f.compliance == ["Corporate NDA"] && flagged == ""
    ensures Collect(GuardrailTable(f, flagged), 8) ==
      [NdaIsolation, RedactedBuffers, HumanDiffApproval, CloudSyncedAsShared]
  {
    var gr := GuardrailTable(f, flagged);
    assert Collect(gr, 1) == [];
    assert Collect(gr, 2) == [NdaIsolation];
    assert Collect(gr, 3) == [NdaIsolation, RedactedBuffers];
    assert Collect(gr, 4) == [NdaIsolation, RedactedBuffers, HumanDiffApproval];
    assert Collect(gr, 5) == Collect(gr, 4);
    assert Collect(gr, 6) == Collect(gr, 4) + [CloudSyncedAsShared];
    assert Collect(gr, 7) == Collect(gr, 6);
  }

  /** Its watchwords, in the order they are added. */
  lemma ProprietaryExampleWatchwords(f: Form)
    requires ProprietaryAnswers(f)
    ensures WatchwordSet(f) == [NdaScope, RedactionFirst, HumanInLoop, ClientCodeNames]
  {
    ProprietaryRulesWatchwords(f);
  }

  /** The same, from the answers the watchword rules read. */
  lemma ProprietaryRulesWatchwords(f: Form)
    requires f.projectType == Proprietary && f.dataSensitivity == High && f.aiUsage == Autonomous
    requires f.compliance == ["Corporate NDA"]
    ensures Collect(WatchwordRules(f), 6) == [NdaScope, RedactionFirst, HumanInLoop, ClientCodeNames]
  {
    var wr := WatchwordRules(f);
    assert Collect(wr, 1) == [NdaScope];
    assert Collect(wr, 2) == [NdaScope, RedactionFirst];
    assert Collect(wr, 3) == [NdaScope, RedactionFirst, HumanInLoop];
    assert Collect(wr, 4) == Collect(wr, 3);
    assert Collect(wr, 5) == Collect(wr, 3);
  }

  /** The minimal coursework example: solo, air-gapped, low sensitivity,
      sparing use, otherwise the defaults. */
  const CourseworkForm := Options.DefaultForm.(dataSensitivity := Low, aiUsage := Sparingly,
    repoVisibility := AirGapped, collaboration := Solo)

  /** Its raw score 0 clamps to 1, and the level is low. */
  lemma CourseworkExampleScore()
    ensures RawScoreOf(CourseworkForm) == 0
    ensures RiskScore(CourseworkForm) == 1 && DeriveRiskLevel(RiskScore(CourseworkForm)) == LowRisk
  {
    assert !HasBindingCompliance(CourseworkForm.compliance);
  }

  /** Its advice is scoped sharing, the integrity proof and the disclosure
      guardrail, and no watchword. */
  lemma CourseworkExampleAdvice()
    ensures Advise(CourseworkForm, LowRisk) ==
      Advice([ScopedSharing, AcademicIntegrityProof], [CourseworkDisclosure], [])
  {
    CourseworkExampleFocus();
    CourseworkExampleGuardrails();
    CourseworkExampleWatchwords();
  }

  lemma CourseworkExampleFocus()
    ensures FocusSet(CourseworkForm, LowRisk) == [ScopedSharing, AcademicIntegrityProof]
  {
    var fr := FocusRules(CourseworkForm, LowRisk);
    assert Collect(fr, 1) == [ScopedSharing];
    assert Collect(fr, 2) == [ScopedSharing, AcademicIntegrityProof];
  }

  lemma CourseworkExampleGuardrails()
    ensures GuardrailSet(CourseworkForm) == [CourseworkDisclosure]
  {
    var f := CourseworkForm;
    assert Trim(f.dataExamples) == "";
    var gr := GuardrailRules(f);
    assert Collect(gr, 1) == [CourseworkDisclosure];
    assert Collect(gr, 2) == Collect(gr, 1);
    assert Collect(gr, 3) == Collect(gr, 1);
    assert Collect(gr, 4) == Collect(gr, 1);
    assert Collect(gr, 5) == Collect(gr, 1);
    assert Collect(gr, 6) == Collect(gr, 1);
    assert Collect(gr, 7) == Collect(gr, 1);
  }

  lemma CourseworkExampleWatchwords()
    ensures WatchwordSet(CourseworkForm) == []
  {
    var wr := WatchwordRules(CourseworkForm);
    assert Collect(wr, 1) == [];
    assert Collect(wr, 2) == [];
    assert Collect(wr, 3) == [];
    assert Collect(wr, 4) == [];
    assert Collect(wr, 5) == [];
  }

  // ====================================================== reminder bullets

  const LightPing := "Ping me only when sensitive folders enter the assistant context."
  const LightExit := "Provide a single exit reminder to clear temp buffers."
  const BalancedStart := "At session start, list the directories you intend to expose."
  const BalancedClose := "Close the loop by summarizing how assistant output was reviewed."
  const IntenseConfirm := "Before each prompt, confirm the file truly needs to be shared."
  const IntenseLog := "Log every directory you expose and share the log weekly."
  const IntenseSweep := "Run a manual redaction sweep before committing generated code."

  const SessionAuditsBullet := "Log each assistant session + files exposed."
  const DataMinimizationBullet := "Only send minimal diffs or snippets."
  const DeleteAfterExportBullet := "Purge temporary exports after review."
  const ManualRedactionBullet := "Run a manual redaction sweep before sharing data."

  /** The fixed bullets for each nudge intensity: two, or three for the
      intense level, none of them empty. */
  function BaseBullets(level: NudgeLevel): (r: seq<string>)
    ensures |r| == (if level == Intense then 3 else 2)
    ensures forall i :: 0 <= i < |r| ==> r[i] != ""
  {
    match level
    case Light => [LightPing, LightExit]
    case Balanced => [BalancedStart, BalancedClose]
    case Intense => [IntenseConfirm, IntenseLog, IntenseSweep]
  }

  /** The bullet for one selected reminder; a value outside the reminder
      options maps to the empty string. */
  function ReminderBullet(r: string): string {
    match r
    case "session-audits" => SessionAuditsBullet
    case "data-minimization" => DataMinimizationBullet
    case "delete-after-export" => DeleteAfterExportBullet
    case "manual-redaction" => ManualRedactionBullet
    case _ => ""
  }

  /** `buildReminderBullets`: the fixed bullets, then one bullet per
      selected reminder, with empty strings removed. */
  function BuildReminderBullets(level: NudgeLevel, userReminders: seq<string>): (r: seq<string>)
    ensures forall b :: b in r ==> b != ""
  {
    DropEmpty(BaseBullets(level) + Map(ReminderBullet, userReminders))
  }

  /** Every reminder option has a bullet of its own, and nothing else has
      one. */
  lemma ReminderOptionsAllMapped()
    ensures forall r :: r in Options.ReminderOptions ==> ReminderBullet(r) != ""
    ensures forall r :: r !in Options.ReminderOptions ==> ReminderBullet(r) == ""
    ensures forall r, s ::
      (r in Options.ReminderOptions && s in Options.ReminderOptions && ReminderBullet(r) == ReminderBullet(s))
      ==> r == s
  {
    forall r, s | r in Options.ReminderOptions && s in Options.ReminderOptions
      && ReminderBullet(r) == ReminderBullet(s)
      ensures r == s
    {
      assert ReminderBullet(r)[0] == ReminderBullet(s)[0];
      assert ReminderBullet(r)[1] == ReminderBullet(s)[1];
    }
  }

  /** The fixed bullets come first, unfiltered, followed by the bullets of
      the recognised reminders in selection order; for a list of reminder
      options nothing is dropped, so there are |base| + |reminders|
      bullets. */
  lemma ReminderBulletsShape(level: NudgeLevel, rs: seq<string>)
    ensures BuildReminderBullets(level, rs) == BaseBullets(level) + DropEmpty(Map(ReminderBullet, rs))
    ensures (forall i :: 0 <= i < |rs| ==> rs[i] in Options.ReminderOptions) ==>
      && BuildReminderBullets(level, rs) == BaseBullets(level) + Map(ReminderBullet, rs)
      && |BuildReminderBullets(level, rs)| == |BaseBullets(level)| + |rs|
  {
    DropEmptyAppend(BaseBullets(level), Map(ReminderBullet, rs));
    DropEmptyKeepsNonEmpty(BaseBullets(level));
    if forall i :: 0 <= i < |rs| ==> rs[i] in Options.ReminderOptions {
      ReminderOptionsAllMapped();
      DropEmptyKeepsNonEmpty(Map(ReminderBullet, rs));
    }
  }

  // =============================================================== preview

  /** The separator the heading is meant to carry: a middle dot between
      spaces, as in the legacy heading (src/App.tsx:630). */
  const TitleSeparator := " \U{00B7} "

  /** The preview heading as written: the middle dot of the source literal
      was saved double-encoded, as U+00C2 U+00B7 ("Â·"). */
  function PreviewTitleAsWritten(projectName: string): string {
    "# AGENTS brief \U{00C2}\U{00B7} " + projectName
  }

  /** The preview heading as intended. */
  function PreviewTitle(projectName: string): (t: string)
    ensures t == "# AGENTS brief" + TitleSeparator + projectName
    ensures '\U{00C2}' !in t[..17]
  {
    "# AGENTS brief \U{00B7} " + projectName
  }

  lemma PreviewTitleMojibake(projectName: string)
    ensures PreviewTitleAsWritten(projectName)[15] == '\U{00C2}'
    ensures |PreviewTitleAsWritten(projectName)| == |PreviewTitle(projectName)| + 1
    ensures PreviewTitleAsWritten(projectName) != PreviewTitle(projectName)
  {
  }

  function Bulleted(items: seq<string>): (lines: seq<string>)
    ensures |lines| == |items|
    ensures forall i :: 0 <= i < |items| ==> lines[i] == "- " + items[i]
  {
    seq(|items|, i requires 0 <= i < |items| => "- " + items[i])
  }

  const ComplianceLabel := "- Compliance anchors: "
  const NoComplianceLine := ComplianceLabel + "none noted"

  /** The compliance line of the preview. It tests only for an empty list,
      so a selection of "None" is listed as it is; for a selection of the
      offered options, "none noted" means that nothing was selected. */
  function PreviewComplianceLine(compliance: seq<string>): (line: string)
    ensures IsPrefix(ComplianceLabel, line)
    ensures compliance == [] ==> line == NoComplianceLine
    ensures (forall i :: 0 <= i < |compliance| ==> compliance[i] in Options.ComplianceOptions) ==>
      (line == NoComplianceLine <==> compliance == [])
  {
    if |compliance| == 0 then NoComplianceLine
    else
      var line := ComplianceLabel + Join(compliance, ", ");
      assert compliance[0] in Options.ComplianceOptions ==> line != NoComplianceLine by {
        if compliance[0] in Options.ComplianceOptions {
          var j := Join(compliance, ", ");
          assert j[0] == compliance[0][0];
          assert line[22] == j[0];
        }
      }
      line
  }

  const FlaggedLabel := "- Flagged assets: "
  const FlaggedPlaceholder := "(add specifics as needed)"

  /** The flagged-assets line of the preview: the trimmed examples after
      the label, or a placeholder for blank ones. The placeholder line shows
      exactly when the examples are blank or are the placeholder itself. */
  function PreviewFlaggedLine(dataExamples: string): (line: string)
    ensures IsPrefix(FlaggedLabel, line)
    ensures line == FlaggedLabel + FlaggedPlaceholder
      <==> Trim(dataExamples) == "" || Trim(dataExamples) == FlaggedPlaceholder
    ensures Trim(dataExamples) != "" ==> IsSuffix(Trim(dataExamples), line)
  {
    var examples := Trim(dataExamples);
    var placeholder := FlaggedLabel + FlaggedPlaceholder;
    assert placeholder[|FlaggedLabel|..] == FlaggedPlaceholder;
    if examples != "" then
      var line := FlaggedLabel + examples;
      assert line[|FlaggedLabel|..] == examples;
      line
    else placeholder
  }

  const GuardrailsHeading := "## Agent guardrails"
  const NudgesHeading := "## Session nudges"
  const PosturePrefix := "> Risk posture: "

  /** The footer of the preview: the title of the risk level. */
  function PostureLine(level: RiskLevel): string {
    PosturePrefix + Options.RiskLabel(level).title
  }

  const ProjectTypeLabel := "- Project type: "
  const RiskAreaLabel := "- Highest-risk area: "

  /** The context snapshot under its heading: the answers of the
      questionnaire, one line each. The legacy preview has the same block. */
  function Snapshot(form: Form): seq<string> {
    [ "## Context snapshot",
      ProjectTypeLabel + ProjectTypeValue(form.projectType),
      "- Repo visibility: " + RepoVisibilityValue(form.repoVisibility),
      "- Sensitivity: " + SensitivityValue(form.dataSensitivity),
      RiskAreaLabel + form.highestRiskArea,
      PreviewComplianceLine(form.compliance),
      PreviewFlaggedLine(form.dataExamples) ]
  }

  /** A document header: the title, a blank line, the context snapshot, a
      blank line and the heading of the guardrails. */
  function Header(title: string, snapshot: seq<string>, guardrailsHeading: string): (lines: seq<string>)
    ensures |lines| == |snapshot| + 4 && lines[0] == title && lines[|lines| - 1] == guardrailsHeading
  {
    [title, ""] + snapshot + ["", guardrailsHeading]
  }

  /** The heading and the context snapshot, up to the guardrails heading. */
  function PreviewHeader(title: string, form: Form): seq<string> {
    Header(title, Snapshot(form), GuardrailsHeading)
  }

  /** A document after its header: the guardrails as bullets, the reminder
      bullets under their own heading, and the footer. */
  function PreviewSections(header: seq<string>, guardrails: seq<string>, bulletsHeading: string,
    bullets: seq<string>, footer: string): seq<string>
  {
    header + Bulleted(guardrails) + ["", bulletsHeading] + Bulleted(bullets) + [""] + [footer]
  }

  /** The lines of the preview in order: heading, context snapshot, the
      guardrails, the session nudges and the posture footer. */
  function PreviewLines(title: string, form: Form, level: RiskLevel, recs: Recommendations): seq<string> {
    PreviewSections(PreviewHeader(title, form), recs.guardrails, NudgesHeading,
      recs.reminderBullets, PostureLine(level))
  }

  /** The preview lines under a given title, joined by newlines. It starts
      with the title and ends with the posture footer on a line of its own. */
  function AgentsMdPreview(title: string, form: Form, level: RiskLevel, recs: Recommendations): (r: string)
    ensures IsPrefix(title, r)
    ensures IsSuffix("\n" + PostureLine(level), r)
  {
    var header := PreviewHeader(title, form);
    var front := header + Bulleted(recs.guardrails) + ["", NudgesHeading]
      + Bulleted(recs.reminderBullets) + [""];
    var lines := front + [PostureLine(level)];
    assert lines[0] == header[0];
    JoinSnoc(front, PostureLine(level), "\n");
    Join(PreviewLines(title, form, level, recs), "\n")
  }

  /** `buildAgentsMdPreview` with its title as intended: it starts with
      "# AGENTS brief · " and the name, and ends with the posture footer on
      a line of its own. */
  function BuildAgentsMdPreview(projectName: string, form: Form, level: RiskLevel, recs: Recommendations): (r: string)
    ensures IsPrefix(PreviewTitle(projectName), r)
    ensures IsSuffix("\n" + PostureLine(level), r)
  {
    AgentsMdPreview(PreviewTitle(projectName), form, level, recs)
  }

  /** `buildAgentsMdPreview` as written, with the double-encoded dot in its
      title. */
  function BuildAgentsMdPreviewAsWritten(projectName: string, form: Form, level: RiskLevel, recs: Recommendations): (r: string)
    ensures IsPrefix(PreviewTitleAsWritten(projectName), r)
  {
    AgentsMdPreview(PreviewTitleAsWritten(projectName), form, level, recs)
  }

  /** Every line of the preview after the title, whatever the title. */
  function PreviewBody(form: Form, level: RiskLevel, recs: Recommendations): seq<string> {
    PreviewLines("", form, level, recs)[1..]
  }

  /** The text of the preview after the title: a newline, then the lines
      after the title joined by newlines. */
  function PreviewRest(form: Form, level: RiskLevel, recs: Recommendations): string {
    "\n" + Join(PreviewBody(form, level, recs), "\n")
  }

  /** A document's title is its first line; the lines after it do not
      depend on it. */
  lemma SectionsTitleFirst(title: string, snapshot: seq<string>, guardrails: seq<string>,
    bulletsHeading: string, bullets: seq<string>, footer: string)
    ensures var lines := PreviewSections(Header(title, snapshot, GuardrailsHeading), guardrails,
        bulletsHeading, bullets, footer);
      lines == [title] + PreviewSections(Header("", snapshot, GuardrailsHeading), guardrails,
        bulletsHeading, bullets, footer)[1..]
  {
  }

  /** The title is the first line of the preview, and the rest does not
      depend on it. */
  lemma PreviewTitleFirst(title: string, form: Form, level: RiskLevel, recs: Recommendations)
    ensures AgentsMdPreview(title, form, level, recs) == title + PreviewRest(form, level, recs)
  {
    var lines := PreviewLines(title, form, level, recs);
    SectionsTitleFirst(title, Snapshot(form), recs.guardrails, NudgesHeading, recs.reminderBullets,
      PostureLine(level));
    assert lines[1..] == PreviewBody(form, level, recs);
    JoinFirst(lines, "\n");
  }

  /** The preview as written and as intended differ in their first line
      only: both go on with the same text after the title. */
  lemma PreviewAsWrittenDiffersInTitleOnly(projectName: string, form: Form, level: RiskLevel, recs: Recommendations)
    ensures BuildAgentsMdPreviewAsWritten(projectName, form, level, recs)
      == PreviewTitleAsWritten(projectName) + PreviewRest(form, level, recs)
    ensures BuildAgentsMdPreview(projectName, form, level, recs)
      == PreviewTitle(projectName) + PreviewRest(form, level, recs)
  {
    PreviewTitleFirst(PreviewTitleAsWritten(projectName), form, level, recs);
    PreviewTitleFirst(PreviewTitle(projectName), form, level, recs);
  }

  /** The preview as written holds U+00C2 at index 15, so it differs from
      the intended one for every project name and every set of answers. */
  lemma PreviewAsWrittenMojibake(projectName: string, form: Form, level: RiskLevel, recs: Recommendations)
    ensures BuildAgentsMdPreviewAsWritten(projectName, form, level, recs)[15] == '\U{00C2}'
    ensures BuildAgentsMdPreviewAsWritten(projectName, form, level, recs) != BuildAgentsMdPreview(projectName, form, level, recs)
  {
    var asWritten := BuildAgentsMdPreviewAsWritten(projectName, form, level, recs);
    var intended := BuildAgentsMdPreview(projectName, form, level, recs);
    PreviewTitleMojibake(projectName);
    assert asWritten[15] == PreviewTitleAsWritten(projectName)[15];
    assert intended[15] == PreviewTitle(projectName)[15];
  }

  /** Where each part lands among the lines of a document, for a header
      of `|header|` lines. */
  lemma SectionsLayout(header: seq<string>, guardrails: seq<string>, bulletsHeading: string,
    bullets: seq<string>, footer: string)
    ensures var lines := PreviewSections(header, guardrails, bulletsHeading, bullets, footer);
      var h, g, b := |header|, |guardrails|, |bullets|;
      && |lines| == h + 4 + g + b
      && lines[..h] == header
      && (forall i :: 0 <= i < g ==> lines[h + i] == "- " + guardrails[i])
      && lines[h + g] == "" && lines[h + g + 1] == bulletsHeading
      && (forall i :: 0 <= i < b ==> lines[h + g + 2 + i] == "- " + bullets[i])
      && lines[h + g + b + 2] == "" && lines[h + g + b + 3] == footer
  {
    var gs, bs := Bulleted(guardrails), Bulleted(bullets);
    var upToGuardrails := header + gs;
    var upToNudges := upToGuardrails + ["", bulletsHeading];
    var upToBullets := upToNudges + bs;
    assert PreviewSections(header, guardrails, bulletsHeading, bullets, footer) == upToBullets + [""] + [footer];
    forall i | 0 <= i < |gs| ensures upToGuardrails[|header| + i] == gs[i] {
    }
    forall i | 0 <= i < |bs| ensures upToBullets[|header| + |gs| + 2 + i] == bs[i] {
    }
  }

  /** Every guardrail and every reminder bullet is one "- " line of the
      preview, in order, under its own heading; the last line names the
      posture. */
  lemma PreviewLayout(title: string, form: Form, level: RiskLevel, recs: Recommendations)
    ensures var lines := PreviewLines(title, form, level, recs);
      var g, b := |recs.guardrails|, |recs.reminderBullets|;
      && |lines| == 15 + g + b
      && lines[..11] == PreviewHeader(title, form) && lines[10] == GuardrailsHeading
      && (forall i :: 0 <= i < g ==> lines[11 + i] == "- " + recs.guardrails[i])
      && lines[11 + g] == "" && lines[12 + g] == NudgesHeading
      && (forall i :: 0 <= i < b ==> lines[13 + g + i] == "- " + recs.reminderBullets[i])
      && lines[13 + g + b] == "" && lines[14 + g + b] == PostureLine(level)
  {
    var header := PreviewHeader(title, form);
    SectionsLayout(header, recs.guardrails, NudgesHeading, recs.reminderBullets, PostureLine(level));
    var lines := PreviewLines(title, form, level, recs);
    assert lines[10] == lines[..11][10];
  }

  // ================================================================ prompt

  /** The compliance line of the prompt: "none noted" for an empty list and
      for any list that holds "None". */
  function PromptComplianceLine(compliance: seq<string>): string {
    if |compliance| > 0 && "None" !in compliance then
      ComplianceLabel + Join(compliance, ", ")
    else NoComplianceLine
  }

  const StorageLabel := "- Storage locations: "

  /** The storage line of the prompt: "none" when the joined list is empty. */
  function PromptStorageLine(storage: seq<string>): string {
    StorageLabel + (if Join(storage, ", ") != "" then Join(storage, ", ") else "none")
  }

  function PromptFlaggedLine(dataExamples: string): string {
    if Trim(dataExamples) != "" then "- Flagged assets: " + Trim(dataExamples)
    else "- Flagged assets: none explicitly listed"
  }

  const DraftHeading := "### Draft guidance to expand"
  const ClosingLine := "Now write the full, polished AGENTS.md."

  /** The fixed requirements block that every prompt carries; it ends with
      the heading the preview goes under. */
  const PromptRequirements: seq<string> := [
    "### Requirements",
    "- Structure the file with clear sections:",
    "  - `# AGENTS: Project brief & safety rules`",
    "  - `## Context snapshot`",
    "  - `## Safety & privacy constraints`",
    "  - `## Allowed assistant roles`",
    "  - `## Restricted areas & files`",
    "  - `## Prompting patterns`",
    "  - `## Session checklist`",
    "",
    "- The file must:",
    "  - Be strict about secrets, credentials, and high-risk areas.",
    "  - Use placeholders like `<API_KEY>` instead of real values.",
    "  - Inherit watchwords and guardrails from the context.",
    "  - Include a session checklist based on the reminders.",
    "- Include a dedicated section titled **\"Refusal Rules\"** that lists actions the assistant must politely refuse. This section must include:",
    "  - Refusing to view, rewrite, or analyze credentials files.",
    "  - Refusing to infer, guess, or reconstruct API keys, tokens, or secret values.",
    "  - Refusing to request entire files when snippets suffice.",
    "  - Refusing to generate code that embeds real secrets.",
    "- Include a dedicated section titled **\"Scope of Operation\"** that clearly separates:",
    "  - Allowed areas (frontend logic, utils/helpers, styling, non-sensitive backend code)",
    "  - Restricted areas (authentication, authorization, database migrations, deployment files, secrets-handling modules)",
    DraftHeading]

  const OutputOnlyLine := "The output must be ONLY a markdown document, no commentary, no code fences."
  const ContextHeading := "### Project context to incorporate"
  const PromptVisibilityLabel := "- Repository visibility: "
  const PromptSensitivityLabel := "- Data sensitivity: "
  const AiUsageLabel := "- Assistant usage: "
  const CollaborationLabel := "- Collaboration model: "
  const PromptPostureLabel := "- Risk posture: "

  /** The first line of the prompt, naming the project. */
  function PromptOpening(projectName: string): string {
    "Write a complete **AGENTS.md** file for a project called \"" + projectName + "\"."
  }

  /** The prompt lines before the requirements: the opening and the
      project context. */
  function PromptContext(projectName: string, form: Form, level: RiskLevel): (lines: seq<string>)
    ensures |lines| == 16 && lines[0] == PromptOpening(projectName)
  {
    [ PromptOpening(projectName),
      "",
      OutputOnlyLine,
      "",
      ContextHeading,
      ProjectTypeLabel + ProjectTypeValue(form.projectType),
      PromptVisibilityLabel + RepoVisibilityValue(form.repoVisibility),
      PromptSensitivityLabel + SensitivityValue(form.dataSensitivity),
      RiskAreaLabel + form.highestRiskArea,
      PromptFlaggedLine(form.dataExamples),
      PromptComplianceLine(form.compliance),
      PromptStorageLine(form.storage),
      AiUsageLabel + AiUsageValue(form.aiUsage),
      CollaborationLabel + CollaborationValue(form.collaboration),
      PromptPostureLabel + Options.RiskLabel(level).title + " (" + Options.RiskLabel(level).blurb + ")",
      "" ]
  }

  /** `buildAgentsMdPrompt`: the context, the requirements, then the
      preview verbatim on the lines after "### Draft guidance to expand",
      a blank line and the closing instruction, joined by newlines. */
  function BuildAgentsMdPrompt(projectName: string, form: Form, level: RiskLevel, preview: string): (r: string)
    ensures IsPrefix(PromptOpening(projectName), r)
    ensures IsSuffix(DraftHeading + "\n" + Join([preview, "", ClosingLine], "\n"), r)
  {
    var head := PromptContext(projectName, form, level) + PromptRequirements;
    var tail := [preview, "", ClosingLine];
    assert head[0] == PromptOpening(projectName);
    assert head[|head| - 1] == DraftHeading;
    JoinSuffix(head, tail, "\n");
    Join(head + tail, "\n")
  }

  /** The closing lines joined: the preview, an empty line and the closing
      instruction. */
  lemma PromptEnding(preview: string)
    ensures Join([preview, "", ClosingLine], "\n") == preview + "\n\n" + ClosingLine
  {
    var tail := [preview, "", ClosingLine];
    assert tail[1..] == ["", ClosingLine];
    assert tail[1..][1..] == [ClosingLine];
  }

  /** The compliance line reads "none noted" for an empty list or one that
      holds "None"; for a list of compliance options that is the only way
      to get it. The storage line reads "none" for an empty list, and for a
      list of storage options only then. */
  lemma PromptAnchorLines(compliance: seq<string>, storage: seq<string>)
    ensures compliance == [] || "None" in compliance ==>
      PromptComplianceLine(compliance) == NoComplianceLine
    ensures (forall i :: 0 <= i < |compliance| ==> compliance[i] in Options.ComplianceOptions) ==>
      (PromptComplianceLine(compliance) == NoComplianceLine <==> compliance == [] || "None" in compliance)
    ensures storage == [] ==> PromptStorageLine(storage) == StorageLabel + "none"
    ensures (forall i :: 0 <= i < |storage| ==> storage[i] in Options.StorageOptions) ==>
      (PromptStorageLine(storage) == StorageLabel + "none" <==> storage == [])
  {
    if |compliance| > 0 && "None" !in compliance
      && (forall i :: 0 <= i < |compliance| ==> compliance[i] in Options.ComplianceOptions)
    {
      var j := Join(compliance, ", ");
      assert IsPrefix(compliance[0], j);
      assert compliance[0] in Options.ComplianceOptions;
      assert j[0] == compliance[0][0];
      assert (ComplianceLabel + j)[22] == j[0];
    }
    if |storage| > 0 && (forall i :: 0 <= i < |storage| ==> storage[i] in Options.StorageOptions) {
      var j := Join(storage, ", ");
      assert IsPrefix(storage[0], j);
      assert storage[0] in Options.StorageOptions;
      assert j[0] == storage[0][0];
      assert (StorageLabel + j)[21] == j[0];
    }
  }
}
