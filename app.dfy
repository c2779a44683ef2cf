/** The older inline copy of the pipeline in the application component
    (src/App.tsx): its own questionnaire record without a nudge level, the
    scorer, recommendations with two reminder-driven guardrails and labelled
    reminder bullets, the cursor.md preview and prompt, the two label
    switches, and the survey state the component keeps. */
module App {
  import opened Types
  import opened Text
  import Options
  import PU = PrivacyUtils

  // ========================================================= questionnaire

  /** The component's `FormState`: the library record without a nudge
      level. */
  datatype LegacyForm = LegacyForm(
    projectName: string,
    projectType: ProjectType,
    repoVisibility: RepoVisibility,
    dataSensitivity: Sensitivity,
    dataExamples: string,
    compliance: seq<string>,
    aiUsage: AiUsage,
    collaboration: Collaboration,
    storage: seq<string>,
    reminders: seq<string>,
    highestRiskArea: string)

  /** The component's `defaultForm`: unlike the library's, it starts with
      encrypted local storage and session audits selected. */
  const DefaultForm: LegacyForm := LegacyForm(
    projectName := "",
    projectType := Coursework,
    repoVisibility := Private,
    dataSensitivity := Medium,
    dataExamples := "",
    compliance := [],
    aiUsage := Paired,
    collaboration := SmallTeam,
    storage := ["local-encrypted"],
    reminders := ["session-audits"],
    highestRiskArea := "source code")

  /** The same answers as a library questionnaire. The component does not
      ask for a nudge level; the library's default stands in, and nothing
      below reads it. */
  function AsLibraryForm(f: LegacyForm): Form {
    Form(
      projectName := f.projectName,
      projectType := f.projectType,
      repoVisibility := f.repoVisibility,
      dataSensitivity := f.dataSensitivity,
      dataExamples := f.dataExamples,
      compliance := f.compliance,
      aiUsage := f.aiUsage,
      collaboration := f.collaboration,
      nudgeLevel := Options.DefaultForm.nudgeLevel,
      highestRiskArea := f.highestRiskArea,
      storage := f.storage,
      reminders := f.reminders)
  }

  /** The component's `questionOrder`: eleven of the twelve keys. */
  const QuestionOrder: seq<QuestionKey> := [
    ProjectNameKey, ProjectTypeKey, RepoVisibilityKey, DataSensitivityKey,
    HighestRiskAreaKey, DataExamplesKey, ComplianceKey, AiUsageKey,
    CollaborationKey, StorageKey, RemindersKey]

  /** `totalQuestions`: the index of the review stage after the last
      question. */
  const TotalQuestions: int := |QuestionOrder|

  /** The component asks the library's questions in the library's order,
      except the nudge level: every other key exactly once. */
  lemma QuestionOrderShape()
    ensures TotalQuestions == 11
    ensures Options.QuestionOrder == QuestionOrder + [NudgeLevelKey]
    ensures NoDuplicates(QuestionOrder) && NudgeLevelKey !in QuestionOrder
    ensures forall k :: k != NudgeLevelKey ==> k in QuestionOrder
  {
    Options.QuestionOrderCoversForm();
    assert Options.QuestionOrder == QuestionOrder + [NudgeLevelKey];
    forall k | k != NudgeLevelKey ensures k in QuestionOrder {
      assert k in QuestionOrder + [NudgeLevelKey];
    }
  }

  // =============================================================== scoring

  /** `calculateRiskScore` of the component: the library's weights and
      bonuses added one at a time, then clamped. It computes the library's
      score of the same answers. */
  method CalculateRiskScore(form: LegacyForm) returns (score: int)
    ensures 1 <= score <= 8
    ensures score == PU.RiskScore(AsLibraryForm(form))
  {
    score := 1;
    score := score + PU.SensitivityWeight(form.dataSensitivity);
    score := score + PU.ProjectWeight(form.projectType);
    score := score + PU.AiWeight(form.aiUsage);
    score := score + PU.VisibilityWeight(form.repoVisibility);
    score := score + PU.CollaborationWeight(form.collaboration);
    if exists c :: c in form.compliance && c != "None" {
      score := score + 1;
    }
    if "shared-drive" in form.storage || "cloud-synced" in form.storage {
      score := score + 1;
    }
    score := PU.Min(PU.Max(score, 1), 8);
  }

  /** The component's starting answers score 4 as well: encrypted local
      storage adds no bonus. */
  lemma DefaultFormIsGuarded()
    ensures PU.RiskScore(AsLibraryForm(DefaultForm)) == 4
    ensures PU.DeriveRiskLevel(PU.RiskScore(AsLibraryForm(DefaultForm))) == Guarded
  {
    assert !PU.HasBindingCompliance(DefaultForm.compliance);
    assert !PU.HasSharedStorage(DefaultForm.storage);
  }

  // ===================================================== multi-select fields

  /** The answer of one multi-select question. */
  function Selected(form: LegacyForm, field: MultiSelectField): seq<string> {
    match field
    case ComplianceField => form.compliance
    case StorageField => form.storage
    case RemindersField => form.reminders
  }

  /** `current.filter((item) => item !== value)`: every occurrence of the
      value goes, every other entry stays, in order. */
  function Remove(xs: seq<string>, v: string): (r: seq<string>)
    ensures v !in r
    ensures multiset(r) == multiset(xs)[v := 0]
  {
    if |xs| == 0 then []
    else
      assert xs == [xs[0]] + xs[1..];
      (if xs[0] == v then [] else [xs[0]]) + Remove(xs[1..], v)
  }

  lemma {:induction false} RemoveAppend(a: seq<string>, b: seq<string>, v: string)
    ensures Remove(a + b, v) == Remove(a, v) + Remove(b, v)
  {
    if |a| > 0 {
      assert (a + b)[1..] == a[1..] + b;
      RemoveAppend(a[1..], b, v);
    } else {
      assert a + b == b;
    }
  }

  lemma {:induction false} RemoveAbsent(xs: seq<string>, v: string)
    requires v !in xs
    ensures Remove(xs, v) == xs
  {
    if |xs| > 0 {
      RemoveAbsent(xs[1..], v);
    }
  }

  lemma {:induction false} RemoveNoDuplicates(xs: seq<string>, v: string)
    requires NoDuplicates(xs)
    ensures NoDuplicates(Remove(xs, v))
  {
    if |xs| > 0 {
      var rest := Remove(xs[1..], v);
      RemoveNoDuplicates(xs[1..], v);
      if xs[0] != v {
        assert xs[0] !in xs[1..];
        assert multiset(rest)[xs[0]] == 0;
        assert xs[0] !in rest;
        var r := [xs[0]] + rest;
        forall i, j | 0 <= i < j < |r| ensures r[i] != r[j] {
          if i > 0 {
            assert r[i] == rest[i - 1] && r[j] == rest[j - 1];
          } else {
            assert r[j] == rest[j - 1];
          }
        }
      }
    }
  }

  /** The list after `toggleArrayField`: a value not selected is appended,
      a selected one is removed, with every occurrence. */
  function Toggle(current: seq<string>, value: string): (next: seq<string>)
    ensures value in next <==> value !in current
    ensures forall x :: x != value ==> multiset(next)[x] == multiset(current)[x]
    ensures value !in current ==> next == current + [value]
  {
    if value in current then Remove(current, value) else current + [value]
  }

  /** A list without duplicates keeps that property under toggling. */
  lemma ToggleKeepsNoDuplicates(current: seq<string>, value: string)
    requires NoDuplicates(current)
    ensures NoDuplicates(Toggle(current, value))
  {
    if value in current {
      RemoveNoDuplicates(current, value);
    } else {
      var next := current + [value];
      forall i, j | 0 <= i < j < |next| ensures next[i] != next[j] {
        if j == |current| {
          assert next[i] == current[i];
        }
      }
    }
  }

  /** Toggling a missing value twice restores the list; toggling a present
      one twice moves it to the end, once. */
  lemma ToggleTwice(current: seq<string>, value: string)
    ensures value !in current ==> Toggle(Toggle(current, value), value) == current
    ensures value in current ==>
      Toggle(Toggle(current, value), value) == Remove(current, value) + [value]
  {
    if value !in current {
      RemoveAppend(current, [value], value);
      RemoveAbsent(current, value);
      assert Remove([value], value) == [];
    }
  }

  /** The questionnaire with one multi-select answer replaced. */
  function WithSelected(form: LegacyForm, field: MultiSelectField, next: seq<string>): LegacyForm {
    match field
    case ComplianceField => form.(compliance := next)
    case StorageField => form.(storage := next)
    case RemindersField => form.(reminders := next)
  }

  /** The questionnaire after `toggleArrayField(field, value)`: that field
      toggled, the other two multi-select fields and every other answer as
      they were. */
  function ToggleField(form: LegacyForm, field: MultiSelectField, value: string): (r: LegacyForm)
    ensures Selected(r, field) == Toggle(Selected(form, field), value)
    ensures forall other :: other != field ==> Selected(r, other) == Selected(form, other)
    ensures r.projectName == form.projectName && r.projectType == form.projectType
    ensures r.repoVisibility == form.repoVisibility && r.dataSensitivity == form.dataSensitivity
    ensures r.dataExamples == form.dataExamples && r.aiUsage == form.aiUsage
    ensures r.collaboration == form.collaboration && r.highestRiskArea == form.highestRiskArea
  {
    WithSelected(form, field, Toggle(Selected(form, field), value))
  }

  // ========================================================= label switches

  const SessionAuditsLabel := "Log each assistant session + files exposed"
  const DataMinimizationLabel := "Only send minimal diffs or snippets"
  const DeleteAfterExportLabel := "Purge temp exports after review"
  const ManualRedactionLabel := "Run a manual redaction sweep"

  /** `formatReminderLabel`: a label for each reminder option; any other
      value is its own label. */
  function FormatReminderLabel(value: string): (shown: string)
    ensures value !in Options.ReminderOptions ==> shown == value
  {
    match value
    case "session-audits" => SessionAuditsLabel
    case "data-minimization" => DataMinimizationLabel
    case "delete-after-export" => DeleteAfterExportLabel
    case "manual-redaction" => ManualRedactionLabel
    case _ => value
  }

  const LocalEncryptedLabel := "Local encrypted volume"
  const LocalPlainLabel := "Local unencrypted disk"
  const CloudSyncedLabel := "Cloud-synced workspace"
  const SharedDriveLabel := "Shared drive or LMS upload"

  /** `formatStorageLabel`: a label for each storage option; any other
      value is its own label. */
  function FormatStorageLabel(value: string): (shown: string)
    ensures value !in Options.StorageOptions ==> shown == value
  {
    match value
    case "local-encrypted" => LocalEncryptedLabel
    case "local-plain" => LocalPlainLabel
    case "cloud-synced" => CloudSyncedLabel
    case "shared-drive" => SharedDriveLabel
    case _ => value
  }

  /** Each reminder option gets a label of its own that differs from the
      option itself and from the default bullet: the labels tell the
      options apart. */
  lemma ReminderLabelsDistinct()
    ensures forall r :: r in Options.ReminderOptions ==> FormatReminderLabel(r) != r
    ensures forall r :: r in Options.ReminderOptions ==> FormatReminderLabel(r) != DefaultReminderBullet
    ensures forall r, s ::
      (r in Options.ReminderOptions && s in Options.ReminderOptions
       && FormatReminderLabel(r) == FormatReminderLabel(s)) ==> r == s
  {
    forall r | r in Options.ReminderOptions ensures FormatReminderLabel(r) != r {
      assert FormatReminderLabel(r)[0] != r[0];
    }
    forall r | r in Options.ReminderOptions ensures FormatReminderLabel(r) != DefaultReminderBullet {
      assert |FormatReminderLabel(r)| != |DefaultReminderBullet|;
    }
    forall r, s | r in Options.ReminderOptions && s in Options.ReminderOptions
      && FormatReminderLabel(r) == FormatReminderLabel(s)
      ensures r == s
    {
      assert FormatReminderLabel(r)[0] == FormatReminderLabel(s)[0];
    }
  }

  /** Each storage option gets a label of its own that differs from the
      option itself. */
  lemma StorageLabelsDistinct()
    ensures forall v :: v in Options.StorageOptions ==> FormatStorageLabel(v) != v
    ensures forall v, w ::
      (v in Options.StorageOptions && w in Options.StorageOptions
       && FormatStorageLabel(v) == FormatStorageLabel(w)) ==> v == w
  {
    forall v | v in Options.StorageOptions ensures FormatStorageLabel(v) != v {
      assert FormatStorageLabel(v)[0] != v[0];
    }
    forall v, w | v in Options.StorageOptions && w in Options.StorageOptions
      && FormatStorageLabel(v) == FormatStorageLabel(w)
      ensures v == w
    {
      assert FormatStorageLabel(v)[6] == FormatStorageLabel(w)[6];
    }
  }

  // ======================================================= reminder bullets

  const DefaultReminderBullet := "Run a quick privacy posture check " + "before each assistant session."

  /** The component's reminder bullets: one label per selected reminder,
      in selection order, or the single default bullet when none is
      selected. For a selection of reminder options, the default bullet is
      shown exactly when nothing is selected. */
  function ReminderBullets(reminders: seq<string>): (r: seq<string>)
    ensures reminders == [] ==> r == [DefaultReminderBullet]
    ensures reminders != [] ==> |r| == |reminders|
    ensures forall i :: 0 <= i < |reminders| ==> r[i] == FormatReminderLabel(reminders[i])
    ensures (forall i :: 0 <= i < |reminders| ==> reminders[i] in Options.ReminderOptions) ==>
      (r == [DefaultReminderBullet] <==> reminders == [])
  {
    if |reminders| == 0 then [DefaultReminderBullet]
    else
      var r := Map(FormatReminderLabel, reminders);
      assert reminders[0] in Options.ReminderOptions ==> r[0] != DefaultReminderBullet by {
        if reminders[0] in Options.ReminderOptions {
          ReminderLabelsDistinct();
        }
      }
      r
  }

  /** For selections drawn from the reminder options, the bullets determine
      the selection: distinct selections give distinct bullets. */
  lemma ReminderBulletsDetermineSelection(a: seq<string>, b: seq<string>)
    requires forall i :: 0 <= i < |a| ==> a[i] in Options.ReminderOptions
    requires forall i :: 0 <= i < |b| ==> b[i] in Options.ReminderOptions
    requires ReminderBullets(a) == ReminderBullets(b)
    ensures a == b
  {
    ReminderLabelsDistinct();
    assert a == [] <==> ReminderBullets(a) == [DefaultReminderBullet];
    assert b == [] <==> ReminderBullets(b) == [DefaultReminderBullet];
    if a != [] && b != [] {
      assert |a| == |b|;
      forall i | 0 <= i < |a| ensures a[i] == b[i] {
        assert FormatReminderLabel(a[i]) == FormatReminderLabel(b[i]);
      }
    }
  }

  // ======================================================= recommendations

  /** The guardrails the component can give. Four read as in the library
      (the NDA, redacted-buffer, human-approval and weekly-log messages),
      three have their own wording, and two more follow from the selected
      reminders. The flagged-assets guardrail carries the trimmed
      `dataExamples`. */
  datatype Guardrail =
    | PortionDisclosure | NdaIsolation | RedactedBuffers | HumanDiffApproval
    | WeeklySuggestionLog | SyncedAsShared | PublicSnippets
    | RedactionSweep | AuditParity
    | FlaggedAssets(assets: string)

  const PortionDisclosureText :=
    "Document what portion " + "of assistant-authored code remains to uphold coursework policies."
  const SyncedAsSharedText :=
    "Treat synced folders " + "as shared; move sensitive edits to local encrypted space."
  const PublicSnippetsText :=
    "Share snippets rather " + "than raw unreleased files when prompting in public repos."
  const RedactionSweepText :=
    "Run a manual redaction " + "sweep for tokens, IDs, and secrets before sharing output."
  const AuditParityText :=
    "Capture which folders " + "were exposed per session for audit parity."

  function GuardrailText(g: Guardrail): string {
    match g
    case PortionDisclosure => PortionDisclosureText
    case NdaIsolation => PU.NdaIsolationText
    case RedactedBuffers => PU.RedactedBuffersText
    case HumanDiffApproval => PU.HumanDiffApprovalText
    case WeeklySuggestionLog => PU.WeeklySuggestionLogText
    case SyncedAsShared => SyncedAsSharedText
    case PublicSnippets => PublicSnippetsText
    case RedactionSweep => RedactionSweepText
    case AuditParity => AuditParityText
    case FlaggedAssets(assets) => PU.FlaggedAssetsPrefix + assets
  }

  /** The fixed guardrails start with letters of their own, none of them
      the "F" of the flagged-assets guardrail. */
  lemma FixedGuardrailStarts(g: Guardrail)
    requires !g.FlaggedAssets?
    ensures |GuardrailText(g)| > 1 && GuardrailText(g)[0] != 'F'
  {
    match g
    case PortionDisclosure => assert PortionDisclosureText[0] == 'D';
    case NdaIsolation => assert PU.NdaIsolationText[0] == 'K';
    case RedactedBuffers => assert PU.RedactedBuffersText[0] == 'R';
    case HumanDiffApproval => assert PU.HumanDiffApprovalText[0] == 'R';
    case WeeklySuggestionLog => assert PU.WeeklySuggestionLogText[0] == 'L';
    case SyncedAsShared => assert SyncedAsSharedText[0] == 'T';
    case PublicSnippets => assert PublicSnippetsText[0] == 'S';
    case RedactionSweep => assert RedactionSweepText[0] == 'R';
    case AuditParity => assert AuditParityText[0] == 'C';
  }

  lemma GuardrailTextsDiffer(a: Guardrail, b: Guardrail)
    requires GuardrailText(a) == GuardrailText(b)
    ensures a == b
  {
    if a.FlaggedAssets? && b.FlaggedAssets? {
      assert GuardrailText(a)[|PU.FlaggedAssetsPrefix|..] == a.assets;
      assert GuardrailText(b)[|PU.FlaggedAssetsPrefix|..] == b.assets;
    } else if a.FlaggedAssets? {
      assert GuardrailText(a)[0] == 'F';
      FixedGuardrailStarts(b);
    } else if b.FlaggedAssets? {
      assert GuardrailText(b)[0] == 'F';
      FixedGuardrailStarts(a);
    } else {
      FixedGuardrailStarts(a);
      FixedGuardrailStarts(b);
      assert GuardrailText(a)[0] == GuardrailText(b)[0];
      assert GuardrailText(a)[1] == GuardrailText(b)[1];
    }
  }

  /** The conditional guardrail `add`s of the component in the order it
      makes them: the library's, with the manual-redaction and
      session-audit reminders between the visibility question and the data
      examples. */
  function GuardrailRules(form: LegacyForm): seq<Rule<Guardrail>> {
    GuardrailTable(form, Trim(form.dataExamples))
  }

  /** The guardrail rules for the given trimmed examples. */
  function GuardrailTable(form: LegacyForm, flagged: string): seq<Rule<Guardrail>> {
    [ Rule(form.projectType == Coursework, PortionDisclosure),
      Rule(form.projectType == Proprietary, NdaIsolation),
      Rule(form.dataSensitivity == High, RedactedBuffers),
      Rule(form.aiUsage == Autonomous, HumanDiffApproval),
      Rule(form.aiUsage == Paired, WeeklySuggestionLog),
      Rule("cloud-synced" in form.storage, SyncedAsShared),
      Rule(form.repoVisibility == Public, PublicSnippets),
      Rule("manual-redaction" in form.reminders, RedactionSweep),
      Rule("session-audits" in form.reminders, AuditParity),
      Rule(flagged != "", FlaggedAssets(flagged)) ]
  }

  function GuardrailSet(form: LegacyForm): seq<Guardrail> {
    Collect(GuardrailRules(form), 10)
  }

  /** The three sets of advice, each in insertion order. The focus areas
      and watchwords are the library's: the component adds the same ones
      under the same conditions. */
  datatype Advice = Advice(
    focusAreas: seq<PU.FocusArea>, guardrails: seq<Guardrail>, watchwords: seq<PU.Watchword>)

  function Advise(form: LegacyForm, level: RiskLevel): Advice {
    Advice(PU.FocusSet(AsLibraryForm(form), level), GuardrailSet(form), PU.WatchwordSet(AsLibraryForm(form)))
  }

  /** What the component's `generateRecommendations` returns. */
  function Recommend(form: LegacyForm, level: RiskLevel): Recommendations {
    var a := Advise(form, level);
    Recommendations(Map(PU.FocusText, a.focusAreas), Map(GuardrailText, a.guardrails),
      Map(PU.WatchwordText, a.watchwords), ReminderBullets(form.reminders))
  }

  /** The start of the component's `generateRecommendations`: the first
      focus area and the questions on project type and sensitivity; the
      focus areas are then complete. */
  method AdviseOnProject(form: LegacyForm, level: RiskLevel) returns (advice: Advice)
    ensures advice.focusAreas == PU.FocusSet(AsLibraryForm(form), level)
    ensures advice.guardrails == Collect(GuardrailRules(form), 3)
    ensures advice.watchwords == Collect(PU.WatchwordRules(AsLibraryForm(form)), 2)
  {
    ghost var lib := AsLibraryForm(form);
    ghost var fr, gr, wr := PU.FocusRules(lib, level), GuardrailRules(form), PU.WatchwordRules(lib);
    var focusAreas: seq<PU.FocusArea> := [];
    var guardrails: seq<Guardrail> := [];
    var watchwords: seq<PU.Watchword> := [];

    focusAreas := Add(focusAreas, if level == Critical then PU.AirGappedReviews else PU.ScopedSharing);
    assert focusAreas == Collect(fr, 1);

    if form.projectType == Coursework {
      focusAreas := Add(focusAreas, PU.AcademicIntegrityProof);
      guardrails := Add(guardrails, PortionDisclosure);
    }
    assert focusAreas == Collect(fr, 2) && guardrails == Collect(gr, 1);

    if form.projectType == Proprietary {
      guardrails := Add(guardrails, NdaIsolation);
      watchwords := Add(watchwords, PU.NdaScope);
    }
    assert guardrails == Collect(gr, 2) && watchwords == Collect(wr, 1);

    if form.dataSensitivity == High {
      guardrails := Add(guardrails, RedactedBuffers);
      focusAreas := Add(focusAreas, PU.LeastPrivilegePrompts);
      watchwords := Add(watchwords, PU.RedactionFirst);
    }
    advice := Advice(focusAreas, guardrails, watchwords);
  }

  /** The assistant-usage question: autonomous use or, failing that,
      paired use. */
  method AdviseOnAssistant(form: LegacyForm, sofar: Advice) returns (advice: Advice)
    requires sofar.guardrails == Collect(GuardrailRules(form), 3)
    requires sofar.watchwords == Collect(PU.WatchwordRules(AsLibraryForm(form)), 2)
    ensures advice == sofar.(guardrails := Collect(GuardrailRules(form), 5),
      watchwords := Collect(PU.WatchwordRules(AsLibraryForm(form)), 3))
  {
    ghost var gr := GuardrailRules(form);
    var guardrails := sofar.guardrails;
    var watchwords := sofar.watchwords;
    assert Collect(gr, 4) == AddIf(guardrails, form.aiUsage == Autonomous, HumanDiffApproval);

    if form.aiUsage == Autonomous {
      guardrails := Add(guardrails, HumanDiffApproval);
      watchwords := Add(watchwords, PU.HumanInLoop);
    } else if form.aiUsage == Paired {
      guardrails := Add(guardrails, WeeklySuggestionLog);
    }
    advice := sofar.(guardrails := guardrails, watchwords := watchwords);
  }

  /** The storage, visibility and reminder questions. */
  method AdviseOnSharing(form: LegacyForm, sofar: Advice) returns (advice: Advice)
    requires sofar.guardrails == Collect(GuardrailRules(form), 5)
    ensures advice == sofar.(guardrails := Collect(GuardrailRules(form), 9))
  {
    ghost var gr := GuardrailRules(form);
    var guardrails := sofar.guardrails;

    if "cloud-synced" in form.storage {
      guardrails := Add(guardrails, SyncedAsShared);
    }
    assert guardrails == Collect(gr, 6);

    if form.repoVisibility == Public {
      guardrails := Add(guardrails, PublicSnippets);
    }
    assert guardrails == Collect(gr, 7);

    if "manual-redaction" in form.reminders {
      guardrails := Add(guardrails, RedactionSweep);
    }
    assert guardrails == Collect(gr, 8);

    if "session-audits" in form.reminders {
      guardrails := Add(guardrails, AuditParity);
    }
    advice := sofar.(guardrails := guardrails);
  }

  /** The compliance questions and the data examples. */
  method AdviseOnCompliance(form: LegacyForm, sofar: Advice) returns (advice: Advice)
    requires sofar.guardrails == Collect(GuardrailRules(form), 9)
    requires sofar.watchwords == Collect(PU.WatchwordRules(AsLibraryForm(form)), 3)
    ensures advice == sofar.(guardrails := GuardrailSet(form), watchwords := PU.WatchwordSet(AsLibraryForm(form)))
  {
    ghost var wr := PU.WatchwordRules(AsLibraryForm(form));
    var guardrails := sofar.guardrails;
    var watchwords := sofar.watchwords;

    if "FERPA" in form.compliance {
      watchwords := Add(watchwords, PU.StudentPrivacy);
    }
    assert watchwords == Collect(wr, 4);

    if "HIPAA" in form.compliance {
      watchwords := Add(watchwords, PU.PhiHandling);
    }
    assert watchwords == Collect(wr, 5);

    if "Corporate NDA" in form.compliance {
      watchwords := Add(watchwords, PU.ClientCodeNames);
    }

    var flagged := Trim(form.dataExamples);
    if flagged != "" {
      guardrails := Add(guardrails, FlaggedAssets(flagged));
    }
    advice := sofar.(guardrails := guardrails, watchwords := watchwords);
  }

  /** The body of the component's `generateRecommendations` up to its
      `return`, in the order of the source. */
  method CollectAdvice(form: LegacyForm, level: RiskLevel) returns (advice: Advice)
    ensures advice == Advise(form, level)
  {
    advice := AdviseOnProject(form, level);
    advice := AdviseOnAssistant(form, advice);
    advice := AdviseOnSharing(form, advice);
    advice := AdviseOnCompliance(form, advice);
  }

  /** The component's `generateRecommendations`: the filled sets read back
      with `Array.from`, and the labelled reminder bullets. */
  method GenerateRecommendations(form: LegacyForm, level: RiskLevel) returns (recs: Recommendations)
    ensures recs == Recommend(form, level)
  {
    var advice := CollectAdvice(form, level);
    var reminderBullets := if |form.reminders| > 0 then Map(FormatReminderLabel, form.reminders)
      else [DefaultReminderBullet];
    recs := Recommendations(Map(PU.FocusText, advice.focusAreas), Map(GuardrailText, advice.guardrails),
      Map(PU.WatchwordText, advice.watchwords), reminderBullets);
  }

  /** Selecting the manual-redaction reminder adds the redaction-sweep
      guardrail, and the session-audit reminder the audit-parity guardrail;
      nothing else adds them. */
  lemma ReminderGuardrails(form: LegacyForm)
    ensures RedactionSweep in GuardrailSet(form) <==> "manual-redaction" in form.reminders
    ensures AuditParity in GuardrailSet(form) <==> "session-audits" in form.reminders
  {
    ReminderRules(form, Trim(form.dataExamples));
  }

  /** The same, for the guardrail rules of any trimmed examples. */
  lemma ReminderRules(form: LegacyForm, flagged: string)
    ensures RedactionSweep in Collect(GuardrailTable(form, flagged), 10) <==> "manual-redaction" in form.reminders
    ensures AuditParity in Collect(GuardrailTable(form, flagged), 10) <==> "session-audits" in form.reminders
  {
    var rules := GuardrailTable(form, flagged);
    CollectHolds(rules, RedactionSweep);
    CollectHolds(rules, AuditParity);
  }

  /** The starting answers select session audits and nothing else, so of
      the two reminder guardrails they ask for audit parity only. */
  lemma DefaultFormReminderGuardrails()
    ensures AuditParity in GuardrailSet(DefaultForm)
    ensures RedactionSweep !in GuardrailSet(DefaultForm)
  {
    ReminderGuardrails(DefaultForm);
    assert DefaultForm.reminders[0] == "session-audits";
  }

  /** The printed lists are sets of strings: each guardrail text is in the
      list exactly when its guardrail is, and no text occurs twice. */
  lemma RecommendationsAreTextSets(form: LegacyForm, level: RiskLevel)
    ensures forall g :: GuardrailText(g) in Recommend(form, level).guardrails <==> g in GuardrailSet(form)
    ensures NoDuplicates(Recommend(form, level).focusAreas)
    ensures NoDuplicates(Recommend(form, level).guardrails)
    ensures NoDuplicates(Recommend(form, level).watchwords)
  {
    var a := Advise(form, level);
    assert Injective(GuardrailText) by {
      forall x: Guardrail, y: Guardrail | GuardrailText(x) == GuardrailText(y) ensures x == y {
        GuardrailTextsDiffer(x, y);
      }
    }
    PU.AdviceTextsInjective();
    CollectNoDuplicates(PU.FocusRules(AsLibraryForm(form), level), 3);
    CollectNoDuplicates(GuardrailRules(form), 10);
    CollectNoDuplicates(PU.WatchwordRules(AsLibraryForm(form)), 6);
    MapNoDuplicates(PU.FocusText, a.focusAreas);
    MapNoDuplicates(GuardrailText, a.guardrails);
    MapNoDuplicates(PU.WatchwordText, a.watchwords);
    forall g ensures GuardrailText(g) in Recommend(form, level).guardrails <==> g in a.guardrails {
      MapMembership(GuardrailText, a.guardrails, g);
    }
  }

  // =============================================================== preview

  /** The preview heading: the middle dot here was saved correctly. */
  function CursorTitle(projectName: string): string {
    "# Privacy mode" + PU.TitleSeparator + projectName
  }

  const AssistantGuardrailsHeading := "## Assistant guardrails"
  const SessionRemindersHeading := "## Session reminders"

  /** The heading and the context snapshot, which reads as the library's,
      up to the guardrails heading. */
  function CursorMdHeader(projectName: string, form: LegacyForm): seq<string> {
    PU.Header(CursorTitle(projectName), PU.Snapshot(AsLibraryForm(form)), AssistantGuardrailsHeading)
  }

  /** The lines of the preview in order: heading, context snapshot, the
      guardrails, the session reminders and the posture footer. */
  function CursorMdLines(projectName: string, form: LegacyForm, level: RiskLevel, recs: Recommendations): seq<string> {
    PU.PreviewSections(CursorMdHeader(projectName, form), recs.guardrails, SessionRemindersHeading,
      recs.reminderBullets, PU.PostureLine(level))
  }

  /** `buildCursorMdPreview`: the preview lines joined by newlines. It
      starts with the heading and ends with the posture footer on a line of
      its own. */
  function BuildCursorMdPreview(projectName: string, form: LegacyForm, level: RiskLevel, recs: Recommendations): (r: string)
    ensures IsPrefix(CursorTitle(projectName), r)
    ensures IsSuffix("\n" + PU.PostureLine(level), r)
  {
    var header := CursorMdHeader(projectName, form);
    var front := header + PU.Bulleted(recs.guardrails) + ["", SessionRemindersHeading]
      + PU.Bulleted(recs.reminderBullets) + [""];
    var lines := front + [PU.PostureLine(level)];
    assert lines[0] == header[0];
    JoinSnoc(front, PU.PostureLine(level), "\n");
    Join(CursorMdLines(projectName, form, level, recs), "\n")
  }

  /** Every guardrail and every reminder bullet is one "- " line of the
      preview, in order, under its own heading; the last line names the
      posture. */
  lemma CursorMdLayout(projectName: string, form: LegacyForm, level: RiskLevel, recs: Recommendations)
    ensures var lines := CursorMdLines(projectName, form, level, recs);
      var g, b := |recs.guardrails|, |recs.reminderBullets|;
      && |lines| == 15 + g + b
      && lines[..11] == CursorMdHeader(projectName, form)
      && lines[0] == CursorTitle(projectName)
      && lines[10] == AssistantGuardrailsHeading
      && (forall i :: 0 <= i < g ==> lines[11 + i] == "- " + recs.guardrails[i])
      && lines[11 + g] == "" && lines[12 + g] == SessionRemindersHeading
      && (forall i :: 0 <= i < b ==> lines[13 + g + i] == "- " + recs.reminderBullets[i])
      && lines[13 + g + b] == "" && lines[14 + g + b] == PU.PostureLine(level)
  {
    var header := CursorMdHeader(projectName, form);
    PU.SectionsLayout(header, recs.guardrails, SessionRemindersHeading, recs.reminderBullets, PU.PostureLine(level));
    var lines := CursorMdLines(projectName, form, level, recs);
    assert lines[0] == lines[..11][0];
    assert lines[10] == lines[..11][10];
  }

  // ================================================================ prompt

  /** The first line of the prompt, naming the project. */
  function CursorOpening(projectName: string): string {
    "Write a comprehensive cursor.md file " + "for a project called \"" + projectName + "\"."
  }

  /** The sentence that states the answers, in one line. */
  function ContextSentence(form: LegacyForm): string {
    "The project type is " + ProjectTypeValue(form.projectType)
      + ", repo visibility is " + RepoVisibilityValue(form.repoVisibility)
      + ", data sensitivity is " + SensitivityValue(form.dataSensitivity)
      + ", and the highest-risk area is " + form.highestRiskArea + "."
  }

  /** The flagged-assets sentence, or the empty line the filter drops. */
  function FlaggedSentence(dataExamples: string): (line: string)
    ensures line != "" <==> Trim(dataExamples) != ""
  {
    if Trim(dataExamples) != "" then "Flagged assets to treat carefully: " + Trim(dataExamples) + "."
    else ""
  }

  /** The compliance sentence, or the empty line the filter drops: it is
      there only for a non-empty list without "None". */
  function ComplianceSentence(compliance: seq<string>): (line: string)
    ensures line != "" <==> |compliance| > 0 && "None" !in compliance
  {
    if |compliance| > 0 && "None" !in compliance then
      "Compliance anchors: " + Join(compliance, ", ") + "."
    else ""
  }

  /** The tone the prompt asks for: the risk level's title in lower case. */
  function ToneSentence(level: RiskLevel): string {
    "Adopt a " + ToLower(Options.RiskLabel(level).title) + " tone with direct, actionable guardrails."
  }

  const SectionsSentence :=
    "Ensure the file contains " + "sections for Context Snapshot, Assistant Guardrails, and Session Reminders."
  const DraftSentence := "Use the following draft " + "as guidance and expand where needed:"

  /** The eight lines of `buildCursorPrompt` before `filter(Boolean)`,
      written as their four runs: two fixed lines, the two optional ones,
      three fixed lines and the preview. */
  function CursorPromptCandidates(projectName: string, form: LegacyForm, level: RiskLevel, preview: string): seq<string> {
    [CursorOpening(projectName), ContextSentence(form)]
      + [FlaggedSentence(form.dataExamples), ComplianceSentence(form.compliance)]
      + [ToneSentence(level), SectionsSentence, DraftSentence]
      + [preview]
  }

  /** The prompt lines: the candidates without the empty ones. */
  function CursorPromptLines(projectName: string, form: LegacyForm, level: RiskLevel, preview: string): seq<string> {
    DropEmpty(CursorPromptCandidates(projectName, form, level, preview))
  }

  /** The filter drops the optional flagged-assets and compliance lines
      when they are empty, and nothing else but an empty preview. */
  lemma CursorPromptShape(projectName: string, form: LegacyForm, level: RiskLevel, preview: string)
    ensures CursorPromptLines(projectName, form, level, preview) ==
      [CursorOpening(projectName), ContextSentence(form)]
      + (Present(FlaggedSentence(form.dataExamples)) + Present(ComplianceSentence(form.compliance)))
      + [ToneSentence(level), SectionsSentence, DraftSentence] + Present(preview)
  {
    DropEmptyRuns(CursorOpening(projectName), ContextSentence(form),
      FlaggedSentence(form.dataExamples), ComplianceSentence(form.compliance),
      ToneSentence(level), SectionsSentence, DraftSentence, preview);
  }

  /** `buildCursorPrompt`: the prompt lines joined by newlines. It starts
      with the opening line and, for a non-empty preview, ends with the
      request to expand the draft and the preview verbatim. */
  function BuildCursorPrompt(projectName: string, form: LegacyForm, level: RiskLevel, preview: string): (r: string)
    ensures IsPrefix(CursorOpening(projectName), r)
    ensures preview != "" ==> IsSuffix(DraftSentence + "\n" + preview, r)
  {
    CursorPromptShape(projectName, form, level, preview);
    var front := [CursorOpening(projectName), ContextSentence(form)]
      + (Present(FlaggedSentence(form.dataExamples)) + Present(ComplianceSentence(form.compliance)))
      + [ToneSentence(level), SectionsSentence, DraftSentence];
    assert front[0] == CursorOpening(projectName);
    assert front[|front| - 1] == DraftSentence;
    if preview != "" then
      JoinSuffix(front, [preview], "\n");
      Join(CursorPromptLines(projectName, form, level, preview), "\n")
    else
      Join(CursorPromptLines(projectName, form, level, preview), "\n")
  }

  /** The tone sentence names the level: distinct levels ask for distinct
      tones. */
  lemma ToneSentencesDistinct(a: RiskLevel, b: RiskLevel)
    requires ToneSentence(a) == ToneSentence(b)
    ensures a == b
  {
    assert |ToneSentence(a)| == |Options.RiskLabel(a).title| + 49;
    assert |ToneSentence(b)| == |Options.RiskLabel(b).title| + 49;
    Options.RiskLabelTitleLengthsDistinct(a, b);
  }
}
