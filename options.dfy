/** The constant tables of the library (src/lib/options.ts): the starting
    questionnaire, the option lists of the multi-select questions, the title
    and blurb of each risk level, and the order the questions are asked in. */
module Options {
  import opened Types
  import opened Text

  /** `defaultForm`: the questionnaire a survey starts from. */
  const DefaultForm: Form := Form(
    projectName := "",
    projectType := Coursework,
    repoVisibility := Private,
    dataSensitivity := Medium,
    dataExamples := "",
    compliance := [],
    aiUsage := Paired,
    collaboration := SmallTeam,
    nudgeLevel := Balanced,
    highestRiskArea := "source code",
    storage := [],
    reminders := [])

  const ComplianceOptions: seq<string> :=
    ["FERPA", "HIPAA", "Corporate NDA", "Internal policy", "None"]

  const StorageOptions: seq<string> :=
    ["local-encrypted", "local-plain", "cloud-synced", "shared-drive"]

  const ReminderOptions: seq<string> :=
    ["session-audits", "data-minimization", "delete-after-export", "manual-redaction"]

  const RiskAreas: seq<string> :=
    ["source code", "datasets", "credentials", "documentation"]

  datatype Label = Label(title: string, blurb: string)

  const LowRiskTitle := "Low exposure"
  const GuardedTitle := "Guarded posture"
  const ElevatedTitle := "Elevated risk"
  const CriticalTitle := "Critical controls required"
  const LowRiskBlurb := "Context is contained; keep lightweight checklists in place."
  const GuardedBlurb := "Blend of sensitive and public files. Audit sharing each session."
  const ElevatedBlurb := "Multiple collaborators or regulated data. Default to opt-in access."
  const CriticalBlurb := "Strict NDAs or embargoed datasets. Treat AI as read-only until vetted."

  /** `riskLabels[level]`: a record with an entry for every level, each
      with a non-empty title and blurb. */
  function RiskLabel(level: RiskLevel): (l: Label)
    ensures l.title != "" && l.blurb != ""
  {
    match level
    case LowRisk => Label(LowRiskTitle, LowRiskBlurb)
    case Guarded => Label(GuardedTitle, GuardedBlurb)
    case Elevated => Label(ElevatedTitle, ElevatedBlurb)
    case Critical => Label(CriticalTitle, CriticalBlurb)
  }

  /** `questionOrder`: the survey asks about every field of the
      questionnaire exactly once. */
  const QuestionOrder: seq<QuestionKey> := [
    ProjectNameKey, ProjectTypeKey, RepoVisibilityKey, DataSensitivityKey,
    HighestRiskAreaKey, DataExamplesKey, ComplianceKey, AiUsageKey,
    CollaborationKey, StorageKey, RemindersKey, NudgeLevelKey]

  lemma QuestionOrderCoversForm()
    ensures |QuestionOrder| == 12
    ensures NoDuplicates(QuestionOrder)
    ensures forall k: QuestionKey :: k in QuestionOrder
  {
    forall k: QuestionKey ensures k in QuestionOrder {
      match k
      case ProjectNameKey => assert QuestionOrder[0] == k;
      case ProjectTypeKey => assert QuestionOrder[1] == k;
      case RepoVisibilityKey => assert QuestionOrder[2] == k;
      case DataSensitivityKey => assert QuestionOrder[3] == k;
      case HighestRiskAreaKey => assert QuestionOrder[4] == k;
      case DataExamplesKey => assert QuestionOrder[5] == k;
      case ComplianceKey => assert QuestionOrder[6] == k;
      case AiUsageKey => assert QuestionOrder[7] == k;
      case CollaborationKey => assert QuestionOrder[8] == k;
      case StorageKey => assert QuestionOrder[9] == k;
      case RemindersKey => assert QuestionOrder[10] == k;
      case NudgeLevelKey => assert QuestionOrder[11] == k;
    }
  }

  /** Each level has its own title, so the posture line of a document names
      the level it was built for. */
  lemma RiskLabelTitlesDistinct()
    ensures forall a, b :: RiskLabel(a).title == RiskLabel(b).title ==> a == b
  {
    forall a: RiskLevel, b: RiskLevel | RiskLabel(a).title == RiskLabel(b).title
      ensures a == b
    {
      assert RiskLabel(a).title[0] == RiskLabel(b).title[0];
    }
  }

  /** The titles even differ in length. */
  lemma RiskLabelTitleLengthsDistinct(a: RiskLevel, b: RiskLevel)
    requires |RiskLabel(a).title| == |RiskLabel(b).title|
    ensures a == b
  {
  }

  /** The option lists hold distinct values; "None" is one of the five
      compliance options. */
  lemma OptionListsDistinct()
    ensures |ComplianceOptions| == 5 && "None" in ComplianceOptions
    ensures NoDuplicates(ComplianceOptions)
    ensures NoDuplicates(StorageOptions)
    ensures NoDuplicates(ReminderOptions)
    ensures NoDuplicates(RiskAreas)
  {
  }
}
