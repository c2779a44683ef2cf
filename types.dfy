/** The questionnaire and its closed value sets (src/types/privacy.ts).
    Every string union of the source is a datatype; the `*Value` functions
    give the string a value has in JavaScript, which is what the document
    templates print. */
module Types {

  datatype ProjectType = Coursework | Research | Proprietary | Personal
  datatype RepoVisibility = Private | Public | AirGapped
  datatype Sensitivity = Low | Medium | High
  datatype AiUsage = Sparingly | Paired | Autonomous
  datatype Collaboration = Solo | SmallTeam | CrossOrg
  datatype RiskLevel = LowRisk | Guarded | Elevated | Critical
  datatype NudgeLevel = Light | Balanced | Intense
  datatype GenerationStatus = Idle | Loading | Success | Error

  /** The three multi-select questions. */
  datatype MultiSelectField = ComplianceField | StorageField | RemindersField

  /** `FormState` of the library. The multi-select answers are arrays of
      strings at run time: the narrower element types of `storage` and
      `reminders` exist only for the type checker. */
  datatype Form = Form(
    projectName: string,
    projectType: ProjectType,
    repoVisibility: RepoVisibility,
    dataSensitivity: Sensitivity,
    dataExamples: string,
    compliance: seq<string>,
    aiUsage: AiUsage,
    collaboration: Collaboration,
    nudgeLevel: NudgeLevel,
    highestRiskArea: string,
    storage: seq<string>,
    reminders: seq<string>)

  /** `QuestionKey = keyof FormState`. */
  datatype QuestionKey =
    | ProjectNameKey | ProjectTypeKey | RepoVisibilityKey | DataSensitivityKey
    | DataExamplesKey | ComplianceKey | AiUsageKey | CollaborationKey
    | NudgeLevelKey | HighestRiskAreaKey | StorageKey | RemindersKey

  datatype Recommendations = Recommendations(
    focusAreas: seq<string>,
    guardrails: seq<string>,
    watchwords: seq<string>,
    reminderBullets: seq<string>)

  function ProjectTypeValue(p: ProjectType): string {
    match p
    case Coursework => "coursework"
    case Research => "research"
    case Proprietary => "proprietary"
    case Personal => "personal"
  }

  function RepoVisibilityValue(v: RepoVisibility): string {
    match v
    case Private => "private"
    case Public => "public"
    case AirGapped => "air-gapped"
  }

  function SensitivityValue(s: Sensitivity): string {
    match s
    case Low => "low"
    case Medium => "medium"
    case High => "high"
  }

  function AiUsageValue(a: AiUsage): string {
    match a
    case Sparingly => "sparingly"
    case Paired => "paired"
    case Autonomous => "autonomous"
  }

  function CollaborationValue(c: Collaboration): string {
    match c
    case Solo => "solo"
    case SmallTeam => "small-team"
    case CrossOrg => "cross-org"
  }

  /** Distinct answers print as distinct strings, so a generated document
      determines the answers it was built from. */
  lemma ValuesAreDistinct()
    ensures forall p, q :: ProjectTypeValue(p) == ProjectTypeValue(q) ==> p == q
    ensures forall v, w :: RepoVisibilityValue(v) == RepoVisibilityValue(w) ==> v == w
    ensures forall s, t :: SensitivityValue(s) == SensitivityValue(t) ==> s == t
    ensures forall a, b :: AiUsageValue(a) == AiUsageValue(b) ==> a == b
    ensures forall c, d :: CollaborationValue(c) == CollaborationValue(d) ==> c == d
  {
    forall p: ProjectType, q: ProjectType | ProjectTypeValue(p) == ProjectTypeValue(q) ensures p == q {
      assert ProjectTypeValue(p)[2] == ProjectTypeValue(q)[2];
    }
    forall v: RepoVisibility, w: RepoVisibility | RepoVisibilityValue(v) == RepoVisibilityValue(w) ensures v == w {
      assert RepoVisibilityValue(v)[1] == RepoVisibilityValue(w)[1];
    }
    forall s: Sensitivity, t: Sensitivity | SensitivityValue(s) == SensitivityValue(t) ensures s == t {
      assert SensitivityValue(s)[0] == SensitivityValue(t)[0];
    }
    forall a: AiUsage, b: AiUsage | AiUsageValue(a) == AiUsageValue(b) ensures a == b {
      assert AiUsageValue(a)[1] == AiUsageValue(b)[1];
    }
    forall c: Collaboration, d: Collaboration | CollaborationValue(c) == CollaborationValue(d) ensures c == d {
      assert CollaborationValue(c)[1] == CollaborationValue(d)[1];
    }
  }
}
