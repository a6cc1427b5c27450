/** The vocabulary shared by the wizard, the route and the question bank:
    the four persona paths and the shape of a recorded answer. */
module Domain {

  import opened Wrappers

  /** `UserPath`: the persona bucket that selects a question set. */
  datatype Path = Scaler | Founder | Operator | Explorer

  /** The path's wire name. */
  function PathName(p: Path): string {
    match p
    case Scaler => "scaler"
    case Founder => "founder"
    case Operator => "operator"
    case Explorer => "explorer"
  }

  /** Reads a wire name back; any other string is not a path. */
  function ParsePath(s: string): (r: Option<Path>)
    ensures r.Some? ==> PathName(r.value) == s
  {
    if s == "scaler" then Some(Scaler)
    else if s == "founder" then Some(Founder)
    else if s == "operator" then Some(Operator)
    else if s == "explorer" then Some(Explorer)
    else None
  }

  /** Wire names and paths are in one-to-one correspondence. */
  lemma ParsePathName(p: Path)
    ensures ParsePath(PathName(p)) == Some(p)
  {
  }

  /** `DeliveryMethod`: how the lead wants the proposal sent. */
  datatype DeliveryMethod = ByEmail | ByWhatsApp

  /** One recorded answer: a single option value, or the list of values of
      a multi-select question. */
  datatype Answer = Single(value: string) | Multi(values: seq<string>)

  /** `DiagnosticAnswers`: question id to answer. */
  type Answers = map<string, Answer>
}
