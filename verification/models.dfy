/**
 * The records the front end exchanges with the TopoMojo API. Optional
 * string fields are modelled as strings, with "" standing for a missing
 * value; optional numbers that the code only adds to are modelled as 0.
 */
module Models {
  import opened Wrappers

  /** Query parameters of a list request. */
  datatype Search = Search(term: string, skip: nat, take: nat, filter: seq<string>)

  datatype UserProfile = UserProfile(id: int, name: string, role: string)

  datatype Worker = Worker(id: int, personName: string)

  datatype Workspace = Workspace(
    id: int,
    name: string,
    shareCode: string,
    templateLimit: int,
    workers: seq<Worker>)

  datatype Template = Template(id: int, name: string, iso: string, workspaceGlobalId: string)

  datatype TemplateSummary = TemplateSummary(id: int, name: string)

  /** The ISO images and networks a workspace offers, as server paths. */
  datatype VmOptions = VmOptions(iso: seq<string>, net: seq<string>)

  /** A console ticket. */
  datatype ConsoleSummary = ConsoleSummary(
    id: string,
    isolationId: string,
    name: string,
    url: string,
    isRunning: bool)

  /** A possible answer; `caption` is the choice's `label` (a reserved word in Dafny). */
  datatype VmQuestionChoice = VmQuestionChoice(key: string, caption: string)

  datatype VmQuestion = VmQuestion(
    id: string,
    prompt: string,
    defaultChoice: string,
    choices: seq<VmQuestionChoice>)

  datatype Vm = Vm(id: string, name: string, question: Option<VmQuestion>)
}
