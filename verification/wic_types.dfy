/** The catalog's record types. */
module WicTypes {
  import opened JsonValues
  import Dicts

  /** A tool or workflow is identified by its file stem and the namespace of
      the configuration line it was found under. */
  datatype StepId = StepId(stem: string, namespace: string)

  /** A CommandLineTool: the path it was read from and its parsed document. */
  datatype Tool = Tool(path: string, cwl: Fields)

  /** The tool catalog, in the order tools were first found. */
  type Tools = Dicts.Dict<StepId, Tool>
}
