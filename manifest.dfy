/** The tool list `create_assistant` registers with the service
    (utils.py:6-67, 99-102): the two built-in tools followed by the two
    function tools, each function with its JSON-schema parameters. */
module Manifest {

  /** The shape of a parameter's JSON schema. */
  datatype ParamKind =
    | StringParam
    | StringArray
    | ObjectArray(fields: seq<string>)   // an array of objects with these string fields

  datatype Param = Param(name: string, kind: ParamKind)

  datatype ToolSpec =
    | FileSearchTool
    | CodeInterpreterTool
    | FunctionTool(name: string, params: seq<Param>, required: seq<string>)

  /** The `"type"` of a tool entry, and for a function tool its name. */
  function ToolName(t: ToolSpec): string {
    match t
    case FileSearchTool => "file_search"
    case CodeInterpreterTool => "code_interpreter"
    case FunctionTool(name, _, _) => name
  }

  function ToolNames(tools: seq<ToolSpec>): (r: seq<string>)
    ensures |r| == |tools|
    ensures forall i :: 0 <= i < |tools| ==> r[i] == ToolName(tools[i])
  {
    seq(|tools|, i requires 0 <= i < |tools| => ToolName(tools[i]))
  }

  function ParamNames(params: seq<Param>): (r: seq<string>)
    ensures |r| == |params|
    ensures forall i :: 0 <= i < |params| ==> r[i] == params[i].name
  {
    seq(|params|, i requires 0 <= i < |params| => params[i].name)
  }

  /** `function_tools` (utils.py:6-68). */
  function FunctionTools(): seq<ToolSpec> {
    [ FunctionTool("find_linkedin_profiles",
                   [Param("team_members", ObjectArray(["name", "role", "company"]))],
                   ["team_members"]),
      FunctionTool("find_similar_startups",
                   [Param("business_description", StringParam),
                    Param("industry", StringParam),
                    Param("keywords", StringArray)],
                   ["business_description"]) ]
  }

  /** The `tools=` argument (utils.py:99-102). */
  function AssistantTools(): seq<ToolSpec> {
    [FileSearchTool, CodeInterpreterTool] + FunctionTools()
  }

  /** A function tool demands only parameters it declares, and declares
      each name once. */
  predicate WellFormed(t: ToolSpec) {
    t.FunctionTool? ==>
      (forall r :: r in t.required ==> r in ParamNames(t.params))
      && forall i, j :: 0 <= i < j < |t.params| ==> t.params[i].name != t.params[j].name
  }

  /** The tools in registration order. */
  lemma ToolOrder()
    ensures ToolNames(AssistantTools())
            == ["file_search", "code_interpreter", "find_linkedin_profiles", "find_similar_startups"]
  {
  }

  /** Every tool is well formed and no two tools share a name, so a tool
      call's function name picks out one declared function. */
  lemma ManifestIsWellFormed()
    ensures forall i :: 0 <= i < |AssistantTools()| ==> WellFormed(AssistantTools()[i])
    ensures forall i, j :: 0 <= i < j < |AssistantTools()| ==>
              ToolName(AssistantTools()[i]) != ToolName(AssistantTools()[j])
  {
    var tools := AssistantTools();
    assert ParamNames(tools[2].params) == ["team_members"];
    assert ParamNames(tools[3].params) == ["business_description", "industry", "keywords"];
  }

  /** `find_linkedin_profiles` requires the team list; `find_similar_startups`
      requires only the business description, leaving industry and keywords
      optional. */
  lemma RequiredParameters()
    ensures AssistantTools()[2].required == ["team_members"]
    ensures AssistantTools()[3].required == ["business_description"]
    ensures "industry" in ParamNames(AssistantTools()[3].params)
            && "industry" !in AssistantTools()[3].required
    ensures "keywords" in ParamNames(AssistantTools()[3].params)
            && "keywords" !in AssistantTools()[3].required
  {
    var names := ParamNames(AssistantTools()[3].params);
    assert names[1] == "industry" && names[2] == "keywords";
  }
}
