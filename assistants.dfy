/** The request that creates an assistant (`CreateAssistantRequest`): every
    property is computed once by a constructor and never changes, so the
    request is a value. */
module Assistants {
  import opened Common

  /** A model reference (`LlmTornado.Models.Model`), seen through its name. */
  datatype Model = Model(name: Option<string>)

  /** `Model.GPT35_Turbo`, the fallback model. */
  const Gpt35TurboModel: Model := Model(Some("gpt-3.5-turbo"))

  /** A tool enabled on an assistant; its contents are only carried along. */
  type Tool = Blob

  /** The fields of a fetched or created assistant that the request copies. */
  datatype AssistantResponse = AssistantResponse(
    model: Option<Model>,
    name: Option<string>,
    description: Option<string>,
    instructions: Option<string>,
    tools: Option<seq<Tool>>,
    fileIds: Option<seq<string>>,
    metadata: Option<map<string, string>>)

  datatype CreateAssistantRequest = CreateAssistantRequest(
    model: Model,
    name: Option<string>,
    description: Option<string>,
    instructions: Option<string>,
    tools: Option<seq<Tool>>,
    fileIds: Option<seq<string>>,
    metadata: Option<map<string, string>>)

  /** `IEnumerable<T>.ToList()`: a new list with the same elements in the
      same order. */
  function ToList<T>(items: seq<T>): (r: seq<T>)
    ensures r == items
  {
    if items == [] then [] else [items[0]] + ToList(items[1..])
  }

  /** The model a request uses: the given one, unless it is null or its name
      is null or white space, in which case GPT-3.5 Turbo. */
  function ModelOrDefault(model: Option<Model>): (r: Model)
    ensures model.Some? && !IsNullOrWhiteSpace(model.value.name) ==> r == model.value
    ensures model.None? || IsNullOrWhiteSpace(model.value.name) ==> r == Gpt35TurboModel
    ensures !IsNullOrWhiteSpace(r.name)
  {
    if model.Some? && !IsNullOrWhiteSpace(model.value.name) then model.value
    else
      assert !IsWhiteSpace(Gpt35TurboModel.name.value[0]);
      Gpt35TurboModel
  }

  /** The main constructor: the model defaulted, the lists copied, the other
      arguments stored as given. No length or count limit is checked. */
  function NewCreateAssistantRequest(model: Option<Model> := None, name: Option<string> := None, description: Option<string> := None,
                                     instructions: Option<string> := None, tools: Option<seq<Tool>> := None,
                                     files: Option<seq<string>> := None, metadata: Option<map<string, string>> := None): (r: CreateAssistantRequest)
    ensures r.model == ModelOrDefault(model)
    ensures r.name == name && r.description == description && r.instructions == instructions && r.metadata == metadata
    ensures r.tools == tools && r.fileIds == files
  {
    CreateAssistantRequest(
      ModelOrDefault(model),
      name, description, instructions,
      if tools.Some? then Some(ToList(tools.value)) else None,
      if files.Some? then Some(ToList(files.value)) else None,
      metadata)
  }

  /** The constructor from an assistant: each explicit argument when given,
      else the assistant's own field, passed to the main constructor. */
  function FromAssistant(assistant: AssistantResponse, model: Option<Model> := None, name: Option<string> := None,
                         description: Option<string> := None, instructions: Option<string> := None,
                         tools: Option<seq<Tool>> := None, files: Option<seq<string>> := None,
                         metadata: Option<map<string, string>> := None): (r: CreateAssistantRequest)
    ensures r.model == ModelOrDefault(if model.Some? then model else assistant.model)
    ensures r.name == (if name.Some? then name else assistant.name)
    ensures r.description == (if description.Some? then description else assistant.description)
    ensures r.instructions == (if instructions.Some? then instructions else assistant.instructions)
    ensures r.tools == (if tools.Some? then tools else assistant.tools)
    ensures r.fileIds == (if files.Some? then files else assistant.fileIds)
    ensures r.metadata == (if metadata.Some? then metadata else assistant.metadata)
  {
    NewCreateAssistantRequest(
      model.OrElse(assistant.model), name.OrElse(assistant.name), description.OrElse(assistant.description),
      instructions.OrElse(assistant.instructions), tools.OrElse(assistant.tools), files.OrElse(assistant.fileIds),
      metadata.OrElse(assistant.metadata))
  }

  /** Copying an assistant with no explicit argument reproduces its fields,
      except that a missing or blank model becomes GPT-3.5 Turbo. */
  lemma CopyOfAssistant(assistant: AssistantResponse)
    ensures var r := FromAssistant(assistant);
            && r.name == assistant.name && r.description == assistant.description
            && r.instructions == assistant.instructions && r.tools == assistant.tools
            && r.fileIds == assistant.fileIds && r.metadata == assistant.metadata
            && (assistant.model.Some? && !IsNullOrWhiteSpace(assistant.model.value.name) ==> r.model == assistant.model.value)
  {
  }

  /** The documented limits (256 characters of name, 512 of description, 128
      tools, 20 files, 16 metadata pairs) are not checked: longer inputs are
      stored as they are. */
  lemma LimitsNotEnforced(name: string, description: string, tools: seq<Tool>, files: seq<string>, metadata: map<string, string>)
    requires |name| > 256 && |description| > 512 && |tools| > 128 && |files| > 20 && |metadata| > 16
    ensures var r := NewCreateAssistantRequest(None, Some(name), Some(description), None, Some(tools), Some(files), Some(metadata));
            && r.name == Some(name) && r.description == Some(description) && r.metadata == Some(metadata)
            && r.tools == Some(tools) && r.fileIds == Some(files)
  {
  }
}
