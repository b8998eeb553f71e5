/** The shared enumerations of types.ts. */
module Types {

  /** The two backend model variants the console can call. */
  datatype GeminiModel = Flash | Pro

  /** The identifier sent to the backend for each model. */
  function ModelId(model: GeminiModel): string
  {
    match model
    case Flash => "gemini-2.5-flash"
    case Pro => "gemini-3-pro-preview"
  }

  /** Distinct models are sent under distinct identifiers. */
  lemma ModelIdInjective(a: GeminiModel, b: GeminiModel)
    ensures ModelId(a) == ModelId(b) <==> a == b
  {
    if a != b {
      assert ModelId(Flash)[7] != ModelId(Pro)[7];
    }
  }
}
