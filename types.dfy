/** The data the study assistant passes around: the structured study material the
    AI content service returns and the enumeration of views over it (types.ts).
    These are plain values; nothing in this module has behaviour. */
module StudyTypes {

  /** An optional value; stands for `T | null` and for optional (`?:`) fields. */
  datatype Option<+T> = None | Some(value: T)

  /** The seven views the study display offers over one StudyMaterials value. */
  datatype StudyTool =
    | DetailedSummary
    | TextualMindMap
    | DiagramSuggestions
    | Mnemonics
    | Quiz
    | VisualResources
    | ExtraTips

  /** The `'video' | 'image'` tag of a visual resource. */
  datatype ResourceKind = Video | Image

  datatype VisualResource = VisualResource(title: string, url: string, kind: ResourceKind)

  datatype DiagramSuggestion = DiagramSuggestion(name: string, description: string, steps: seq<string>)

  /** A quiz question; `options` maps an option key to the option's text. */
  datatype MultipleChoiceQuestion = MultipleChoiceQuestion(
    question: string,
    options: map<string, string>,
    correctAnswerKey: string,
    explanation: Option<string>)

  /** The document the AI content service produces; `visualResources` may be absent. */
  datatype StudyMaterials = StudyMaterials(
    detailedSummary: string,
    textualMindMap: string,
    diagramSuggestions: seq<DiagramSuggestion>,
    mnemonics: seq<string>,
    multipleChoiceQuestions: seq<MultipleChoiceQuestion>,
    visualResources: Option<seq<VisualResource>>,
    extraTips: seq<string>)
}
