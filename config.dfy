/**
 * Constant tables of the assistant: the ten conversation stages, the exit
 * keywords, the technology taxonomy and the provider auto-detection rule.
 */
module Config {
  import opened Strings

  // ---------------------------------------------------------------------------
  // Conversation stages
  // ---------------------------------------------------------------------------

  datatype Stage =
    | Greeting
    | CollectingName
    | CollectingEmail
    | CollectingPhone
    | CollectingExperience
    | CollectingPosition
    | CollectingLocation
    | CollectingTechStack
    | TechnicalQuestions
    | Completed

  /** The identifier each stage carries in the source (`ConversationState`). */
  function StageId(s: Stage): string {
    match s
    case Greeting => "greeting"
    case CollectingName => "collecting_name"
    case CollectingEmail => "collecting_email"
    case CollectingPhone => "collecting_phone"
    case CollectingExperience => "collecting_experience"
    case CollectingPosition => "collecting_position"
    case CollectingLocation => "collecting_location"
    case CollectingTechStack => "collecting_tech_stack"
    case TechnicalQuestions => "technical_questions"
    case Completed => "completed"
  }

  /** The ten identifiers are pairwise distinct, so they name the stages one-to-one. */
  lemma StageIdsDistinct()
    ensures forall s, t :: StageId(s) == StageId(t) ==> s == t
  {
  }

  /** The stage order used for progress reporting. */
  const StagesOrder: seq<Stage> := [
    Greeting, CollectingName, CollectingEmail, CollectingPhone, CollectingExperience,
    CollectingPosition, CollectingLocation, CollectingTechStack, TechnicalQuestions, Completed
  ]

  /** The listed order is complete and repeats no stage. */
  lemma StagesOrderComplete(s: Stage)
    ensures |StagesOrder| == 10
    ensures s in StagesOrder
    ensures forall i, j :: 0 <= i < j < |StagesOrder| ==> StagesOrder[i] != StagesOrder[j]
  {
  }

  // ---------------------------------------------------------------------------
  // Exit keywords
  // ---------------------------------------------------------------------------

  const ExitKeywords: seq<string> := [
    "quit", "exit", "bye", "goodbye", "end", "stop", "cancel", "terminate", "close", "done"
  ]

  /** Ten keywords, all lower-case, so lower-casing the input is enough for a case-insensitive match. */
  lemma ExitKeywordsLowerCase()
    ensures |ExitKeywords| == 10
    ensures forall k :: k in ExitKeywords ==> IsLowerCase(k) && k != []
  {
  }

  // ---------------------------------------------------------------------------
  // Technology taxonomy
  // ---------------------------------------------------------------------------

  /** An entry of the taxonomy, or of a tech-stack classification: a key and its technologies. */
  datatype Category = Category(key: string, technologies: seq<string>)

  /** The five families of `TECH_CATEGORIES`. */
  datatype Family = ProgrammingLanguages | Frameworks | Databases | Tools | AiMl

  /** The key of a family in `TECH_CATEGORIES`. */
  function Key(f: Family): string {
    match f
    case ProgrammingLanguages => "programming_languages"
    case Frameworks => "frameworks"
    case Databases => "databases"
    case Tools => "tools"
    case AiMl => "ai_ml"
  }

  /** How many technologies a family lists. */
  function TechnologyCount(f: Family): nat {
    match f
    case ProgrammingLanguages => 18
    case Frameworks => 20
    case Databases => 13
    case Tools => 19
    case AiMl => 15
  }

  /** Technology `i` of a family, in the listed order. */
  function Technology(f: Family, i: nat): string
    requires i < TechnologyCount(f)
  {
    match f
    case ProgrammingLanguages => ProgrammingLanguagesEntry(i)
    case Frameworks => FrameworksEntry(i)
    case Databases => DatabasesEntry(i)
    case Tools => ToolsEntry(i)
    case AiMl => AiMlEntry(i)
  }

  function ProgrammingLanguagesEntry(i: nat): string
    requires i < 18
  {
    [
      "python", "java", "javascript", "typescript", "c++", "c#",
      "ruby", "go", "rust", "php", "swift", "kotlin", "scala",
      "r", "matlab", "perl", "shell", "bash"][i]
  }

  function FrameworksEntry(i: nat): string
    requires i < 20
  {
    [
      "django", "flask", "fastapi", "react", "angular", "vue",
      "node.js", "express", "spring", "spring boot", "rails",
      ".net", "nextjs", "nuxt", "svelte", "jquery", "bootstrap",
      "tailwind", "laravel", "symfony"][i]
  }

  function DatabasesEntry(i: nat): string
    requires i < 13
  {
    [
      "mysql", "postgresql", "mongodb", "redis", "elasticsearch",
      "sqlite", "oracle", "cassandra", "dynamodb", "firebase",
      "mariadb", "neo4j", "couchdb"][i]
  }

  function ToolsEntry(i: nat): string
    requires i < 19
  {
    [
      "docker", "kubernetes", "aws", "azure", "gcp", "git",
      "jenkins", "terraform", "ansible", "linux", "nginx",
      "apache", "kafka", "rabbitmq", "graphql", "rest api",
      "ci/cd", "github actions", "gitlab"][i]
  }

  function AiMlEntry(i: nat): string
    requires i < 15
  {
    [
      "tensorflow", "pytorch", "keras", "scikit-learn", "pandas",
      "numpy", "opencv", "nltk", "spacy", "huggingface", "langchain",
      "machine learning", "deep learning", "nlp", "computer vision"][i]
  }
  /** The technologies of a family, in the listed order. */
  function Technologies(f: Family): (r: seq<string>)
    ensures |r| == TechnologyCount(f)
  {
    seq(TechnologyCount(f), i requires 0 <= i < TechnologyCount(f) => Technology(f, i))
  }

  /** `TECH_CATEGORIES`, in declaration order (a Python dict keeps insertion order). */
  const TechCategories: seq<Category> := [
    Category(Key(ProgrammingLanguages), Technologies(ProgrammingLanguages)),
    Category(Key(Frameworks), Technologies(Frameworks)),
    Category(Key(Databases), Technologies(Databases)),
    Category(Key(Tools), Technologies(Tools)),
    Category(Key(AiMl), Technologies(AiMl))
  ]

  /** No duplicate element. */
  predicate Distinct(xs: seq<string>) {
    forall i, j :: 0 <= i < j < |xs| ==> xs[i] != xs[j]
  }

  /** A category list whose entries are lower-case and pairwise distinct. */
  predicate WellFormedList(xs: seq<string>) {
    Distinct(xs) && AllLowerCase(xs)
  }

  /** Every entry is lower-case. */
  predicate AllLowerCase(xs: seq<string>) {
    forall i :: 0 <= i < |xs| ==> IsLowerCase(xs[i])
  }

  lemma DistinctConcat(a: seq<string>, b: seq<string>)
    requires Distinct(a) && Distinct(b)
    requires forall i, j :: 0 <= i < |a| && 0 <= j < |b| ==> a[i] != b[j]
    ensures Distinct(a + b)
  {
  }

  lemma ProgrammingLanguagesDistinct() ensures Distinct(Technologies(ProgrammingLanguages)) {
    var front := ["python", "java", "javascript", "typescript", "c++", "c#", "ruby", "go", "rust"];
    var back := ["php", "swift", "kotlin", "scala", "r", "matlab", "perl", "shell", "bash"];
    assert Technologies(ProgrammingLanguages) == front + back;
    DistinctConcat(front, back);
  }
  lemma ProgrammingLanguagesLowerCase() ensures AllLowerCase(Technologies(ProgrammingLanguages)) {
    ProgrammingLanguagesFrontLowerCase();
    ProgrammingLanguagesBackLowerCase();
  }
  lemma ProgrammingLanguagesFrontLowerCase() ensures forall i :: 0 <= i < 9 ==> IsLowerCase(ProgrammingLanguagesEntry(i)) {}
  lemma ProgrammingLanguagesBackLowerCase() ensures forall i :: 9 <= i < 18 ==> IsLowerCase(ProgrammingLanguagesEntry(i)) {}
  lemma FrameworksDistinct() ensures Distinct(Technologies(Frameworks)) {
    var front := ["django", "flask", "fastapi", "react", "angular", "vue", "node.js", "express", "spring", "spring boot"];
    var back := ["rails", ".net", "nextjs", "nuxt", "svelte", "jquery", "bootstrap", "tailwind", "laravel", "symfony"];
    assert Technologies(Frameworks) == front + back;
    DistinctConcat(front, back);
  }
  lemma FrameworksLowerCase() ensures AllLowerCase(Technologies(Frameworks)) {
    FrameworksFrontLowerCase();
    FrameworksBackLowerCase();
  }
  lemma FrameworksFrontLowerCase() ensures forall i :: 0 <= i < 10 ==> IsLowerCase(FrameworksEntry(i)) {}
  lemma FrameworksBackLowerCase() ensures forall i :: 10 <= i < 20 ==> IsLowerCase(FrameworksEntry(i)) {}
  lemma DatabasesDistinct() ensures Distinct(Technologies(Databases)) {}
  lemma DatabasesLowerCase() ensures AllLowerCase(Technologies(Databases)) {
    DatabasesFrontLowerCase();
    DatabasesBackLowerCase();
  }
  lemma DatabasesFrontLowerCase() ensures forall i :: 0 <= i < 7 ==> IsLowerCase(DatabasesEntry(i)) {}
  lemma DatabasesBackLowerCase() ensures forall i :: 7 <= i < 13 ==> IsLowerCase(DatabasesEntry(i)) {}
  lemma ToolsDistinct() ensures Distinct(Technologies(Tools)) {
    var front := ["docker", "kubernetes", "aws", "azure", "gcp", "git", "jenkins", "terraform", "ansible", "linux"];
    var back := ["nginx", "apache", "kafka", "rabbitmq", "graphql", "rest api", "ci/cd", "github actions", "gitlab"];
    assert Technologies(Tools) == front + back;
    DistinctConcat(front, back);
  }
  lemma ToolsLowerCase() ensures AllLowerCase(Technologies(Tools)) {
    ToolsFrontLowerCase();
    ToolsBackLowerCase();
  }
  lemma ToolsFrontLowerCase() ensures forall i :: 0 <= i < 10 ==> IsLowerCase(ToolsEntry(i)) {}
  lemma ToolsBackLowerCase() ensures forall i :: 10 <= i < 19 ==> IsLowerCase(ToolsEntry(i)) {}
  lemma AiMlDistinct() ensures Distinct(Technologies(AiMl)) {}
  lemma AiMlLowerCase() ensures AllLowerCase(Technologies(AiMl)) {
    AiMlFrontLowerCase();
    AiMlBackLowerCase();
  }
  lemma AiMlFrontLowerCase() ensures forall i :: 0 <= i < 8 ==> IsLowerCase(AiMlEntry(i)) {}
  lemma AiMlBackLowerCase() ensures forall i :: 8 <= i < 15 ==> IsLowerCase(AiMlEntry(i)) {}

  /** Five categories with distinct keys; every entry is lower-case and no category lists an entry twice. */
  lemma TaxonomyWellFormed()
    ensures |TechCategories| == 5
    ensures forall i, j :: 0 <= i < j < |TechCategories| ==> TechCategories[i].key != TechCategories[j].key
    ensures forall k :: 0 <= k < |TechCategories| ==> WellFormedList(TechCategories[k].technologies)
  {
    ProgrammingLanguagesDistinct();
    ProgrammingLanguagesLowerCase();
    FrameworksDistinct();
    FrameworksLowerCase();
    DatabasesDistinct();
    DatabasesLowerCase();
    ToolsDistinct();
    ToolsLowerCase();
    AiMlDistinct();
    AiMlLowerCase();
  }

  // ---------------------------------------------------------------------------
  // Provider auto-detection
  // ---------------------------------------------------------------------------

  /** The environment settings the detection reads (`LLM_PROVIDER` and the three API keys). */
  datatype ProviderSettings = ProviderSettings(
    defaultProvider: string, groqKey: string, openaiKey: string, huggingfaceKey: string)

  /** `get_available_provider`. */
  function GetAvailableProvider(env: ProviderSettings): (r: string)
    ensures env.defaultProvider != "auto" ==> r == env.defaultProvider
    ensures env.defaultProvider == "auto" ==> r in {"groq", "openai", "huggingface", "none"}
    ensures env.defaultProvider == "auto" ==>
      (r == "none" <==> env.groqKey == "" && env.openaiKey == "" && env.huggingfaceKey == "")
    ensures env.defaultProvider == "auto" && env.groqKey != "" ==> r == "groq"
    ensures env.defaultProvider == "auto" && env.groqKey == "" && env.openaiKey != "" ==> r == "openai"
    ensures env.defaultProvider == "auto" && env.groqKey == "" && env.openaiKey == "" && env.huggingfaceKey != "" ==>
      r == "huggingface"
  {
    if env.defaultProvider != "auto" then env.defaultProvider
    else if env.groqKey != "" then "groq"
    else if env.openaiKey != "" then "openai"
    else if env.huggingfaceKey != "" then "huggingface"
    else "none"
  }
}
