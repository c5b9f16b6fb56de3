/**
 * The intake conversation of the hiring assistant as a state machine on
 * values: a session (stage, candidate profile, technical questions, question
 * index, history) and the step one user message takes it through.  The class
 * in the Chatbot module is proved to update its fields exactly as `Step` says.
 *
 * The language model is an oracle: a total function from a prompt and the
 * system context to an optional text, `None` standing for a failed call.
 */
module Conversation {
  import opened Wrappers
  import opened Strings
  import opened Config
  import opened Utils
  import opened Questions
  import Replies

  // ---------------------------------------------------------------------------
  // Candidate profile
  // ---------------------------------------------------------------------------

  /** One recorded technical answer. */
  datatype QA = QA(question: string, answer: string)

  /** The `candidate_info` dictionary; `None` is a field not collected yet. */
  datatype Profile = Profile(
    name: Option<string>,
    email: Option<string>,
    phone: Option<string>,
    experienceYears: Option<nat>,
    desiredPosition: Option<string>,
    location: Option<string>,
    techStack: Option<TechStack>,
    techStackRaw: Option<string>,
    technicalAnswers: seq<QA>)

  const EmptyProfile: Profile := Profile(None, None, None, None, None, None, None, None, [])

  /** What the safe view shows instead of an e-mail address or a phone number. */
  const Provided: string := "[PROVIDED]"

  /** `_get_safe_candidate_info`: the profile with a non-empty e-mail address and phone number hidden. */
  function SafeCandidateInfo(info: Profile): (r: Profile)
    ensures r.(email := info.email, phone := info.phone) == info
    ensures r.email.Some? <==> info.email.Some?
    ensures r.phone.Some? <==> info.phone.Some?
    ensures r.email.Some? ==> r.email.value == Provided || r.email.value == []
    ensures r.phone.Some? ==> r.phone.value == Provided || r.phone.value == []
  {
    var email := if info.email.Some? && info.email.value != [] then Some(Provided) else info.email;
    var phone := if info.phone.Some? && info.phone.value != [] then Some(Provided) else info.phone;
    info.(email := email, phone := phone)
  }

  // ---------------------------------------------------------------------------
  // Prompts and the generator
  // ---------------------------------------------------------------------------

  /** The prompt templates, each with the values it is formatted with. */
  datatype Prompt =
    | GreetingPrompt
    | EmailPrompt(name: string)
    | PhonePrompt(email: string)
    | ExperiencePrompt
    | PositionPrompt(years: nat)
    | LocationPrompt(position: string)
    | TechStackPrompt
    | QuestionsPrompt(stackText: string, count: nat, desiredPosition: Option<string>, experienceYears: Option<nat>)
    | CompletionPrompt

  /** The system prompt's parameters: the current stage and the safe view of the profile. */
  datatype SystemContext = SystemContext(stage: Stage, info: Profile)

  /** A provider's `generate`: `None` when the call fails. */
  type Generator = (Prompt, SystemContext) -> Option<string>

  /** A provider that never answers. */
  const Unavailable: Generator := (p: Prompt, c: SystemContext) => None

  // ---------------------------------------------------------------------------
  // Replies
  // ---------------------------------------------------------------------------

  /**
   * What the assistant says, or what the candidate said: free text, a fixed
   * reply, a question presented with its position, or the personalised
   * farewell.  `Render` gives the text of each.
   */
  datatype Message =
    | Said(text: string)
    | Canned(fixed: Replies.Fixed)
    | FirstQuestion(total: nat, question: string)
    | NextQuestion(number: nat, total: nat, question: string)
    | Goodbye(name: string)

  /** The text of a message, as the assistant formats it. */
  function Render(m: Message): string {
    match m
    case Said(text) => text
    case Canned(f) => Replies.Text(f)
    case FirstQuestion(total, q) =>
      Replies.Part(Replies.IntroStart) + NatToString(total) + Replies.Part(Replies.IntroMiddle) + NatToString(total) + Replies.Part(Replies.HeaderEnd) + q
    case NextQuestion(number, total, q) =>
      Replies.Part(Replies.AnswerStart) + NatToString(number) + "/" + NatToString(total) + Replies.Part(Replies.HeaderEnd) + q
    case Goodbye(name) => Replies.Part(Replies.FarewellStart) + name + Replies.Part(Replies.FarewellEnd)
  }

  /** A presented question closes its message, after a header line. */
  lemma QuestionClosesMessage(m: Message)
    requires m.FirstQuestion? || m.NextQuestion?
    ensures var text, n := Render(m), |m.question|;
      n < |text| && text[|text| - n..] == m.question && text[|text| - n - 1] == '\n'
  {
    var text, q := Render(m), m.question;
    var header := text[..|text| - |q|];
    assert header + q == text;
    var headerEnd := Replies.Part(Replies.HeaderEnd);
    assert headerEnd[|headerEnd| - 1] == '\n';
  }

  /** `_get_fallback_response`: the canned reply for a stage. */
  function FallbackResponse(stage: Stage): Replies.Fixed {
    match stage
    case Greeting => Replies.GreetingFallback
    case CollectingName => Replies.NameFallback
    case CollectingEmail => Replies.EmailFallback
    case CollectingPhone => Replies.PhoneFallback
    case CollectingExperience => Replies.ExperienceFallback
    case CollectingPosition => Replies.PositionFallback
    case CollectingLocation => Replies.LocationFallback
    case CollectingTechStack => Replies.Apology
    case TechnicalQuestions => Replies.TechnicalFallback
    case Completed => Replies.CompletedFallback
  }

  /** Only the tech-stack stage, which has no entry of its own, falls back to the apology. */
  lemma ApologyOnlyAtTechStack(stage: Stage)
    ensures FallbackResponse(stage) == Replies.Apology <==> stage == CollectingTechStack
  {
  }

  /** `_call_llm`: the generated text, or the current stage's fallback when the call fails. */
  function CallLlm(gen: Generator, prompt: Prompt, stage: Stage, info: Profile): (r: Message)
    ensures gen(prompt, SystemContext(stage, SafeCandidateInfo(info))).Some? ==>
      r == Said(gen(prompt, SystemContext(stage, SafeCandidateInfo(info))).value)
    ensures gen(prompt, SystemContext(stage, SafeCandidateInfo(info))).None? ==>
      r == Canned(FallbackResponse(stage))
  {
    match gen(prompt, SystemContext(stage, SafeCandidateInfo(info)))
    case Some(text) => Said(text)
    case None => Canned(FallbackResponse(stage))
  }

  // ---------------------------------------------------------------------------
  // Sessions
  // ---------------------------------------------------------------------------

  datatype Role = User | Assistant

  /** One `conversation_history` entry: who spoke, what was said, and the stage: the one the message arrived in for the user, the one after the move for the assistant. */
  datatype HistoryEntry = HistoryEntry(role: Role, content: Message, stage: Stage)

  /** The assistant's state. */
  datatype Session = Session(
    stage: Stage,
    info: Profile,
    questions: seq<string>,
    index: nat,
    history: seq<HistoryEntry>)

  /** A handler's result: the new session, the reply, and the profile saved on completion. */
  datatype Turn = Turn(session: Session, reply: Message, saved: Option<Profile>)

  /** `process_input`'s result, with the new session and the saved profile. */
  datatype Outcome = Outcome(session: Session, reply: Message, ended: bool, saved: Option<Profile>)

  /** The state `reset_conversation` sets. */
  const Initial: Session := Session(Greeting, EmptyProfile, [], 0, [])

  /** What every operation keeps: the question index stays within the question list. */
  predicate Valid(s: Session) {
    && s.index <= |s.questions|
    && (s.stage == TechnicalQuestions ==> s.index < |s.questions|)
  }

  /** Position of a stage in the progress order (`states_order.index`). */
  function StageIndex(stage: Stage): (k: nat)
    ensures k < |StagesOrder| && StagesOrder[k] == stage
  {
    match stage
    case Greeting => 0
    case CollectingName => 1
    case CollectingEmail => 2
    case CollectingPhone => 3
    case CollectingExperience => 4
    case CollectingPosition => 5
    case CollectingLocation => 6
    case CollectingTechStack => 7
    case TechnicalQuestions => 8
    case Completed => 9
  }

  /** Each profile field is filled exactly when the stage with index `k` is past its own, with a value that passed its check. */
  predicate FieldsFollowStage(info: Profile, k: nat) {
    && (info.name.Some? <==> k >= 2)
    && (info.name.Some? ==> |info.name.value| >= 2)
    && (info.email.Some? <==> k >= 3)
    && (info.email.Some? ==> ValidateEmail(info.email.value))
    && (info.phone.Some? <==> k >= 4)
    && (info.phone.Some? ==> ValidatePhone(info.phone.value))
    && (info.experienceYears.Some? <==> k >= 5)
    && (info.experienceYears.Some? ==> info.experienceYears.value <= 50)
    && (info.desiredPosition.Some? <==> k >= 6)
    && (info.desiredPosition.Some? ==> |info.desiredPosition.value| >= 2)
    && (info.location.Some? <==> k >= 7)
    && (info.location.Some? ==> |info.location.value| >= 2)
    && (info.techStackRaw.Some? <==> k >= 8)
    && (info.techStackRaw.Some? ==>
          |info.techStackRaw.value| >= 5 && info.techStack == Some(TechStackOf(info.techStackRaw.value)))
    && (info.techStack.Some? <==> k >= 8)
  }

  /**
   * No question before the tech stack is known, three to five after; the
   * answers recorded so far answer the questions asked, in order, and all
   * are answered once the screening is complete.
   */
  predicate AnswersFollowQuestions(s: Session) {
    var k := StageIndex(s.stage);
    && (k < 8 ==> s.questions == [] && s.index == 0)
    && (k >= 8 ==> 3 <= |s.questions| <= 5)
    && s.index <= |s.questions|
    && |s.info.technicalAnswers| == s.index
    && (forall j :: 0 <= j < s.index ==> s.info.technicalAnswers[j].question == s.questions[j])
    && (s.stage == TechnicalQuestions ==> s.index < |s.questions|)
    && (s.stage == Completed ==> s.index == |s.questions|)
  }

  /** A session reached from the initial one by user messages. */
  predicate InFlow(s: Session) {
    FieldsFollowStage(s.info, StageIndex(s.stage)) && AnswersFollowQuestions(s)
  }

  lemma InFlowIsValid(s: Session)
    requires InFlow(s)
    ensures Valid(s)
  {
  }

  lemma InitialInFlow()
    ensures InFlow(Initial) && Valid(Initial)
  {
  }

  // ---------------------------------------------------------------------------
  // Replies built from parts
  // ---------------------------------------------------------------------------

  /** `_handle_exit`'s text: personalised when a non-empty name is known. */
  function Farewell(name: Option<string>): Message {
    if name.Some? && name.value != [] then Goodbye(name.value) else Canned(Replies.FarewellAnonymous)
  }

  /** The reply presenting the first of `qs`. */
  function IntroReply(qs: seq<string>): Message
    requires qs != []
  {
    FirstQuestion(|qs|, qs[0])
  }

  /** A known non-empty name appears in the farewell; without one the generic farewell is given. */
  lemma FarewellNamesCandidate(name: Option<string>)
    ensures name.Some? && name.value != [] ==> Contains(Render(Farewell(name)), name.value)
    ensures name.None? ==> Farewell(name) == Canned(Replies.FarewellAnonymous)
  {
    if name.Some? && name.value != [] {
      ContainsAt(name.value, name.value, 0);
      ContainsInConcat(Replies.Part(Replies.FarewellStart), name.value, Replies.Part(Replies.FarewellEnd), name.value);
    }
  }

  // ---------------------------------------------------------------------------
  // Technical questions
  // ---------------------------------------------------------------------------

  /** The question-generation prompt for a profile whose raw tech stack is known. */
  function QuestionsRequest(info: Profile): Prompt
    requires info.techStackRaw.Some?
  {
    QuestionsPrompt(info.techStackRaw.value, 5, info.desiredPosition, info.experienceYears)
  }

  /**
   * The text parsed for questions: the model's reply to the question prompt,
   * or, when the call fails, the apology.  The handler asks while the stage is
   * still COLLECTING_TECH_STACK, whose fallback the apology is.
   */
  function QuestionsReply(gen: Generator, info: Profile): string
    requires info.techStackRaw.Some?
  {
    var m := CallLlm(gen, QuestionsRequest(info), CollectingTechStack, info);
    if m.Said? then m.text else Replies.Text(Replies.Apology)
  }

  /** The parsed text is the text of the reply to the question prompt. */
  lemma QuestionsReplyRendered(gen: Generator, info: Profile)
    requires info.techStackRaw.Some?
    ensures QuestionsReply(gen, info) == Render(CallLlm(gen, QuestionsRequest(info), CollectingTechStack, info))
  {
  }

  /** The questions parsed from a reply that are longer than ten characters. */
  function ParsedReply(reply: string): seq<string> {
    KeepLong(ParseQuestions(reply))
  }

  /**
   * `_generate_technical_questions` once the reply is known: the long
   * questions parsed from it, or the canned ones for the lower-cased stack
   * `tech` when fewer than three are found; at most five.
   */
  function GeneratedQuestions(reply: string, tech: string): (r: seq<string>)
    ensures 3 <= |r| <= 5
  {
    var parsed := ParsedReply(reply);
    if |parsed| < 3 then FallbackQuestions(tech) else Take(parsed, 5)
  }

  /**
   * The generated questions are the first five long questions of the reply when
   * it has three or more, and otherwise the canned questions for the stack.
   */
  lemma GeneratedQuestionsChoice(reply: string, tech: string)
    ensures var parsed, r := ParsedReply(reply), GeneratedQuestions(reply, tech);
      && (|parsed| >= 3 ==> r == Take(parsed, 5) && forall q :: q in r ==> |q| > 10)
      && (|parsed| < 3 ==> r == FallbackQuestions(tech))
  {
    var parsed, r := ParsedReply(reply), GeneratedQuestions(reply, tech);
    if |parsed| >= 3 {
      KeepLongMembers(ParseQuestions(reply));
      assert forall q :: q in r ==> q in parsed;
    }
  }

  /** A single trimmed line that does not start like a question opens no question. */
  lemma OneLineNoQuestions(text: string)
    requires '\n' !in text && Trimmed(text) && !StartsQuestion(text)
    ensures ParseQuestions(text) == []
  {
    StripTrimmed(text);
    assert Split(text, '\n') == [text];
    NoHeadsNoQuestions(text);
  }

  /** The apology is one line starting and ending with a letter or a stop. */
  lemma ApologyIsOneLine()
    ensures var text := Replies.Text(Replies.Apology);
      '\n' !in text && Trimmed(text) && !StartsQuestion(text)
  {
  }

  /** The apology text opens no question. */
  lemma ApologyHasNoQuestions()
    ensures ParseQuestions(Replies.Text(Replies.Apology)) == []
  {
    ApologyIsOneLine();
    OneLineNoQuestions(Replies.Text(Replies.Apology));
  }

  /** Without a provider the questions are the canned ones for the lower-cased tech stack. */
  lemma UnavailableGivesCannedQuestions(info: Profile)
    requires info.techStackRaw.Some?
    ensures var tech := Lower(info.techStackRaw.value);
      GeneratedQuestions(QuestionsReply(Unavailable, info), tech) == FallbackQuestions(tech)
  {
    assert QuestionsReply(Unavailable, info) == Replies.Text(Replies.Apology);
    ApologyHasNoQuestions();
    assert ParsedReply(Replies.Text(Replies.Apology)) == [];
  }

  // ---------------------------------------------------------------------------
  // Stage handlers
  // ---------------------------------------------------------------------------

  /** `_handle_greeting`: the model is asked while the stage is still the old one, then the name is due. */
  function HandleGreeting(gen: Generator, s: Session): (t: Turn)
    ensures t.session == s.(stage := CollectingName)
    ensures t.saved.None?
  {
    Turn(s.(stage := CollectingName), CallLlm(gen, GreetingPrompt, s.stage, s.info), None)
  }

  /** `_handle_name`: at least two characters after stripping, stored title-cased. */
  function HandleName(gen: Generator, s: Session, input: string): (t: Turn) {
    var name := Strip(input);
    if |name| < 2 then Turn(s, Canned(Replies.NameRetry), None)
    else
      var info := s.info.(name := Some(Title(name)));
      Turn(s.(stage := CollectingEmail, info := info), CallLlm(gen, EmailPrompt(Title(name)), CollectingEmail, info), None)
  }

  /** `_handle_email`: stripped and lower-cased, stored when it passes `validate_email`. */
  function HandleEmail(gen: Generator, s: Session, input: string): (t: Turn) {
    var email := Lower(Strip(input));
    if !ValidateEmail(email) then Turn(s, Canned(Replies.EmailRetry), None)
    else
      var info := s.info.(email := Some(email));
      Turn(s.(stage := CollectingPhone, info := info), CallLlm(gen, PhonePrompt("[provided]"), CollectingPhone, info), None)
  }

  /** `_handle_phone`: stripped, stored when it passes `validate_phone`. */
  function HandlePhone(gen: Generator, s: Session, input: string): (t: Turn) {
    var phone := Strip(input);
    if !ValidatePhone(phone) then Turn(s, Canned(Replies.PhoneRetry), None)
    else
      var info := s.info.(phone := Some(phone));
      Turn(s.(stage := CollectingExperience, info := info), CallLlm(gen, ExperiencePrompt, CollectingExperience, info), None)
  }

  /** `_handle_experience`: the years `validate_experience` reads from the unstripped input. */
  function HandleExperience(gen: Generator, s: Session, input: string): (t: Turn) {
    match ValidateExperience(input)
    case None => Turn(s, Canned(Replies.ExperienceRetry), None)
    case Some(years) =>
      var info := s.info.(experienceYears := Some(years));
      Turn(s.(stage := CollectingPosition, info := info), CallLlm(gen, PositionPrompt(years), CollectingPosition, info), None)
  }

  /** `_handle_position`: at least two characters after stripping. */
  function HandlePosition(gen: Generator, s: Session, input: string): (t: Turn) {
    var position := Strip(input);
    if |position| < 2 then Turn(s, Canned(Replies.PositionRetry), None)
    else
      var info := s.info.(desiredPosition := Some(position));
      Turn(s.(stage := CollectingLocation, info := info), CallLlm(gen, LocationPrompt(position), CollectingLocation, info), None)
  }

  /** `_handle_location`: at least two characters after stripping. */
  function HandleLocation(gen: Generator, s: Session, input: string): (t: Turn) {
    var location := Strip(input);
    if |location| < 2 then Turn(s, Canned(Replies.LocationRetry), None)
    else
      var info := s.info.(location := Some(location));
      Turn(s.(stage := CollectingTechStack, info := info), CallLlm(gen, TechStackPrompt, CollectingTechStack, info), None)
  }

  /**
   * `_handle_tech_stack`: at least five characters after stripping; the raw
   * text and its classification are stored, the questions generated (while
   * the stage is still the old one) and the first one presented.
   */
  function HandleTechStack(gen: Generator, s: Session, input: string): (t: Turn) {
    var stack := Strip(input);
    if |stack| < 5 then Turn(s, Canned(Replies.TechStackRetry), None)
    else
      var info := s.info.(techStackRaw := Some(stack), techStack := Some(TechStackOf(stack)));
      var qs := GeneratedQuestions(QuestionsReply(gen, info), Lower(stack));
      Turn(s.(stage := TechnicalQuestions, info := info, questions := qs, index := 0), IntroReply(qs), None)
  }

  /** `_complete_screening`: the stage becomes final, the profile is saved and the closing text generated. */
  function CompleteScreening(gen: Generator, s: Session): (t: Turn)
    ensures t.session == s.(stage := Completed)
    ensures t.saved == Some(s.info)
  {
    Turn(s.(stage := Completed), CallLlm(gen, CompletionPrompt, Completed, s.info), Some(s.info))
  }

  /** `_handle_technical_answer`: the stripped answer is recorded against the current question. */
  function HandleTechnicalAnswer(gen: Generator, s: Session, input: string): (t: Turn)
    requires s.index < |s.questions|
  {
    var info := s.info.(technicalAnswers := s.info.technicalAnswers + [QA(s.questions[s.index], Strip(input))]);
    var next := s.index + 1;
    var s' := s.(info := info, index := next);
    if next < |s.questions| then
      Turn(s', NextQuestion(next + 1, |s.questions|, s.questions[next]), None)
    else
      CompleteScreening(gen, s')
  }

  /** `_process_state`: dispatch on the stage; a completed session repeats the closing fallback. */
  function ProcessState(gen: Generator, s: Session, input: string): (t: Turn)
    requires Valid(s)
    ensures Valid(t.session) && t.session.history == s.history
    ensures t.saved.Some? ==> t.session.stage == Completed && s.stage == TechnicalQuestions
  {
    match s.stage
    case Greeting => HandleGreeting(gen, s)
    case CollectingName => HandleName(gen, s, input)
    case CollectingEmail => HandleEmail(gen, s, input)
    case CollectingPhone => HandlePhone(gen, s, input)
    case CollectingExperience => HandleExperience(gen, s, input)
    case CollectingPosition => HandlePosition(gen, s, input)
    case CollectingLocation => HandleLocation(gen, s, input)
    case CollectingTechStack => HandleTechStack(gen, s, input)
    case TechnicalQuestions => HandleTechnicalAnswer(gen, s, input)
    case Completed => Turn(s, Canned(FallbackResponse(Completed)), None)
  }

  /**
   * `process_input`: sanitise; an exit command ends the conversation at once
   * without touching the session; otherwise the message and the reply are
   * recorded around the stage handler, and the conversation has ended when
   * the stage is final.
   */
  function Step(gen: Generator, s: Session, rawInput: string): (out: Outcome)
    requires Valid(s)
    ensures Valid(out.session)
  {
    var input := SanitizeInput(rawInput);
    if IsExitCommand(input) then Outcome(s, Farewell(s.info.name), true, None)
    else
      var s1 := s.(history := s.history + [HistoryEntry(User, Said(input), s.stage)]);
      var t := ProcessState(gen, s1, input);
      var s2 := t.session.(history := t.session.history + [HistoryEntry(Assistant, t.reply, t.session.stage)]);
      Outcome(s2, t.reply, s2.stage == Completed, t.saved)
  }

  /** `get_greeting`: the greeting handler, from whatever stage. */
  function GetGreeting(gen: Generator, s: Session): (t: Turn)
    requires Valid(s)
    ensures Valid(t.session)
  {
    HandleGreeting(gen, s)
  }

  // ---------------------------------------------------------------------------
  // Properties of a step
  // ---------------------------------------------------------------------------

  /** The stages that collect one profile field. */
  predicate Collecting(stage: Stage) {
    1 <= StageIndex(stage) <= 7
  }

  /** Whether the (sanitised) message is an acceptable answer at a collecting stage. */
  predicate Accepts(stage: Stage, input: string)
    requires Collecting(stage)
  {
    match stage
    case CollectingName => |Strip(input)| >= 2
    case CollectingEmail => ValidateEmail(Lower(Strip(input)))
    case CollectingPhone => ValidatePhone(Strip(input))
    case CollectingExperience => ValidateExperience(input).Some?
    case CollectingPosition => |Strip(input)| >= 2
    case CollectingLocation => |Strip(input)| >= 2
    case CollectingTechStack => |Strip(input)| >= 5
  }

  /** The reply asking again at a collecting stage. */
  function RetryReply(stage: Stage): Message
    requires Collecting(stage)
  {
    match stage
    case CollectingName => Canned(Replies.NameRetry)
    case CollectingEmail => Canned(Replies.EmailRetry)
    case CollectingPhone => Canned(Replies.PhoneRetry)
    case CollectingExperience => Canned(Replies.ExperienceRetry)
    case CollectingPosition => Canned(Replies.PositionRetry)
    case CollectingLocation => Canned(Replies.LocationRetry)
    case CollectingTechStack => Canned(Replies.TechStackRetry)
  }

  /** An exit command ends the conversation with the farewell and leaves the session, history included, as it was. */
  lemma ExitEndsConversation(gen: Generator, s: Session, rawInput: string)
    requires Valid(s)
    requires IsExitCommand(SanitizeInput(rawInput))
    ensures Step(gen, s, rawInput) == Outcome(s, Farewell(s.info.name), true, None)
  {
  }

  /**
   * Any other message is recorded with the stage it arrived in, the reply is
   * recorded with the stage it leaves, the conversation has ended exactly
   * when the stage is final, and only the question list, the index, the
   * stage and the profile may change besides.
   */
  lemma StepRecordsHistory(gen: Generator, s: Session, rawInput: string)
    requires Valid(s)
    requires !IsExitCommand(SanitizeInput(rawInput))
    ensures var out := Step(gen, s, rawInput);
      && out.session.history == s.history + [
           HistoryEntry(User, Said(SanitizeInput(rawInput)), s.stage),
           HistoryEntry(Assistant, out.reply, out.session.stage)]
      && out.ended == (out.session.stage == Completed)
  {
  }

  /**
   * At a collecting stage a rejected answer changes nothing but the history
   * and is answered by the stage's retry text; an accepted one moves to the
   * next stage.  Neither ends the conversation nor saves anything.
   */
  lemma StepAtCollectingStage(gen: Generator, s: Session, rawInput: string)
    requires Valid(s) && Collecting(s.stage)
    requires !IsExitCommand(SanitizeInput(rawInput))
    ensures var out := Step(gen, s, rawInput);
      && !out.ended && out.saved.None?
      && (!Accepts(s.stage, SanitizeInput(rawInput)) ==>
            out.session == s.(history := out.session.history) && out.reply == RetryReply(s.stage))
      && (Accepts(s.stage, SanitizeInput(rawInput)) ==>
            && StageIndex(out.session.stage) == StageIndex(s.stage) + 1
            && StoresOnlyItsField(s, SanitizeInput(rawInput), out.session))
  {
    if s.stage == CollectingTechStack {
      TechStackCollectingStep(gen, s, rawInput);
    } else {
      EarlyCollectingStep(gen, s, rawInput);
    }
  }

  /** The outcome `StepAtCollectingStage` describes, for a message `input` already sanitised. */
  predicate CollectingOutcome(s: Session, input: string, out: Outcome)
    requires Collecting(s.stage)
  {
    && !out.ended && out.saved.None?
    && (!Accepts(s.stage, input) ==> out.session == s.(history := out.session.history) && out.reply == RetryReply(s.stage))
    && (Accepts(s.stage, input) ==> StageIndex(out.session.stage) == StageIndex(s.stage) + 1 && StoresOnlyItsField(s, input, out.session))
  }

  /**
   * An accepted answer at a collecting stage stores its one field, in the form
   * the handler gives it, and moves to the next stage; nothing else changes
   * except the history and, after the tech stack, the new question list.
   */
  predicate StoresOnlyItsField(s: Session, input: string, after: Session)
    requires Collecting(s.stage)
  {
    var h := after.history;
    match s.stage
    case CollectingName =>
      after == s.(stage := CollectingEmail, info := s.info.(name := Some(Title(Strip(input)))), history := h)
    case CollectingEmail =>
      after == s.(stage := CollectingPhone, info := s.info.(email := Some(Lower(Strip(input)))), history := h)
    case CollectingPhone =>
      after == s.(stage := CollectingExperience, info := s.info.(phone := Some(Strip(input))), history := h)
    case CollectingExperience =>
      ValidateExperience(input).Some? &&
      after == s.(stage := CollectingPosition, info := s.info.(experienceYears := Some(ValidateExperience(input).value)), history := h)
    case CollectingPosition =>
      after == s.(stage := CollectingLocation, info := s.info.(desiredPosition := Some(Strip(input))), history := h)
    case CollectingLocation =>
      after == s.(stage := CollectingTechStack, info := s.info.(location := Some(Strip(input))), history := h)
    case CollectingTechStack =>
      after == s.(stage := TechnicalQuestions,
                  info := s.info.(techStackRaw := Some(Strip(input)), techStack := Some(TechStackOf(Strip(input)))),
                  questions := after.questions, index := 0, history := h)
  }

  lemma TechStackCollectingStep(gen: Generator, s: Session, rawInput: string)
    requires Valid(s) && s.stage == CollectingTechStack
    requires !IsExitCommand(SanitizeInput(rawInput))
    ensures CollectingOutcome(s, SanitizeInput(rawInput), Step(gen, s, rawInput))
  {
    StripTrimmed(SanitizeInput(rawInput));
    if |SanitizeInput(rawInput)| >= 5 {
      TechStackAcceptedStep(gen, s, rawInput);
    }
  }

  lemma TechStackAcceptedStep(gen: Generator, s: Session, rawInput: string)
    requires Valid(s) && s.stage == CollectingTechStack
    requires !IsExitCommand(SanitizeInput(rawInput)) && |SanitizeInput(rawInput)| >= 5
    ensures var out := Step(gen, s, rawInput);
      && !out.ended && out.saved.None? && StageIndex(out.session.stage) == StageIndex(s.stage) + 1
      && StoresOnlyItsField(s, SanitizeInput(rawInput), out.session)
  {
    TechStackStep(gen, s, rawInput);
    CollectingStagesAdvance();
  }

  /** Each collecting stage is followed by the next one in the listed order. */
  lemma CollectingStagesAdvance()
    ensures StageIndex(CollectingEmail) == StageIndex(CollectingName) + 1
    ensures StageIndex(CollectingPhone) == StageIndex(CollectingEmail) + 1
    ensures StageIndex(CollectingExperience) == StageIndex(CollectingPhone) + 1
    ensures StageIndex(CollectingPosition) == StageIndex(CollectingExperience) + 1
    ensures StageIndex(CollectingLocation) == StageIndex(CollectingPosition) + 1
    ensures StageIndex(CollectingTechStack) == StageIndex(CollectingLocation) + 1
    ensures StageIndex(TechnicalQuestions) == StageIndex(CollectingTechStack) + 1
  {
  }


  lemma EarlyCollectingStep(gen: Generator, s: Session, rawInput: string)
    requires Valid(s) && Collecting(s.stage) && s.stage != CollectingTechStack
    requires !IsExitCommand(SanitizeInput(rawInput))
    ensures CollectingOutcome(s, SanitizeInput(rawInput), Step(gen, s, rawInput))
  {
    if Accepts(s.stage, SanitizeInput(rawInput)) {
      EarlyAcceptedStep(gen, s, rawInput);
    } else {
      EarlyRejectedStep(gen, s, rawInput);
    }
  }

  lemma EarlyAcceptedStep(gen: Generator, s: Session, rawInput: string)
    requires Valid(s) && Collecting(s.stage) && s.stage != CollectingTechStack
    requires !IsExitCommand(SanitizeInput(rawInput)) && Accepts(s.stage, SanitizeInput(rawInput))
    ensures var out := Step(gen, s, rawInput);
      && !out.ended && out.saved.None? && StageIndex(out.session.stage) == StageIndex(s.stage) + 1
      && StoresOnlyItsField(s, SanitizeInput(rawInput), out.session)
  {
    var input := SanitizeInput(rawInput);
    var s1 := s.(history := s.history + [HistoryEntry(User, Said(input), s.stage)]);
    var t := ProcessState(gen, s1, input);
    assert Step(gen, s, rawInput).session.stage == t.session.stage;
    CollectingStagesAdvance();
    match s.stage
    case CollectingName => assert t.session.stage == CollectingEmail;
    case CollectingEmail => assert t.session.stage == CollectingPhone;
    case CollectingPhone => assert t.session.stage == CollectingExperience;
    case CollectingExperience => assert t.session.stage == CollectingPosition;
    case CollectingPosition => assert t.session.stage == CollectingLocation;
    case CollectingLocation => assert t.session.stage == CollectingTechStack;
  }

  lemma EarlyRejectedStep(gen: Generator, s: Session, rawInput: string)
    requires Valid(s) && Collecting(s.stage) && s.stage != CollectingTechStack
    requires !IsExitCommand(SanitizeInput(rawInput)) && !Accepts(s.stage, SanitizeInput(rawInput))
    ensures var out := Step(gen, s, rawInput);
      !out.ended && out.saved.None? && out.session == s.(history := out.session.history) && out.reply == RetryReply(s.stage)
  {
  }


  /**
   * After an accepted name a failed model call answers with the fallback of
   * the new stage, which asks for the phone number although the e-mail
   * address is due next.
   */
  lemma FallbackAfterNameAsksForPhone(s: Session, rawInput: string)
    requires Valid(s) && s.stage == CollectingName
    requires !IsExitCommand(SanitizeInput(rawInput)) && |Strip(SanitizeInput(rawInput))| >= 2
    ensures Step(Unavailable, s, rawInput).session.stage == CollectingEmail
    ensures Step(Unavailable, s, rawInput).reply == Canned(Replies.EmailFallback)
  {
  }

  /** A completed session stays completed, repeating the closing text, and saves nothing again. */
  lemma CompletedIsFinal(gen: Generator, s: Session, rawInput: string)
    requires Valid(s) && s.stage == Completed
    requires !IsExitCommand(SanitizeInput(rawInput))
    ensures var out := Step(gen, s, rawInput);
      && out.session == s.(history := out.session.history)
      && out.reply == Canned(Replies.CompletedFallback)
      && out.ended && out.saved.None?
  {
  }

  /** The greeting stage moves to the name whatever the message, keeping the profile. */
  lemma GreetingStep(gen: Generator, s: Session, rawInput: string)
    requires Valid(s) && s.stage == Greeting
    requires !IsExitCommand(SanitizeInput(rawInput))
    ensures var out := Step(gen, s, rawInput);
      && out.session == s.(stage := CollectingName, history := out.session.history)
      && out.reply == CallLlm(gen, GreetingPrompt, Greeting, s.info)
      && !out.ended
  {
  }

  /**
   * An accepted tech stack is stored raw and classified, three to five
   * questions are prepared and the first one is presented.
   */
  lemma TechStackStep(gen: Generator, s: Session, rawInput: string)
    requires Valid(s) && s.stage == CollectingTechStack
    requires !IsExitCommand(SanitizeInput(rawInput)) && |SanitizeInput(rawInput)| >= 5
    ensures var out := Step(gen, s, rawInput);
      var stack := SanitizeInput(rawInput);
      && out.session.stage == TechnicalQuestions
      && out.session.info == s.info.(techStackRaw := Some(stack), techStack := Some(TechStackOf(stack)))
      && out.session.index == 0
      && 3 <= |out.session.questions| <= 5
      && out.session.questions == GeneratedQuestions(QuestionsReply(gen, out.session.info), Lower(stack))
      && out.reply == IntroReply(out.session.questions)
      && !out.ended && out.saved.None?
  {
    StripTrimmed(SanitizeInput(rawInput));
  }

  /**
   * An answer is recorded against the current question; the next question
   * follows, or after the last one the screening completes, ends the
   * conversation and saves the profile with all its answers.
   */
  lemma TechnicalAnswerStep(gen: Generator, s: Session, rawInput: string)
    requires Valid(s) && s.stage == TechnicalQuestions
    requires !IsExitCommand(SanitizeInput(rawInput))
    ensures var out := Step(gen, s, rawInput);
      && out.session.info == s.info.(technicalAnswers :=
           s.info.technicalAnswers + [QA(s.questions[s.index], SanitizeInput(rawInput))])
      && out.session.index == s.index + 1
      && out.session.questions == s.questions
      && (s.index + 1 < |s.questions| ==>
            && out.session.stage == TechnicalQuestions && !out.ended && out.saved.None?
            && out.reply == NextQuestion(s.index + 2, |s.questions|, s.questions[s.index + 1]))
      && (s.index + 1 == |s.questions| ==>
            out.session.stage == Completed && out.ended && out.saved == Some(out.session.info))
  {
    StripTrimmed(SanitizeInput(rawInput));
  }

  /** A profile is saved only by the answer to the last question. */
  lemma SavedOnlyAtTheEnd(gen: Generator, s: Session, rawInput: string)
    requires Valid(s)
    ensures Step(gen, s, rawInput).saved.Some? <==>
      && !IsExitCommand(SanitizeInput(rawInput))
      && s.stage == TechnicalQuestions
      && s.index + 1 == |s.questions|
  {
    if !IsExitCommand(SanitizeInput(rawInput)) && s.stage == TechnicalQuestions {
      TechnicalAnswerStep(gen, s, rawInput);
    }
  }

  // ---------------------------------------------------------------------------
  // The flow invariant
  // ---------------------------------------------------------------------------

  /** Recording an answer keeps the answers aligned with the questions. */
  lemma AnswerKeepsInFlow(gen: Generator, s: Session, input: string)
    requires InFlow(s) && s.stage == TechnicalQuestions
    ensures InFlow(HandleTechnicalAnswer(gen, s, input).session)
  {
    var answers := s.info.technicalAnswers + [QA(s.questions[s.index], Strip(input))];
    var info := s.info.(technicalAnswers := answers);
    var s' := s.(info := info, index := s.index + 1);
    forall j | 0 <= j < s'.index ensures answers[j].question == s'.questions[j] {
      if j < s.index {
        assert answers[j] == s.info.technicalAnswers[j];
      }
    }
    assert FieldsFollowStage(info, 8) && FieldsFollowStage(info, 9);
    if s'.index < |s.questions| {
      assert HandleTechnicalAnswer(gen, s, input).session == s';
      assert AnswersFollowQuestions(s');
    } else {
      assert HandleTechnicalAnswer(gen, s, input).session == s'.(stage := Completed);
      assert AnswersFollowQuestions(s'.(stage := Completed));
    }
  }

  /** The name handler fills the name and moves on, or changes nothing. */
  lemma NameKeepsInFlow(gen: Generator, s: Session, input: string)
    requires InFlow(s) && s.stage == CollectingName
    ensures InFlow(HandleName(gen, s, input).session)
  {
  }

  /** The e-mail handler fills the address and moves on, or changes nothing. */
  lemma EmailKeepsInFlow(gen: Generator, s: Session, input: string)
    requires InFlow(s) && s.stage == CollectingEmail
    ensures InFlow(HandleEmail(gen, s, input).session)
  {
  }

  /** The phone handler fills the number and moves on, or changes nothing. */
  lemma PhoneKeepsInFlow(gen: Generator, s: Session, input: string)
    requires InFlow(s) && s.stage == CollectingPhone
    ensures InFlow(HandlePhone(gen, s, input).session)
  {
  }

  /** The experience handler fills the years and moves on, or changes nothing. */
  lemma ExperienceKeepsInFlow(gen: Generator, s: Session, input: string)
    requires InFlow(s) && s.stage == CollectingExperience
    ensures InFlow(HandleExperience(gen, s, input).session)
  {
  }

  /** The position handler fills the position and moves on, or changes nothing. */
  lemma PositionKeepsInFlow(gen: Generator, s: Session, input: string)
    requires InFlow(s) && s.stage == CollectingPosition
    ensures InFlow(HandlePosition(gen, s, input).session)
  {
  }

  /** The location handler fills the location and moves on, or changes nothing. */
  lemma LocationKeepsInFlow(gen: Generator, s: Session, input: string)
    requires InFlow(s) && s.stage == CollectingLocation
    ensures InFlow(HandleLocation(gen, s, input).session)
  {
  }

  /** Storing an accepted stack with three to five questions at index 0 keeps the flow invariant. */
  lemma StoredStackInFlow(s: Session, stack: string, qs: seq<string>)
    requires InFlow(s) && s.stage == CollectingTechStack
    requires |stack| >= 5 && 3 <= |qs| <= 5
    ensures InFlow(s.(stage := TechnicalQuestions,
                      info := s.info.(techStackRaw := Some(stack), techStack := Some(TechStackOf(stack))),
                      questions := qs, index := 0))
  {
  }

  /** The tech-stack handler stores the stack and prepares three to five questions. */
  lemma TechStackKeepsInFlow(gen: Generator, s: Session, input: string)
    requires InFlow(s) && s.stage == CollectingTechStack
    ensures InFlow(HandleTechStack(gen, s, input).session)
  {
    var stack := Strip(input);
    if |stack| >= 5 {
      var info := s.info.(techStackRaw := Some(stack), techStack := Some(TechStackOf(stack)));
      var qs := GeneratedQuestions(QuestionsReply(gen, info), Lower(stack));
      assert HandleTechStack(gen, s, input).session
        == s.(stage := TechnicalQuestions, info := info, questions := qs, index := 0);
      StoredStackInFlow(s, stack, qs);
    }
  }

  /** Each stage handler keeps the flow invariant. */
  lemma HandlerKeepsInFlow(gen: Generator, s: Session, input: string)
    requires InFlow(s)
    ensures InFlow(ProcessState(gen, s, input).session)
  {
    InFlowIsValid(s);
    match s.stage
    case Greeting =>
    case CollectingName => NameKeepsInFlow(gen, s, input);
    case CollectingEmail => EmailKeepsInFlow(gen, s, input);
    case CollectingPhone => PhoneKeepsInFlow(gen, s, input);
    case CollectingExperience => ExperienceKeepsInFlow(gen, s, input);
    case CollectingPosition => PositionKeepsInFlow(gen, s, input);
    case CollectingLocation => LocationKeepsInFlow(gen, s, input);
    case CollectingTechStack => TechStackKeepsInFlow(gen, s, input);
    case TechnicalQuestions => AnswerKeepsInFlow(gen, s, input);
    case Completed =>
  }

  /** Every step keeps the flow invariant, so every session reached from the initial one satisfies it. */
  lemma StepKeepsInFlow(gen: Generator, s: Session, rawInput: string)
    requires InFlow(s)
    ensures InFlow(Step(gen, s, rawInput).session)
  {
    var input := SanitizeInput(rawInput);
    if !IsExitCommand(input) {
      var s1 := s.(history := s.history + [HistoryEntry(User, Said(input), s.stage)]);
      HandlerKeepsInFlow(gen, s1, input);
    }
  }

  /** A saved profile is complete: every field is filled and every question has its answer. */
  lemma SavedProfileComplete(gen: Generator, s: Session, rawInput: string)
    requires InFlow(s)
    requires Step(gen, s, rawInput).saved.Some?
    ensures var out := Step(gen, s, rawInput);
      var p := out.saved.value;
      && p.name.Some? && p.email.Some? && p.phone.Some? && p.experienceYears.Some?
      && p.desiredPosition.Some? && p.location.Some? && p.techStack.Some? && p.techStackRaw.Some?
      && |p.technicalAnswers| == |out.session.questions|
      && forall j :: 0 <= j < |p.technicalAnswers| ==> p.technicalAnswers[j].question == out.session.questions[j]
  {
    SavedOnlyAtTheEnd(gen, s, rawInput);
    TechnicalAnswerStep(gen, s, rawInput);
    StepKeepsInFlow(gen, s, rawInput);
  }

  /** `get_greeting` at the start keeps the flow invariant. */
  lemma GetGreetingKeepsInFlow(gen: Generator, s: Session)
    requires InFlow(s) && s.stage == Greeting
    ensures InFlow(GetGreeting(gen, s).session)
  {
  }

  // ---------------------------------------------------------------------------
  // Progress
  // ---------------------------------------------------------------------------

  /** `get_progress`'s dictionary. */
  datatype Progress = Progress(currentStep: nat, totalSteps: nat, percentage: nat, currentState: Stage)

  /** `get_progress`: the step number out of ten and `int(index / 9 * 100)`, which for 0..9 is the floor of `index * 100 / 9`. */
  function GetProgress(stage: Stage): (p: Progress)
    ensures p.totalSteps == |StagesOrder| == 10
    ensures 1 <= p.currentStep <= p.totalSteps && StagesOrder[p.currentStep - 1] == stage
    ensures p.currentState == stage
    ensures p.percentage <= 100
    ensures p.percentage == 0 <==> stage == Greeting
    ensures p.percentage == 100 <==> stage == Completed
  {
    var k := StageIndex(stage);
    Progress(k + 1, |StagesOrder|, k * 100 / (|StagesOrder| - 1), stage)
  }

  /** Progress never goes down along the stage order. */
  lemma ProgressMonotone(a: Stage, b: Stage)
    requires StageIndex(a) <= StageIndex(b)
    ensures GetProgress(a).percentage <= GetProgress(b).percentage
    ensures GetProgress(a).currentStep <= GetProgress(b).currentStep
  {
  }
}
