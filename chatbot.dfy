/**
 * The `HiringAssistant` object: the conversation state lives in its fields
 * and every method updates them exactly as the Conversation module's
 * functions say.  The data file that completed screenings are appended to is
 * the `store` field; the clock reading for a saved record is a parameter.
 */
module Chatbot {
  import opened Wrappers
  import opened Strings
  import opened Config
  import opened Utils
  import opened Questions
  import opened Conversation
  import Replies

  /** The parsing loop of `_generate_technical_questions`: numbered or bulleted heads start a question, other lines continue it. */
  method ScanReply(response: string) returns (found: seq<string>)
    ensures found == ParseQuestions(response)
  {
    var lines := Split(response, '\n');
    found := [];
    var current: string := [];
    for i := 0 to |lines|
      invariant Scan(found, current) == ScanLines(lines[..i])
    {
      ScanLinesStep(lines, i);
      var line := Strip(lines[i]);
      if line != [] && StartsQuestion(line) {
        if current != [] {
          found := found + [Strip(current)];
        }
        current := CleanHead(line);
      } else if current != [] && line != [] {
        current := current + " " + line;
      }
    }
    assert lines[..|lines|] == lines;
    if current != [] {
      found := found + [Strip(current)];
    }
  }

  /** The filtering loop of `_generate_technical_questions`: only questions longer than ten characters stay. */
  method KeepLongQuestions(found: seq<string>) returns (long: seq<string>)
    ensures long == KeepLong(found)
  {
    long := [];
    for j := 0 to |found|
      invariant long == KeepLong(found[..j])
    {
      KeepLongStep(found, j);
      if |found[j]| > 10 {
        long := long + [found[j]];
      }
    }
    assert found[..|found|] == found;
  }

  class HiringAssistant {
    /** The language-model provider, as an oracle. */
    var generator: Generator
    var state: Stage
    var candidateInfo: Profile
    var technicalQuestions: seq<string>
    var currentQuestionIndex: nat
    var conversationHistory: seq<HistoryEntry>
    /** The records of the candidate data file. */
    var store: seq<StoredRecord<Profile>>

    /** The conversation state held in the fields. */
    function Snapshot(): Session
      reads this
    {
      Session(state, candidateInfo, technicalQuestions, currentQuestionIndex, conversationHistory)
    }

    predicate Valid()
      reads this
    {
      Conversation.Valid(Snapshot())
    }

    /** `__init__`: a given provider and the records already in the data file; the conversation is reset. */
    constructor(generator: Generator, store: seq<StoredRecord<Profile>>)
      ensures Snapshot() == Initial && Valid()
      ensures this.generator == generator && this.store == store
    {
      this.generator := generator;
      this.store := store;
      state := Greeting;
      candidateInfo := EmptyProfile;
      technicalQuestions := [];
      currentQuestionIndex := 0;
      conversationHistory := [];
    }

    /** `reset_conversation` */
    method ResetConversation()
      modifies this
      ensures Snapshot() == Initial && Valid()
      ensures generator == old(generator) && store == old(store)
    {
      state := Greeting;
      candidateInfo := EmptyProfile;
      technicalQuestions := [];
      currentQuestionIndex := 0;
      conversationHistory := [];
    }

    /** `switch_provider`: a new provider; the conversation goes on where it was. */
    method SwitchProvider(provider: Generator)
      modifies this
      ensures generator == provider
      ensures Snapshot() == old(Snapshot()) && store == old(store)
    {
      generator := provider;
    }

    // -------------------------------------------------------------------------
    // Model calls
    // -------------------------------------------------------------------------

    /** `_get_safe_candidate_info` */
    method GetSafeCandidateInfo() returns (safe: Profile)
      ensures safe == SafeCandidateInfo(candidateInfo)
    {
      safe := candidateInfo;
      if safe.email.Some? && safe.email.value != [] {
        safe := safe.(email := Some(Provided));
      }
      if safe.phone.Some? && safe.phone.value != [] {
        safe := safe.(phone := Some(Provided));
      }
    }

    /** `_get_fallback_response`: the canned reply for the current stage (its argument is unused). */
    method GetFallbackResponse() returns (reply: Message)
      ensures reply == Canned(FallbackResponse(state))
    {
      match state
      case Greeting => reply := Canned(Replies.GreetingFallback);
      case CollectingName => reply := Canned(Replies.NameFallback);
      case CollectingEmail => reply := Canned(Replies.EmailFallback);
      case CollectingPhone => reply := Canned(Replies.PhoneFallback);
      case CollectingExperience => reply := Canned(Replies.ExperienceFallback);
      case CollectingPosition => reply := Canned(Replies.PositionFallback);
      case CollectingLocation => reply := Canned(Replies.LocationFallback);
      case TechnicalQuestions => reply := Canned(Replies.TechnicalFallback);
      case Completed => reply := Canned(Replies.CompletedFallback);
      case CollectingTechStack => reply := Canned(Replies.Apology);
    }

    /** `_call_llm`: the system context carries the current stage and the safe profile. */
    method CallLlm(prompt: Prompt) returns (reply: Message)
      ensures reply == Conversation.CallLlm(generator, prompt, state, candidateInfo)
    {
      var safe := GetSafeCandidateInfo();
      var answer := generator(prompt, SystemContext(state, safe));
      if answer.None? {
        reply := GetFallbackResponse();
      } else {
        reply := Said(answer.value);
      }
    }

    // -------------------------------------------------------------------------
    // Technical questions
    // -------------------------------------------------------------------------

    /** `_get_fallback_questions`: the topics tested in order, then the general questions if fewer than three. */
    method GetFallbackQuestions() returns (questions: seq<string>)
      requires candidateInfo.techStackRaw.Some?
      ensures questions == FallbackQuestions(Lower(candidateInfo.techStackRaw.value))
      ensures 3 <= |questions| <= 5
    {
      var tech := Lower(candidateInfo.techStackRaw.value);
      questions := [];
      for k := 0 to |Topics|
        invariant questions == GroupQuestions(Topics[..k], tech)
      {
        GroupQuestionsStep(Topics, k, tech);
        var topic := Topics[k];
        if AnyOccurs(Keywords(topic), tech) {
          questions := questions + TopicQuestions(topic);
        }
      }
      assert Topics[..|Topics|] == Topics;
      if |questions| < 3 {
        questions := questions + TopicQuestions(General);
      }
      if |questions| > 5 {
        questions := questions[..5];
      }
      FallbackQuestionsShape(tech);
    }

    /**
     * `_generate_technical_questions`: ask the model, parse its reply line by
     * line, filter, fall back, cut to five.  It is called while the stage is
     * still COLLECTING_TECH_STACK.
     */
    method GenerateTechnicalQuestions() returns (questions: seq<string>)
      requires state == CollectingTechStack && candidateInfo.techStackRaw.Some?
      ensures questions == GeneratedQuestions(QuestionsReply(generator, candidateInfo), Lower(candidateInfo.techStackRaw.value))
    {
      var reply := CallLlm(QuestionsRequest(candidateInfo));
      var response := Render(reply);
      QuestionsReplyRendered(generator, candidateInfo);
      var found := ScanReply(response);
      var long := KeepLongQuestions(found);
      if |long| < 3 {
        long := GetFallbackQuestions();
      }
      questions := if |long| > 5 then long[..5] else long;
    }

    // -------------------------------------------------------------------------
    // Stage handlers
    // -------------------------------------------------------------------------

    /** `_handle_greeting` */
    method HandleGreeting() returns (reply: Message)
      modifies this
      ensures var t := Conversation.HandleGreeting(old(generator), old(Snapshot()));
        Snapshot() == t.session && reply == t.reply
      ensures generator == old(generator) && store == old(store)
    {
      reply := CallLlm(GreetingPrompt);
      state := CollectingName;
    }

    /** `_handle_name` */
    method HandleName(userInput: string) returns (reply: Message)
      modifies this
      ensures var t := Conversation.HandleName(old(generator), old(Snapshot()), userInput);
        Snapshot() == t.session && reply == t.reply
      ensures generator == old(generator) && store == old(store)
    {
      var name := Strip(userInput);
      if |name| < 2 {
        return Canned(Replies.NameRetry);
      }
      candidateInfo := candidateInfo.(name := Some(Title(name)));
      state := CollectingEmail;
      reply := CallLlm(EmailPrompt(Title(name)));
    }

    /** `_handle_email` */
    method HandleEmail(userInput: string) returns (reply: Message)
      modifies this
      ensures var t := Conversation.HandleEmail(old(generator), old(Snapshot()), userInput);
        Snapshot() == t.session && reply == t.reply
      ensures generator == old(generator) && store == old(store)
    {
      var email := Lower(Strip(userInput));
      if !ValidateEmail(email) {
        return Canned(Replies.EmailRetry);
      }
      candidateInfo := candidateInfo.(email := Some(email));
      state := CollectingPhone;
      reply := CallLlm(PhonePrompt("[provided]"));
    }

    /** `_handle_phone` */
    method HandlePhone(userInput: string) returns (reply: Message)
      modifies this
      ensures var t := Conversation.HandlePhone(old(generator), old(Snapshot()), userInput);
        Snapshot() == t.session && reply == t.reply
      ensures generator == old(generator) && store == old(store)
    {
      var phone := Strip(userInput);
      if !ValidatePhone(phone) {
        return Canned(Replies.PhoneRetry);
      }
      candidateInfo := candidateInfo.(phone := Some(phone));
      state := CollectingExperience;
      reply := CallLlm(ExperiencePrompt);
    }

    /** `_handle_experience` */
    method HandleExperience(userInput: string) returns (reply: Message)
      modifies this
      ensures var t := Conversation.HandleExperience(old(generator), old(Snapshot()), userInput);
        Snapshot() == t.session && reply == t.reply
      ensures generator == old(generator) && store == old(store)
    {
      var years := ValidateExperience(userInput);
      if years.None? {
        return Canned(Replies.ExperienceRetry);
      }
      candidateInfo := candidateInfo.(experienceYears := years);
      state := CollectingPosition;
      reply := CallLlm(PositionPrompt(years.value));
    }

    /** `_handle_position` */
    method HandlePosition(userInput: string) returns (reply: Message)
      modifies this
      ensures var t := Conversation.HandlePosition(old(generator), old(Snapshot()), userInput);
        Snapshot() == t.session && reply == t.reply
      ensures generator == old(generator) && store == old(store)
    {
      var position := Strip(userInput);
      if |position| < 2 {
        return Canned(Replies.PositionRetry);
      }
      candidateInfo := candidateInfo.(desiredPosition := Some(position));
      state := CollectingLocation;
      reply := CallLlm(LocationPrompt(position));
    }

    /** `_handle_location` */
    method HandleLocation(userInput: string) returns (reply: Message)
      modifies this
      ensures var t := Conversation.HandleLocation(old(generator), old(Snapshot()), userInput);
        Snapshot() == t.session && reply == t.reply
      ensures generator == old(generator) && store == old(store)
    {
      var location := Strip(userInput);
      if |location| < 2 {
        return Canned(Replies.LocationRetry);
      }
      candidateInfo := candidateInfo.(location := Some(location));
      state := CollectingTechStack;
      reply := CallLlm(TechStackPrompt);
    }

    /** `_handle_tech_stack`, which the dispatcher calls at its own stage only */
    method HandleTechStack(userInput: string) returns (reply: Message)
      requires state == CollectingTechStack
      modifies this
      ensures var t := Conversation.HandleTechStack(old(generator), old(Snapshot()), userInput);
        Snapshot() == t.session && reply == t.reply
      ensures generator == old(generator) && store == old(store)
    {
      var stack := Strip(userInput);
      if |stack| < 5 {
        reply := Canned(Replies.TechStackRetry);
      } else {
        var extracted := ExtractTechStack(stack);
        candidateInfo := candidateInfo.(techStackRaw := Some(stack), techStack := Some(extracted));
        var questions := GenerateTechnicalQuestions();
        technicalQuestions, currentQuestionIndex, state := questions, 0, TechnicalQuestions;
        reply := IntroReply(questions);
      }
    }

    /** `_complete_screening`: final stage, the profile appended to the data file, then the closing text. */
    method CompleteScreening(now: string) returns (reply: Message)
      modifies this
      ensures var t := Conversation.CompleteScreening(old(generator), old(Snapshot()));
        Snapshot() == t.session && reply == t.reply
      ensures generator == old(generator)
      ensures store == SaveCandidateData(Some(old(store)), old(candidateInfo), now)
    {
      state := Completed;
      store := SaveCandidateData(Some(store), candidateInfo, now);
      reply := CallLlm(CompletionPrompt);
    }

    /** `_handle_technical_answer` */
    method HandleTechnicalAnswer(userInput: string, now: string) returns (reply: Message)
      requires currentQuestionIndex < |technicalQuestions|
      modifies this
      ensures var t := Conversation.HandleTechnicalAnswer(old(generator), old(Snapshot()), userInput);
        && Snapshot() == t.session && reply == t.reply
        && store == (if t.saved.Some? then SaveCandidateData(Some(old(store)), t.saved.value, now) else old(store))
      ensures generator == old(generator)
    {
      var qa := QA(technicalQuestions[currentQuestionIndex], Strip(userInput));
      candidateInfo := candidateInfo.(technicalAnswers := candidateInfo.technicalAnswers + [qa]);
      currentQuestionIndex := currentQuestionIndex + 1;
      if currentQuestionIndex < |technicalQuestions| {
        var number := currentQuestionIndex + 1;
        var total := |technicalQuestions|;
        reply := NextQuestion(number, total, technicalQuestions[currentQuestionIndex]);
      } else {
        reply := CompleteScreening(now);
      }
    }

    /** `_process_state` */
    method ProcessState(userInput: string, now: string) returns (reply: Message)
      requires Valid()
      modifies this
      ensures var t := Conversation.ProcessState(old(generator), old(Snapshot()), userInput);
        && Snapshot() == t.session && reply == t.reply
        && store == (if t.saved.Some? then SaveCandidateData(Some(old(store)), t.saved.value, now) else old(store))
      ensures generator == old(generator)
    {
      match state
      case Greeting => reply := HandleGreeting();
      case CollectingName => reply := HandleName(userInput);
      case CollectingEmail => reply := HandleEmail(userInput);
      case CollectingPhone => reply := HandlePhone(userInput);
      case CollectingExperience => reply := HandleExperience(userInput);
      case CollectingPosition => reply := HandlePosition(userInput);
      case CollectingLocation => reply := HandleLocation(userInput);
      case CollectingTechStack => reply := HandleTechStack(userInput);
      case TechnicalQuestions => reply := HandleTechnicalAnswer(userInput, now);
      case Completed => reply := GetFallbackResponse();
    }

    /** `_handle_exit` */
    method HandleExit() returns (reply: Message)
      ensures reply == Farewell(candidateInfo.name)
    {
      var name := candidateInfo.name.GetOr([]);
      if name != [] {
        reply := Goodbye(name);
      } else {
        reply := Canned(Replies.FarewellAnonymous);
      }
    }

    /**
     * `process_input`: the reply and whether the conversation has ended;
     * `now` is the time stamp a record saved by this message gets.
     */
    method ProcessInput(userInput: string, now: string) returns (response: string, ended: bool)
      requires Valid()
      modifies this
      ensures Valid()
      ensures var out := Step(old(generator), old(Snapshot()), userInput);
        && Snapshot() == out.session && response == Render(out.reply) && ended == out.ended
        && store == (if out.saved.Some? then SaveCandidateData(Some(old(store)), out.saved.value, now) else old(store))
      ensures generator == old(generator)
    {
      var input := SanitizeInput(userInput);
      if IsExitCommand(input) {
        var farewell := HandleExit();
        return Render(farewell), true;
      }
      conversationHistory := conversationHistory + [HistoryEntry(User, Said(input), state)];
      var reply := ProcessState(input, now);
      conversationHistory := conversationHistory + [HistoryEntry(Assistant, reply, state)];
      response := Render(reply);
      ended := state == Completed;
    }

    /** `get_greeting` */
    method GetGreeting() returns (response: string)
      requires Valid()
      modifies this
      ensures Valid()
      ensures var t := Conversation.GetGreeting(old(generator), old(Snapshot()));
        Snapshot() == t.session && response == Render(t.reply)
      ensures generator == old(generator) && store == old(store)
    {
      ghost var t := Conversation.GetGreeting(generator, Snapshot());
      var reply := HandleGreeting();
      assert Snapshot() == t.session;
      response := Render(reply);
    }

    /** `get_progress`: the current stage looked up in the stage order. */
    method GetProgress() returns (progress: Progress)
      ensures progress == Conversation.GetProgress(state)
    {
      StagesOrderComplete(state);
      var k := 0;
      while StagesOrder[k] != state
        invariant 0 <= k <= StageIndex(state)
        decreases StageIndex(state) - k
      {
        k := k + 1;
      }
      var total := |StagesOrder|;
      progress := Progress(k + 1, total, k * 100 / (total - 1), state);
    }
  }
}
