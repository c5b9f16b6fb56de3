# TalentScout hiring assistant — intake state machine in Dafny

This project models the screening conversation of the TalentScout hiring
assistant and proves properties of the model:

- **`HiringAssistant`** (`chatbot.py`). The object holds five pieces of state:
  - the current stage, one of ten;
  - the candidate profile;
  - the technical questions;
  - the question index;
  - the conversation history.

  Each user message is handled in this order:
  1. The message is sanitised.
  2. An exit keyword ends the conversation at once.
  3. Otherwise one handler per stage validates the answer, stores one profile
     field, moves one stage on and asks the language model for the reply.
  4. When the model gives nothing, a fixed text chosen by the stage *after*
     the move is used.
- **Question generation.** After the tech stack, the model's reply is parsed
  into numbered or bulleted questions. Questions of ten characters or fewer
  are dropped. When fewer than three remain, keyword-driven canned questions
  are used instead. At most five are kept.
- **The helpers in `utils.py`**:
  - the e-mail, phone and experience validators;
  - the exit-keyword test;
  - the tech-stack classifier;
  - the maskers and the tech-stack display formatter;
  - the input sanitiser;
  - the append-only candidate store.
- **The tables in `config.py`**: the stages, the exit keywords, the
  technology taxonomy and the provider auto-detection.

Modules, one file each:

| file | module | contents |
|---|---|---|
| `wrappers.dfy` | `Wrappers` | `Option`, standing for Python's `None` |
| `strings.dfy` | `Strings` | ASCII versions of the `str` methods the source uses: `strip`, `lower`, `capitalize`, `title`, `split`, `join`, `lstrip`, `re.sub` with a character class, `int()`/`str()` of a numeral |
| `config.dfy` | `Config` | `ConversationState`, `EXIT_KEYWORDS`, `TECH_CATEGORIES`, `get_available_provider` |
| `utils.dfy` | `Utils` | the helpers of `utils.py` |
| `questions.dfy` | `Questions` | the reply parser and the canned questions of `_get_fallback_questions` |
| `replies.dfy` | `Replies` | the fixed reply texts, character for character |
| `conversation.dfy` | `Conversation` | the session as a value and `Step`, the specification of one `process_input`, with the lemmas about it |
| `chatbot.dfy` | `Chatbot` | the class `HiringAssistant`, whose methods update its fields and are proved to do exactly what the `Conversation` functions say |

The language model is a function value:
`Generator = (Prompt, SystemContext) -> Option<string>`.

- A prompt is a datatype naming the template and the values it is formatted
  with.
- The system context holds the stage and the masked profile.
- `None` is a failed call; `Unavailable` is the provider that never answers.

Replies are `Message` values: free text, a fixed text, a presented question
or the personalised farewell. `Render` gives the string the source returns.
The candidate data file is the `store` field. The time stamp of a saved
record is a method parameter.

### Behaviour worth knowing

- **Exit test.** The exit test matches keywords as substrings. A position such
  as "Backend Engineer" therefore ends the conversation, because it contains
  "end" (`Utils.BackendEngineerExits`).
- **Classifier.** Classifier matches are substrings as well. "mongodb"
  yields the language "Go", and any text containing an "r" yields "R".
- **Fallback reply after the name.** After an accepted name, a failed model
  call answers with the COLLECTING_EMAIL fallback. That text asks for the
  phone number (`Conversation.FallbackAfterNameAsksForPhone`).
- **Generic questions.** The five generic questions are appended only while
  fewer than three questions were collected. Each keyword group adds three,
  so the list is empty at that point and the generic questions are the whole
  list (`Questions.FallbackQuestionsShape`).

## Model

| member | source | states |
|---|---|---|
| `Strings.Strip` | utils.py:23 | `str.strip()` on ASCII whitespace: the result is trimmed, no longer than the input and made of its characters |
| `Strings.StripIdempotent` | chatbot.py:383 | stripping an already stripped text changes nothing |
| `Strings.StripOnlyWhitespace` | chatbot.py:383-384 | a text strips to empty exactly when it is all whitespace |
| `Strings.Lower` | utils.py:67 | `str.lower()` on ASCII: same length, each character lower-cased |
| `Strings.LowerIsLowerCase` | utils.py:80 | the result of lower-casing is lower-case, and lower-casing it again changes nothing |
| `Strings.LowerOfLowerCase` | utils.py:80 | a lower-case text is its own lower-case form |
| `Strings.Capitalize` | utils.py:93 | `str.capitalize()`: first character upper-cased, the others lower-cased |
| `Strings.CapitalizeInjective` | utils.py:93 | two lower-case names with the same capitalised form are equal |
| `Strings.Title` | chatbot.py:388 | `str.title()` on ASCII: letters stay letters, other characters are unchanged, a letter starting a word is upper-case and every other letter lower-case |
| `Strings.Split` | chatbot.py:193 | `split(sep)` gives one more part than there are separators, and no part contains one |
| `Strings.SplitAtOnly` | utils.py:164-165 | a text with one separator splits into the two sides |
| `Strings.Join` | utils.py:202-204 | `join` of no part is empty, of one part is that part, and otherwise starts with the first part |
| `Strings.LStripWhile` | chatbot.py:202 | `lstrip(chars)`: the result is a suffix of the input that does not start with a stripped character |
| `Strings.LStripWhileDrops` | chatbot.py:202 | everything `lstrip` drops is in the stripped set |
| `Strings.Remove` | utils.py:219 | `re.sub` with a character class and an empty replacement never lengthens the text |
| `Strings.RemoveKeeps` | utils.py:219 | a character survives the removal exactly when it occurs in the input and is not removed |
| `Strings.RemoveNothing` | utils.py:219 | removing characters that do not occur changes nothing |
| `Strings.NatToString` | chatbot.py:502-505 | the decimal numeral of a number is non-empty, all digits, and reads back as that number |
| `Config.StageIdsDistinct` | config.py:66-76 | the ten stage identifiers are pairwise distinct |
| `Config.StagesOrderComplete` | chatbot.py:576-587 | the progress order lists all ten stages, each once |
| `Config.ExitKeywordsLowerCase` | config.py:82-85 | there are ten exit keywords, all lower-case and non-empty |
| `Config.TaxonomyWellFormed` | config.py:91-119 | the taxonomy has five categories with distinct keys, and every category's entries are lower-case and pairwise distinct |
| `Config.GetAvailableProvider` | config.py:124-142 | a setting other than "auto" is returned verbatim. In auto mode the result is always one of groq, openai, huggingface, none, by the first non-empty key in that order of priority, and "none" exactly when no key is set |
| `Utils.EmailCheckCorrect` | utils.py:22 | the one-pass checker accepts exactly the strings matching `^[a-zA-Z0-9._%+-]+@[a-zA-Z0-9.-]+\.[a-zA-Z]{2,}$` |
| `Utils.DomainFromEndCorrect` | utils.py:22 | the domain part is decided from the end: some dot is followed by two or more letters, with one or more domain characters before it |
| `Utils.AfterLocalCorrect` | utils.py:22 | after the first local character: local characters up to the first '@', then a domain |
| `Utils.ValidateEmailMatchesPattern` | utils.py:12-23 | `validate_email` accepts exactly when the stripped address matches the pattern |
| `Utils.PatternHasOneAt` | utils.py:22 | a string matching the pattern contains exactly one '@' |
| `Utils.ValidEmailHasOneAt` | utils.py:12-23 | an accepted address contains exactly one '@' once stripped |
| `Utils.CleanedPhone` | utils.py:36-37 | removing the separators leaves only digits exactly when the input has only digits and separators; the digits are then all that is left |
| `Utils.PhoneAcceptance` | utils.py:25-37 | `validate_phone` accepts exactly when the input has only digits and separators and has at least ten digits |
| `Utils.ValidateExperience` | utils.py:39-55 | `validate_experience` returns a value only when it is at most 50 |
| `Utils.ValidateExperienceReadsFirstRun` | utils.py:49-55 | input without digits gives None. Otherwise the result is the value of the first maximal digit run when it is at most 50, and None when it is larger |
| `Utils.FirstDigitRunUnique` | utils.py:50-52 | the first maximal digit run is unique |
| `Utils.ExperienceFirstNumber` | utils.py:50-54 | "3 years" gives 3 |
| `Utils.ExperienceAboveBound` | utils.py:50-55 | "60 or 5" gives None: a later number in range does not count |
| `Utils.ExperienceNeedsDigits` | utils.py:50-51 | a spelled-out number gives None |
| `Utils.ExitOnKeywordAnywhere` | utils.py:57-68 | a text whose lower-cased form contains an exit keyword anywhere, in any case and with any surrounding whitespace, is an exit command |
| `Utils.BackendEngineerExits` | utils.py:67-68 | "Backend Engineer" is an exit command, because it contains "end" |
| `Utils.ContainsAfterStrip` | utils.py:67 | an occurrence of a keyword without whitespace survives stripping |
| `Utils.LowerStripCommutes` | utils.py:67 | lower-casing and stripping commute |
| `Utils.MatchedInTaxonomyOrder` | utils.py:91-93 | the names found in a category are its entries that occur in the text, all of them, in strictly increasing taxonomy position, each capitalised |
| `Utils.MatchedMembership` | utils.py:91-93 | a name is listed exactly when it is the capitalised form of an entry occurring in the text |
| `Utils.MatchedDistinct` | utils.py:91-93 | a category whose entries are lower-case and distinct yields no duplicate name |
| `Utils.KeyIndex` | utils.py:90 | the `category in extracted` lookup finds the first entry with the key, or reports that none has it |
| `Utils.OutputKeysFollowTaxonomy` | utils.py:81-86 | the four output keys are the first four taxonomy keys, in order, and the fifth key is not among them |
| `Utils.SlotOfCategory` | utils.py:88-90 | each of the first four categories finds its own slot in the output, and `ai_ml` finds none |
| `Utils.AppendMatches` | utils.py:91-93 | the inner loop appends to the list exactly the capitalised entries found in the text, in order |
| `Utils.ExtractTechStack` | utils.py:70-95 | the nested loops produce exactly the specification: the four keys, each with its matches in the lower-cased text |
| `Utils.TechStackShape` | utils.py:70-95 | the output has exactly the four keys programming_languages, frameworks, databases and tools, never ai_ml. Each list is duplicate-free and holds exactly the capitalised taxonomy entries that occur in the lower-cased text |
| `Utils.Stars` | utils.py:168 | `'*' * n` is n asterisks |
| `Utils.MaskPhone` | utils.py:172-174 | a phone number of length four or more keeps its length and its last four characters, and every other character becomes '*' |
| `Utils.MaskEmail` | utils.py:163-171 | an address with one '@' keeps its domain and the first character of the user name. A user name longer than two also keeps its last character, with '*' in between. One or two characters become the first one and a single '*'. An empty user name raises an error (None) |
| `Utils.SplitOneAt` | utils.py:164-166 | with one '@', `split('@')` yields the user name and the domain |
| `Utils.MaskOtherUnchanged` | utils.py:160-176 | any type other than e-mail and phone, an e-mail without exactly one '@', and a phone shorter than four characters are returned unchanged |
| `Utils.MaskValidEmail` | utils.py:163-171 | an address that passed `validate_email` can always be masked |
| `Utils.FormatTechStackDisplay` | utils.py:178-204 | the loop builds one line per non-empty known category and joins them with newlines, as the specification says |
| `Utils.DisplayLinesMembership` | utils.py:199-202 | a line is shown exactly when some entry with a known key and a non-empty list produces it |
| `Utils.DisplayLinesEmpty` | utils.py:199-202 | there is no line exactly when no entry has a known key and a non-empty list |
| `Utils.DisplayPlaceholder` | utils.py:188-204 | the placeholder text is returned exactly when no entry has a known key and a non-empty list. Otherwise the result is the lines joined by newlines |
| `Utils.DisplayLineStart` | utils.py:192-202 | a display line opens with its category's symbol, never with the placeholder's first letter |
| `Utils.SanitizeInput` | utils.py:206-221 | empty input gives "". Otherwise the output has at most 1000 characters and no leading or trailing whitespace |
| `Utils.SanitizeRemovesForbidden` | utils.py:219 | no character of `< > { } [ ] \` survives sanitising |
| `Utils.SanitizeIdempotent` | utils.py:206-221 | sanitising twice is sanitising once |
| `Utils.SaveCandidateData` | utils.py:112-136 | the store gains exactly one record at its end, with id equal to the old length plus one. A missing, empty or invalid file reads as an empty list |
| `Utils.SaveKeepsIdsSequential` | utils.py:133 | appending keeps the ids 1, 2, 3, … in storage order |
| `Questions.StartsWithBulletIsPrefix` | chatbot.py:198 | `startswith` of the three-character bullet is its three characters at the front |
| `Questions.CleanHead` | chatbot.py:202 | the cleaned text of a question line is trimmed |
| `Questions.ScanLinesFollowsHeads` | chatbot.py:196-205 | the loop keeps one question per line that opens one. Each finished or open question begins with that line's text, and the open one is trimmed |
| `Questions.HeadTextsAtHeads` | chatbot.py:198-202 | the head texts are the cleaned texts of the opening lines, in line order |
| `Questions.ParsedFollowHeads` | chatbot.py:192-207 | the parse yields one question per opening line, in line order, and each question begins with that line's text without its numbering |
| `Questions.NoHeadsNoQuestions` | chatbot.py:192-207 | a reply with no line opening a question yields no question |
| `Questions.Positions` | chatbot.py:196-198 | the positions of the lines satisfying a test: all of them, each only once, in increasing order |
| `Questions.KeepLongMembers` | chatbot.py:210 | the filter keeps exactly the questions longer than ten characters |
| `Questions.Take` | chatbot.py:216 | `qs[:n]` is the prefix of length `min(|qs|, n)` |
| `Questions.FallbackQuestions` | chatbot.py:218-294 | the canned list has three to five questions |
| `Questions.GroupQuestionsCount` | chatbot.py:228-282 | each matching topic contributes exactly three questions |
| `Questions.MatchCountZero` | chatbot.py:228-285 | no topic matches exactly when the match count is zero |
| `Questions.EmptyGroupQuestions` | chatbot.py:228-285 | when no topic matches, the groups contribute nothing |
| `Questions.FallbackQuestionsShape` | chatbot.py:284-294 | three to five questions. With no matching topic they are the five general questions, and otherwise the first five questions of the matching topics in topic order |
| `Questions.GroupQuestionsConcat` | chatbot.py:228-282 | the topics are tested in sequence: two runs contribute their questions one after the other |
| `Questions.PythonQuestionsFirst` | chatbot.py:228-234 | a stack mentioning "python" gets the three Python questions first |
| `Conversation.SafeCandidateInfo` | chatbot.py:161-173 | only the e-mail and the phone can change. Each stays present exactly when it was, and a present value becomes "[PROVIDED]" or stays empty |
| `Conversation.ApologyOnlyAtTechStack` | chatbot.py:107-159 | the apology is the fallback of COLLECTING_TECH_STACK and of no other stage |
| `Conversation.CallLlm` | chatbot.py:72-95 | the model is called with the current stage and the masked profile. Its text is returned when it answers, and the current stage's fallback otherwise |
| `Conversation.QuestionClosesMessage` | chatbot.py:501-505 | a presented question ends its message, right after the newline that closes the header |
| `Conversation.FarewellNamesCandidate` | chatbot.py:547-563 | a known non-empty name appears in the farewell; without a name the generic farewell is given |
| `Conversation.StageIndex` | chatbot.py:589 | `states_order.index(state)` is the stage's position in the progress order |
| `Conversation.InitialInFlow` | chatbot.py:40-56 | the reset state satisfies the flow invariant |
| `Conversation.InFlowIsValid` | chatbot.py:510-529 | the flow invariant implies that the question index is in range |
| `Conversation.QuestionsReplyRendered` | chatbot.py:189 | the text parsed for questions is the text of the model's reply to the question prompt |
| `Conversation.GeneratedQuestions` | chatbot.py:209-216 | the generated list has three to five questions |
| `Conversation.GeneratedQuestionsChoice` | chatbot.py:209-216 | with three or more long parsed questions, the result is their first five, each over ten characters. Otherwise it is the canned list for the lower-cased stack |
| `Conversation.OneLineNoQuestions` | chatbot.py:192-207 | a single trimmed line that does not start like a question yields no question |
| `Conversation.ApologyIsOneLine` | chatbot.py:158 | the apology is one trimmed line that does not start with a digit, '-' or the bullet |
| `Conversation.ApologyHasNoQuestions` | chatbot.py:156-159 | the apology parses to no question |
| `Conversation.UnavailableGivesCannedQuestions` | chatbot.py:189-214 | without a working model the questions are exactly the canned ones for the lower-cased stack |
| `Conversation.HandleGreeting` | chatbot.py:374-378 | the greeting moves to COLLECTING_NAME, changes nothing else and saves nothing |
| `Conversation.CompleteScreening` | chatbot.py:535-545 | completion sets the final stage, changes nothing else and saves the profile |
| `Conversation.ProcessState` | chatbot.py:334-372 | the dispatch keeps the index in range and leaves the history alone. A profile is saved only when a technical answer completes the screening |
| `Conversation.Step` | chatbot.py:296-332 | every step keeps the question index in range |
| `Conversation.GetGreeting` | chatbot.py:565-567 | `get_greeting` keeps the question index in range |
| `Conversation.ExitEndsConversation` | chatbot.py:307-311 | a message with an exit keyword ends the conversation with the farewell. The session, history included, is unchanged and nothing is saved |
| `Conversation.StepRecordsHistory` | chatbot.py:313-332 | any other message adds exactly two history entries: the message with the stage it arrived in, then the reply with the stage it leaves. The conversation has ended exactly when the stage is COMPLETED |
| `Conversation.StepAtCollectingStage` | chatbot.py:380-490 | in a collecting stage, a rejected answer changes nothing but the history and gets the stage's retry text. An accepted one moves exactly one stage on and stores only its own field: the name title-cased, the e-mail lower-cased, the phone, position, location and tech stack stripped, the experience as the years read; nothing else changes besides the history and, after the tech stack, the questions and index. Neither ends the conversation or saves anything |
| `Conversation.EarlyRejectedStep` | chatbot.py:380-471 | the same for a rejected name, e-mail, phone, experience, position or location |
| `Conversation.EarlyAcceptedStep` | chatbot.py:380-476 | an accepted name, e-mail, phone, experience, position or location moves exactly one stage on and sets exactly its one field (name title-cased, e-mail lower-cased, the others stripped or read as years); the rest of the session, history apart, is unchanged |
| `Conversation.EarlyCollectingStep` | chatbot.py:380-476 | the outcome of `StepAtCollectingStage`, stored field and frame included, for the six stages before the tech stack |
| `Conversation.TechStackCollectingStep` | chatbot.py:478-508 | the outcome of `StepAtCollectingStage` for the tech-stack stage |
| `Conversation.TechStackAcceptedStep` | chatbot.py:478-498 | an accepted tech stack moves to TECHNICAL_QUESTIONS, storing the stripped stack and its classification with index 0 and nothing else changed, without ending or saving |
| `Conversation.CollectingStagesAdvance` | chatbot.py:576-587 | in the progress order each collecting stage is followed by the stage its handler moves to |
| `Conversation.FallbackAfterNameAsksForPhone` | chatbot.py:389-392 | without a working model, an accepted name moves to COLLECTING_EMAIL and gets that stage's fallback, which asks for the phone number |
| `Conversation.CompletedIsFinal` | chatbot.py:371-372 | a completed session stays completed, repeats the closing text, reports the end and saves nothing again |
| `Conversation.GreetingStep` | chatbot.py:344-345 | the greeting stage moves to COLLECTING_NAME whatever the message, keeping the profile |
| `Conversation.TechStackStep` | chatbot.py:478-508 | an accepted stack is stored raw and classified, and three to five questions are generated from the model's reply. The index becomes 0 and the first question is presented |
| `Conversation.TechnicalAnswerStep` | chatbot.py:510-545 | the sanitised answer is recorded against the current question and the index goes up by one. The next question follows with its number, or after the last one the stage becomes COMPLETED, the conversation ends and the profile is saved |
| `Conversation.SavedOnlyAtTheEnd` | chatbot.py:530-540 | a profile is saved exactly when a non-exit message answers the last technical question |
| `Conversation.AnswerKeepsInFlow` | chatbot.py:510-533 | recording an answer keeps the number of answers equal to the index, and each answer stays paired with its question |
| `Conversation.NameKeepsInFlow` | chatbot.py:380-392 | the name handler keeps the flow invariant: fields filled exactly up to the stage, with values that passed their checks |
| `Conversation.EmailKeepsInFlow` | chatbot.py:394-408 | the e-mail handler keeps the flow invariant |
| `Conversation.PhoneKeepsInFlow` | chatbot.py:410-424 | the phone handler keeps the flow invariant |
| `Conversation.ExperienceKeepsInFlow` | chatbot.py:426-441 | the experience handler keeps the flow invariant |
| `Conversation.PositionKeepsInFlow` | chatbot.py:443-461 | the position handler keeps the flow invariant |
| `Conversation.LocationKeepsInFlow` | chatbot.py:463-476 | the location handler keeps the flow invariant |
| `Conversation.StoredStackInFlow` | chatbot.py:492-498 | storing an accepted stack with three to five questions at index 0 keeps the flow invariant |
| `Conversation.TechStackKeepsInFlow` | chatbot.py:478-508 | the tech-stack handler keeps the flow invariant |
| `Conversation.HandlerKeepsInFlow` | chatbot.py:334-372 | every stage handler keeps the flow invariant |
| `Conversation.StepKeepsInFlow` | chatbot.py:296-332 | every step keeps the flow invariant: answers aligned with the questions, `len(technical_answers) == current_question_index <= len(technical_questions)` |
| `Conversation.SavedProfileComplete` | chatbot.py:535-540 | a saved profile has every field filled and one answer for each question, in order |
| `Conversation.GetGreetingKeepsInFlow` | chatbot.py:565-567 | `get_greeting` at the start keeps the flow invariant |
| `Conversation.GetProgress` | chatbot.py:569-597 | the step number out of ten is the stage's position plus one. The percentage is between 0 and 100, 0 exactly at GREETING and 100 exactly at COMPLETED |
| `Conversation.ProgressMonotone` | chatbot.py:589-595 | progress never goes down along the stage order |
| `Chatbot.ScanReply` | chatbot.py:192-207 | the parsing loop computes exactly the parse of the reply |
| `Chatbot.KeepLongQuestions` | chatbot.py:209-210 | the filtering loop keeps exactly the questions over ten characters, in order |
| `Chatbot.HiringAssistant.constructor` | chatbot.py:29-38 | a new assistant has the given provider and store and the reset state |
| `Chatbot.HiringAssistant.ResetConversation` | chatbot.py:40-56 | the stage becomes GREETING, every profile field None, answers, questions and history empty and the index 0. The provider and the store are unchanged |
| `Chatbot.HiringAssistant.SwitchProvider` | chatbot.py:58-66 | only the provider changes |
| `Chatbot.HiringAssistant.GetSafeCandidateInfo` | chatbot.py:161-173 | the copy with the e-mail and phone masked, as `SafeCandidateInfo` says |
| `Chatbot.HiringAssistant.GetFallbackResponse` | chatbot.py:97-159 | the fixed text of the current stage, the apology where the stage has none |
| `Chatbot.HiringAssistant.CallLlm` | chatbot.py:72-95 | the model's text, or the current stage's fallback, as `Conversation.CallLlm` says |
| `Chatbot.HiringAssistant.GetFallbackQuestions` | chatbot.py:218-294 | the topic loop with its list extensions gives exactly `FallbackQuestions` of the lower-cased stack, three to five questions |
| `Chatbot.HiringAssistant.GenerateTechnicalQuestions` | chatbot.py:175-216 | asking, parsing, filtering, falling back and cutting give exactly `GeneratedQuestions` of the model's reply |
| `Chatbot.HiringAssistant.HandleGreeting` | chatbot.py:374-378 | only the stage changes, to COLLECTING_NAME, and the reply is the model's answer to the greeting prompt, or the greeting fallback |
| `Chatbot.HiringAssistant.HandleName` | chatbot.py:380-392 | the fields become the session `Conversation.HandleName` computes, and the reply is its reply. The provider and the store are unchanged; `Conversation.NameKeepsInFlow` proves that the flow invariant is kept |
| `Chatbot.HiringAssistant.HandleEmail` | chatbot.py:394-408 | the fields become the session `Conversation.HandleEmail` computes, and the reply is its reply. The provider and the store are unchanged; `Conversation.EmailKeepsInFlow` proves that the flow invariant is kept |
| `Chatbot.HiringAssistant.HandlePhone` | chatbot.py:410-424 | the fields become the session `Conversation.HandlePhone` computes, and the reply is its reply. The provider and the store are unchanged; `Conversation.PhoneKeepsInFlow` proves that the flow invariant is kept |
| `Chatbot.HiringAssistant.HandleExperience` | chatbot.py:426-441 | the fields become the session `Conversation.HandleExperience` computes, and the reply is its reply. The provider and the store are unchanged; `Conversation.ExperienceKeepsInFlow` proves that the flow invariant is kept |
| `Chatbot.HiringAssistant.HandlePosition` | chatbot.py:443-461 | the fields become the session `Conversation.HandlePosition` computes, and the reply is its reply. The provider and the store are unchanged; `Conversation.PositionKeepsInFlow` proves that the flow invariant is kept |
| `Chatbot.HiringAssistant.HandleLocation` | chatbot.py:463-476 | the fields become the session `Conversation.HandleLocation` computes, and the reply is its reply. The provider and the store are unchanged; `Conversation.LocationKeepsInFlow` proves that the flow invariant is kept |
| `Chatbot.HiringAssistant.HandleTechStack` | chatbot.py:478-508 | the fields become the session `Conversation.HandleTechStack` computes, and the reply is its reply. The provider and the store are unchanged; `Conversation.TechStackKeepsInFlow` proves that the flow invariant is kept |
| `Chatbot.HiringAssistant.CompleteScreening` | chatbot.py:535-545 | the final stage is set and one record of the profile is appended to the store |
| `Chatbot.HiringAssistant.HandleTechnicalAnswer` | chatbot.py:510-533 | the fields change as `Conversation.HandleTechnicalAnswer` says, and the store gains a record exactly when the screening completes |
| `Chatbot.HiringAssistant.ProcessState` | chatbot.py:334-372 | the fields and the store change as `Conversation.ProcessState` says |
| `Chatbot.HiringAssistant.HandleExit` | chatbot.py:547-563 | the farewell, personalised when a non-empty name is known |
| `Chatbot.HiringAssistant.ProcessInput` | chatbot.py:296-332 | the fields change as `Conversation.Step` says. The returned text is the rendered reply and the returned flag is whether the conversation ended. The store gains the saved profile, if any |
| `Chatbot.HiringAssistant.GetGreeting` | chatbot.py:565-567 | the fields change as the greeting handler says and the greeting text is returned |
| `Chatbot.HiringAssistant.GetProgress` | chatbot.py:569-597 | the search of the stage order gives exactly `Conversation.GetProgress` of the current stage |

## Left out

- `app.py` (the Streamlit user interface) is not part of this model.
- **Providers.** `llm_providers.py` is not part of this model: its network clients, SDK imports, time-outs and factory. A provider is the `Generator` oracle. `Unavailable` stands for the provider that always fails.
- **Prompts.** `prompts.py` is not part of this model. `Prompt` keeps only the template and the values it is formatted with, and `SystemContext` keeps the stage and the masked profile. The wording of the prompts is not modelled.
- **Model call.** The `system_context` override of `_call_llm` is never used by the class and is left out.
- **Fallback argument.** The argument of `_get_fallback_response` is unused by the source and is left out.
- `get_provider_name` only reads the provider's name, which the oracle does not have. It is left out.
- **File I/O.** `save_candidate_data` is modelled on the store's contents. These are not modelled:
  - directory creation;
  - the JSON encoding;
  - the clock, which is a parameter;
  - the `True`/`False` result, which the class ignores;
  - a failed write.
- `print` logging is left out everywhere.
- **Text semantics.** Case mapping, whitespace and digits are ASCII only. Python's Unicode `lower`, `title`, `capitalize`, `isdigit` and `\s` are not modelled. Whitespace is ASCII whitespace plus the separators `\x1c`-`\x1f` that `str.strip` also removes.
- **Replies.** Reply texts are kept character for character in `Replies`. The presented-question and farewell replies are `Message` values, and `Render` assembles their text.
- `Conversation.GetProgress`: the source computes the percentage in floating point. The model uses the integer floor of `index * 100 / 9`, which gives the same value for the ten indices.
- `Chatbot.HiringAssistant.HandleTechStack`: requires the stage to be COLLECTING_TECH_STACK, the only stage from which the dispatcher calls it. The question prompt is built while the stage is still that one.
- `Chatbot.HiringAssistant.GenerateTechnicalQuestions`: requires the stage to be COLLECTING_TECH_STACK and the raw stack to be stored, as it is at its only call site. The source would format `None` into the prompt otherwise.
- `Chatbot.HiringAssistant.GetFallbackQuestions`: requires the raw stack to be stored. The source calls `.lower()` on `None` otherwise.
- `Chatbot.HiringAssistant.HandleTechnicalAnswer`: requires the index to be within the question list. The source raises `IndexError` otherwise, and the flow invariant (`Conversation.StepKeepsInFlow`) shows that this cannot happen.
- `Chatbot.HiringAssistant.ProcessState` and `Chatbot.HiringAssistant.ProcessInput`: require the index to be in range at TECHNICAL_QUESTIONS (`Valid`), which every reachable state satisfies (`Conversation.InitialInFlow`, `Conversation.StepKeepsInFlow`).
- **Masking errors.** `mask_sensitive_data` raises on an e-mail whose user name is empty. The model returns `None` for that case, and the exception itself is not modelled.
