/**
 * The reply texts of the assistant, character for character (the non-ASCII
 * characters are written as escapes).  The texts are the bodies of `Text` and
 * `Part` rather than constants, so that only proofs about a reply's wording
 * see them.
 */
module Replies {

  /** The replies whose text never changes, by name. */
  datatype Fixed =
    | GreetingFallback
    | NameFallback
    | EmailFallback
    | PhoneFallback
    | ExperienceFallback
    | PositionFallback
    | LocationFallback
    | TechnicalFallback
    | CompletedFallback
    | Apology
    | NameRetry
    | EmailRetry
    | PhoneRetry
    | ExperienceRetry
    | PositionRetry
    | LocationRetry
    | TechStackRetry
    | FarewellAnonymous

  /** The text of each fixed reply. */
  function Text(f: Fixed): string {
    match f
    // Fallback while the stage is `GREETING`.
    case GreetingFallback =>
      "\U{F0}\U{178}\U{2018}\U{2039} Welcome to TalentScout! I'm your AI hiring assistant.\n\nI'll help guide you through our initial screening process. This will take about 5-10 minutes.\n\n**Let's start! What is your full name?**"
    // Fallback while the stage is `COLLECTING_NAME`; it asks for the e-mail address.
    case NameFallback =>
      "Nice to meet you! \U{F0}\U{178}\U{2DC}\U{160}\n\nCould you please provide your **email address**?"
    // Fallback while the stage is `COLLECTING_EMAIL`; it asks for the phone number.
    case EmailFallback =>
      "Great, thank you!\n\nWhat's the best **phone number** to reach you?"
    // Fallback while the stage is `COLLECTING_PHONE`; it asks for the years of experience.
    case PhoneFallback =>
      "Perfect!\n\nHow many **years of experience** do you have in the tech industry?"
    // Fallback while the stage is `COLLECTING_EXPERIENCE`; it asks for the position.
    case ExperienceFallback =>
      "Excellent experience!\n\nWhat **position(s)** are you interested in applying for?\n(e.g., Software Engineer, Full Stack Developer, Data Scientist)"
    // Fallback while the stage is `COLLECTING_POSITION`; it asks for the location.
    case PositionFallback =>
      "Great choice!\n\nWhat is your **current location**? (City, Country)"
    // Fallback while the stage is `COLLECTING_LOCATION`; it asks for the tech stack.
    case LocationFallback =>
      "Thank you!\n\nNow, please list your **tech stack** including:\n\U{E2}\U{20AC}\U{A2} Programming languages\n\U{E2}\U{20AC}\U{A2} Frameworks\n\U{E2}\U{20AC}\U{A2} Databases\n\U{E2}\U{20AC}\U{A2} Tools & technologies\n\nBe as specific as possible - this helps us generate relevant questions!"
    // Fallback while the stage is `TECHNICAL_QUESTIONS`.
    case TechnicalFallback =>
      "Thank you for your answer! Let me ask the next question."
    // Fallback while the stage is `COMPLETED`: the closing message.
    case CompletedFallback =>
      "\U{F0}\U{178}\U{17D}\U{2030} **Thank you for completing the screening!**\n\nYour information has been recorded successfully. Our recruitment team will review your profile and contact you within **3-5 business days**.\n\nWe appreciate your interest in joining through TalentScout. Good luck! \U{F0}\U{178}\U{20AC}"
    // Fallback for a stage without an entry of its own, which is only `COLLECTING_TECH_STACK`
    // (written in three parts, so that facts about its characters are proved part by part).
    case Apology =>
      "I apologize, but I'm having " + "trouble processing that. " + "Could you please try again?"
    // Reply to a name shorter than two characters.
    case NameRetry =>
      "I didn't quite catch that. Could you please tell me your **full name**?"
    // Reply to an e-mail address that fails validation.
    case EmailRetry =>
      "That doesn't appear to be a valid email address. \U{F0}\U{178}\U{201C}\U{A7}\n\nPlease provide a valid email in the format: **example@domain.com**"
    // Reply to a phone number that fails validation.
    case PhoneRetry =>
      "That doesn't appear to be a valid phone number. \U{F0}\U{178}\U{201C}\U{B1}\n\nPlease provide a phone number with at least 10 digits.\nExample: +1-555-123-4567 or 5551234567"
    // Reply to an answer with no acceptable number of years.
    case ExperienceRetry =>
      "I couldn't understand that. \U{F0}\U{178}\U{A4}\U{201D}\n\nPlease tell me your years of experience as a number.\nExamples: '5 years', '3', 'about 2 years'"
    // Reply to a position shorter than two characters.
    case PositionRetry =>
      "Could you please specify what position(s) you're interested in? \U{F0}\U{178}\U{17D}\U{AF}\n\nExamples:\n\U{E2}\U{20AC}\U{A2} Software Engineer\n\U{E2}\U{20AC}\U{A2} Full Stack Developer\n\U{E2}\U{20AC}\U{A2} Data Scientist\n\U{E2}\U{20AC}\U{A2} DevOps Engineer"
    // Reply to a location shorter than two characters.
    case LocationRetry =>
      "Could you please provide your current location? \U{F0}\U{178}\U{201C}\n\nExamples: 'New York, USA', 'London, UK', 'Bangalore, India'"
    // Reply to a tech stack shorter than five characters.
    case TechStackRetry =>
      "Could you provide more details about your tech stack? \U{F0}\U{178}\U{2019}\U{BB}\n\nPlease list:\n\U{E2}\U{20AC}\U{A2} **Programming languages** (Python, JavaScript, Java, etc.)\n\U{E2}\U{20AC}\U{A2} **Frameworks** (React, Django, Spring, etc.)\n\U{E2}\U{20AC}\U{A2} **Databases** (MySQL, MongoDB, PostgreSQL, etc.)\n\U{E2}\U{20AC}\U{A2} **Tools** (Docker, Git, AWS, etc.)"
    // Farewell when no name is known.
    case FarewellAnonymous =>
      "Thank you for visiting TalentScout! \U{F0}\U{178}\U{2018}\U{2039}\n\nFeel free to return whenever you're ready to complete the screening.\n\nHave a great day! \U{F0}\U{178}\U{152}\U{178}"
  }

  /** The fixed pieces of the composed replies. */
  datatype Piece =
    | IntroStart
    | IntroMiddle
    | HeaderEnd
    | AnswerStart
    | FarewellStart
    | FarewellEnd

  /** The text of each piece. */
  function Part(p: Piece): string {
    match p
    // Start of the first-question reply, before the question count.
    case IntroStart =>
      "Excellent! \U{F0}\U{178}\U{17D}\U{AF} Based on your tech stack, I have **"
    // Text between the question count and the header of question 1.
    case IntroMiddle =>
      " technical questions** for you.\n\nTake your time with each answer. Here's the first one:\n\n**Question 1/"
    // End of a question header, before the question text.
    case HeaderEnd =>
      ":**\n"
    // Start of the reply to a technical answer, before the next question number.
    case AnswerStart =>
      "\U{E2}\U{153}\U{2026} Thank you for your answer!\n\n**Question "
    // Start of the personalised farewell, before the name.
    case FarewellStart =>
      "Thank you for your time, **"
    // End of the personalised farewell, after the name.
    case FarewellEnd =>
      "**! \U{F0}\U{178}\U{2018}\U{2039}\n\nIf you'd like to complete the screening process later, feel free to start a new conversation.\n\nHave a great day! \U{F0}\U{178}\U{152}\U{178}"
  }
}
