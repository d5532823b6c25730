/** `ServiceModal.getServiceData`: the constant table from a service id to the title of
    its request form and the ordered questions it asks, with a generic entry for every
    id the table does not know. */
module Catalog {
  import opened Wrappers

  /** The `type` of a question: which widget `generateQuestions` builds for it. */
  datatype Kind = Text | TextArea | Select | Checkbox

  /** One `{ value, text }` option of a select or checkbox question. */
  datatype Choice = Choice(value: string, text: string)

  /** A question object. A property the object literal leaves out is `None` /
      `false` / `[]` here, as it reads in JavaScript (`undefined`, falsy). */
  datatype Question = Question(
    text: string,
    kind: Kind,
    required: bool,
    placeholder: Option<string>,
    options: seq<Choice>)

  datatype ServiceData = ServiceData(title: string, questions: seq<Question>)

  function SelectQ(text: string, required: bool, options: seq<Choice>): Question {
    Question(text, Select, required, None, options)
  }

  function CheckboxQ(text: string, options: seq<Choice>): Question {
    Question(text, Checkbox, false, None, options)
  }

  function TextQ(text: string, placeholder: string, required: bool): Question {
    Question(text, Text, required, Some(placeholder), [])
  }

  function TextAreaQ(text: string, placeholder: string, required: bool): Question {
    Question(text, TextArea, required, Some(placeholder), [])
  }

  const CvCreation := ServiceData("CV Creation Service", [
    SelectQ("What industry/field are you targeting?", true, [
      Choice("tech", "Technology/IT"),
      Choice("finance", "Finance/Banking"),
      Choice("healthcare", "Healthcare"),
      Choice("education", "Education"),
      Choice("marketing", "Marketing/Sales"),
      Choice("engineering", "Engineering"),
      Choice("creative", "Creative/Design"),
      Choice("other", "Other")]),
    SelectQ("Current career level", true, [
      Choice("student", "Student/Recent Graduate"),
      Choice("entry", "Entry Level (0-2 years)"),
      Choice("mid", "Mid Level (3-7 years)"),
      Choice("senior", "Senior Level (8+ years)"),
      Choice("executive", "Executive/Leadership")]),
    SelectQ("Do you have an existing CV/Resume?", true, [
      Choice("none", "No, starting from scratch"),
      Choice("outdated", "Yes, but it needs major updates"),
      Choice("recent", "Yes, just needs minor tweaks")]),
    CheckboxQ("Special requirements", [
      Choice("ats", "ATS-optimized formatting"),
      Choice("creative", "Creative/visual design"),
      Choice("academic", "Academic format"),
      Choice("international", "International format"),
      Choice("portfolio", "Include portfolio section")]),
    TextAreaQ("Tell us about your key achievements or experiences",
      "Briefly describe your main accomplishments, skills, or experiences you want highlighted...", true)])

  const CoverLetters := ServiceData("Cover Letter Writing Service", [
    SelectQ("Do you have a specific job posting in mind?", true, [
      Choice("specific", "Yes, for a specific job application"),
      Choice("general", "No, I need a general template"),
      Choice("multiple", "Multiple positions in same field")]),
    TextQ("Company name (if specific)", "Enter company name if applying to specific job", false),
    TextQ("Job title/position", "e.g., Software Developer, Marketing Manager", true),
    TextAreaQ("What makes you interested in this role/company?",
      "Share your motivation and what attracts you to this opportunity...", true),
    TextAreaQ("Key skills/experiences to highlight",
      "What specific skills or experiences make you a great fit for this role?", true),
    SelectQ("Cover letter style preference", true, [
      Choice("professional", "Professional/Formal"),
      Choice("conversational", "Conversational/Friendly"),
      Choice("creative", "Creative/Unique"),
      Choice("technical", "Technical/Detailed")])])

  const LinkedinSetup := ServiceData("LinkedIn Profile Setup", [
    SelectQ("Do you have an existing LinkedIn profile?", true, [
      Choice("none", "No, need to create from scratch"),
      Choice("basic", "Yes, but very basic/incomplete"),
      Choice("existing", "Yes, but needs optimization")]),
    SelectQ("Primary goal for LinkedIn", true, [
      Choice("job-search", "Job searching"),
      Choice("networking", "Professional networking"),
      Choice("business", "Business development"),
      Choice("thought-leadership", "Thought leadership"),
      Choice("recruitment", "Recruiting talent")]),
    CheckboxQ("Services needed", [
      Choice("headline", "Professional headline optimization"),
      Choice("summary", "About section writing"),
      Choice("experience", "Experience section optimization"),
      Choice("skills", "Skills and endorsements setup"),
      Choice("photo", "Profile photo guidance"),
      Choice("strategy", "Content and networking strategy")]),
    TextQ("Target audience/industry",
      "Who do you want to connect with? (e.g., HR managers, tech leaders, etc.)", true),
    TextAreaQ("Current professional summary or bio",
      "Share your current bio or how you would describe your professional background...", false)])

  const EmailSignatures := ServiceData("Email Signature Design", [
    SelectQ("Email signature purpose", true, [
      Choice("personal", "Personal/Professional use"),
      Choice("business", "Business/Company use"),
      Choice("freelance", "Freelance/Consultant"),
      Choice("student", "Student/Academic")]),
    CheckboxQ("Information to include", [
      Choice("name", "Full name"),
      Choice("title", "Job title/position"),
      Choice("company", "Company name"),
      Choice("phone", "Phone number"),
      Choice("website", "Website URL"),
      Choice("social", "Social media links"),
      Choice("address", "Business address"),
      Choice("logo", "Company/personal logo")]),
    SelectQ("Design style preference", true, [
      Choice("minimal", "Minimal/Clean"),
      Choice("modern", "Modern/Colorful"),
      Choice("professional", "Traditional/Professional"),
      Choice("creative", "Creative/Unique")]),
    TextQ("Brand colors (if any)", "Hex codes or color names (e.g., #1a73e8, blue)", false),
    TextAreaQ("Special requirements", "Any specific requirements or elements you want included?", false)])

  const BusinessCards := ServiceData("Business Card Design", [
    SelectQ("Business card purpose", true, [
      Choice("professional", "Professional networking"),
      Choice("business", "Business promotion"),
      Choice("personal", "Personal branding"),
      Choice("event", "Event/Conference use"),
      Choice("student", "Student networking")]),
    CheckboxQ("Information to include", [
      Choice("name", "Name"),
      Choice("title", "Job title/position"),
      Choice("company", "Company name"),
      Choice("phone", "Phone number"),
      Choice("email", "Email address"),
      Choice("website", "Website"),
      Choice("social", "Social media"),
      Choice("address", "Address"),
      Choice("logo", "Logo/branding")]),
    SelectQ("Design style preference", true, [
      Choice("minimalist", "Minimalist/Clean"),
      Choice("modern", "Modern/Trendy"),
      Choice("classic", "Classic/Traditional"),
      Choice("creative", "Creative/Artistic"),
      Choice("luxury", "Luxury/Premium")]),
    TextQ("Preferred colors/theme", "Describe your color preferences or brand colors", false),
    SelectQ("Quantity needed", true, [
      Choice("design-only", "Design file only"),
      Choice("100", "100 cards"),
      Choice("250", "250 cards"),
      Choice("500", "500 cards"),
      Choice("1000", "1000+ cards")])])

  const FlyersMarketing := ServiceData("Flyers & Marketing Materials", [
    SelectQ("Type of material needed", true, [
      Choice("flyer", "Event flyer"),
      Choice("poster", "Poster"),
      Choice("brochure", "Brochure/Pamphlet"),
      Choice("banner", "Banner/Sign"),
      Choice("social", "Social media graphics"),
      Choice("presentation", "Presentation slides")]),
    TextQ("Purpose/Event type", "e.g., University event, business promotion, workshop, etc.", true),
    TextAreaQ("Key information to include", "Event details, dates, contact info, key messages, etc.", true),
    SelectQ("Design style preference", true, [
      Choice("professional", "Professional/Corporate"),
      Choice("fun", "Fun/Casual"),
      Choice("academic", "Academic/Educational"),
      Choice("creative", "Creative/Artistic"),
      Choice("minimal", "Minimal/Clean")]),
    SelectQ("Dimensions/Format", true, [
      Choice("a4", "A4 (8.5\" x 11\")"),
      Choice("a5", "A5 (5.8\" x 8.3\")"),
      Choice("letter", "Letter size"),
      Choice("square", "Square format"),
      Choice("social-media", "Social media sizes"),
      Choice("custom", "Custom size")]),
    TextAreaQ("Additional requirements", "Specific colors, fonts, images, or other requirements...", false)])

  const PhoneSupport := ServiceData("Phone Technical Support", [
    TextQ("Phone brand and model", "e.g., iPhone 14, Samsung Galaxy S23, Google Pixel 7", true),
    TextQ("Operating system version (if known)", "e.g., iOS 16, Android 13", false),
    CheckboxQ("Type of issue/support needed", [
      Choice("setup", "Initial setup/activation"),
      Choice("apps", "App installation/issues"),
      Choice("email", "Email setup"),
      Choice("wifi", "WiFi/connectivity issues"),
      Choice("storage", "Storage/memory problems"),
      Choice("backup", "Backup and sync"),
      Choice("security", "Security/privacy settings"),
      Choice("performance", "Performance optimization"),
      Choice("transfer", "Data transfer"),
      Choice("other", "Other issues")]),
    TextAreaQ("Describe the problem in detail", "Please describe what issues you are experiencing...", true),
    SelectQ("Preferred support method", true, [
      Choice("remote", "Remote support (screen sharing)"),
      Choice("phone", "Phone call guidance"),
      Choice("inperson", "In-person support"),
      Choice("email", "Email instructions")]),
    SelectQ("Urgency level", true, UrgencyChoices)])

  const LaptopSupport := ServiceData("Laptop Technical Support", [
    TextQ("Laptop brand and model", "e.g., MacBook Air M2, Dell XPS 13, HP Pavilion", true),
    SelectQ("Operating system", true, [
      Choice("windows11", "Windows 11"),
      Choice("windows10", "Windows 10"),
      Choice("macos", "macOS"),
      Choice("linux", "Linux"),
      Choice("chromeos", "Chrome OS"),
      Choice("unknown", "Not sure")]),
    CheckboxQ("Type of support needed", [
      Choice("setup", "Initial setup/configuration"),
      Choice("software", "Software installation"),
      Choice("performance", "Performance optimization"),
      Choice("virus", "Virus/malware removal"),
      Choice("updates", "System updates"),
      Choice("backup", "Data backup setup"),
      Choice("network", "Network/WiFi issues"),
      Choice("email", "Email setup"),
      Choice("printing", "Printer setup"),
      Choice("recovery", "Data recovery"),
      Choice("training", "General training/tutorials")]),
    TextAreaQ("Describe the issue or requirements", "Please describe what you need help with in detail...", true),
    SelectQ("Preferred support method", true, [
      Choice("remote", "Remote support (screen sharing)"),
      Choice("inperson", "In-person support"),
      Choice("phone", "Phone guidance"),
      Choice("email", "Email instructions")]),
    SelectQ("Experience level", true, [
      Choice("beginner", "Beginner - Need step-by-step help"),
      Choice("intermediate", "Intermediate - Comfortable with basics"),
      Choice("advanced", "Advanced - Just need technical guidance")]),
    SelectQ("Urgency level", true, UrgencyChoices)])

  /** The urgency options, written out identically in the phone and the laptop entry. */
  const UrgencyChoices := [
    Choice("low", "Low - Can wait a few days"),
    Choice("medium", "Medium - Within 24 hours"),
    Choice("high", "High - Same day"),
    Choice("urgent", "Urgent - ASAP")]

  /** The `serviceConfigs` object literal. */
  const Services: map<string, ServiceData> := map[
    "cv-creation" := CvCreation,
    "cover-letters" := CoverLetters,
    "linkedin-setup" := LinkedinSetup,
    "email-signatures" := EmailSignatures,
    "business-cards" := BusinessCards,
    "flyers-marketing" := FlyersMarketing,
    "phone-support" := PhoneSupport,
    "laptop-support" := LaptopSupport]

  /** The entry every unknown id falls back to. */
  const Fallback := ServiceData("Service Request", [])

  function Lookup(id: string): ServiceData {
    if id in Services then Services[id] else Fallback
  }

  /** Select and checkbox questions list options to choose from; text questions list none. */
  predicate WellFormed(q: Question) {
    (q.kind == Select || q.kind == Checkbox) <==> |q.options| > 0
  }

  /** The table holds exactly the eight services offered on the page. */
  lemma KnownServices()
    ensures Services.Keys == {"cv-creation", "cover-letters", "linkedin-setup", "email-signatures",
                              "business-cards", "flyers-marketing", "phone-support", "laptop-support"}
  {
  }

  /** Lookup never fails, and it gives the generic entry exactly for the ids the table
      does not know: no configured service looks like the fallback. */
  lemma LookupFallsBackExactlyOnUnknown(id: string)
    ensures id in Services ==> Lookup(id) == Services[id]
    ensures Lookup(id) == Fallback <==> id !in Services
    ensures Lookup(id).title == "Service Request" <==> id !in Services
  {
  }

  lemma UnknownIdExample()
    ensures Lookup("xyz").title == "Service Request" && Lookup("xyz").questions == []
  {
  }

  lemma CvCreationShape()
    ensures Lookup("cv-creation").title == "CV Creation Service"
    ensures |Lookup("cv-creation").questions| == 5
    ensures Lookup("cv-creation").questions[3].kind == Checkbox
    ensures |Lookup("cv-creation").questions[3].options| == 5
  {
  }

  /** The number of questions each service asks. */
  lemma QuestionCounts()
    ensures |Lookup("cv-creation").questions| == 5
    ensures |Lookup("cover-letters").questions| == 6
    ensures |Lookup("linkedin-setup").questions| == 5
    ensures |Lookup("email-signatures").questions| == 5
    ensures |Lookup("business-cards").questions| == 5
    ensures |Lookup("flyers-marketing").questions| == 6
    ensures |Lookup("phone-support").questions| == 6
    ensures |Lookup("laptop-support").questions| == 7
  {
  }

  /** Every question of every entry, the fallback included, is well formed. */
  lemma CatalogWellFormed(id: string)
    ensures forall i :: 0 <= i < |Lookup(id).questions| ==> WellFormed(Lookup(id).questions[i])
  {
  }
}
