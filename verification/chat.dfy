/** The records exchanged with the registration chat service, and the fixed
    texts the client itself writes into the transcript (app.py). */
module Chat {
  import opened Wrappers

  datatype Role = User | Assistant

  /** One transcript entry: `{"role": ..., "content": ...}`. */
  datatype Message = Message(role: Role, content: string)

  /** `context["hackathon_details"]`: the only field the client reads is the partner's name. */
  datatype HackathonDetails = HackathonDetails(drillPartnerName: Option<string>)

  /** The server's progress blob. The client echoes it back unchanged and reads
      only `original_name` and `hackathon_details.drillPartnerName`. */
  datatype Context = Context(originalName: Option<string>, hackathonDetails: Option<HackathonDetails>)

  /** A successful `/chat` reply. `message` is the one field the client indexes
      directly; every other field is read with `.get` and may be missing. */
  datatype Reply = Reply(
    message: string,
    sessionId: Option<string>,
    currentQuestion: Option<string>,
    registrationComplete: Option<bool>,
    suggestions: Option<seq<string>>,
    requiresSelection: Option<bool>,
    eventLink: Option<string>,
    context: Option<Context>)

  /** The JSON payload of a `/chat` POST. */
  datatype Request = Request(
    sessionId: Option<string>,
    message: string,
    context: Option<Context>,
    currentQuestion: Option<string>)

  /** Python truthiness of an optional string: present and non-empty. */
  predicate Truthy(o: Option<string>) {
    o.Some? && o.value != ""
  }

  const Welcome := "Welcome to Sarv! Let's get started with your event registration."
  const SuccessHeading := "Your event has been successfully registered!"
  const PartnerLead := " with partner "
  const LinkLead := "\nYou can access it here: "
  const AnotherEventPrompt := "Would you like to register another event? (Type 'yes' or 'no')"
  const Closing := "Thank you for using the Hackathon Registration Chatbot! Have a great day!"
}
