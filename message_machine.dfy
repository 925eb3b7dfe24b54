/** The text-message state machine of src/machines/messageMachine.ts.

    States are `list` and `conversation`. The context holds the conversation
    list, the open conversation's id, the reply being typed and the theme
    flag. Every transition assigns new values computed from the old ones, so
    the machine is the pure function `Step`; SEND_REPLY's message list, which
    the source builds by pushing onto a local array, is also written as the
    method `BuildNewMessages`. */
module MessageMachine {
  import opened Wrappers
  import opened JsText

  datatype Kind = Received | Sent
  datatype Message = Message(kind: Kind, text: string)

  /** A conversation: its id, sender, the two list flags and its messages.
      Time, preview and avatar are display content. */
  datatype Conversation = Conversation(
    id: string,
    sender: string,
    unread: bool,
    active: bool,
    messages: seq<Message>)

  // ---------------------------------------------------------------------
  // The conversation lists

  const Mom := Conversation("mom", "Mom", false, false, [
    Message(Sent, "Mom, just click the icon."),
    Message(Received, "Which one? The blue e?"),
    Message(Sent, "No, that's Internet Explorer. The colorful G."),
    Message(Received, "I don't see a G. I see a fox."),
    Message(Sent, "That's Firefox. Just use that."),
    Message(Received, "How do I open the google in the fox?")])

  const Boss := Conversation("boss", "Boss", false, false, [
    Message(Received, "Hey, we're a bit behind. Can you come in on Saturday?"),
    Message(Sent, "Oh no, I think I'm coming down with something."),
    Message(Received, "It's Tuesday."),
    Message(Sent, "It's a slow-acting virus. Very rare.")])

  const Ex := Conversation("ex", "Jessica", false, false, [
    Message(Received, "I miss you"),
    Message(Sent, "New phone who dis"),
    Message(Received, "It's Jessica. We dated for 3 years."),
    Message(Sent, "Sorry, I lost all my contacts when I upgraded to the iPhone 15 Pro Max Titanium.")])

  const Landlord := Conversation("landlord", "Landlord", false, false, [
    Message(Received, "Rent is due tomorrow."),
    Message(Sent, "The heater is still broken."),
    Message(Received, "Rent is due tomorrow."),
    Message(Sent, "I'm cold."),
    Message(Received, "Buy a sweater. Rent is due.")])

  const DefaultConversations: seq<Conversation> := [Mom, Boss, Ex, Landlord]

  /** A scenario's conversation: unread, opening with one received notice
      (kept here by its first words). */
  function Notice(id: string, sender: string, active: bool, opening: string): Conversation {
    Conversation(id, sender, true, active, [Message(Received, opening)])
  }

  const CanadaPostConversations: seq<Conversation> := [
    Notice("canada-post", "Canada Post", true, "Canada Post: Your package CA892341 is on hold due to unpaid fees ($24.45)."),
    Mom, Boss]

  const PurolatorConversations: seq<Conversation> := [
    Notice("purolator", "Purolator – Delivery Notice", true, "Purolator – Delivery Notice"),
    Mom, Landlord]

  const HydroQuebecConversations: seq<Conversation> := [
    Notice("hydro-quebec", "Hydro-Québec", true, "Hydro-Québec: You have an unclaimed refund of $84.23 from your last billing cycle."),
    Ex, Landlord]

  const TdBankConversations: seq<Conversation> := [
    Notice("td-bank", "TD Bank", true, "TD Bank Security Alert: We have detected an unauthorized login attempt on your account."),
    Mom, Boss]

  const LegitCanadaPostConversations: seq<Conversation> := [
    Notice("legit-canada-post", "Canada Post", false, "A delivery attempt will be made today for package #CA-938271."),
    Mom, Boss]

  const LegitClinicConversations: seq<Conversation> := [
    Notice("legit-clinic", "Medical Clinic", true, "Reminder: Your appointment is\nscheduled for tomorrow at 10:30 AM\nwith Dr. Martin."),
    Mom, Ex]

  const LegitSaaqConversations: seq<Conversation> := [
    Notice("legit-saaq", "SAAQ", false, "SAAQ\nYour driver's licence renewal\nnotice is available in your\nonline account."),
    Boss, Landlord]

  /** The ids `getConversationsForScenario` maps to a list of their own. */
  predicate KnownScenario(scenario: string) {
    scenario in ["canada-post", "purolator", "hydro-quebec", "td-bank",
                 "legit-canada-post", "legit-clinic", "legit-saaq"]
  }

  /** `getConversationsForScenario`: a known scenario opens with its own
      conversation; anything else shows the defaults followed by the
      Purolator list. */
  function ConversationsForScenario(scenario: string): (r: seq<Conversation>)
    ensures KnownScenario(scenario) ==> |r| == 3 && r[0].id == scenario && r[0].unread
    ensures !KnownScenario(scenario) ==> r == DefaultConversations + PurolatorConversations
  {
    match scenario
    case "canada-post" => CanadaPostConversations
    case "purolator" => PurolatorConversations
    case "hydro-quebec" => HydroQuebecConversations
    case "td-bank" => TdBankConversations
    case "legit-canada-post" => LegitCanadaPostConversations
    case "legit-clinic" => LegitClinicConversations
    case "legit-saaq" => LegitSaaqConversations
    case _ => DefaultConversations + PurolatorConversations
  }

  /** The default view holds Mom's conversation twice, at positions 0 and 5. */
  lemma DefaultViewRepeatsMom(scenario: string)
    requires !KnownScenario(scenario)
    ensures var r := ConversationsForScenario(scenario);
            |r| == 7 && r[0] == r[5] == Mom
  {
  }

  // ---------------------------------------------------------------------
  // SEND_REPLY

  const ClinicId: string := "legit-clinic"
  const ClinicConfirmation: string :=
    "Thank you! Your appointment with Dr. Martin tomorrow at 10:30 AM has been confirmed. Please arrive 15 minutes early."
  const ClinicCancellation: string :=
    "Your appointment has been cancelled. Please call 514-555-0100 to reschedule."

  /** The clinic's scripted answer to a reply, if any. */
  function ClinicAnswer(id: string, reply: string): (a: seq<Message>)
    ensures |a| <= 1
    ensures a != [] ==> a[0].kind == Received
  {
    if id != ClinicId then []
    else if Trim(reply) == "1" then [Message(Received, ClinicConfirmation)]
    else if Trim(reply) == "2" then [Message(Received, ClinicCancellation)]
    else []
  }

  /** The messages of `c` after the reply: the sent message, then the clinic's answer. */
  function RepliedMessages(c: Conversation, reply: string): (ms: seq<Message>)
    ensures |c.messages| + 1 <= |ms| <= |c.messages| + 2
    ensures ms[..|c.messages| + 1] == c.messages + [Message(Sent, reply)]
  {
    c.messages + [Message(Sent, reply)] + ClinicAnswer(c.id, reply)
  }

  /** Lines 303-318 as the source writes them: copy, push the sent message,
      then push the clinic's answer. */
  method BuildNewMessages(c: Conversation, replyText: string) returns (newMessages: seq<Message>)
    ensures newMessages == RepliedMessages(c, replyText)
  {
    newMessages := c.messages + [Message(Sent, replyText)];
    if c.id == ClinicId {
      var trimmedReply := Trim(replyText);
      if trimmedReply == "1" {
        newMessages := newMessages + [Message(Received, ClinicConfirmation)];
      } else if trimmedReply == "2" {
        newMessages := newMessages + [Message(Received, ClinicCancellation)];
      }
    }
  }

  /** `conversations.map(...)`: the reply goes into every conversation whose
      id is the open one, and every other conversation is returned as it was. */
  function SendReplyTo(convs: seq<Conversation>, open: Option<string>, reply: string): (r: seq<Conversation>)
    ensures |r| == |convs|
    ensures forall i :: 0 <= i < |r| ==>
              r[i] == if Some(convs[i].id) == open then convs[i].(messages := RepliedMessages(convs[i], reply))
                      else convs[i]
  {
    if convs == [] then []
    else
      var c := convs[0];
      var head := if Some(c.id) == open then c.(messages := RepliedMessages(c, reply)) else c;
      [head] + SendReplyTo(convs[1..], open, reply)
  }

  // ---------------------------------------------------------------------
  // The machine

  datatype Context = Context(
    conversations: seq<Conversation>,
    activeConversationId: Option<string>,
    replyText: string,
    isDarkMode: bool)

  datatype State = List | InConversation

  datatype Event =
    | OpenConversation(id: string)
    | Back
    | TypeReply(text: string)
    | SendReply
    | ToggleTheme
    | LoadScenario(scenario: string)

  datatype Config = Config(state: State, ctx: Context)

  const InitialContext := Context(DefaultConversations, None, "", true)
  const Initial := Config(List, InitialContext)

  /** One event processed to completion; an event the state does not handle is ignored. */
  function Step(c: Config, e: Event): Config {
    var ctx := c.ctx;
    match c.state
    case List =>
      (match e
       case LoadScenario(scenario) => Config(List, ctx.(conversations := ConversationsForScenario(scenario)))
       case OpenConversation(id) => Config(InConversation, ctx.(activeConversationId := Some(id)))
       case ToggleTheme => Config(List, ctx.(isDarkMode := !ctx.isDarkMode))
       case _ => c)
    case InConversation =>
      (match e
       case Back => Config(List, ctx.(activeConversationId := None, replyText := ""))
       case TypeReply(text) => Config(InConversation, ctx.(replyText := text))
       case SendReply =>
         Config(InConversation,
                ctx.(conversations := SendReplyTo(ctx.conversations, ctx.activeConversationId, ctx.replyText),
                     replyText := ""))
       case ToggleTheme => Config(InConversation, ctx.(isDarkMode := !ctx.isDarkMode))
       case _ => c)
  }

  function Run(c: Config, es: seq<Event>): Config
    decreases |es|
  {
    if es == [] then c else Run(Step(c, es[0]), es[1..])
  }

  /** A conversation is open exactly in `conversation`, and the list has no
      reply text pending. */
  predicate Inv(c: Config) {
    && (c.state == InConversation <==> c.ctx.activeConversationId.Some?)
    && (c.state == List ==> c.ctx.replyText == "")
  }

  lemma StepKeepsInv(c: Config, e: Event)
    requires Inv(c)
    ensures Inv(Step(c, e))
  {
  }

  lemma {:induction false} RunKeepsInv(c: Config, es: seq<Event>)
    requires Inv(c)
    ensures Inv(Run(c, es))
    decreases |es|
  {
    if es != [] {
      StepKeepsInv(c, es[0]);
      RunKeepsInv(Step(c, es[0]), es[1..]);
    }
  }

  lemma ReachableInv(es: seq<Event>)
    ensures Inv(Run(Initial, es))
  {
    RunKeepsInv(Initial, es);
  }

  // ---------------------------------------------------------------------
  // Transitions

  /** LOAD_SCENARIO replaces the list, and only in `list`. */
  lemma LoadScenarioOnlyInList(c: Config, scenario: string)
    ensures Step(c, LoadScenario(scenario)) ==
              if c.state == List then c.(ctx := c.ctx.(conversations := ConversationsForScenario(scenario)))
              else c
  {
  }

  /** OPEN_CONVERSATION opens that id; BACK returns to the list and clears
      both the open id and the reply. */
  lemma OpenAndBack(ctx: Context, id: string)
    ensures Step(Config(List, ctx), OpenConversation(id)) ==
              Config(InConversation, ctx.(activeConversationId := Some(id)))
    ensures Step(Config(InConversation, ctx), Back) ==
              Config(List, ctx.(activeConversationId := None, replyText := ""))
  {
  }

  /** SEND_REPLY appends the typed text as a sent message to the open
      conversation, keeps every other conversation, the list's length and
      order, clears the reply and stays in `conversation`. Empty text is not
      refused. */
  lemma SendReplyAppends(ctx: Context, id: string)
    requires ctx.activeConversationId == Some(id)
    ensures var r := Step(Config(InConversation, ctx), SendReply);
            && r.state == InConversation
            && r.ctx.replyText == ""
            && r.ctx.activeConversationId == ctx.activeConversationId
            && r.ctx.isDarkMode == ctx.isDarkMode
            && |r.ctx.conversations| == |ctx.conversations|
            && (forall i :: 0 <= i < |ctx.conversations| ==>
                  var before := ctx.conversations[i];
                  var after := r.ctx.conversations[i];
                  && after.(messages := before.messages) == before
                  && (before.id != id ==> after == before)
                  && (before.id == id ==>
                        after.messages[..|before.messages| + 1] == before.messages + [Message(Sent, ctx.replyText)]))
  {
  }

  /** In the clinic conversation a trimmed '1' adds the confirmation after
      the sent message. */
  lemma ClinicConfirms(c: Conversation, reply: string)
    requires c.id == ClinicId && Trim(reply) == "1"
    ensures RepliedMessages(c, reply) == c.messages + [Message(Sent, reply), Message(Received, ClinicConfirmation)]
  {
    assert ClinicAnswer(c.id, reply) == [Message(Received, ClinicConfirmation)];
  }

  /** In the clinic conversation a trimmed '2' adds the cancellation after
      the sent message. */
  lemma ClinicCancels(c: Conversation, reply: string)
    requires c.id == ClinicId && Trim(reply) == "2"
    ensures RepliedMessages(c, reply) == c.messages + [Message(Sent, reply), Message(Received, ClinicCancellation)]
  {
    assert Trim(reply) != "1";
    assert ClinicAnswer(c.id, reply) == [Message(Received, ClinicCancellation)];
  }

  /** Any other reply, and any reply outside the clinic conversation, adds
      the sent message alone. */
  lemma NoClinicAnswer(c: Conversation, reply: string)
    requires c.id != ClinicId || (Trim(reply) != "1" && Trim(reply) != "2")
    ensures RepliedMessages(c, reply) == c.messages + [Message(Sent, reply)]
  {
    assert ClinicAnswer(c.id, reply) == [];
  }

  /** In the default view Mom's conversation is listed twice, so a reply
      sent while it is open lands in both copies. */
  lemma ReplyToMomLandsTwice(reply: string)
    ensures var convs := ConversationsForScenario("");
            var r := SendReplyTo(convs, Some("mom"), reply);
            && r[0].messages == Mom.messages + [Message(Sent, reply)]
            && r[5].messages == Mom.messages + [Message(Sent, reply)]
  {
    DefaultViewRepeatsMom("");
  }

  /** TYPE_REPLY sets the reply in `conversation` only. */
  lemma TypeReplyOnlyInConversation(c: Config, text: string)
    ensures Step(c, TypeReply(text)) ==
              if c.state == InConversation then c.(ctx := c.ctx.(replyText := text)) else c
  {
  }

  /** TOGGLE_THEME flips the theme in both states, so doing it twice changes nothing. */
  lemma ToggleThemeTwice(c: Config)
    ensures Step(c, ToggleTheme) == c.(ctx := c.ctx.(isDarkMode := !c.ctx.isDarkMode))
    ensures Step(Step(c, ToggleTheme), ToggleTheme) == c
  {
  }
}
