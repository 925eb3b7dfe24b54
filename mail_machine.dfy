/** The mail client state machine of src/machines/mailMachine.ts.

    States are `inbox` with the substates `normal` and `selection`, `detail`
    and `compose`. Every transition assigns new context values computed from
    the old ones, so the machine is the pure function `Step`. As in xstate,
    an event is offered to the deepest active state first, then to `inbox`,
    then to the machine itself; an event nobody handles is ignored. */
module MailMachine {
  import opened Wrappers
  import opened JsText

  /** An inbox entry: its id, sender, unread flag and whether it is the scam.
      Subject, preview, body, time and avatar are display content. */
  datatype Email = Email(id: string, sender: string, unread: bool, isScam: bool)

  const DefaultEmails: seq<Email> := [
    Email("1", "Google Community Team", true, false),
    Email("2", "YouTube", false, false),
    Email("3", "LinkedIn", false, false),
    Email("4", "Amazon", false, false),
    Email("5", "Netflix", false, false)
  ]

  const LotoQuebecEmails: seq<Email> := [
    Email("loto-quebec", "Loto-Québec Rewards", true, true),
    Email("1", "Google Community Team", false, false),
    Email("4", "Amazon", false, false)
  ]

  /** `getEmailsForScenario`. */
  function EmailsForScenario(scenario: string): (r: seq<Email>)
    ensures scenario == "loto-quebec" ==> r == LotoQuebecEmails
    ensures scenario != "loto-quebec" ==> r == DefaultEmails
  {
    if scenario == "loto-quebec" then LotoQuebecEmails else DefaultEmails
  }

  datatype Context = Context(
    emails: seq<Email>,
    selectedEmails: seq<string>,
    currentEmailId: Option<string>,
    isSideMenuOpen: bool,
    isAccountModalOpen: bool,
    snackbarMessage: Option<string>)

  datatype InboxState = Normal | Selection
  datatype State = Inbox(sub: InboxState) | Detail | Compose

  datatype Event =
    | OpenEmail(id: string)
    | BackToInbox
    | BackFromCompose
    | Reply
    | SendReply
    | DeleteEmail
    | LongPressEmail(id: string)
    | ToggleSelection(id: string)
    | CancelSelection
    | DeleteSelected
    | OpenMenu
    | CloseMenu
    | OpenAccount
    | CloseAccount
    | DismissSnackbar
    | LoadScenario(scenario: string)
    | Reset

  datatype Config = Config(state: State, ctx: Context)

  const InitialContext := Context(DefaultEmails, [], None, false, false, None)
  const Initial := Config(Inbox(Normal), InitialContext)

  const MessageSent: string := "Message sent!"

  // ---------------------------------------------------------------------
  // The list operations

  predicate NoDuplicates(s: seq<string>) {
    forall i, j :: 0 <= i < j < |s| ==> s[i] != s[j]
  }

  /** `Array.from(new Set(s))`: the first occurrence of each id, in order. */
  function Dedup(s: seq<string>): (r: seq<string>)
    ensures NoDuplicates(r)
    ensures forall x :: x in r <==> x in s
  {
    if s == [] then []
    else
      var init := s[..|s| - 1];
      var d := Dedup(init);
      assert forall x :: x in s <==> x in init || x == s[|s| - 1] by {
        assert s == init + [s[|s| - 1]];
      }
      if s[|s| - 1] in d then d else d + [s[|s| - 1]]
  }

  /** A list without repetitions is its own set. */
  lemma {:induction false} DedupOfDistinct(s: seq<string>)
    requires NoDuplicates(s)
    ensures Dedup(s) == s
  {
    if s != [] {
      var init := s[..|s| - 1];
      DedupOfDistinct(init);
      assert s[|s| - 1] !in init;
      assert init + [s[|s| - 1]] == s;
    }
  }

  /** `set.delete(id)` on the set's element list. */
  function RemoveId(s: seq<string>, id: string): (r: seq<string>)
    ensures forall x :: x in r <==> x in s && x != id
    ensures |r| <= |s|
  {
    if s == [] then []
    else if s[0] == id then RemoveId(s[1..], id)
    else [s[0]] + RemoveId(s[1..], id)
  }

  lemma {:induction false} RemoveIdKeepsDistinct(s: seq<string>, id: string)
    requires NoDuplicates(s)
    ensures NoDuplicates(RemoveId(s, id))
  {
    if s != [] {
      RemoveIdKeepsDistinct(s[1..], id);
      var rest := RemoveId(s[1..], id);
      assert s[0] !in s[1..];
      assert s[0] !in rest;
    }
  }

  /** The TOGGLE_SELECTION update: through a `Set`, delete `id` when it is
      there and add it at the end otherwise. */
  function Toggle(selected: seq<string>, id: string): seq<string> {
    var ids := Dedup(selected);
    if id in ids then RemoveId(ids, id) else ids + [id]
  }

  /** Exactly `id` flips membership, every other id stays, and the result
      never holds an id twice. */
  lemma ToggleMembers(selected: seq<string>, id: string)
    ensures id in Toggle(selected, id) <==> id !in selected
    ensures forall x :: x != id ==> (x in Toggle(selected, id) <==> x in selected)
    ensures NoDuplicates(Toggle(selected, id))
  {
    var ids := Dedup(selected);
    if id in ids {
      RemoveIdKeepsDistinct(ids, id);
    } else {
      assert forall x :: x in ids + [id] <==> x in ids || x == id;
    }
  }

  /** On a list without repetitions, toggling an absent id appends it,
      toggling a present one removes it in place, and toggling an absent id
      twice restores the list. */
  lemma ToggleOrder(selected: seq<string>, id: string)
    requires NoDuplicates(selected)
    ensures id !in selected ==> Toggle(selected, id) == selected + [id]
    ensures id in selected ==> Toggle(selected, id) == RemoveId(selected, id)
    ensures id !in selected ==> Toggle(Toggle(selected, id), id) == selected
  {
    DedupOfDistinct(selected);
    if id !in selected {
      ToggleMembers(selected, id);
      DedupOfDistinct(selected + [id]);
      RemoveIdAppend(selected, id);
    }
  }

  lemma {:induction false} RemoveIdAppend(s: seq<string>, id: string)
    requires id !in s
    ensures RemoveId(s + [id], id) == s
  {
    if s == [] {
      assert [id][1..] == [];
    } else {
      assert (s + [id])[1..] == s[1..] + [id];
      RemoveIdAppend(s[1..], id);
    }
  }

  /** `emails.filter(e => !ids.includes(e.id))`. */
  function Without(emails: seq<Email>, ids: seq<string>): (r: seq<Email>)
    ensures |r| <= |emails|
    ensures forall i :: 0 <= i < |r| ==> r[i].id !in ids
  {
    if emails == [] then []
    else if emails[0].id in ids then Without(emails[1..], ids)
    else [emails[0]] + Without(emails[1..], ids)
  }

  /** An email survives exactly when its id is not listed. */
  lemma {:induction false} WithoutMembers(emails: seq<Email>, ids: seq<string>, e: Email)
    ensures e in Without(emails, ids) <==> e in emails && e.id !in ids
  {
    if emails != [] {
      WithoutMembers(emails[1..], ids, e);
      assert emails == [emails[0]] + emails[1..];
    }
  }

  /** The filter distributes over concatenation, so the kept emails stay in order. */
  lemma {:induction false} WithoutAppend(a: seq<Email>, b: seq<Email>, ids: seq<string>)
    ensures Without(a + b, ids) == Without(a, ids) + Without(b, ids)
  {
    if a == [] {
      assert a + b == b;
    } else {
      assert (a + b)[0] == a[0];
      assert (a + b)[1..] == a[1..] + b;
      WithoutAppend(a[1..], b, ids);
    }
  }

  /** Removing nothing keeps the list. */
  lemma {:induction false} WithoutNothing(emails: seq<Email>)
    ensures Without(emails, []) == emails
  {
    if emails != [] {
      WithoutNothing(emails[1..]);
    }
  }

  /** The snackbar text `${k} deleted`. */
  function DeletedMessage(k: nat): string {
    NatToDecimal(k) + " deleted"
  }

  /** The text DELETE_EMAIL shows is the count message for one email. */
  lemma OneDeleted()
    ensures DeletedMessage(1) == "1 deleted"
  {
    assert NatToDecimal(1) == ['1'];
  }

  /** The ids DELETE_EMAIL filters out: `e.id !== currentEmailId` keeps
      everything when no email is open. */
  function OpenIds(current: Option<string>): seq<string> {
    if current.Some? then [current.value] else []
  }

  // ---------------------------------------------------------------------
  // Transitions

  function StepNormal(ctx: Context, e: Event): Option<Config> {
    match e
    case LoadScenario(scenario) => Some(Config(Inbox(Normal), ctx.(emails := EmailsForScenario(scenario))))
    case OpenEmail(id) => Some(Config(Detail, ctx.(currentEmailId := Some(id))))
    case LongPressEmail(id) => Some(Config(Inbox(Selection), ctx.(selectedEmails := [id])))
    case OpenMenu => Some(Config(Inbox(Normal), ctx.(isSideMenuOpen := true)))
    case OpenAccount => Some(Config(Inbox(Normal), ctx.(isAccountModalOpen := true)))
    case _ => None
  }

  function StepSelection(ctx: Context, e: Event): Option<Config> {
    match e
    case ToggleSelection(id) => Some(Config(Inbox(Selection), ctx.(selectedEmails := Toggle(ctx.selectedEmails, id))))
    case CancelSelection => Some(Config(Inbox(Normal), ctx.(selectedEmails := [])))
    case DeleteSelected =>
      Some(Config(Inbox(Normal),
                  ctx.(emails := Without(ctx.emails, ctx.selectedEmails),
                       selectedEmails := [],
                       snackbarMessage := Some(DeletedMessage(|ctx.selectedEmails|)))))
    case _ => None
  }

  /** Handlers declared on `inbox`, shared by both substates. */
  function StepInbox(sub: InboxState, ctx: Context, e: Event): Option<Config> {
    var handled := if sub == Normal then StepNormal(ctx, e) else StepSelection(ctx, e);
    if handled.Some? then handled
    else
      match e
      case CloseMenu => Some(Config(Inbox(sub), ctx.(isSideMenuOpen := false)))
      case CloseAccount => Some(Config(Inbox(sub), ctx.(isAccountModalOpen := false)))
      case _ => None
  }

  function StepDetail(ctx: Context, e: Event): Option<Config> {
    match e
    case BackToInbox => Some(Config(Inbox(Normal), ctx.(currentEmailId := None)))
    case Reply => Some(Config(Compose, ctx))
    case DeleteEmail =>
      Some(Config(Inbox(Normal),
                  ctx.(emails := Without(ctx.emails, OpenIds(ctx.currentEmailId)),
                       currentEmailId := None,
                       snackbarMessage := Some("1 deleted"))))
    case _ => None
  }

  function StepCompose(ctx: Context, e: Event): Option<Config> {
    match e
    case BackFromCompose => Some(Config(Detail, ctx))
    case SendReply => Some(Config(Inbox(Normal), ctx.(snackbarMessage := Some(MessageSent), currentEmailId := None)))
    case _ => None
  }

  /** Handlers declared on the machine itself. */
  function StepRoot(c: Config, e: Event): Config {
    match e
    case DismissSnackbar => c.(ctx := c.ctx.(snackbarMessage := None))
    case Reset => Initial
    case _ => c
  }

  /** One event processed to completion. */
  function Step(c: Config, e: Event): Config {
    var handled :=
      match c.state
      case Inbox(sub) => StepInbox(sub, c.ctx, e)
      case Detail => StepDetail(c.ctx, e)
      case Compose => StepCompose(c.ctx, e);
    if handled.Some? then handled.value else StepRoot(c, e)
  }

  function Run(c: Config, es: seq<Event>): Config
    decreases |es|
  {
    if es == [] then c else Run(Step(c, es[0]), es[1..])
  }

  // ---------------------------------------------------------------------
  // The invariant of every reachable configuration

  /** Ids are selected only in `selection`, never twice; an email is open
      exactly in `detail` and `compose`. */
  predicate Inv(c: Config) {
    && (c.state != Inbox(Selection) ==> c.ctx.selectedEmails == [])
    && NoDuplicates(c.ctx.selectedEmails)
    && (c.state.Inbox? <==> c.ctx.currentEmailId.None?)
  }

  lemma StepKeepsInv(c: Config, e: Event)
    requires Inv(c)
    ensures Inv(Step(c, e))
  {
    if c.state == Inbox(Selection) && e.ToggleSelection? {
      ToggleMembers(c.ctx.selectedEmails, e.id);
    }
  }

  lemma {:induction false} RunKeepsInv(c: Config, es: seq<Event>)
    requires Inv(c)
    ensures Inv(Run(c, es))
    decreases |es|
  {
    if es != [] {
      StepKeepsInv(c, es[0]);
      RunKeepsInv(Step(c, es[0]), es[1..]);
    }
  }

  /** Every configuration reachable from the initial one satisfies `Inv`. */
  lemma ReachableInv(es: seq<Event>)
    ensures Inv(Run(Initial, es))
  {
    RunKeepsInv(Initial, es);
  }

  // ---------------------------------------------------------------------
  // Transitions, state by state

  /** A long press in the normal inbox starts a selection holding that email alone. */
  lemma LongPressSelects(ctx: Context, id: string)
    ensures Step(Config(Inbox(Normal), ctx), LongPressEmail(id)) ==
              Config(Inbox(Selection), ctx.(selectedEmails := [id]))
  {
  }

  /** TOGGLE_SELECTION changes the selection alone, flipping exactly that id. */
  lemma ToggleFlipsOne(ctx: Context, id: string)
    ensures var r := Step(Config(Inbox(Selection), ctx), ToggleSelection(id));
            && r.state == Inbox(Selection)
            && r.ctx == ctx.(selectedEmails := r.ctx.selectedEmails)
            && (id in r.ctx.selectedEmails <==> id !in ctx.selectedEmails)
            && (forall x :: x != id ==> (x in r.ctx.selectedEmails <==> x in ctx.selectedEmails))
            && NoDuplicates(r.ctx.selectedEmails)
  {
    ToggleMembers(ctx.selectedEmails, id);
  }

  /** DELETE_SELECTED removes exactly the selected emails, clears the
      selection, reports how many ids were selected and returns to `normal`. */
  lemma DeleteSelectedRemoves(ctx: Context)
    ensures var r := Step(Config(Inbox(Selection), ctx), DeleteSelected);
            && r.state == Inbox(Normal)
            && r.ctx.selectedEmails == []
            && r.ctx.snackbarMessage == Some(NatToDecimal(|ctx.selectedEmails|) + " deleted")
            && r.ctx.currentEmailId == ctx.currentEmailId
            && r.ctx.isSideMenuOpen == ctx.isSideMenuOpen
            && r.ctx.isAccountModalOpen == ctx.isAccountModalOpen
            && (forall e :: e in r.ctx.emails <==> e in ctx.emails && e.id !in ctx.selectedEmails)
  {
    var r := Step(Config(Inbox(Selection), ctx), DeleteSelected);
    forall e ensures e in r.ctx.emails <==> e in ctx.emails && e.id !in ctx.selectedEmails {
      WithoutMembers(ctx.emails, ctx.selectedEmails, e);
    }
  }

  /** DELETE_EMAIL removes the open email, closes it and reports one deletion. */
  lemma DeleteEmailRemoves(ctx: Context, id: string)
    requires ctx.currentEmailId == Some(id)
    ensures var r := Step(Config(Detail, ctx), DeleteEmail);
            && r == Config(Inbox(Normal), ctx.(emails := r.ctx.emails, currentEmailId := None,
                                              snackbarMessage := Some(DeletedMessage(1))))
            && (forall e :: e in r.ctx.emails <==> e in ctx.emails && e.id != id)
  {
    OneDeleted();
    var r := Step(Config(Detail, ctx), DeleteEmail);
    forall e ensures e in r.ctx.emails <==> e in ctx.emails && e.id != id {
      WithoutMembers(ctx.emails, [id], e);
    }
  }

  /** REPLY opens the composer, BACK_FROM_COMPOSE returns to the same email,
      and SEND_REPLY goes to the inbox with the emails untouched. */
  lemma ComposeFlow(ctx: Context)
    ensures Step(Config(Detail, ctx), Reply) == Config(Compose, ctx)
    ensures Step(Config(Compose, ctx), BackFromCompose) == Config(Detail, ctx)
    ensures Step(Config(Compose, ctx), SendReply) ==
              Config(Inbox(Normal), ctx.(snackbarMessage := Some(MessageSent), currentEmailId := None))
  {
  }

  /** RESET restores the initial configuration from every state, and
      DISMISS_SNACKBAR clears the snackbar alone. */
  lemma GlobalEvents(c: Config)
    ensures Step(c, Reset) == Initial
    ensures Step(c, DismissSnackbar) == c.(ctx := c.ctx.(snackbarMessage := None))
  {
  }

  /** LOAD_SCENARIO is handled in the normal inbox only. */
  lemma LoadScenarioOnlyInNormal(c: Config, scenario: string)
    ensures Step(c, LoadScenario(scenario)) ==
              if c.state == Inbox(Normal) then c.(ctx := c.ctx.(emails := EmailsForScenario(scenario)))
              else c
  {
  }

  /** The Loto-Québec list has the scam as its first email, and the default
      list has no scam at all. */
  lemma ScenarioLists()
    ensures LotoQuebecEmails[0].isScam && LotoQuebecEmails[0].id == "loto-quebec"
    ensures forall i :: 1 <= i < |LotoQuebecEmails| ==> !LotoQuebecEmails[i].isScam
    ensures forall i :: 0 <= i < |DefaultEmails| ==> !DefaultEmails[i].isScam
  {
  }

  /** In `detail` only BACK_TO_INBOX, REPLY, DELETE_EMAIL and the two
      machine-wide events have an effect. */
  lemma DetailIgnoresOthers(ctx: Context, e: Event)
    requires !(e == BackToInbox || e == Reply || e == DeleteEmail || e == DismissSnackbar || e == Reset)
    ensures Step(Config(Detail, ctx), e) == Config(Detail, ctx)
  {
  }

  /** In `compose` only BACK_FROM_COMPOSE, SEND_REPLY and the two
      machine-wide events have an effect. */
  lemma ComposeIgnoresOthers(ctx: Context, e: Event)
    requires !(e == BackFromCompose || e == SendReply || e == DismissSnackbar || e == Reset)
    ensures Step(Config(Compose, ctx), e) == Config(Compose, ctx)
  {
  }

  /** Only RESET, LOAD_SCENARIO and the two deletions change the email list. */
  lemma EmailsChangeOnlyByDeletion(c: Config, e: Event)
    requires !(e == Reset || e.LoadScenario? || e == DeleteSelected || e == DeleteEmail)
    ensures Step(c, e).ctx.emails == c.ctx.emails
  {
  }
}
