/** The phone-call state machine of src/machines/phoneMachine.ts.

    States are `incoming`, `active` with the substates `main`, `keypad`,
    `processing` and `speaking`, and `ended`. Every transition assigns new
    context values computed from the old ones, so the machine is the pure
    function `Step`. The once-a-second timer actor and the AI actor become the
    external events `Tick`, `AiDone(text, audio)` and `AiError`. */
module PhoneMachine {
  import opened Wrappers

  datatype Role = User | Assistant
  datatype Message = Message(role: Role, content: string)
  datatype AgentState = Idle | Thinking | Speaking | Listening

  datatype Context = Context(
    duration: nat,
    keypadValue: string,
    isMuted: bool,
    isSpeakerOn: bool,
    conversation: seq<Message>,
    agentState: AgentState,
    lastAudio: Option<string>)

  datatype ActiveState = Main | Keypad | Processing | Speaking
  datatype State = Incoming | Active(sub: ActiveState) | Ended

  datatype Event =
    | Accept
    | Decline
    | EndCall
    | Tick
    | ToggleMute
    | ToggleSpeaker
    | ShowKeypad
    | HideKeypad
    | PressKey(key: string)
    | Restart
    | UserSpeak(text: string)
    | AudioFinished
      // completion events of the `aiAgent` actor invoked in `processing`
    | AiDone(text: string, audio: string)
    | AiError

  datatype Config = Config(state: State, ctx: Context)

  const InitialContext := Context(0, "", false, false, [], AgentState.Idle, None)
  const Initial := Config(Incoming, InitialContext)

  /** Events handled by the active substate itself; `None` passes the event on
      to the handlers of `active`. */
  function StepSub(sub: ActiveState, ctx: Context, e: Event): Option<Config> {
    match sub
    case Main =>
      (match e
       case ShowKeypad => Some(Config(Active(Keypad), ctx))
       case UserSpeak(text) =>
         Some(Config(Active(Processing),
                     ctx.(conversation := ctx.conversation + [Message(User, text)],
                          agentState := Thinking)))
       case _ => None)
    case Keypad =>
      (match e
       case HideKeypad => Some(Config(Active(Main), ctx))
       case PressKey(key) => Some(Config(Active(Keypad), ctx.(keypadValue := ctx.keypadValue + key)))
       case _ => None)
    case Processing =>
      (match e
       case AiDone(text, audio) =>
         Some(Config(Active(ActiveState.Speaking),
                     ctx.(conversation := ctx.conversation + [Message(Assistant, text)],
                          agentState := AgentState.Speaking,
                          lastAudio := Some(audio))))
       case AiError => Some(Config(Active(Main), ctx.(agentState := Idle)))
       case _ => None)
    case Speaking =>
      (match e
       case AudioFinished => Some(Config(Active(Main), ctx.(agentState := Listening, lastAudio := None)))
       case _ => None)
  }

  /** Handlers declared on `active`, shared by every substate. */
  function StepActive(c: Config, e: Event): Config
    requires c.state.Active?
  {
    match e
    case EndCall => Config(Ended, c.ctx)
    case Tick => c.(ctx := c.ctx.(duration := c.ctx.duration + 1))
    case ToggleMute => c.(ctx := c.ctx.(isMuted := !c.ctx.isMuted))
    case ToggleSpeaker => c.(ctx := c.ctx.(isSpeakerOn := !c.ctx.isSpeakerOn))
    case _ => c
  }

  /** One event processed to completion; an event no state handles is ignored. */
  function Step(c: Config, e: Event): Config {
    match c.state
    case Incoming =>
      (match e
       case Accept => Config(Active(Main), c.ctx)
       case Decline => Config(Ended, c.ctx)
       case _ => c)
    case Active(sub) =>
      var handled := StepSub(sub, c.ctx, e);
      if handled.Some? then handled.value else StepActive(c, e)
    case Ended =>
      if e.Restart? then Config(Incoming, InitialContext) else c
  }

  function Run(c: Config, es: seq<Event>): Config
    decreases |es|
  {
    if es == [] then c else Run(Step(c, es[0]), es[1..])
  }

  /** The history the AI actor sends to the generator: the conversation followed
      by a user turn holding the content of the conversation's last message. */
  function RequestHistory(ctx: Context): (h: seq<Message>)
    requires |ctx.conversation| > 0
    ensures |h| == |ctx.conversation| + 1 && h[..|ctx.conversation|] == ctx.conversation
    ensures h[|h| - 1] == Message(User, ctx.conversation[|ctx.conversation| - 1].content)
  {
    var conversation := ctx.conversation;
    var userText := conversation[|conversation| - 1].content;
    conversation + [Message(User, userText)]
  }

  // ---------------------------------------------------------------------
  // The invariant of every reachable configuration

  ghost predicate Inv(c: Config) {
    var ctx := c.ctx;
    && (c.state == Incoming ==> ctx == InitialContext)
    && (c.state == Active(Processing) ==>
          |ctx.conversation| > 0 && ctx.conversation[|ctx.conversation| - 1].role == User
          && ctx.agentState == Thinking)
    && (c.state == Active(ActiveState.Speaking) ==>
          |ctx.conversation| > 0 && ctx.conversation[|ctx.conversation| - 1].role == Assistant
          && ctx.agentState == AgentState.Speaking)
    && (c.state.Active? ==> (ctx.lastAudio.Some? <==> c.state.sub == ActiveState.Speaking))
    && (c.state == Active(Main) || c.state == Active(Keypad) ==> ctx.agentState in {Idle, Listening})
  }

  lemma StepKeepsInv(c: Config, e: Event)
    requires Inv(c)
    ensures Inv(Step(c, e))
  {
  }

  lemma {:induction false} RunKeepsInv(c: Config, es: seq<Event>)
    requires Inv(c)
    ensures Inv(Run(c, es))
    decreases |es|
  {
    if es != [] {
      StepKeepsInv(c, es[0]);
      RunKeepsInv(Step(c, es[0]), es[1..]);
    }
  }

  /** Every configuration reachable from the initial one satisfies `Inv`. */
  lemma ReachableInv(es: seq<Event>)
    ensures Inv(Run(Initial, es))
  {
    RunKeepsInv(Initial, es);
  }

  /** In a reachable `processing` state the request history ends with the user
      turn twice: the text is already the last message and is appended again. */
  lemma RequestRepeatsUserTurn(c: Config)
    requires Inv(c) && c.state == Active(Processing)
    ensures var conv := c.ctx.conversation;
            RequestHistory(c.ctx) == conv + [conv[|conv| - 1]]
  {
  }

  // ---------------------------------------------------------------------
  // Transitions, state by state

  lemma IncomingTransitions(ctx: Context, e: Event)
    ensures Step(Config(Incoming, ctx), e) ==
              if e == Accept then Config(Active(Main), ctx)
              else if e == Decline then Config(Ended, ctx)
              else Config(Incoming, ctx)
  {
  }

  /** USER_SPEAK in `main` appends exactly one user turn and starts thinking;
      in the other substates it is ignored. */
  lemma UserSpeakOnlyInMain(sub: ActiveState, ctx: Context, text: string)
    ensures var r := Step(Config(Active(sub), ctx), UserSpeak(text));
            if sub == Main then
              r == Config(Active(Processing), ctx.(conversation := ctx.conversation + [Message(User, text)],
                                                   agentState := Thinking))
            else r == Config(Active(sub), ctx)
  {
  }

  /** A successful completion appends one assistant turn and hands over the audio. */
  lemma AiDoneInProcessing(ctx: Context, text: string, audio: string)
    ensures Step(Config(Active(Processing), ctx), AiDone(text, audio)) ==
              Config(Active(ActiveState.Speaking),
                     ctx.(conversation := ctx.conversation + [Message(Assistant, text)],
                          agentState := AgentState.Speaking, lastAudio := Some(audio)))
  {
  }

  /** The AI actor's completion events have no effect outside `processing`. */
  lemma AiEventsOnlyInProcessing(c: Config, e: Event)
    requires e.AiDone? || e == AiError
    requires c.state != Active(Processing)
    ensures Step(c, e) == c
  {
  }

  lemma AudioFinishedInSpeaking(ctx: Context)
    ensures Step(Config(Active(ActiveState.Speaking), ctx), AudioFinished) ==
              Config(Active(Main), ctx.(agentState := Listening, lastAudio := None))
  {
  }

  /** PRESS_KEY is handled in `keypad` only, and only appends the key. */
  lemma PressKeyOnlyInKeypad(c: Config, key: string)
    ensures Step(c, PressKey(key)) ==
              if c.state == Active(Keypad) then c.(ctx := c.ctx.(keypadValue := c.ctx.keypadValue + key))
              else c
  {
  }

  /** TICK, TOGGLE_MUTE and TOGGLE_SPEAKER change their own field in every
      active substate, keep the substate, and are ignored elsewhere. */
  lemma BackgroundEvents(c: Config)
    ensures Step(c, Tick) == if c.state.Active? then c.(ctx := c.ctx.(duration := c.ctx.duration + 1)) else c
    ensures Step(c, ToggleMute) == if c.state.Active? then c.(ctx := c.ctx.(isMuted := !c.ctx.isMuted)) else c
    ensures Step(c, ToggleSpeaker) ==
              if c.state.Active? then c.(ctx := c.ctx.(isSpeakerOn := !c.ctx.isSpeakerOn)) else c
  {
  }

  /** END_CALL ends the call from every active substate without touching the
      context, and is ignored in `incoming` and `ended`. */
  lemma EndCallTransitions(c: Config)
    ensures Step(c, EndCall) == if c.state.Active? then Config(Ended, c.ctx) else c
  {
  }

  /** RESTART is accepted only in `ended`; it restores the initial context. */
  lemma RestartTransitions(c: Config)
    ensures Step(c, Restart) == if c.state == Ended then Initial else c
  {
  }

  // ---------------------------------------------------------------------
  // Properties of runs

  predicate IsBackground(e: Event) {
    e == Tick || e == ToggleMute || e == ToggleSpeaker
  }

  function Ticks(es: seq<Event>): nat {
    if es == [] then 0 else (if es[0] == Tick then 1 else 0) + Ticks(es[1..])
  }

  /** Background events never leave the active substate and never change the
      conversation, the keypad buffer, the agent state or the pending audio. */
  lemma {:induction false} BackgroundRun(c: Config, es: seq<Event>)
    requires c.state.Active?
    requires forall i :: 0 <= i < |es| ==> IsBackground(es[i])
    ensures var r := Run(c, es);
            && r.state == c.state
            && r.ctx.conversation == c.ctx.conversation
            && r.ctx.keypadValue == c.ctx.keypadValue
            && r.ctx.agentState == c.ctx.agentState
            && r.ctx.lastAudio == c.ctx.lastAudio
            && r.ctx.duration == c.ctx.duration + Ticks(es)
    decreases |es|
  {
    if es != [] {
      BackgroundRun(Step(c, es[0]), es[1..]);
    }
  }

  /** A full turn from `main`: USER_SPEAK, any background events while the
      request is pending, and a successful completion grow the conversation by
      exactly two messages, the user's before the assistant's. */
  lemma FullTurn(ctx: Context, text: string, pending: seq<Event>, reply: string, audio: string)
    requires forall i :: 0 <= i < |pending| ==> IsBackground(pending[i])
    ensures var r := Run(Config(Active(Main), ctx), [UserSpeak(text)] + pending + [AiDone(reply, audio)]);
            && r.state == Active(ActiveState.Speaking)
            && r.ctx.conversation == ctx.conversation + [Message(User, text), Message(Assistant, reply)]
            && r.ctx.agentState == AgentState.Speaking
            && r.ctx.lastAudio == Some(audio)
  {
    var c0 := Config(Active(Main), ctx);
    var c1 := Step(c0, UserSpeak(text));
    BackgroundRun(c1, pending);
    RunAppend(c0, [UserSpeak(text)] + pending, [AiDone(reply, audio)]);
    RunAppend(c0, [UserSpeak(text)], pending);
  }

  /** A failed turn returns to `main` idle, keeping the user's turn: the
      conversation is exactly one message longer. */
  lemma FailedTurn(ctx: Context, text: string, pending: seq<Event>)
    requires forall i :: 0 <= i < |pending| ==> IsBackground(pending[i])
    ensures var r := Run(Config(Active(Main), ctx), [UserSpeak(text)] + pending + [AiError]);
            && r.state == Active(Main)
            && r.ctx.conversation == ctx.conversation + [Message(User, text)]
            && r.ctx.agentState == Idle
  {
    var c0 := Config(Active(Main), ctx);
    var c1 := Step(c0, UserSpeak(text));
    BackgroundRun(c1, pending);
    RunAppend(c0, [UserSpeak(text)] + pending, [AiError]);
    RunAppend(c0, [UserSpeak(text)], pending);
  }

  lemma {:induction false} RunAppend(c: Config, a: seq<Event>, b: seq<Event>)
    ensures Run(c, a + b) == Run(Run(c, a), b)
    decreases |a|
  {
    if a != [] {
      assert (a + b)[0] == a[0];
      assert (a + b)[1..] == a[1..] + b;
      RunAppend(Step(c, a[0]), a[1..], b);
    } else {
      assert a + b == b;
    }
  }

  /** Without RESTART the conversation is append-only. */
  lemma {:induction false} ConversationAppendOnly(c: Config, es: seq<Event>)
    requires forall i :: 0 <= i < |es| ==> es[i] != Restart
    ensures c.ctx.conversation <= Run(c, es).ctx.conversation
    decreases |es|
  {
    if es != [] {
      ConversationAppendOnly(Step(c, es[0]), es[1..]);
    }
  }

  /** The duration never grows by more than the number of TICK events; once
      the call has ended it stays put until RESTART. */
  lemma {:induction false} DurationBoundedByTicks(c: Config, es: seq<Event>)
    ensures Run(c, es).ctx.duration <= c.ctx.duration + Ticks(es)
    decreases |es|
  {
    if es != [] {
      DurationBoundedByTicks(Step(c, es[0]), es[1..]);
    }
  }

  /** In `ended` every event except RESTART is ignored. */
  lemma {:induction false} EndedIsStable(ctx: Context, es: seq<Event>)
    requires forall i :: 0 <= i < |es| ==> es[i] != Restart
    ensures Run(Config(Ended, ctx), es) == Config(Ended, ctx)
    decreases |es|
  {
    if es != [] {
      EndedIsStable(ctx, es[1..]);
    }
  }

  /** Two calls that both end and restart start from the same configuration. */
  lemma RestartIdempotent(c1: Config, c2: Config)
    requires c1.state == Ended && c2.state == Ended
    ensures Step(c1, Restart) == Step(c2, Restart) == Initial
    ensures Step(Step(c1, Restart), Restart) == Initial
  {
  }
}
