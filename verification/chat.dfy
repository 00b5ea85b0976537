/**
 The assistant chat widget: an append-only log of `{role, text}` messages,
 the input box, and the loading flag, driven by typing, the send button, the
 Enter key and the settling of relay calls. The relay's reply is an
 arbitrary string supplied with the event that settles a call.
 */
module Chat {

  import opened Text

  datatype Role = User | Model

  /** `ChatMessage` without its timestamp. */
  datatype ChatMessage = ChatMessage(role: Role, text: string)

  /** The widget's `messages`, `inputText` and `isLoading`, and `inFlight`: the
      number of relay calls started and not yet settled. `inFlight` is not a
      variable of the widget; it counts the `handleSend` calls suspended at
      their `await`, so that what `isLoading` is meant to show can be
      stated. */
  datatype ChatState = ChatState(messages: seq<ChatMessage>, input: string, loading: bool, inFlight: nat)

  /** How a relay call settles: with the reply text, or by throwing. */
  datatype Outcome = Replied(text: string) | Threw

  /** The assistant's opening message. */
  function Greeting(): ChatMessage {
    ChatMessage(Model, "Hello! I'm LuxBot \U{1F916}. " + "Looking for a self-con " + "in Yaba or a flat in Abuja? " + "I fit help you.")
  }

  /** A freshly mounted widget: the greeting alone, an empty input, nothing
      loading and nothing in flight. */
  function InitialChat(): (c: ChatState)
    ensures |c.messages| == 1 && c.messages[0].role == Model
    ensures c.input == "" && !c.loading && c.inFlight == 0
  {
    ChatState(messages := [Greeting()], input := "", loading := false, inFlight := 0)
  }

  /** `handleSend` up to its `await`. Input that is blank after trimming
      changes nothing. Otherwise the untrimmed input is appended as a user
      message, the input is cleared, loading is set and a relay call starts. */
  function BeginSend(c: ChatState): (r: ChatState)
    ensures IsBlank(c.input) ==> r == c
    ensures !IsBlank(c.input) ==> r.messages == c.messages + [ChatMessage(User, c.input)]
    ensures !IsBlank(c.input) ==> r.input == "" && r.loading && r.inFlight == c.inFlight + 1
  {
    if IsBlank(c.input) then c
    else ChatState(messages := c.messages + [ChatMessage(User, c.input)], input := "", loading := true, inFlight := c.inFlight + 1)
  }

  /** The rest of `handleSend` once its relay call settles: a reply is
      appended as a model message to the log as it stands by then, a throw
      appends nothing, and in both cases loading is cleared. */
  function Settle(c: ChatState, o: Outcome): (r: ChatState)
    requires c.inFlight > 0
    ensures o.Replied? ==> r.messages == c.messages + [ChatMessage(Model, o.text)]
    ensures o.Threw? ==> r.messages == c.messages
    ensures !r.loading && r.input == c.input && r.inFlight == c.inFlight - 1
  {
    var messages := if o.Replied? then c.messages + [ChatMessage(Model, o.text)] else c.messages;
    ChatState(messages := messages, input := c.input, loading := false, inFlight := c.inFlight - 1)
  }

  /** The send button is enabled when nothing is loading and the input is not
      blank. */
  predicate SendEnabled(c: ChatState) {
    !c.loading && !IsBlank(c.input)
  }

  /** A click on the send button; a disabled button ignores it. */
  function ClickSend(c: ChatState): (r: ChatState)
    ensures SendEnabled(c) ==> |r.messages| == |c.messages| + 1 && r.messages[|c.messages|] == ChatMessage(User, c.input)
    ensures !SendEnabled(c) ==> r == c
  {
    if SendEnabled(c) then BeginSend(c) else c
  }

  /** `handleKeyPress` as written: Enter without Shift sends, whether or not a
      reply is still loading. */
  function KeyDownAsWritten(c: ChatState, key: string, shift: bool): (r: ChatState)
    ensures key == "Enter" && !shift ==> r == BeginSend(c)
    ensures key != "Enter" || shift ==> r == c
  {
    if key == "Enter" && !shift then BeginSend(c) else c
  }

  /** `handleKeyPress` with the send button's guard: Enter without Shift sends
      only when nothing is loading. */
  function KeyDown(c: ChatState, key: string, shift: bool): (r: ChatState)
    ensures key == "Enter" && !shift ==> r == ClickSend(c)
    ensures key != "Enter" || shift ==> r == c
  {
    if key == "Enter" && !shift && !c.loading then BeginSend(c) else c
  }

  /** Enter agrees with the button in both versions when nothing is loading;
      while loading, the version as written sends anyway. */
  lemma EnterAndButton(c: ChatState)
    ensures KeyDown(c, "Enter", false) == ClickSend(c)
    ensures !c.loading ==> KeyDownAsWritten(c, "Enter", false) == ClickSend(c)
    ensures c.loading && !IsBlank(c.input) ==>
      KeyDownAsWritten(c, "Enter", false) != ClickSend(c) && KeyDownAsWritten(c, "Enter", false).inFlight == c.inFlight + 1
  {
  }

  // ---------------------------------------------------------------------------
  // The widget over a sequence of events
  // ---------------------------------------------------------------------------

  /** Which `handleKeyPress` the widget runs: the one as written, or the one
      guarded like the send button. */
  datatype KeyHandler = AsWritten | Guarded

  /** Typing (the input's `onChange`), a click on send, a key press in the
      input, and the settling of one pending relay call. */
  datatype ChatEvent = Type(text: string) | Click | Key(key: string, shift: bool) | Settled(outcome: Outcome)

  /** One event; a key press goes to the chosen handler. A settling with no
      call in flight cannot happen and is ignored. */
  function Step(h: KeyHandler, c: ChatState, e: ChatEvent): ChatState {
    match e
    case Type(text) => c.(input := text)
    case Click => ClickSend(c)
    case Key(key, shift) =>
      (match h
       case AsWritten => KeyDownAsWritten(c, key, shift)
       case Guarded => KeyDown(c, key, shift))
    case Settled(o) => if c.inFlight > 0 then Settle(c, o) else c
  }

  function Run(h: KeyHandler, c: ChatState, es: seq<ChatEvent>): ChatState
    decreases |es|
  {
    if es == [] then c else Run(h, Step(h, c, es[0]), es[1..])
  }

  /** Under either key handler, one event keeps every message already in the
      log, in place, and adds at most one. */
  lemma StepExtendsLog(h: KeyHandler, c: ChatState, e: ChatEvent)
    ensures c.messages <= Step(h, c, e).messages
    ensures |Step(h, c, e).messages| <= |c.messages| + 1
  {
  }

  /** The log is append-only under either key handler: whatever happens, the
      earlier log is a prefix of the later one. */
  lemma {:induction false} RunExtendsLog(h: KeyHandler, c: ChatState, es: seq<ChatEvent>)
    ensures c.messages <= Run(h, c, es).messages
    decreases |es|
  {
    if es != [] {
      StepExtendsLog(h, c, es[0]);
      RunExtendsLog(h, Step(h, c, es[0]), es[1..]);
    }
  }

  /** The greeting stays the first message for the life of the widget, under
      either key handler. */
  lemma GreetingStaysFirst(h: KeyHandler, es: seq<ChatEvent>)
    ensures |Run(h, InitialChat(), es).messages| >= 1
    ensures Run(h, InitialChat(), es).messages[0] == Greeting()
  {
    RunExtendsLog(h, InitialChat(), es);
  }

  /** Every user message in the log has some non-whitespace text. */
  predicate UserTextsNonBlank(messages: seq<ChatMessage>) {
    forall i :: 0 <= i < |messages| && messages[i].role == User ==> !IsBlank(messages[i].text)
  }

  /** Under either key handler, no sequence of events puts a blank user
      message in the log. */
  lemma {:induction false} RunKeepsUserTextsNonBlank(h: KeyHandler, c: ChatState, es: seq<ChatEvent>)
    requires UserTextsNonBlank(c.messages)
    ensures UserTextsNonBlank(Run(h, c, es).messages)
    decreases |es|
  {
    if es != [] {
      var next := Step(h, c, es[0]);
      assert UserTextsNonBlank(next.messages) by {
        forall i | 0 <= i < |next.messages| && next.messages[i].role == User
          ensures !IsBlank(next.messages[i].text)
        {
          if i < |c.messages| {
            StepExtendsLog(h, c, es[0]);
            assert next.messages[i] == c.messages[i];
          }
        }
      }
      RunKeepsUserTextsNonBlank(h, next, es[1..]);
    }
  }

  /** Running a non-empty sequence is taking its first step and running the
      rest. */
  lemma RunFirst(h: KeyHandler, c: ChatState, e: ChatEvent, es: seq<ChatEvent>)
    ensures Run(h, c, [e] + es) == Run(h, Step(h, c, e), es)
  {
    assert ([e] + es)[1..] == es;
  }

  /** Running two events is taking the two steps. */
  lemma RunTwo(h: KeyHandler, c: ChatState, e: ChatEvent, e': ChatEvent)
    ensures Run(h, c, [e, e']) == Step(h, Step(h, c, e), e')
  {
    RunFirst(h, c, e, [e']);
    RunFirst(h, Step(h, c, e), e', []);
    assert [e] + [e'] == [e, e'];
    assert [e'] + [] == [e'];
  }

  /** Under either key handler, a send followed by the relay's reply puts the
      question and then the answer at the end of the log, clears the input and
      ends loading; when the relay throws, only the question is added. */
  lemma SendThenSettle(h: KeyHandler, c: ChatState, o: Outcome)
    requires SendEnabled(c)
    ensures o.Replied? ==>
      Run(h, c, [Click, Settled(o)]).messages == c.messages + [ChatMessage(User, c.input), ChatMessage(Model, o.text)]
    ensures o.Threw? ==> Run(h, c, [Click, Settled(o)]).messages == c.messages + [ChatMessage(User, c.input)]
    ensures !Run(h, c, [Click, Settled(o)]).loading && Run(h, c, [Click, Settled(o)]).input == ""
  {
    RunTwo(h, c, Click, Settled(o));
    var asked := Step(h, c, Click);
    assert asked.messages == c.messages + [ChatMessage(User, c.input)];
    if o.Replied? {
      assert asked.messages + [ChatMessage(Model, o.text)] ==
        c.messages + [ChatMessage(User, c.input), ChatMessage(Model, o.text)];
    }
  }

  // ---------------------------------------------------------------------------
  // The loading flag and the relay calls in flight
  // ---------------------------------------------------------------------------

  /** What the spinner and the disabled button are meant to show: loading
      exactly while the one relay call in flight is awaited. */
  predicate LoadingTracksRelay(c: ChatState) {
    (c.loading <==> c.inFlight > 0) && c.inFlight <= 1
  }

  /** With Enter guarded like the button, every sequence of events keeps
      loading in step with the relay. */
  lemma {:induction false} RunKeepsLoadingTracksRelay(c: ChatState, es: seq<ChatEvent>)
    requires LoadingTracksRelay(c)
    ensures LoadingTracksRelay(Run(Guarded, c, es))
    decreases |es|
  {
    if es != [] {
      RunKeepsLoadingTracksRelay(Step(Guarded, c, es[0]), es[1..]);
    }
  }

  /** The five steps of the run below, one by one, with Enter as written. */
  lemma EnterWhileLoadingSteps(c: ChatState, first: string, second: string, reply: string)
    requires LoadingTracksRelay(c) && !c.loading && !IsBlank(first) && !IsBlank(second)
    ensures var c1 := Step(AsWritten, c, Type(first));
      var c2 := Step(AsWritten, c1, Key("Enter", false));
      var c3 := Step(AsWritten, c2, Type(second));
      var c4 := Step(AsWritten, c3, Key("Enter", false));
      var c5 := Step(AsWritten, c4, Settled(Replied(reply)));
      c2.loading && c2.inFlight == 1 && c4.inFlight == 2 && !c5.loading && c5.inFlight == 1
  {
  }

  /** Running five events is taking the five steps. */
  lemma RunFive(h: KeyHandler, c: ChatState, e1: ChatEvent, e2: ChatEvent, e3: ChatEvent, e4: ChatEvent, e5: ChatEvent)
    ensures Run(h, c, [e1, e2, e3, e4, e5]) ==
      Step(h, Step(h, Step(h, Step(h, Step(h, c, e1), e2), e3), e4), e5)
  {
    var c1 := Step(h, c, e1);
    var c2 := Step(h, c1, e2);
    var c3 := Step(h, c2, e3);
    var c4 := Step(h, c3, e4);
    RunFirst(h, c4, e5, []);
    RunFirst(h, c3, e4, [e5]);
    RunFirst(h, c2, e3, [e4, e5]);
    RunFirst(h, c1, e2, [e3, e4, e5]);
    RunFirst(h, c, e1, [e2, e3, e4, e5]);
    assert [e5] + [] == [e5];
    assert [e4] + [e5] == [e4, e5];
    assert [e3] + [e4, e5] == [e3, e4, e5];
    assert [e2] + [e3, e4, e5] == [e2, e3, e4, e5];
    assert [e1] + [e2, e3, e4, e5] == [e1, e2, e3, e4, e5];
  }

  /** As written, typing a second question and pressing Enter before the first
      reply arrives starts a second relay call; the first reply then clears
      loading while the second call is still awaited, so the button is
      enabled again and the spinner gone with a call in flight. */
  lemma EnterWhileLoadingLosesTrack(c: ChatState, first: string, second: string, reply: string)
    requires LoadingTracksRelay(c) && !c.loading && !IsBlank(first) && !IsBlank(second)
    ensures var r := Run(AsWritten, c, [Type(first), Key("Enter", false), Type(second), Key("Enter", false), Settled(Replied(reply))]);
      !r.loading && r.inFlight == 1 && !LoadingTracksRelay(r)
  {
    EnterWhileLoadingSteps(c, first, second, reply);
    RunFive(AsWritten, c, Type(first), Key("Enter", false), Type(second), Key("Enter", false), Settled(Replied(reply)));
  }

  /** The smallest instance: on a fresh widget, ask "a", then ask "b" before
      the reply "x" to "a" arrives. */
  lemma EnterWhileLoadingExample(c: ChatState)
    requires c == InitialChat()
    ensures var r := Run(AsWritten, c, [Type("a"), Key("Enter", false), Type("b"), Key("Enter", false), Settled(Replied("x"))]);
      !r.loading && r.inFlight == 1
  {
    CharNotBlank('a');
    CharNotBlank('b');
    EnterWhileLoadingLosesTrack(c, "a", "b", "x");
  }
}
