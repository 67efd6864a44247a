/**
 * What each bound handler and button does to one conversation, as a function
 * from the conversation before the event to the conversation after it.
 * A conversation is the current state, the dialog data (`ctx.dialog_data`)
 * and the messages the bot has sent with `message.answer`.
 */
module Handlers {
  import opened Wrappers
  import opened States
  import opened Getter

  datatype Conversation = Conversation(state: State, data: map<string, string>, sent: seq<string>)

  /** What a user can do: the /start command, a text message, a click on an
      age item, or one of the three buttons of the Finish window. */
  datatype Event =
    | StartCommand
    | NameText(text: string)
    | AgeClick(itemId: string)
    | FinishClick
    | BackClick
    | RestartClick

  /** The conversation before any /start: no dialog, no data, nothing sent. */
  const Initial: Conversation := Conversation(Done, map[], [])

  const GreetingPrefix: string := "Nice to meet you, "
  const Thanks: string := "Thank you. To start again click /start"

  /** The acknowledgement sent for a name. */
  function Greet(name: string): (m: string)
    ensures GreetingPrefix <= m && m[|GreetingPrefix|..] == name
  {
    GreetingPrefix + name
  }

  /** A message the bot can send. */
  predicate IsBotMessage(m: string) {
    m == Thanks || GreetingPrefix <= m
  }

  /** `/start` with `StartMode.RESET_STACK`: a fresh context in Greeting. */
  function StartSession(c: Conversation): Conversation {
    Conversation(Greeting, map[], c.sent)
  }

  /** `name_handler`, reached through the Greeting window's text input. */
  function OnName(c: Conversation, text: string, preview: bool): Conversation {
    if c.state != Greeting then c
    else if preview then c.(state := Next(Greeting).value)
    else Conversation(Next(Greeting).value, c.data["name" := text], c.sent + [Greet(text)])
  }

  /** `on_age_changed`, reached through the Age window's selector. */
  function OnAge(c: Conversation, itemId: string): Conversation {
    if c.state != Age then c
    else c.(data := c.data["age" := itemId], state := Next(Age).value)
  }

  /** `on_finish`: `done()` pops the only context, so its data goes with it. */
  function OnFinish(c: Conversation, preview: bool): Conversation {
    if c.state != Finish then c
    else Conversation(Done, map[], if preview then c.sent else c.sent + [Thanks])
  }

  /** The `Back()` button of the Finish window. */
  function OnBack(c: Conversation): Conversation {
    if c.state != Finish then c
    else c.(state := Prev(Finish).value)
  }

  /** The `SwitchTo(..., state=DialogSG.greeting)` button of the Finish window. */
  function OnRestart(c: Conversation): Conversation {
    if c.state != Finish then c
    else c.(state := Greeting)
  }

  /** Dispatch of one event. The library hands an event only to a widget of the
      current window, so an event for another window leaves everything as it was. */
  function Handle(c: Conversation, e: Event, preview: bool): Conversation {
    match e
    case StartCommand => StartSession(c)
    case NameText(text) => OnName(c, text, preview)
    case AgeClick(itemId) => OnAge(c, itemId)
    case FinishClick => OnFinish(c, preview)
    case BackClick => OnBack(c)
    case RestartClick => OnRestart(c)
  }

  /** Whether the current window has a widget that consumes `e`. */
  predicate Accepts(s: State, e: Event) {
    match e
    case StartCommand => true
    case NameText(_) => s == Greeting
    case AgeClick(_) => s == Age
    case FinishClick | BackClick | RestartClick => s == Finish
  }

  /** The events of a conversation processed one after another. */
  function Run(c: Conversation, es: seq<Event>, preview: bool): Conversation
    decreases |es|
  {
    if es == [] then c else Run(Handle(c, es[0], preview), es[1..], preview)
  }

  /** An age click carries one of the selector's item ids. */
  predicate WellFormed(e: Event) {
    e.AgeClick? ==> e.itemId in AgeItems
  }

  /** What holds of every conversation the bot can reach. */
  ghost predicate Consistent(c: Conversation, preview: bool) {
    && (c.state == Done ==> c.data == map[])
    && c.data.Keys <= {"name", "age"}
    && ("age" in c.data ==> c.data["age"] in AgeItems)
    && (c.state == Finish ==> "age" in c.data)
    && (!preview && (c.state == Age || c.state == Finish) ==> "name" in c.data)
    && (forall i :: 0 <= i < |c.sent| ==> IsBotMessage(c.sent[i]))
  }

  /** The transition table: which state each event leads to. */
  lemma TransitionTable(c: Conversation, e: Event, preview: bool)
    ensures Handle(c, e, preview).state ==
      if !Accepts(c.state, e) then c.state
      else match e
        case StartCommand => Greeting
        case NameText(_) => Age
        case AgeClick(_) => Finish
        case FinishClick => Done
        case BackClick => Age
        case RestartClick => Greeting
  {
  }

  /** An event the current window does not consume changes nothing. */
  lemma IgnoredEventChangesNothing(c: Conversation, e: Event, preview: bool)
    requires !Accepts(c.state, e)
    ensures Handle(c, e, preview) == c
  {
  }

  /** /start works from every state, discards the data, keeps what was sent,
      and a second /start changes nothing more. */
  lemma StartIsReset(c: Conversation, preview: bool)
    ensures Handle(c, StartCommand, preview) == Conversation(Greeting, map[], c.sent)
    ensures Handle(Handle(c, StartCommand, preview), StartCommand, preview) == Handle(c, StartCommand, preview)
  {
  }

  /** A name typed in Greeting is stored, acknowledged, and the dialog moves to
      Age; nothing else in the data changes. */
  lemma NameStoredAndAcknowledged(c: Conversation, text: string)
    requires c.state == Greeting
    ensures var r := Handle(c, NameText(text), false);
      && r.state == Age
      && r.data == c.data["name" := text]
      && r.sent == c.sent + ["Nice to meet you, " + text]
  {
  }

  /** In preview the name handler only advances the dialog. */
  lemma PreviewNameOnlyAdvances(c: Conversation, text: string)
    requires c.state == Greeting
    ensures Handle(c, NameText(text), true) == c.(state := Age)
  {
  }

  /** An age click stores the bracket and moves to Finish; the name stays. */
  lemma AgeStoredNameKept(c: Conversation, itemId: string, preview: bool)
    requires c.state == Age
    ensures var r := Handle(c, AgeClick(itemId), preview);
      && r.state == Finish
      && r.data == c.data["age" := itemId]
      && Lookup(r.data, "name") == Lookup(c.data, "name")
      && r.sent == c.sent
  {
  }

  /** Finish ends the dialog, thanking the user unless in preview. */
  lemma FinishEndsDialog(c: Conversation, preview: bool)
    requires c.state == Finish
    ensures var r := Handle(c, FinishClick, preview);
      && r.state == Done
      && r.sent == if preview then c.sent else c.sent + ["Thank you. To start again click /start"]
  {
  }

  /** Back and Restart change only the state: neither rewrites the data. */
  lemma BackAndRestartKeepData(c: Conversation, preview: bool)
    requires c.state == Finish
    ensures Handle(c, BackClick, preview) == c.(state := Age)
    ensures Handle(c, RestartClick, preview) == c.(state := Greeting)
  {
  }

  /** One well-formed event keeps a conversation consistent. */
  lemma HandleKeepsConsistent(c: Conversation, e: Event, preview: bool)
    requires Consistent(c, preview) && WellFormed(e)
    ensures Consistent(Handle(c, e, preview), preview)
  {
  }

  /** Every conversation reachable through well-formed events is consistent. */
  lemma {:induction false} RunKeepsConsistent(c: Conversation, es: seq<Event>, preview: bool)
    requires Consistent(c, preview)
    requires forall i :: 0 <= i < |es| ==> WellFormed(es[i])
    ensures Consistent(Run(c, es, preview), preview)
    decreases |es|
  {
    if es != [] {
      HandleKeepsConsistent(c, es[0], preview);
      RunKeepsConsistent(Handle(c, es[0], preview), es[1..], preview);
    }
  }

  /** Whatever the user does, the Finish window has an age bracket to show and,
      outside preview, a name. */
  lemma {:induction false} FinishWindowHasAnswers(es: seq<Event>, preview: bool)
    requires forall i :: 0 <= i < |es| ==> WellFormed(es[i])
    ensures var r := Run(Initial, es, preview);
      r.state == Finish ==>
        && GetData(r.data).age.Some?
        && GetData(r.data).age.value in AgeItems
        && (!preview ==> "name" in r.data)
  {
    RunKeepsConsistent(Initial, es, preview);
  }

  /** Messages are only ever appended. */
  lemma {:induction false} RunOnlyAppends(c: Conversation, es: seq<Event>, preview: bool)
    ensures c.sent <= Run(c, es, preview).sent
    decreases |es|
  {
    if es != [] {
      RunOnlyAppends(Handle(c, es[0], preview), es[1..], preview);
    }
  }

  /** In preview nothing is ever sent. */
  lemma {:induction false} PreviewSendsNothing(c: Conversation, es: seq<Event>)
    ensures Run(c, es, true).sent == c.sent
    decreases |es|
  {
    if es != [] {
      PreviewSendsNothing(Handle(c, es[0], true), es[1..]);
    }
  }

  /** After the dialog is done, nothing but /start has an effect. */
  lemma {:induction false} DoneIgnoresAllButStart(c: Conversation, es: seq<Event>, preview: bool)
    requires c.state == Done
    requires forall i :: 0 <= i < |es| ==> es[i] != StartCommand
    ensures Run(c, es, preview) == c
    decreases |es|
  {
    if es != [] {
      DoneIgnoresAllButStart(Handle(c, es[0], preview), es[1..], preview);
    }
  }

  /** The conversation the bot is written for. */
  lemma AliceConversation()
    ensures var r := Run(Initial, [StartCommand, NameText("Alice"), AgeClick("18-25")], false);
      && r == Conversation(Finish, map["name" := "Alice", "age" := "18-25"], ["Nice to meet you, Alice"])
      && GetData(r.data) == WindowData("Alice", Some("18-25"), true)
  {
    var es := [StartCommand, NameText("Alice"), AgeClick("18-25")];
    var c1 := Handle(Initial, StartCommand, false);
    var c2 := Handle(c1, NameText("Alice"), false);
    var c3 := Handle(c2, AgeClick("18-25"), false);
    assert c1 == Conversation(Greeting, map[], []);
    assert Greet("Alice") == "Nice to meet you, Alice";
    assert c2 == Conversation(Age, map["name" := "Alice"], ["Nice to meet you, Alice"]);
    assert c3.data == map["name" := "Alice", "age" := "18-25"];
    assert es[1..] == [NameText("Alice"), AgeClick("18-25")];
    assert es[1..][1..] == [AgeClick("18-25")];
    assert Run(Initial, es, false) == Run(c1, es[1..], false) == Run(c2, es[1..][1..], false) == Run(c3, [], false);
  }
}
