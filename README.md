# Name-and-age dialog bot

A model of the three-window conversation of `bot.py`: a Telegram bot that asks
for the user's name (Greeting window), then for an age bracket chosen from a
list (Age window), then shows a summary with Back, Restart and Finish buttons
(Finish window). The model keeps, per conversation, the current dialog state,
the dialog data (`ctx.dialog_data`, a string-to-string map with the keys
`name` and `age`) and the log of messages sent with `message.answer`.

- `States`: the `DialogSG` states in declaration order, plus `Done` for "no
  dialog on the stack" (before the first /start and after `done()`); `Next`
  and `Prev` give the following and preceding window by position in the
  `Dialog` declaration.
- `Getter`: `get_data` as a pure function of the data map, the five item ids
  of the age selector and the three for which `can_smoke` is true.
- `Handlers`: each handler and button as a function from a conversation to the
  next, the dispatch `Handle`, `Run` over a sequence of events, and the lemmas:
  the transition table, reset on /start, the effect of each handler, the
  invariant every reachable conversation keeps, and that preview mode sends
  nothing.
- `Sessions`: the class `Session`, whose fields the handler methods update in
  place; every handler method is proved equal in effect to `Handlers.Handle`
  and to keep the `Valid()` invariant (`OnAgeChanged` keeps it for the item
  ids the age selector offers). `WindowValues` gives the current window the
  values of `get_data` and, in a valid session, guarantees the Finish window an
  age bracket and, outside preview, a name.

An event for a widget that is not in the current window (a text message in the
Age window, a button click after the dialog is done) is not dispatched by the
dialog library to any handler, so the model leaves the conversation unchanged
and the method returns `handled == false`.

Preview mode (`manager.is_preview()`) is the `preview` flag of a session: it is
fixed for a dialog manager.

Restart is `SwitchTo(..., state=DialogSG.greeting)` (bot.py:104), which only
changes the state: the data is kept, and only /start begins a fresh, empty
context.

A /start message is the `StartCommand` event: its handler is registered for
every state (bot.py:131) ahead of the dialog (bot.py:132), so it never reaches
`name_handler`. `NameText` stands for every other text message.

## Model

| member | source | states |
|---|---|---|
| States.Next | bot.py:76-109 | the window after `s` is the one at the next position in the declared window order; there is none after Finish or for Done |
| States.Prev | bot.py:103 | the window before `s` is the one at the previous position; there is none before Greeting or for Done |
| States.NextPrevInverse | bot.py:76-109 | moving one window forward and one back undo each other, in both directions |
| States.WindowsAreTheDialogStates | bot.py:29-32 | the windows are exactly the three dialog states, each once, Greeting first |
| Getter.Lookup | bot.py:37-39 | `dict.get`: a value exactly when the key is stored, and then the stored value |
| Getter.GetData | bot.py:35-42 | name is the stored name or "" when none; age is passed through and absent when unset; `can_smoke` holds exactly when the stored age is "18-25", "25-40" or "40+" |
| Getter.CanSmokeExactlyFromEighteen | bot.py:37-41 | for each selector item, `can_smoke` holds exactly when the bracket starts at 18 or later |
| Getter.AdultItemsAreAgeItems | bot.py:87 | every bracket that allows smoking is one the selector offers |
| Getter.NoAgeNoSmoking | bot.py:37-41 | with no age stored, `can_smoke` is false and age is absent |
| Handlers.Greet | bot.py:51 | the acknowledgement starts with "Nice to meet you, " and the name can be read back from the rest |
| Handlers.TransitionTable | bot.py:76-115 | the state after every event in every state: /start to Greeting, name to Age, age to Finish, Finish to Done, Back to Age, Restart to Greeting, and no move for an event the window does not accept |
| Handlers.IgnoredEventChangesNothing | bot.py:76-109 | an event for a widget that is not in the current window changes nothing |
| Handlers.StartIsReset | bot.py:113-115 | /start from any state, Done included, gives Greeting with empty data and keeps the sent log; a second /start changes nothing more |
| Handlers.NameStoredAndAcknowledged | bot.py:45-52 | in Greeting outside preview, the name is stored under "name", "Nice to meet you, " + name is sent, the state becomes Age, and no other key changes |
| Handlers.PreviewNameOnlyAdvances | bot.py:47-49 | in preview, the name handler leaves data and log alone and only moves Greeting to Age |
| Handlers.AgeStoredNameKept | bot.py:68-73 | in Age, the clicked item is stored under "age", the state becomes Finish, the name and the log stay as they were |
| Handlers.FinishEndsDialog | bot.py:59-65 | in Finish, the dialog ends; outside preview exactly "Thank you. To start again click /start" is sent first, in preview nothing |
| Handlers.BackAndRestartKeepData | bot.py:102-104 | from Finish, Back moves to Age and Restart to Greeting; neither changes data or log |
| Handlers.HandleKeepsConsistent | bot.py:45-115 | one event with a selector item keeps the invariant: no data when done, only the keys name and age, age one of the five brackets, Finish always with an age, outside preview Age and Finish always with a name, and every sent message one the bot writes |
| Handlers.RunKeepsConsistent | bot.py:45-115 | the invariant holds after any sequence of such events |
| Handlers.FinishWindowHasAnswers | bot.py:96-108 | whatever the user did since the chat began, the Finish window has one of the five age brackets and, outside preview, a name to show |
| Handlers.RunOnlyAppends | bot.py:45-65 | the sent messages of a conversation are only ever extended |
| Handlers.PreviewSendsNothing | bot.py:45-65 | in preview no sequence of events sends any message |
| Handlers.DoneIgnoresAllButStart | bot.py:59-65 | once the dialog is done, every event other than /start changes nothing |
| Handlers.AliceConversation | bot.py:45-73 | /start, the name "Alice" and the bracket "18-25" give Finish with both answers stored, one acknowledgement sent, and `can_smoke` true |
| Sessions.Session.constructor | bot.py:129-131 | a chat before its first /start has no dialog, no data and no sent messages |
| Sessions.Session.Start | bot.py:113-115 | the state becomes Greeting and the data empty, from any state; the log is kept |
| Sessions.Session.NameHandler | bot.py:45-52 | handled exactly in Greeting; then the state becomes Age and, outside preview, the name is stored and acknowledged; otherwise nothing changes |
| Sessions.Session.OnAgeChanged | bot.py:68-73 | handled exactly in Age; then the item is stored under "age" and the state becomes Finish; the log never changes; a selector item keeps the invariant |
| Sessions.Session.OnFinish | bot.py:59-65 | handled exactly in Finish; then the dialog is done and its data gone, and outside preview the thank-you message is sent |
| Sessions.Session.Back | bot.py:103 | handled exactly in Finish, moving to Age; data and log unchanged |
| Sessions.Session.Restart | bot.py:104 | handled exactly in Finish, moving to Greeting; data and log unchanged |
| Sessions.Session.WindowValues | bot.py:83-108 | the Age and Finish windows get `get_data` of the current data; the Greeting window and a finished dialog get nothing; in a valid session the Finish window has one of the five brackets and, outside preview, the stored name |
| Sessions.HappyPath | bot.py:45-73 | a client going through the whole dialog with the bracket "40+" is shown its name, "40+" and `can_smoke` true in the Finish window, and is sent the acknowledgement and the thank-you message, in that order |

## Left out

- `main`, the `Bot` and `Dispatcher`, `MemoryStorage`, polling and the dialog registry (bot.py:118-134): transport and library registration.
- The `BOT_TOKEN` environment lookup and the logging configuration (bot.py:21-26, 126): configuration.
- Rendering of the windows' `Const`, `Format` and `Multi` texts and of the keyboards (bot.py:78, 84-86, 97-100): the model gives only the values the templates read (`Sessions.Session.WindowValues`); the "Hope you are not smoking" line is shown exactly when `can_smoke` is true.
- `preview_data` of the Age window (bot.py:94): it feeds only the preview renderer.
- `other_type_handler` (bot.py:55-56): its registration is commented out (bot.py:80), so no event reaches it.
- async scheduling and concurrency between chats: each handler is one atomic step on one session.
- Sessions.Session.OnAgeChanged: stores any item id it is given, as the code does; that the age is one of the five brackets holds only for ids the selector's keyboard offers, which is why the invariant is stated under that condition.
