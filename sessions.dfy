/**
 * One user's conversation with the bot, as the object the handlers update in
 * place: the current state, the dialog data and the messages sent so far.
 * Each method is one bound handler, run to completion as one step.
 */
module Sessions {
  import opened Wrappers
  import opened States
  import opened Getter
  import opened Handlers

  class Session {
    var state: State
    var data: map<string, string>
    var log: seq<string>
    /** Whether the manager is a preview manager (`manager.is_preview()`). */
    const preview: bool

    /** The conversation as a value. */
    function Snapshot(): Conversation
      reads this
    {
      Conversation(state, data, log)
    }

    /** The invariant every reachable session keeps. */
    ghost predicate Valid()
      reads this
    {
      Consistent(Snapshot(), preview)
    }

    /** A chat before its first /start: no dialog, no data, nothing sent. */
    constructor (preview: bool)
      ensures Snapshot() == Initial && this.preview == preview
      ensures Valid()
    {
      state := Done;
      data := map[];
      log := [];
      this.preview := preview;
    }

    /** The /start command handler: reset the stack and start in Greeting. */
    method Start()
      modifies this
      ensures Snapshot() == Handle(old(Snapshot()), StartCommand, preview)
      ensures state == Greeting && data == map[] && log == old(log)
      ensures old(Valid()) ==> Valid()
    {
      state := Greeting;
      data := map[];
    }

    /** `name_handler`: store the name, acknowledge it, go to the next window. */
    method NameHandler(text: string) returns (handled: bool)
      modifies this
      ensures handled <==> old(state) == Greeting
      ensures Snapshot() == Handle(old(Snapshot()), NameText(text), preview)
      ensures handled ==> state == Age
      ensures handled && !preview ==> data == old(data)["name" := text] && log == old(log) + [Greet(text)]
      ensures !handled || preview ==> data == old(data) && log == old(log)
      ensures !handled ==> state == old(state)
      ensures old(Valid()) ==> Valid()
    {
      handled := state == Greeting;
      if !handled {
        return;
      }
      if preview {
        state := Next(state).value;
        return;
      }
      data := data["name" := text];
      log := log + [Greet(text)];
      state := Next(state).value;
      if old(Valid()) {
        HandleKeepsConsistent(old(Snapshot()), NameText(text), preview);
      }
    }

    /** `on_age_changed`: store the clicked bracket, go to the next window. */
    method OnAgeChanged(itemId: string) returns (handled: bool)
      modifies this
      ensures handled <==> old(state) == Age
      ensures Snapshot() == Handle(old(Snapshot()), AgeClick(itemId), preview)
      ensures handled ==> state == Finish && data == old(data)["age" := itemId]
      ensures !handled ==> state == old(state) && data == old(data)
      ensures log == old(log)
      ensures old(Valid()) && itemId in AgeItems ==> Valid()
    {
      handled := state == Age;
      if handled {
        data := data["age" := itemId];
        state := Next(state).value;
      }
    }

    /** `on_finish`: thank the user (unless in preview) and end the dialog. */
    method OnFinish() returns (handled: bool)
      modifies this
      ensures handled <==> old(state) == Finish
      ensures Snapshot() == Handle(old(Snapshot()), FinishClick, preview)
      ensures handled ==> state == Done && data == map[]
      ensures handled && !preview ==> log == old(log) + [Thanks]
      ensures !handled || preview ==> log == old(log)
      ensures !handled ==> state == old(state) && data == old(data)
      ensures old(Valid()) ==> Valid()
    {
      handled := state == Finish;
      if !handled {
        return;
      }
      if !preview {
        log := log + [Thanks];
      }
      state := Done;
      data := map[];
      if old(Valid()) {
        HandleKeepsConsistent(old(Snapshot()), FinishClick, preview);
      }
    }

    /** The `Back()` button: go to the preceding window. */
    method Back() returns (handled: bool)
      modifies this
      ensures handled <==> old(state) == Finish
      ensures Snapshot() == Handle(old(Snapshot()), BackClick, preview)
      ensures state == (if handled then Age else old(state))
      ensures data == old(data) && log == old(log)
      ensures old(Valid()) ==> Valid()
    {
      handled := state == Finish;
      if handled {
        state := Prev(state).value;
      }
    }

    /** The Restart button (`SwitchTo` the greeting state). */
    method Restart() returns (handled: bool)
      modifies this
      ensures handled <==> old(state) == Finish
      ensures Snapshot() == Handle(old(Snapshot()), RestartClick, preview)
      ensures state == (if handled then Greeting else old(state))
      ensures data == old(data) && log == old(log)
      ensures old(Valid()) ==> Valid()
    {
      handled := state == Finish;
      if handled {
        state := Greeting;
      }
    }

    /** What the current window's getter gives it: only the Age and Finish
        windows have `getter=get_data`. */
    method WindowValues() returns (values: Option<WindowData>)
      ensures values.Some? <==> state == Age || state == Finish
      ensures values.Some? ==> values.value == GetData(data)
      ensures Valid() && state == Finish ==>
        && values.Some? && values.value.age.Some? && values.value.age.value in AgeItems
        && (!preview ==> "name" in data && values.value.name == data["name"])
    {
      if state == Age || state == Finish {
        values := Some(GetData(data));
      } else {
        values := None;
      }
    }
  }

  /** A client of the class: the happy path from /start to the end of the dialog. */
  method HappyPath(text: string) returns (values: Option<WindowData>, sent: seq<string>)
    ensures values == Some(WindowData(text, Some("40+"), true))
    ensures sent == [Greet(text), Thanks]
  {
    var s := new Session(false);
    s.Start();
    var ok := s.NameHandler(text);
    ok := s.OnAgeChanged("40+");
    values := s.WindowValues();
    ok := s.OnFinish();
    assert s.state == Done;
    sent := s.log;
  }
}
