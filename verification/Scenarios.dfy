/** The runs that show what can go wrong begin alike: one user signs up and opens one widget session. */
module Scenarios {
  import opened Money
  import opened Database
  import opened Profiles
  import opened Widget
  import opened Platform

  function Opening(t: Trigger): seq<Event> {
    [Event(0, Profile(Signup(0))), Event(0, WidgetCall(Init(0, 0, t)))]
  }

  function NewSession(t: Trigger): Session {
    Session(0, t, InitialStep(t), [], map[], Active, 0)
  }

  /** The user and one session row, and nothing else. */
  function WithRow(settings: Settings, row: Session): Db {
    EmptyDb(0, settings).(users := map[0 := User(0, 0, false, false, false)], sessions := map[0 := row])
  }

  lemma OpeningLeads(settings: Settings, t: Trigger)
    requires ValidSettings(settings)
    ensures AllowedRun(EmptyDb(0, settings), Opening(t))
    ensures Run(EmptyDb(0, settings), Opening(t)) == WithRow(settings, NewSession(t))
  {
    var start, es := EmptyDb(0, settings), Opening(t);
    RunExtends(start, [], es[0]);
    assert [] + [es[0]] == es[..1];
    assert Run(start, es[..1]) == start.(users := map[0 := User(0, 0, false, false, false)]);
    RunExtends(start, es[..1], es[1]);
    assert es[..1] + [es[1]] == es;
  }
}
