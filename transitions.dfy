/** The key-event transitions of `App`, as a function from the old state to the new one. */
module Transitions {
  import opened Wrappers
  import opened Events
  import Usize

  /** The fields of `App`. */
  datatype AppState = AppState(
    sshClients: seq<string>,
    selectedIndex: nat,
    exit: bool,
    sessionToken: Option<string>)

  /** `App::default()`: no clients, cursor 0, not exiting, no token. */
  const Initial: AppState := AppState([], 0, false, None)

  /** The default state is within the machine bounds, does not exit, has
      nothing selected, and satisfies the cursor invariant the handlers keep
      (an empty list, or a cursor inside it). */
  lemma InitialSatisfiesInvariant()
    ensures Valid(Initial) && !Initial.exit && Initial.sessionToken.None?
    ensures Selected(Initial) == None
    ensures Initial.sshClients == [] || CursorInRange(Initial)
  {
  }

  /** Machine bounds: the cursor is a `usize`, and a `Vec` never holds more
      than `usize::MAX` items. */
  predicate Valid(s: AppState)
  {
    s.selectedIndex <= Usize.MAX && |s.sshClients| <= Usize.MAX
  }

  /** The cursor names an item of the list (so the list is not empty). */
  predicate CursorInRange(s: AppState)
  {
    s.selectedIndex < |s.sshClients|
  }

  /** `self.ssh_clients.get(self.selected_index)`: the item `open_session` shows. */
  function Selected(s: AppState): (r: Option<string>)
    ensures r.Some? <==> CursorInRange(s)
    ensures r.Some? ==> r.value == s.sshClients[s.selectedIndex]
  {
    if s.selectedIndex < |s.sshClients| then Some(s.sshClients[s.selectedIndex]) else None
  }

  /** What a handled event does besides changing the fields: Enter clears the
      screen and shows the selected item, if there is one. */
  datatype Effect = NoEffect | SessionScreen(shown: Option<string>)

  /** The outcome of one event: the next state, or a panic. */
  datatype Step = Next(state: AppState, effect: Effect) | Panicked

  /** The Down arm: `if self.selected_index < self.ssh_clients.len() - 1 { self.selected_index += 1; }`,
      with the subtraction done on `usize`. */
  function MoveDown(s: AppState, build: Usize.Build): (r: Step)
    requires Valid(s)
    ensures r.Panicked? <==> build == Usize.DebugBuild && s.sshClients == []
    ensures r.Next? ==> r.effect == NoEffect && r.state == s.(selectedIndex := r.state.selectedIndex)
    ensures r.Next? && s.sshClients != [] ==>
              r.state.selectedIndex == if s.selectedIndex + 1 < |s.sshClients| then s.selectedIndex + 1 else s.selectedIndex
    ensures r.Next? && s.sshClients == [] ==>
              r.state.selectedIndex == if s.selectedIndex < Usize.MAX then s.selectedIndex + 1 else s.selectedIndex
  {
    match Usize.Sub(|s.sshClients|, 1, build)
    case None => Panicked
    case Some(last) =>
      if s.selectedIndex < last then Next(s.(selectedIndex := s.selectedIndex + 1), NoEffect)
      else Next(s, NoEffect)
  }

  /** The Up arm: `if self.selected_index > 0 { self.selected_index -= 1; }`. */
  function MoveUp(s: AppState): (r: AppState)
    ensures r == s.(selectedIndex := r.selectedIndex)
    ensures s.selectedIndex > 0 ==> r.selectedIndex + 1 == s.selectedIndex
    ensures s.selectedIndex == 0 ==> r == s
  {
    if s.selectedIndex > 0 then s.(selectedIndex := s.selectedIndex - 1) else s
  }

  /** `handle_events` once `event::read()` has returned `e`. */
  function Handle(s: AppState, e: Event, build: Usize.Build): (r: Step)
    requires Valid(s)
    ensures r.Next? ==> Valid(r.state)
  {
    match e
    case Key(Down, Press) => MoveDown(s, build)
    case Key(Up, Press) => Next(MoveUp(s), NoEffect)
    case Key(Enter, Press) => Next(s, SessionScreen(Selected(s)))
    case Key(Char('q'), Press) => Next(s.(exit := true), NoEffect)
    case _ => Next(s, NoEffect)
  }

  /** Down on a non-empty list moves the cursor one place when it is before
      the last item and leaves it where it is otherwise; nothing else changes,
      in either build. */
  lemma DownStep(s: AppState, build: Usize.Build)
    requires Valid(s) && |s.sshClients| > 0
    ensures Handle(s, Key(Down, Press), build)
         == Next(s.(selectedIndex := if s.selectedIndex < |s.sshClients| - 1 then s.selectedIndex + 1
                                     else s.selectedIndex), NoEffect)
  {
  }

  /** Down on an empty list is not a no-op: in a debug build `len() - 1`
      panics. */
  lemma DownOnEmptyPanicsInDebug(s: AppState)
    requires Valid(s) && s.sshClients == []
    ensures Handle(s, Key(Down, Press), Usize.DebugBuild) == Panicked
  {
  }

  /** In a release build `len() - 1` wraps to `usize::MAX`, so Down on an
      empty list advances the cursor past the (empty) list. */
  lemma DownOnEmptyAdvancesInRelease(s: AppState)
    requires Valid(s) && s.sshClients == [] && s.selectedIndex < Usize.MAX
    ensures Handle(s, Key(Down, Press), Usize.ReleaseBuild)
         == Next(s.(selectedIndex := s.selectedIndex + 1), NoEffect)
  {
  }

  /** From the default state a release build reaches cursor 1 on an empty
      list with a single Down. */
  lemma ReleaseCursorLeavesEmptyList()
    ensures Handle(Initial, Key(Down, Press), Usize.ReleaseBuild).Next?
    ensures var t := Handle(Initial, Key(Down, Press), Usize.ReleaseBuild).state;
            t.sshClients == [] && t.selectedIndex == 1 && !CursorInRange(t) && Selected(t) == None
  {
  }

  /** Up moves the cursor one place towards 0 and stops at 0; nothing else changes. */
  lemma UpStep(s: AppState, build: Usize.Build)
    requires Valid(s)
    ensures Handle(s, Key(Up, Press), build)
         == Next(s.(selectedIndex := if s.selectedIndex > 0 then s.selectedIndex - 1 else 0), NoEffect)
  {
  }

  /** Enter changes no field; it shows the selected item exactly when the
      cursor is inside the list. */
  lemma EnterStep(s: AppState, build: Usize.Build)
    requires Valid(s)
    ensures Handle(s, Key(Enter, Press), build) == Next(s, SessionScreen(Selected(s)))
  {
  }

  /** `q` sets `exit` and changes nothing else. */
  lemma QuitStep(s: AppState, build: Usize.Build)
    requires Valid(s)
    ensures Handle(s, QuitPress, build) == Next(s.(exit := true), NoEffect)
  {
  }

  /** Every other event, and every key event that is not a press, is ignored. */
  lemma IgnoredStep(s: AppState, e: Event, build: Usize.Build)
    requires Valid(s) && !IsHandled(e)
    ensures Handle(s, e, build) == Next(s, NoEffect)
  {
  }

  /** No event changes the list or the token, and none resets `exit`. */
  lemma HandleKeepsListAndToken(s: AppState, e: Event, build: Usize.Build)
    requires Valid(s) && Handle(s, e, build).Next?
    ensures var t := Handle(s, e, build).state;
            t.sshClients == s.sshClients && t.sessionToken == s.sessionToken && (s.exit ==> t.exit)
  {
  }

  /** `exit` becomes true only by pressing `q`. */
  lemma ExitOnlyByQuit(s: AppState, e: Event, build: Usize.Build)
    requires Valid(s) && !s.exit && Handle(s, e, build).Next? && Handle(s, e, build).state.exit
    ensures e == QuitPress
  {
  }

  /** A cursor inside the list stays inside it after any event, and no event
      panics then, in either build. */
  lemma HandleKeepsCursorInRange(s: AppState, e: Event, build: Usize.Build)
    requires Valid(s) && CursorInRange(s)
    ensures Handle(s, e, build).Next?
    ensures CursorInRange(Handle(s, e, build).state)
  {
  }
}
