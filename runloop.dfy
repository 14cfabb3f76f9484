/** The event loop of `run`, and `run` as a whole, over a finite script of inputs. */
module RunLoop {
  import opened Wrappers
  import opened Events
  import opened Catalogue
  import opened Transitions
  import opened Startup
  import Usize

  /** Why the loop stopped: `exit` became true, the script ran out while the
      application waits in `event::read()`, `event::read()` failed in
      `handle_events` (its error is returned from `run` by `?`), or the handler
      panicked. */
  datatype Stop = ExitRequested | InputPending | ReadError | Panic

  /** One pass of the loop body: the state after it, how many inputs it read,
      and why the loop stops there, if it does. */
  datatype Turn = Turn(state: AppState, consumed: nat, stop: Option<Stop>)

  /** One `handle_events` call on the script `inputs`. It reads one input; after
      Enter on an existing item `open_session` reads one more, whatever it is,
      as the key that returns to the list. */
  function TakeTurn(s: AppState, inputs: seq<Input>, build: Usize.Build): (r: Turn)
    requires Valid(s)
    ensures Valid(r.state) && r.consumed <= |inputs|
    ensures inputs != [] <==> r.consumed > 0
    ensures r.stop.Some? ==> r.stop.value != ExitRequested && r.state.exit == s.exit
    ensures r.state.sshClients == s.sshClients && r.state.sessionToken == s.sessionToken
    ensures s.exit ==> r.state.exit
    ensures inputs == [] ==> r == Turn(s, 0, Some(InputPending))
    ensures inputs != [] && inputs[0] == ReadFailed ==> r == Turn(s, 1, Some(ReadError))
    ensures inputs != [] && inputs[0].Received? && Handle(s, inputs[0].event, build).Panicked? ==>
              r == Turn(s, 1, Some(Panic))
    ensures inputs != [] && inputs[0].Received? && Handle(s, inputs[0].event, build).Next? ==>
              var h := Handle(s, inputs[0].event, build);
              var acknowledged := h.effect.SessionScreen? && h.effect.shown.Some?;
              r.state == h.state
              && r.consumed == (if acknowledged && |inputs| > 1 then 2 else 1)
              && r.stop == (if acknowledged && |inputs| == 1 then Some(InputPending) else None)
  {
    if inputs == [] then Turn(s, 0, Some(InputPending))
    else match inputs[0]
      case ReadFailed => Turn(s, 1, Some(ReadError))
      case Received(e) =>
        match Handle(s, e, build)
        case Panicked => Turn(s, 1, Some(Panic))
        case Next(t, effect) =>
          HandleKeepsListAndToken(s, e, build);
          if effect.SessionScreen? && effect.shown.Some? then
            if |inputs| == 1 then Turn(t, 1, Some(InputPending)) else Turn(t, 2, None)
          else Turn(t, 1, None)
  }

  /** The state the loop stopped in and how many inputs it read. */
  datatype LoopEnd = LoopEnd(state: AppState, consumed: nat, stop: Stop)

  /** `while !self.exit { terminal.draw(..)?; self.handle_events()?; }` over
      the script `inputs`. */
  function Loop(s: AppState, inputs: seq<Input>, build: Usize.Build): (r: LoopEnd)
    requires Valid(s)
    decreases |inputs|
    ensures r.consumed <= |inputs| && Valid(r.state)
    ensures r.stop == ExitRequested <==> r.state.exit
    ensures r.state.sshClients == s.sshClients && r.state.sessionToken == s.sessionToken
    ensures s.exit ==> r.consumed == 0
  {
    if s.exit then LoopEnd(s, 0, ExitRequested)
    else
      var turn := TakeTurn(s, inputs, build);
      match turn.stop
      case Some(stop) => LoopEnd(turn.state, turn.consumed, stop)
      case None =>
        var rest := Loop(turn.state, inputs[turn.consumed..], build);
        rest.(consumed := rest.consumed + turn.consumed)
  }

  /** When the loop stops on `exit` having read anything, the last input it
      read is a `q` press; it reads nothing after it. */
  lemma {:induction false} LoopExitsOnQuit(s: AppState, inputs: seq<Input>, build: Usize.Build)
    requires Valid(s) && !s.exit
    requires Loop(s, inputs, build).stop == ExitRequested
    ensures var r := Loop(s, inputs, build);
            r.consumed > 0 && inputs[r.consumed - 1] == Received(QuitPress)
    decreases |inputs|
  {
    var turn := TakeTurn(s, inputs, build);
    var e := inputs[0].event;
    if turn.state.exit {
      ExitOnlyByQuit(s, e, build);
    } else {
      var rest := inputs[turn.consumed..];
      LoopExitsOnQuit(turn.state, rest, build);
      var k := Loop(turn.state, rest, build).consumed;
      assert inputs[turn.consumed + k - 1] == rest[k - 1];
    }
  }

  /** Whatever input follows Enter on an existing item (a key, a key release,
      any other event, a read error) is read and dropped: a `q` pressed there
      does not end the loop, and a read error there does not stop it. */
  lemma AcknowledgementDropped(s: AppState, x: Input, build: Usize.Build)
    requires Valid(s) && CursorInRange(s) && !s.exit
    ensures Loop(s, [Received(Key(Enter, Press)), x], build) == LoopEnd(s, 2, InputPending)
  {
  }

  /** The loop panics only in a debug build, on an empty list, and on a Down
      press: the underflow of `len() - 1`. A failed write to standard output
      in `open_session` also panics; that is not modelled. */
  lemma {:induction false} LoopPanicsOnlyOnEmptyDown(s: AppState, inputs: seq<Input>, build: Usize.Build)
    requires Valid(s)
    requires Loop(s, inputs, build).stop == Panic
    ensures var r := Loop(s, inputs, build);
            build == Usize.DebugBuild && s.sshClients == [] && r.consumed > 0
            && inputs[r.consumed - 1] == Received(Key(Down, Press))
    decreases |inputs|
  {
    var turn := TakeTurn(s, inputs, build);
    if turn.stop.None? {
      var rest := inputs[turn.consumed..];
      LoopPanicsOnlyOnEmptyDown(turn.state, rest, build);
      var k := Loop(turn.state, rest, build).consumed;
      assert inputs[turn.consumed + k - 1] == rest[k - 1];
    }
  }

  /** A cursor inside the list is still inside it wherever the loop stops,
      and the loop does not panic on the way. */
  lemma {:induction false} LoopKeepsCursorInRange(s: AppState, inputs: seq<Input>, build: Usize.Build)
    requires Valid(s) && CursorInRange(s)
    ensures Loop(s, inputs, build).stop != Panic
    ensures CursorInRange(Loop(s, inputs, build).state)
    decreases |inputs|
  {
    if !s.exit && inputs != [] && inputs[0].Received? {
      HandleKeepsCursorInRange(s, inputs[0].event, build);
      var turn := TakeTurn(s, inputs, build);
      if turn.stop.None? {
        LoopKeepsCursorInRange(turn.state, inputs[turn.consumed..], build);
      }
    }
  }

  /** In a release build (any list, the empty one included) or with a cursor
      inside the list, a script with no read error and no `q` press is read
      to the end, and the loop waits for more. */
  lemma {:induction false} LoopReadsWholeScript(s: AppState, inputs: seq<Input>, build: Usize.Build)
    requires Valid(s) && !s.exit && (build == Usize.ReleaseBuild || CursorInRange(s))
    requires forall j :: 0 <= j < |inputs| ==> inputs[j] != ReadFailed && inputs[j] != Received(QuitPress)
    ensures Loop(s, inputs, build).stop == InputPending
    ensures Loop(s, inputs, build).consumed == |inputs|
    decreases |inputs|
  {
    if inputs != [] {
      var e := inputs[0].event;
      if CursorInRange(s) {
        HandleKeepsCursorInRange(s, e, build);
      }
      var turn := TakeTurn(s, inputs, build);
      if turn.state.exit {
        ExitOnlyByQuit(s, e, build);
      }
      if turn.stop.None? {
        var rest := inputs[turn.consumed..];
        assert forall j :: 0 <= j < |rest| ==> rest[j] == inputs[j + turn.consumed];
        LoopReadsWholeScript(turn.state, rest, build);
      }
    }
  }

  /** The loop stops early only for a cause in the script: it waits only once
      every input has been read, and it stops on a read error only right after
      reading a failed input. With `LoopExitsOnQuit` and
      `LoopPanicsOnlyOnEmptyDown`, every way the loop stops is tied to an input. */
  lemma {:induction false} LoopStopsOnlyForCause(s: AppState, inputs: seq<Input>, build: Usize.Build)
    requires Valid(s)
    ensures var r := Loop(s, inputs, build);
            (r.stop == InputPending ==> r.consumed == |inputs|)
            && (r.stop == ReadError ==> r.consumed > 0 && inputs[r.consumed - 1] == ReadFailed)
    decreases |inputs|
  {
    if !s.exit {
      var turn := TakeTurn(s, inputs, build);
      if turn.stop.None? {
        var rest := inputs[turn.consumed..];
        LoopStopsOnlyForCause(turn.state, rest, build);
        var k := Loop(turn.state, rest, build).consumed;
        if k > 0 {
          assert inputs[turn.consumed + k - 1] == rest[k - 1];
        }
      }
    }
  }

  /** Where `run` ends: the missing-key panic, or the requests sent during
      start-up and where the event loop stopped. */
  datatype RunEnd = KeyNotSet | Ran(sent: seq<Request>, end: LoopEnd)

  /** `run`: start-up, then the event loop from the state start-up left. */
  function Run(s: AppState, hs: Handshake, query: Result<seq<string>, HttpError>, info: Result<seq<ConnectionInfo>, HttpError>,
               inputs: seq<Input>, build: Usize.Build): (r: RunEnd)
    requires Valid(s) && Fits(info)
    ensures r.KeyNotSet? <==> hs.ApiKeyNotSet?
  {
    match Boot(s, hs, query, info)
    case KeyPanic => KeyNotSet
    case Booted(t, sent) => Ran(sent, Loop(t, inputs, build))
  }

  /** From `App::default()`, a run whose fetch produced a non-empty list never
      panics, and the cursor stays inside that list. */
  lemma RunWithClientsNeverPanics(hs: Handshake, query: Result<seq<string>, HttpError>, info: Result<seq<ConnectionInfo>, HttpError>,
                                  inputs: seq<Input>, build: Usize.Build)
    requires Fits(info) && hs.HandshakeOk? && query.Ok? && info.Ok? && TotalNames(info.value) > 0
    ensures var r := Run(Initial, hs, query, info, inputs, build);
            r.Ran? && r.end.stop != Panic && CursorInRange(r.end.state)
            && r.end.state.sshClients == FlattenNames(info.value)
  {
    BootFromInitial(hs, query, info);
    LoopKeepsCursorInRange(Boot(Initial, hs, query, info).state, inputs, build);
  }

  /** After a failed handshake the list is empty, and in a debug build the
      first Down press panics. */
  lemma DebugDownAfterFailedHandshakePanics(e: HttpError, query: Result<seq<string>, HttpError>, info: Result<seq<ConnectionInfo>, HttpError>)
    requires Fits(info)
    ensures Run(Initial, HandshakeFailed(e), query, info, [Received(Key(Down, Press))], Usize.DebugBuild)
         == Ran([HandshakeRequest], LoopEnd(Initial, 1, Panic))
  {
  }
}
