/** `App`, the object whose fields `run` and the key handlers update in place. */
module Application {
  import opened Wrappers
  import opened Events
  import opened Catalogue
  import opened Transitions
  import opened Startup
  import opened RunLoop
  import Usize

  /** The terminal's input as `event::read()` delivers it: the inputs still to
      come. When none is left, a read waits forever. */
  class EventQueue {
    var pending: seq<Input>

    constructor (script: seq<Input>)
      ensures pending == script
    {
      pending := script;
    }

    /** `event::read()`: the next input, or `None` when the read would wait forever. */
    method Read() returns (next: Option<Input>)
      modifies this
      ensures old(pending) == [] ==> next == None && pending == []
      ensures old(pending) != [] ==> next == Some(old(pending)[0]) && pending == old(pending)[1..]
    {
      if pending == [] {
        next := None;
      } else {
        next := Some(pending[0]);
        pending := pending[1..];
      }
    }
  }

  class App {
    var sshClients: seq<string>
    var selectedIndex: nat
    var exit: bool
    var sessionToken: Option<string>

    /** The four fields as one value. */
    function State(): AppState
      reads this
    {
      AppState(sshClients, selectedIndex, exit, sessionToken)
    }

    /** `App::default()`. */
    constructor ()
      ensures State() == Initial
    {
      sshClients := [];
      selectedIndex := 0;
      exit := false;
      sessionToken := None;
    }

    /** `open_session`: shows the selected item when the cursor is inside the
        list and then waits for one input, which it drops; changes no field. */
    method OpenSession(events: EventQueue) returns (shown: Option<string>, waiting: bool)
      modifies events
      ensures shown == Selected(State())
      ensures shown.None? ==> events.pending == old(events.pending) && !waiting
      ensures shown.Some? ==> waiting == (old(events.pending) == [])
                              && events.pending == if waiting then [] else old(events.pending)[1..]
    {
      waiting := false;
      if selectedIndex < |sshClients| {
        shown := Some(sshClients[selectedIndex]);
        var acknowledgement := events.Read();
        waiting := acknowledgement.None?;
      } else {
        shown := None;
      }
    }

    /** `exit`: sets the flag and nothing else. */
    method Exit()
      modifies this`exit
      ensures State() == old(State()).(exit := true)
    {
      exit := true;
    }

    /** `handle_events`: the new state, the inputs read and whether the loop
        must stop are those of `TakeTurn`. */
    method HandleEvents(events: EventQueue, build: Usize.Build) returns (stop: Option<Stop>)
      requires Valid(State())
      modifies this, events
      ensures |events.pending| <= |old(events.pending)|
      ensures events.pending == old(events.pending)[|old(events.pending)| - |events.pending|..]
      ensures TakeTurn(old(State()), old(events.pending), build)
           == Turn(State(), |old(events.pending)| - |events.pending|, stop)
    {
      var next := events.Read();
      match next {
        case None =>
          stop := Some(InputPending);
        case Some(ReadFailed) =>
          stop := Some(ReadError);
        case Some(Received(e)) =>
          stop := None;
          match e {
            case Key(Down, Press) =>
              var last := Usize.Sub(|sshClients|, 1, build);
              if last.None? {
                stop := Some(Panic);
              } else if selectedIndex < last.value {
                selectedIndex := selectedIndex + 1;
              }
            case Key(Up, Press) =>
              if selectedIndex > 0 {
                selectedIndex := selectedIndex - 1;
              }
            case Key(Enter, Press) =>
              var shown, waiting := OpenSession(events);
              if waiting {
                stop := Some(InputPending);
              }
            case Key(Char('q'), Press) =>
              Exit();
            case _ =>
          }
      }
    }

    /** `fetch_connections`, given the replies to its two requests: the new
        state, the requests sent and the result are those of `Fetch`. */
    method FetchConnections(query: Result<seq<string>, HttpError>, info: Result<seq<ConnectionInfo>, HttpError>)
      returns (sent: seq<Request>, result: Result<(), HttpError>)
      requires Valid(State()) && Fits(info)
      modifies this
      ensures Fetch(old(State()), query, info) == Fetched(State(), sent, result)
    {
      sent, result := [], Ok(());
      if sessionToken.Some? {
        sent := [QueryRequest];
        match query
        case Err(e) =>
          result := Err(e);
        case Ok(found) =>
          sent := sent + [InfoRequest(found)];
          match info
          case Err(e) =>
            result := Err(e);
          case Ok(infos) =>
            sshClients := FlattenNames(infos);
      }
    }

    /** `while !self.exit { .. self.handle_events()?; }`: where the loop stops
        is what `Loop` gives, and exactly the inputs it read are gone. */
    method EventLoop(events: EventQueue, build: Usize.Build) returns (end: LoopEnd)
      requires Valid(State())
      modifies this, events
      ensures end == Loop(old(State()), old(events.pending), build)
      ensures State() == end.state && end.consumed <= |old(events.pending)|
      ensures events.pending == old(events.pending)[end.consumed..]
    {
      ghost var start := State();
      ghost var inputs := events.pending;
      var read: nat := 0;
      var stop: Option<Stop> := None;
      while !exit && stop.None?
        invariant Valid(State()) && read <= |inputs| && events.pending == inputs[read..]
        invariant stop.None? ==> var rest := Loop(State(), events.pending, build);
                                 Loop(start, inputs, build) == rest.(consumed := rest.consumed + read)
        invariant stop.Some? ==> Loop(start, inputs, build) == LoopEnd(State(), read, stop.value)
        decreases |events.pending| + (if stop.None? then 1 else 0)
      {
        var before := |events.pending|;
        ghost var pending := events.pending;
        stop := HandleEvents(events, build);
        assert events.pending == pending[before - |events.pending|..];
        assert pending[before - |events.pending|..] == inputs[read + before - |events.pending|..];
        read := read + (before - |events.pending|);
      }
      end := LoopEnd(State(), read, if stop.Some? then stop.value else ExitRequested);
    }

    /** `run`: the handshake, the fetch when it succeeded, then the event
        loop; where it ends is what `RunLoop.Run` gives. */
    method Run(hs: Handshake, query: Result<seq<string>, HttpError>, info: Result<seq<ConnectionInfo>, HttpError>,
               events: EventQueue, build: Usize.Build) returns (r: RunEnd)
      requires Valid(State()) && Fits(info)
      modifies this, events
      ensures r == RunLoop.Run(old(State()), hs, query, info, old(events.pending), build)
      ensures r.KeyNotSet? ==> State() == old(State()) && events.pending == old(events.pending)
      ensures r.Ran? ==> State() == r.end.state && events.pending == old(events.pending)[r.end.consumed..]
    {
      var sent: seq<Request>;
      match hs {
        case ApiKeyNotSet =>
          return KeyNotSet;
        case HandshakeFailed(_) =>
          sent := [HandshakeRequest];
        case HandshakeOk(token) =>
          sessionToken := Some(token);
          var fetchSent, _ := FetchConnections(query, info);
          sent := [HandshakeRequest] + fetchSent;
      }
      assert Boot(old(State()), hs, query, info) == Booted(State(), sent);
      var end := EventLoop(events, build);
      r := Ran(sent, end);
    }
  }
}
