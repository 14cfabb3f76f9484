/** The start of `run`: the handshake, then `fetch_connections` when it succeeded. */
module Startup {
  import opened Wrappers
  import opened Catalogue
  import opened Transitions
  import Usize

  /** `reqwest::Error`: the request could not be sent or its body could not be decoded. */
  datatype HttpError = HttpError

  /** What `handshake()` comes to: with `XPIPE_API_KEY` unset or not valid
      Unicode, `expect` panics before any request is sent; otherwise the
      request fails or yields a token. (The panics of `Client::new()` and of
      a failed write to standard error are not modelled.) */
  datatype Handshake = ApiKeyNotSet | HandshakeFailed(error: HttpError) | HandshakeOk(token: string)

  /** The requests sent to the service, in order. */
  datatype Request = HandshakeRequest | QueryRequest | InfoRequest(connections: seq<string>)

  /** The state after `fetch_connections`, the requests it sent and what it returned. */
  datatype Fetched = Fetched(state: AppState, sent: seq<Request>, result: Result<(), HttpError>)

  /** An info reply whose names fit in one `Vec`. */
  predicate Fits(info: Result<seq<ConnectionInfo>, HttpError>)
  {
    info.Ok? ==> TotalNames(info.value) <= Usize.MAX
  }

  /** `fetch_connections`, given the replies to the query and info requests. */
  function Fetch(s: AppState, query: Result<seq<string>, HttpError>, info: Result<seq<ConnectionInfo>, HttpError>): (r: Fetched)
    requires Valid(s) && Fits(info)
    ensures Valid(r.state)
    ensures r.state == s.(sshClients := r.state.sshClients)
    ensures r.result.Err? ==> r.state == s
  {
    match s.sessionToken
    case None => Fetched(s, [], Ok(()))
    case Some(_) =>
      match query
      case Err(e) => Fetched(s, [QueryRequest], Err(e))
      case Ok(found) =>
        match info
        case Err(e) => Fetched(s, [QueryRequest, InfoRequest(found)], Err(e))
        case Ok(infos) => Fetched(s.(sshClients := FlattenNames(infos)), [QueryRequest, InfoRequest(found)], Ok(()))
  }

  /** Without a token nothing is sent and nothing changes. */
  lemma FetchWithoutToken(s: AppState, query: Result<seq<string>, HttpError>, info: Result<seq<ConnectionInfo>, HttpError>)
    requires Valid(s) && Fits(info) && s.sessionToken.None?
    ensures Fetch(s, query, info) == Fetched(s, [], Ok(()))
  {
  }

  /** With a token and two good replies, the list becomes the flattened names
      (one per name, so as many as the infos carry), the info request carries
      exactly the identifiers the query found, and nothing else changes. */
  lemma FetchReplacesList(s: AppState, found: seq<string>, infos: seq<ConnectionInfo>)
    requires Valid(s) && Fits(Ok(infos)) && s.sessionToken.Some?
    ensures var r := Fetch(s, Ok(found), Ok(infos));
            r.state == s.(sshClients := FlattenNames(infos)) && |r.state.sshClients| == TotalNames(infos)
            && r.sent == [QueryRequest, InfoRequest(found)] && r.result == Ok(())
  {
  }

  /** A failed request leaves the state as it was; after a failed query no
      info request is sent. */
  lemma FetchFailureKeepsState(s: AppState, query: Result<seq<string>, HttpError>, info: Result<seq<ConnectionInfo>, HttpError>)
    requires Valid(s) && Fits(info) && s.sessionToken.Some? && (query.Err? || info.Err?)
    ensures Fetch(s, query, info).state == s
    ensures Fetch(s, query, info).result.Err?
    ensures query.Err? ==> Fetch(s, query, info).sent == [QueryRequest]
  {
  }

  /** Where start-up ends: a panic on the missing key, or the state and requests
      the event loop starts from. */
  datatype Booted = KeyPanic | Booted(state: AppState, sent: seq<Request>)

  /** The part of `run` before `while !self.exit`. A failed fetch is only
      reported on standard error. */
  function Boot(s: AppState, hs: Handshake, query: Result<seq<string>, HttpError>, info: Result<seq<ConnectionInfo>, HttpError>): (r: Booted)
    requires Valid(s) && Fits(info)
    ensures r.Booted? ==> Valid(r.state) && r.state.selectedIndex == s.selectedIndex && r.state.exit == s.exit
    ensures r.KeyPanic? <==> hs.ApiKeyNotSet?
    ensures hs.HandshakeFailed? ==> r == Booted(s, [HandshakeRequest])
  {
    match hs
    case ApiKeyNotSet => KeyPanic
    case HandshakeFailed(_) => Booted(s, [HandshakeRequest])
    case HandshakeOk(token) =>
      var f := Fetch(s.(sessionToken := Some(token)), query, info);
      Booted(f.state, [HandshakeRequest] + f.sent)
  }

  /** Starting without a token, the token is set exactly when the handshake
      succeeds, and then to the token it returned. */
  lemma TokenOnlyOnSuccess(s: AppState, hs: Handshake, query: Result<seq<string>, HttpError>, info: Result<seq<ConnectionInfo>, HttpError>)
    requires Valid(s) && Fits(info) && s.sessionToken.None? && !hs.ApiKeyNotSet?
    ensures Boot(s, hs, query, info).state.sessionToken.Some? <==> hs.HandshakeOk?
    ensures hs.HandshakeOk? ==> Boot(s, hs, query, info).state.sessionToken == Some(hs.token)
  {
  }

  /** The handshake is the first request, and a query is sent only after it
      succeeded. */
  lemma FetchOnlyAfterHandshake(s: AppState, hs: Handshake, query: Result<seq<string>, HttpError>, info: Result<seq<ConnectionInfo>, HttpError>)
    requires Valid(s) && Fits(info) && !hs.ApiKeyNotSet?
    ensures var r := Boot(s, hs, query, info);
            |r.sent| > 0 && r.sent[0] == HandshakeRequest
            && (QueryRequest in r.sent ==> hs.HandshakeOk?)
            && (hs.HandshakeOk? ==> QueryRequest in r.sent)
  {
  }

  /** A failed handshake keeps the list as it was: empty from the default state. */
  lemma HandshakeFailureKeepsList(e: HttpError, query: Result<seq<string>, HttpError>, info: Result<seq<ConnectionInfo>, HttpError>)
    requires Fits(info)
    ensures Boot(Initial, HandshakeFailed(e), query, info) == Booted(Initial, [HandshakeRequest])
  {
  }

  /** From `App::default()` the loop starts with cursor 0, not exiting, and
      either an empty list or a cursor inside the list; the list is the
      flattened info reply when every step succeeded and empty otherwise. */
  lemma BootFromInitial(hs: Handshake, query: Result<seq<string>, HttpError>, info: Result<seq<ConnectionInfo>, HttpError>)
    requires Fits(info) && !hs.ApiKeyNotSet?
    ensures var t := Boot(Initial, hs, query, info).state;
            t.selectedIndex == 0 && !t.exit && (t.sshClients == [] || CursorInRange(t))
            && t.sshClients == (if hs.HandshakeOk? && query.Ok? && info.Ok? then FlattenNames(info.value) else [])
  {
  }
}
