/**
 * What the Plex client hands the bot: the configured servers and, per
 * server, either the active sessions or the exception its connection or
 * `sessions()` call raised.
 */
module Plex {

  /** One entry of PLEX_SERVERS (config.py). */
  datatype Server = Server(name: string, url: string, token: string)

  /** One entry of a session's `transcodeSessions`. */
  datatype TranscodeSession = TranscodeSession(videoDecision: string, audioDecision: string)

  /** The session attributes the reports read. */
  datatype Session = Session(
    usernames: seq<string>,
    title: string,
    kind: string,
    viewOffset: int,
    transcodeSessions: seq<TranscodeSession>)

  /** The outcome of `PlexServer(url, token).sessions()` for one server. */
  datatype Fetch = Fetched(sessions: seq<Session>) | FetchFailed(reason: string)

  /** A configured server together with what fetching its sessions gave. */
  datatype Poll = Poll(server: Server, fetch: Fetch)

  /** `str(e)` of the IndexError raised by `session.usernames[0]` on an empty list. */
  const IndexErrorText := "list index out of range"

  predicate Named(s: Session)
  {
    s.usernames != []
  }

  predicate IsTranscoding(s: Session)
  {
    s.transcodeSessions != []
  }

  /** The users a fetch reports: `len(sessions)`, zero when the fetch raised. */
  function FetchedUsers(f: Fetch): nat
  {
    if f.Fetched? then |f.sessions| else 0
  }

  /** Users summed over the servers in order. */
  function PolledUsers(ps: seq<Poll>): nat
    decreases |ps|
  {
    if ps == [] then 0 else PolledUsers(ps[..|ps| - 1]) + FetchedUsers(ps[|ps| - 1].fetch)
  }

  lemma {:induction false} PolledUsersAppend(a: seq<Poll>, b: seq<Poll>)
    ensures PolledUsers(a + b) == PolledUsers(a) + PolledUsers(b)
    decreases |b|
  {
    if b == [] {
      assert a + b == a;
    } else {
      assert (a + b)[..|a + b| - 1] == a + b[..|b| - 1];
      PolledUsersAppend(a, b[..|b| - 1]);
    }
  }
}
