/**
 * The "Ver reproducciones" screen of `view_playing` (bot.py): the sessions of
 * one server, or the idle text, or the error that ended the `try`.
 */
module Playing {
  import opened Plex
  import opened Labels
  import CurrentStreams

  /** The pieces of the message. */
  datatype Line =
    | Action(server: string)                       // "🎬 ¡Acción en {name}! Esto es lo que está pasando:"
    | Watching(user: string, title: string, kind: string, minutes: int)
    | Asleep(server: string)                       // "😴 Parece que {name} está ocioso. ¡No hay reproducciones en curso!"
    | FetchError(server: string, reason: string)   // "Error al obtener reproducciones de {name}: {e}"

  function WatchingOf(s: Session): Line
    requires Named(s)
  {
    Watching(s.usernames[0], s.title, SessionTypeLabel(s.kind), ProgressMinutes(s.viewOffset))
  }

  /** The block of every session, in order. */
  function WatchingLines(ss: seq<Session>): seq<Line>
    requires forall i :: 0 <= i < |ss| ==> Named(ss[i])
    decreases |ss|
  {
    if ss == [] then [] else WatchingLines(ss[..|ss| - 1]) + [WatchingOf(ss[|ss| - 1])]
  }

  /**
   * The message shown. An exception replaces the whole message, so a session
   * without a username leaves only the error line.
   */
  function PlayingMessage(p: Poll): seq<Line>
  {
    var name := p.server.name;
    match p.fetch
    case FetchFailed(reason) => [FetchError(name, reason)]
    case Fetched(ss) =>
      if ss == [] then [Asleep(name)]
      else if CurrentStreams.NamedPrefix(ss) < |ss| then [FetchError(name, IndexErrorText)]
      else [Action(name)] + WatchingLines(ss)
  }

  /** `view_playing` without the Telegram call: the message it shows. */
  method ViewPlaying(p: Poll) returns (message: seq<Line>)
    ensures message == PlayingMessage(p)
  {
    var name := p.server.name;
    match p.fetch {
      case FetchFailed(reason) =>
        message := [FetchError(name, reason)];
      case Fetched(sessions) =>
        if sessions == [] {
          message := [Asleep(name)];
          return;
        }
        message := [Action(name)];
        var j := 0;
        var raised := false;
        while j < |sessions| && !raised
          invariant j <= CurrentStreams.NamedPrefix(sessions)
          invariant raised ==> j == CurrentStreams.NamedPrefix(sessions) < |sessions|
          invariant message == [Action(name)] + WatchingLines(sessions[..j])
          decreases |sessions| - j, if raised then 0 else 1
        {
          var session := sessions[j];
          if session.usernames == [] {
            raised := true;
          } else {
            message := message + [WatchingOf(session)];
            assert sessions[..j + 1][..j] == sessions[..j];
            j := j + 1;
          }
        }
        if raised {
          message := [FetchError(name, IndexErrorText)];
        } else {
          assert sessions[..j] == sessions;
        }
    }
  }

  /**
   * The screen and the current-streams report describe each session alike:
   * same user, title, type label and minutes, in the same order.
   */
  lemma {:induction false} PlayingAgreesWithCurrentStreams(ss: seq<Session>)
    requires forall i :: 0 <= i < |ss| ==> Named(ss[i])
    ensures |WatchingLines(ss)| == |CurrentStreams.Streams(ss)| == |ss|
    ensures forall i :: 0 <= i < |ss| ==>
              var w, c := WatchingLines(ss)[i], CurrentStreams.Streams(ss)[i];
              w.Watching? && c.Stream? && w.user == c.user && w.title == c.title && w.kind == c.kind && w.minutes == c.minutes
    decreases |ss|
  {
    if ss != [] {
      PlayingAgreesWithCurrentStreams(ss[..|ss| - 1]);
    }
  }

  /** A server with sessions that all have a username shows one block per session after the heading. */
  lemma {:induction false} OneBlockPerSession(p: Poll)
    requires p.fetch.Fetched? && p.fetch.sessions != []
    requires forall i :: 0 <= i < |p.fetch.sessions| ==> Named(p.fetch.sessions[i])
    ensures |PlayingMessage(p)| == 1 + |p.fetch.sessions|
    ensures PlayingMessage(p)[0] == Action(p.server.name)
  {
    var ss := p.fetch.sessions;
    assert CurrentStreams.NamedPrefix(ss) == |ss|;
    PlayingAgreesWithCurrentStreams(ss);
  }
}
