/**
 * The "Streams actuales" report of `show_current_streams` (bot.py): every
 * configured server is visited in order, its sessions are listed and counted,
 * and the totals are put in front of the message.
 */
module CurrentStreams {
  import opened Plex
  import opened Labels
  import opened SeqFacts

  /** The pieces of the message, in the order the handler appends them. */
  datatype Line =
    | Totals(users: nat, transcoding: nat)          // "Total de usuarios activos: …" and "Usuarios realizando transcodificación: …"
    | Heading                                        // "🎬 Reproducciones actuales en los servidores:"
    | ServerUsers(server: string, users: nat)        // "Servidor {name} ({n} usuarios activos):"
    | Stream(user: string, title: string, kind: string, minutes: int, transcodes: bool)
    | NoActiveStreams                                // "No hay reproducciones activas."
    | ConnectError(server: string, reason: string)   // "Error al conectar con {name}: {e}"

  /** The user, title, type, progress and transcoding lines of one named session. */
  function StreamOf(s: Session): Line
    requires Named(s)
  {
    Stream(s.usernames[0], s.title, SessionTypeLabel(s.kind), ProgressMinutes(s.viewOffset), IsTranscoding(s))
  }

  /** How many sessions are listed before one without a username raises. */
  function NamedPrefix(ss: seq<Session>): (n: nat)
    ensures n <= |ss|
    ensures forall i :: 0 <= i < n ==> Named(ss[i])
    ensures n < |ss| ==> !Named(ss[n])
    decreases |ss|
  {
    if ss == [] || !Named(ss[0]) then 0 else 1 + NamedPrefix(ss[1..])
  }

  /** The lines of sessions that all have a username, in order. */
  function Streams(ss: seq<Session>): seq<Line>
    requires forall i :: 0 <= i < |ss| ==> Named(ss[i])
    decreases |ss|
  {
    if ss == [] then [] else Streams(ss[..|ss| - 1]) + [StreamOf(ss[|ss| - 1])]
  }

  /** The sessions whose `transcodeSessions` is non-empty. */
  function CountTranscoding(ss: seq<Session>): (n: nat)
    ensures n <= |ss|
    decreases |ss|
  {
    if ss == [] then 0
    else CountTranscoding(ss[..|ss| - 1]) + (if IsTranscoding(ss[|ss| - 1]) then 1 else 0)
  }

  /**
   * One server's lines. A failed fetch adds its error line. A session
   * without a username raises inside the server's `try`: the sessions before
   * it stay listed and the error line follows.
   */
  function ServerLines(p: Poll): seq<Line>
  {
    var name := p.server.name;
    match p.fetch
    case FetchFailed(reason) => [ConnectError(name, reason)]
    case Fetched(ss) =>
      var head := [ServerUsers(name, |ss|)];
      if ss == [] then head + [NoActiveStreams]
      else
        var n := NamedPrefix(ss);
        if n < |ss| then head + Streams(ss[..n]) + [ConnectError(name, IndexErrorText)]
        else head + Streams(ss)
  }

  /**
   * What one server adds to `total_transcoding`: its transcoding sessions,
   * or nothing when its fetch failed or a session without a username raised
   * before the count was added (its users are counted all the same).
   */
  function ServerTranscoding(p: Poll): nat
  {
    match p.fetch
    case FetchFailed(_) => 0
    case Fetched(ss) => if NamedPrefix(ss) < |ss| then 0 else CountTranscoding(ss)
  }

  /** The servers' lines, in PLEX_SERVERS order. */
  function ReportLines(ps: seq<Poll>): seq<Line>
    decreases |ps|
  {
    if ps == [] then [] else ReportLines(ps[..|ps| - 1]) + ServerLines(ps[|ps| - 1])
  }

  /** `total_transcoding`. */
  function TotalTranscoding(ps: seq<Poll>): nat
    decreases |ps|
  {
    if ps == [] then 0 else TotalTranscoding(ps[..|ps| - 1]) + ServerTranscoding(ps[|ps| - 1])
  }

  /**
   * The whole message: the totals (`total_users` is the sessions of every
   * fetched server), then the heading, then every server's lines.
   */
  function CurrentStreamsMessage(ps: seq<Poll>): seq<Line>
  {
    [Totals(PolledUsers(ps), TotalTranscoding(ps)), Heading] + ReportLines(ps)
  }

  /**
   * The loop over one server's sessions: the lines it appends, the sessions
   * it counts as transcoding, and whether `usernames[0]` raised on the way.
   */
  method ListSessions(sessions: seq<Session>) returns (lines: seq<Line>, transcoding: nat, raised: bool)
    ensures raised <==> NamedPrefix(sessions) < |sessions|
    ensures lines == Streams(sessions[..NamedPrefix(sessions)])
    ensures !raised ==> transcoding == CountTranscoding(sessions)
  {
    lines, transcoding, raised := [], 0, false;
    var j := 0;
    while j < |sessions| && !raised
      invariant j <= NamedPrefix(sessions)
      invariant raised ==> j == NamedPrefix(sessions) < |sessions|
      invariant lines == Streams(sessions[..j])
      invariant transcoding == CountTranscoding(sessions[..j])
      decreases |sessions| - j, if raised then 0 else 1
    {
      var session := sessions[j];
      if session.usernames == [] {
        raised := true;
      } else {
        lines := lines + [StreamOf(session)];
        if session.transcodeSessions != [] {
          transcoding := transcoding + 1;
        }
        assert sessions[..j + 1][..j] == sessions[..j];
        assert Streams(sessions[..j + 1]) == Streams(sessions[..j]) + [StreamOf(session)];
        j := j + 1;
      }
    }
    assert !raised ==> sessions[..j] == sessions;
  }

  /**
   * The body of the `try` for one server: the lines it appends and what it
   * adds to the two totals.
   */
  method ReportServer(p: Poll) returns (lines: seq<Line>, users: nat, transcoding: nat)
    ensures lines == ServerLines(p)
    ensures users == FetchedUsers(p.fetch)
    ensures transcoding == ServerTranscoding(p)
  {
    var name := p.server.name;
    match p.fetch {
      case FetchFailed(reason) =>
        lines, users, transcoding := [ConnectError(name, reason)], 0, 0;
      case Fetched(sessions) =>
        users := |sessions|;
        transcoding := 0;
        lines := [ServerUsers(name, users)];
        if sessions != [] {
          var listed, serverTranscoding, raised := ListSessions(sessions);
          lines := lines + listed;
          if raised {
            lines := lines + [ConnectError(name, IndexErrorText)];
          } else {
            assert sessions[..NamedPrefix(sessions)] == sessions;
            transcoding := serverTranscoding;
          }
        } else {
          lines := lines + [NoActiveStreams];
        }
    }
  }

  /** Visiting one more server extends the lines and the two totals by that server's share. */
  lemma ReportStep(ps: seq<Poll>, i: nat)
    requires i < |ps|
    ensures ReportLines(ps[..i + 1]) == ReportLines(ps[..i]) + ServerLines(ps[i])
    ensures PolledUsers(ps[..i + 1]) == PolledUsers(ps[..i]) + FetchedUsers(ps[i].fetch)
    ensures TotalTranscoding(ps[..i + 1]) == TotalTranscoding(ps[..i]) + ServerTranscoding(ps[i])
  {
    assert ps[..i + 1][..i] == ps[..i];
  }

  /** `show_current_streams` without the Telegram call: the message it sends. */
  method ShowCurrentStreams(polls: seq<Poll>) returns (message: seq<Line>)
    ensures message == CurrentStreamsMessage(polls)
  {
    var totalUsers: nat := 0;
    var totalTranscoding: nat := 0;
    var report: seq<Line> := [];   // what follows the heading
    var i := 0;
    while i < |polls|
      invariant 0 <= i <= |polls|
      invariant report == ReportLines(polls[..i])
      invariant totalUsers == PolledUsers(polls[..i])
      invariant totalTranscoding == TotalTranscoding(polls[..i])
    {
      var lines, serverUsers, serverTranscoding := ReportServer(polls[i]);
      ReportStep(polls, i);
      report := report + lines;
      totalUsers := totalUsers + serverUsers;
      totalTranscoding := totalTranscoding + serverTranscoding;
      i := i + 1;
    }
    assert polls[..i] == polls;
    message := [Totals(totalUsers, totalTranscoding), Heading] + report;
  }

  // ---------------------------------------------------------------------
  // What the report promises

  /** Servers are visited one after another: a run of servers adds up part by part. */
  lemma {:induction false} LinesAppend(a: seq<Poll>, b: seq<Poll>)
    ensures ReportLines(a + b) == ReportLines(a) + ReportLines(b)
    decreases |b|
  {
    if b == [] {
      assert a + b == a;
    } else {
      var init, last := b[..|b| - 1], b[|b| - 1];
      InitOfAppend(a, b);
      LinesAppend(a, init);
      AppendAssoc(ReportLines(a), ReportLines(init), ServerLines(last));
    }
  }

  lemma {:induction false} TranscodingAppend(a: seq<Poll>, b: seq<Poll>)
    ensures TotalTranscoding(a + b) == TotalTranscoding(a) + TotalTranscoding(b)
    decreases |b|
  {
    if b == [] {
      assert a + b == a;
    } else {
      var ab := a + b;
      assert ab[..|ab| - 1] == a + b[..|b| - 1];
      TranscodingAppend(a, b[..|b| - 1]);
    }
  }

  /**
   * A server that cannot be reached adds one error line and zero to both
   * totals, and the servers after it are still reported.
   */
  lemma FailedServerIsSkipped(before: seq<Poll>, server: Server, reason: string, after: seq<Poll>)
    ensures var ps := before + [Poll(server, FetchFailed(reason))] + after;
            && ReportLines(ps) == ReportLines(before) + [ConnectError(server.name, reason)] + ReportLines(after)
            && PolledUsers(ps) == PolledUsers(before) + PolledUsers(after)
            && TotalTranscoding(ps) == TotalTranscoding(before) + TotalTranscoding(after)
  {
    var failed := [Poll(server, FetchFailed(reason))];
    assert failed[..0] == [];
    LinesAppend(before + failed, after);
    LinesAppend(before, failed);
    PolledUsersAppend(before + failed, after);
    PolledUsersAppend(before, failed);
    TranscodingAppend(before + failed, after);
    TranscodingAppend(before, failed);
  }

  /** Every transcoding session counted is also a user counted. */
  lemma {:induction false} TranscodingAtMostUsers(ps: seq<Poll>)
    ensures TotalTranscoding(ps) <= PolledUsers(ps)
    decreases |ps|
  {
    if ps != [] {
      TranscodingAtMostUsers(ps[..|ps| - 1]);
    }
  }

  /** The order of the servers changes the listing, never the totals. */
  lemma {:induction false} TotalsIgnoreOrder(p: seq<Poll>, q: seq<Poll>)
    requires multiset(p) == multiset(q)
    ensures PolledUsers(p) == PolledUsers(q)
    ensures TotalTranscoding(p) == TotalTranscoding(q)
    decreases |p|
  {
    if p == [] {
      assert |q| == |multiset(q)| == 0;
    } else {
      var init, x := p[..|p| - 1], p[|p| - 1];
      assert p == init + [x];
      assert x in multiset(q);
      var k :| 0 <= k < |q| && q[k] == x;
      var before, after := q[..k], q[k + 1..];
      assert q == before + [x] + after;
      RemoveOne(init, x, q, k);
      TotalsIgnoreOrder(init, before + after);
      PolledUsersAppend(init, [x]);
      PolledUsersAppend(before + [x], after);
      PolledUsersAppend(before, [x]);
      PolledUsersAppend(before, after);
      TranscodingAppend(init, [x]);
      TranscodingAppend(before + [x], after);
      TranscodingAppend(before, [x]);
      TranscodingAppend(before, after);
    }
  }

  /**
   * Two servers: the first has two sessions, one of them transcoding, the
   * second cannot be reached. The totals are two users and one transcoding.
   */
  lemma TwoServersOneDown(a: Server, b: Server, watching: Session, converting: Session, reason: string)
    requires Named(watching) && !IsTranscoding(watching)
    requires Named(converting) && IsTranscoding(converting)
    ensures var m := CurrentStreamsMessage([Poll(a, Fetched([watching, converting])), Poll(b, FetchFailed(reason))]);
            m[0] == Totals(2, 1) && m[|m| - 1] == ConnectError(b.name, reason)
  {
    var ss := [watching, converting];
    assert ss[1..][1..] == [];
    assert NamedPrefix(ss) == 2;
    assert ss[..1] == [watching] && ss[..1][..0] == [];
    assert CountTranscoding(ss[..1]) == 0;
    assert CountTranscoding(ss) == 1;
    var up, down := Poll(a, Fetched(ss)), Poll(b, FetchFailed(reason));
    var ps := [up, down];
    assert ps[..1] == [up] && ps[..1][..0] == [];
    assert PolledUsers([up]) == 2 && PolledUsers(ps) == 2;
    assert TotalTranscoding([up]) == 1 && TotalTranscoding(ps) == 1;
    assert ReportLines(ps) == ReportLines([up]) + [ConnectError(b.name, reason)];
  }
}
