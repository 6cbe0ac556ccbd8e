/**
 * The "Usuarios transcodificando" report of `show_transcoding_users`
 * (bot.py): for every server, the sessions that are being transcoded, with
 * the number of video and audio transcode decisions, per server and in total.
 */
module TranscodingReport {
  import opened Plex
  import opened Labels
  import CurrentStreams
  import opened SeqFacts

  /** The pieces of the message, in the order the handler appends them. */
  datatype Line =
    | TranscodeTotals(video: nat, audio: nat)   // "Transcodificando Video: … usuarios" and "Transcodificando Audio: … usuarios"
    | Heading                                   // "🔄 Usuarios haciendo transcode:"
    | ServerHeading(server: string)             // "Servidor {name}:"
    | Transcoder(user: string, title: string, kind: string, minutes: int, kinds: seq<string>)
      // the kinds are joined with " y "; none at all is shown as "Desconocido"
    | NoTranscoders(server: string)             // "Servidor {name}: No hay usuarios transcodificando."
    | ConnectError(server: string, reason: string)
    | Idle                                      // "😴 No hay usuarios realizando transcodificación en este momento."

  const Transcode := "transcode"

  // ---------------------------------------------------------------------
  // One session's transcode entries

  /** What one entry appends to `transcode_type`: video first, then audio. */
  function EntryKinds(t: TranscodeSession): seq<string>
  {
    (if t.videoDecision == Transcode then ["Video"] else []) +
    (if t.audioDecision == Transcode then ["Audio"] else [])
  }

  /** `transcode_type` after the loop over a session's entries. */
  function DecisionKinds(ts: seq<TranscodeSession>): seq<string>
    decreases |ts|
  {
    if ts == [] then [] else DecisionKinds(ts[..|ts| - 1]) + EntryKinds(ts[|ts| - 1])
  }

  /** The entries whose video decision is `transcode`. */
  function VideoCount(ts: seq<TranscodeSession>): nat
    decreases |ts|
  {
    if ts == [] then 0
    else VideoCount(ts[..|ts| - 1]) + (if ts[|ts| - 1].videoDecision == Transcode then 1 else 0)
  }

  /** The entries whose audio decision is `transcode`. */
  function AudioCount(ts: seq<TranscodeSession>): nat
    decreases |ts|
  {
    if ts == [] then 0
    else AudioCount(ts[..|ts| - 1]) + (if ts[|ts| - 1].audioDecision == Transcode then 1 else 0)
  }

  // ---------------------------------------------------------------------
  // One server

  /**
   * No transcoded session lacks a username. Only transcoded sessions read
   * `usernames[0]`, so only they can raise.
   */
  predicate Listable(ss: seq<Session>)
  {
    forall i :: 0 <= i < |ss| ==> IsTranscoding(ss[i]) ==> Named(ss[i])
  }

  /** The video decisions of all of a server's sessions. */
  function ServerVideo(ss: seq<Session>): nat
    decreases |ss|
  {
    if ss == [] then 0 else ServerVideo(ss[..|ss| - 1]) + VideoCount(ss[|ss| - 1].transcodeSessions)
  }

  /** The audio decisions of all of a server's sessions. */
  function ServerAudio(ss: seq<Session>): nat
    decreases |ss|
  {
    if ss == [] then 0 else ServerAudio(ss[..|ss| - 1]) + AudioCount(ss[|ss| - 1].transcodeSessions)
  }

  /** The block of one transcoded session. */
  function TranscoderOf(s: Session): Line
    requires Named(s)
  {
    Transcoder(s.usernames[0], s.title, SessionTypeLabel(s.kind), ProgressMinutes(s.viewOffset),
               DecisionKinds(s.transcodeSessions))
  }

  /** `server_message` without its heading: one block per transcoded session, in order. */
  function TranscoderLines(ss: seq<Session>): seq<Line>
    requires Listable(ss)
    decreases |ss|
  {
    if ss == [] then []
    else
      var s := ss[|ss| - 1];
      TranscoderLines(ss[..|ss| - 1]) + (if IsTranscoding(s) then [TranscoderOf(s)] else [])
  }

  /**
   * What one server adds to the message: the connection error, the error of
   * a transcoded session without a username (the server's blocks are then
   * dropped), its blocks when it has a transcode decision, or the line saying
   * it has none.
   */
  function ServerBlock(p: Poll): seq<Line>
  {
    var name := p.server.name;
    match p.fetch
    case FetchFailed(reason) => [ConnectError(name, reason)]
    case Fetched(ss) =>
      if !Listable(ss) then [ConnectError(name, IndexErrorText)]
      else if ServerVideo(ss) > 0 || ServerAudio(ss) > 0 then [ServerHeading(name)] + TranscoderLines(ss)
      else [NoTranscoders(name)]
  }

  /** What one server adds to `total_transcoding_video`: only when one of its counters is positive. */
  function VideoShare(p: Poll): nat
  {
    match p.fetch
    case FetchFailed(_) => 0
    case Fetched(ss) =>
      if Listable(ss) && (ServerVideo(ss) > 0 || ServerAudio(ss) > 0) then ServerVideo(ss) else 0
  }

  /** What one server adds to `total_transcoding_audio`. */
  function AudioShare(p: Poll): nat
  {
    match p.fetch
    case FetchFailed(_) => 0
    case Fetched(ss) =>
      if Listable(ss) && (ServerVideo(ss) > 0 || ServerAudio(ss) > 0) then ServerAudio(ss) else 0
  }

  // ---------------------------------------------------------------------
  // All servers

  function ReportBlocks(ps: seq<Poll>): seq<Line>
    decreases |ps|
  {
    if ps == [] then [] else ReportBlocks(ps[..|ps| - 1]) + ServerBlock(ps[|ps| - 1])
  }

  function TotalVideo(ps: seq<Poll>): nat
    decreases |ps|
  {
    if ps == [] then 0 else TotalVideo(ps[..|ps| - 1]) + VideoShare(ps[|ps| - 1])
  }

  function TotalAudio(ps: seq<Poll>): nat
    decreases |ps|
  {
    if ps == [] then 0 else TotalAudio(ps[..|ps| - 1]) + AudioShare(ps[|ps| - 1])
  }

  /** The message sent: the idle text alone, or the two totals in front of the report. */
  function TranscodingMessage(ps: seq<Poll>): seq<Line>
  {
    var video, audio := TotalVideo(ps), TotalAudio(ps);
    if video == 0 && audio == 0 then [Idle]
    else [TranscodeTotals(video, audio), Heading] + ReportBlocks(ps)
  }

  // ---------------------------------------------------------------------
  // The handler's loops

  /** The loop over one session's entries: `transcode_type` and the two counters it raises. */
  method CountDecisions(ts: seq<TranscodeSession>) returns (kinds: seq<string>, video: nat, audio: nat)
    ensures kinds == DecisionKinds(ts)
    ensures video == VideoCount(ts) && audio == AudioCount(ts)
  {
    kinds, video, audio := [], 0, 0;
    for k := 0 to |ts|
      invariant kinds == DecisionKinds(ts[..k])
      invariant video == VideoCount(ts[..k]) && audio == AudioCount(ts[..k])
    {
      var entry := ts[k];
      if entry.videoDecision == Transcode {
        kinds := kinds + ["Video"];
        video := video + 1;
      }
      if entry.audioDecision == Transcode {
        kinds := kinds + ["Audio"];
        audio := audio + 1;
      }
      assert ts[..k + 1][..k] == ts[..k];
    }
    assert ts[..|ts|] == ts;
  }

  /**
   * The loop over one server's sessions: the blocks of `server_message`, the
   * server's two counters, and whether `usernames[0]` raised.
   */
  method ScanSessions(sessions: seq<Session>) returns (lines: seq<Line>, video: nat, audio: nat, raised: bool)
    ensures raised <==> !Listable(sessions)
    ensures !raised ==> lines == TranscoderLines(sessions)
    ensures !raised ==> video == ServerVideo(sessions) && audio == ServerAudio(sessions)
  {
    lines, video, audio, raised := [], 0, 0, false;
    var j := 0;
    while j < |sessions| && !raised
      invariant j <= |sessions|
      invariant Listable(sessions[..j])
      invariant raised ==> !Listable(sessions)
      invariant !raised ==> lines == TranscoderLines(sessions[..j])
      invariant !raised ==> video == ServerVideo(sessions[..j]) && audio == ServerAudio(sessions[..j])
      decreases |sessions| - j, if raised then 0 else 1
    {
      var session := sessions[j];
      assert sessions[..j + 1][..j] == sessions[..j];
      if session.transcodeSessions != [] {
        var kinds, v, a := CountDecisions(session.transcodeSessions);
        video, audio := video + v, audio + a;
        if session.usernames == [] {
          raised := true;
        } else {
          lines := lines + [TranscoderOf(session)];
          j := j + 1;
        }
      } else {
        j := j + 1;
      }
    }
    assert !raised ==> sessions[..j] == sessions;
  }

  /** The body of the `try` for one server: what it appends and adds to the totals. */
  method ReportTranscodes(p: Poll) returns (lines: seq<Line>, video: nat, audio: nat)
    ensures lines == ServerBlock(p)
    ensures video == VideoShare(p) && audio == AudioShare(p)
  {
    var name := p.server.name;
    match p.fetch {
      case FetchFailed(reason) =>
        lines, video, audio := [ConnectError(name, reason)], 0, 0;
      case Fetched(sessions) =>
        var blocks, serverVideo, serverAudio, raised := ScanSessions(sessions);
        if raised {
          lines, video, audio := [ConnectError(name, IndexErrorText)], 0, 0;
        } else if serverVideo > 0 || serverAudio > 0 {
          lines, video, audio := [ServerHeading(name)] + blocks, serverVideo, serverAudio;
        } else {
          lines, video, audio := [NoTranscoders(name)], 0, 0;
        }
    }
  }

  /** Visiting one more server extends the report and the totals by that server's share. */
  lemma ReportStep(ps: seq<Poll>, i: nat)
    requires i < |ps|
    ensures ReportBlocks(ps[..i + 1]) == ReportBlocks(ps[..i]) + ServerBlock(ps[i])
    ensures TotalVideo(ps[..i + 1]) == TotalVideo(ps[..i]) + VideoShare(ps[i])
    ensures TotalAudio(ps[..i + 1]) == TotalAudio(ps[..i]) + AudioShare(ps[i])
  {
    assert ps[..i + 1][..i] == ps[..i];
  }

  /** `show_transcoding_users` without the Telegram call: the message it sends. */
  method ShowTranscodingUsers(polls: seq<Poll>) returns (message: seq<Line>)
    ensures message == TranscodingMessage(polls)
  {
    var totalVideo: nat := 0;
    var totalAudio: nat := 0;
    var report: seq<Line> := [];   // what follows the heading
    var i := 0;
    while i < |polls|
      invariant 0 <= i <= |polls|
      invariant report == ReportBlocks(polls[..i])
      invariant totalVideo == TotalVideo(polls[..i]) && totalAudio == TotalAudio(polls[..i])
    {
      var lines, serverVideo, serverAudio := ReportTranscodes(polls[i]);
      ReportStep(polls, i);
      report := report + lines;
      totalVideo, totalAudio := totalVideo + serverVideo, totalAudio + serverAudio;
      i := i + 1;
    }
    assert polls[..i] == polls;
    if totalVideo == 0 && totalAudio == 0 {
      message := [Idle];
    } else {
      message := [TranscodeTotals(totalVideo, totalAudio), Heading] + report;
    }
  }

  // ---------------------------------------------------------------------
  // What the report promises

  /**
   * `transcode_type` holds one "Video" per video decision and one "Audio"
   * per audio decision, and nothing else.
   */
  lemma {:induction false} KindsMatchCounters(ts: seq<TranscodeSession>)
    ensures multiset(DecisionKinds(ts))["Video"] == VideoCount(ts)
    ensures multiset(DecisionKinds(ts))["Audio"] == AudioCount(ts)
    ensures |DecisionKinds(ts)| == VideoCount(ts) + AudioCount(ts)
    decreases |ts|
  {
    if ts != [] {
      KindsMatchCounters(ts[..|ts| - 1]);
    }
  }

  /** One entry transcoding both streams raises both counters and names both kinds, video first. */
  lemma BothDecisionsInOneEntry(t: TranscodeSession)
    requires t.videoDecision == Transcode && t.audioDecision == Transcode
    ensures VideoCount([t]) == 1 && AudioCount([t]) == 1
    ensures DecisionKinds([t]) == ["Video", "Audio"]
  {
    assert [t][..0] == [];
  }

  /** A counter is positive exactly when some entry carries that transcode decision. */
  lemma {:induction false} CountsPositive(ts: seq<TranscodeSession>)
    ensures VideoCount(ts) > 0 <==> exists k :: 0 <= k < |ts| && ts[k].videoDecision == Transcode
    ensures AudioCount(ts) > 0 <==> exists k :: 0 <= k < |ts| && ts[k].audioDecision == Transcode
    decreases |ts|
  {
    if ts != [] {
      var init := ts[..|ts| - 1];
      CountsPositive(init);
      assert forall k :: 0 <= k < |init| ==> init[k] == ts[k];
    }
  }

  /** A server's counters are positive exactly when one of its sessions has such an entry. */
  lemma {:induction false} ServerCountsPositive(ss: seq<Session>)
    ensures ServerVideo(ss) > 0 <==> exists i :: 0 <= i < |ss| && VideoCount(ss[i].transcodeSessions) > 0
    ensures ServerAudio(ss) > 0 <==> exists i :: 0 <= i < |ss| && AudioCount(ss[i].transcodeSessions) > 0
    decreases |ss|
  {
    if ss != [] {
      var init := ss[..|ss| - 1];
      ServerCountsPositive(init);
      assert forall i :: 0 <= i < |init| ==> init[i] == ss[i];
    }
  }

  /**
   * The guard before adding a server's counters changes nothing: a server
   * that is reported adds exactly its own counters.
   */
  lemma GuardKeepsCounters(p: Poll)
    requires p.fetch.Fetched? && Listable(p.fetch.sessions)
    ensures VideoShare(p) == ServerVideo(p.fetch.sessions)
    ensures AudioShare(p) == ServerAudio(p.fetch.sessions)
  {
  }

  /** A server without a transcode decision to report: failed, raised, or all counters zero. */
  predicate Quiet(p: Poll)
  {
    p.fetch.Fetched? && Listable(p.fetch.sessions) ==>
      ServerVideo(p.fetch.sessions) == 0 && ServerAudio(p.fetch.sessions) == 0
  }

  /** The idle text replaces the report exactly when every server is quiet. */
  lemma {:induction false} IdleWhenAllQuiet(ps: seq<Poll>)
    ensures TranscodingMessage(ps) == [Idle] <==> forall i :: 0 <= i < |ps| ==> Quiet(ps[i])
    decreases |ps|
  {
    if ps != [] {
      var init := ps[..|ps| - 1];
      IdleWhenAllQuiet(init);
      assert forall i :: 0 <= i < |init| ==> init[i] == ps[i];
      assert TotalVideo(init) == 0 && TotalAudio(init) == 0 <==> forall i :: 0 <= i < |init| ==> Quiet(init[i]);
    }
  }

  /** Both totals are additive over two runs of servers. */
  lemma {:induction false} TotalsAppend(a: seq<Poll>, b: seq<Poll>)
    ensures TotalVideo(a + b) == TotalVideo(a) + TotalVideo(b)
    ensures TotalAudio(a + b) == TotalAudio(a) + TotalAudio(b)
    decreases |b|
  {
    if b == [] {
      assert a + b == a;
    } else {
      InitOfAppend(a, b);
      TotalsAppend(a, b[..|b| - 1]);
    }
  }

  /** The order of the servers changes the report, never the video and audio totals. */
  lemma {:induction false} TranscodeTotalsIgnoreOrder(p: seq<Poll>, q: seq<Poll>)
    requires multiset(p) == multiset(q)
    ensures TotalVideo(p) == TotalVideo(q)
    ensures TotalAudio(p) == TotalAudio(q)
    decreases |p|
  {
    if p == [] {
      assert |q| == |multiset(q)| == 0;
    } else {
      var init, x := p[..|p| - 1], p[|p| - 1];
      assert p == init + [x];
      assert x in multiset(q);
      var k :| 0 <= k < |q| && q[k] == x;
      var before, after := q[..k], q[k + 1..];
      assert q == before + [x] + after;
      RemoveOne(init, x, q, k);
      TranscodeTotalsIgnoreOrder(init, before + after);
      TotalsAppend(init, [x]);
      TotalsAppend(before + [x], after);
      TotalsAppend(before, [x]);
      TotalsAppend(before, after);
    }
  }

  /** Each listed session gets one block: as many blocks as the current-streams report counts transcoding. */
  lemma {:induction false} OneBlockPerTranscodedSession(ss: seq<Session>)
    requires Listable(ss)
    ensures |TranscoderLines(ss)| == CurrentStreams.CountTranscoding(ss)
    decreases |ss|
  {
    if ss != [] {
      var init := ss[..|ss| - 1];
      assert Listable(init) by {
        assert forall i :: 0 <= i < |init| ==> init[i] == ss[i];
      }
      OneBlockPerTranscodedSession(init);
    }
  }
}
