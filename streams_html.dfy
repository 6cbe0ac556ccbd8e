/**
 * `generate_streams_html` (html_generator.py): the HTML report of the current
 * streams, as the sequence of blocks it appends. From the ordered map
 * `{server_name: {'sessions': [...]}}` it computes per-server and total user
 * and transcoding counts, the list of transcoding sessions tagged with their
 * server, and the sections that depend on them.
 */
module StreamsHtml {
  import opened Outcomes
  import opened JsonValues
  import opened SeqFacts

  /** One session dict: every field is shown as `str()` of its value; only `transcoding` is tested. */
  datatype StreamInfo = StreamInfo(title: Json, username: Json, kind: Json, progress: Json, player: Json, transcoding: Json)

  /** One entry of `streams_data`, in the map's iteration order. */
  datatype ServerStreams = ServerStreams(name: string, sessions: seq<StreamInfo>)

  /** One entry of `server_stats`. */
  datatype ServerStat = ServerStat(name: string, users: nat, transcoding: nat)

  /** One entry of `transcoding_streams`. */
  datatype TranscodingStream = TranscodingStream(server: string, session: StreamInfo)

  /** The pieces of the document, in the order they are appended. */
  datatype Block =
    | Preamble(logo: Option<string>)   // head, style and header image; a missing image is rendered as "None"
    | StatsOpen                        // <div class="stats-container">
    | UsersBox(total: nat)             // "Usuarios" box with the total
    | StatSpan(server: string, count: nat)
    | BoxClose                         // end of the "Usuarios" box
    | TranscodesBox(total: nat)        // "Transcodes" box with the total
    | StatsClose                       // end of the "Transcodes" box and of the container
    | Details                          // "DETALLES" heading and the generation time
    | ServerOpen(server: string)       // <div class="server"> with "Servidor: {name}"
    | StreamCard(session: StreamInfo, flag: string)
    | NoStreams                        // "No hay reproducciones activas."
    | ServerClose
    | TranscodingOpen                  // "Usuarios Transcodificando" section
    | TranscodingCard(server: string, session: StreamInfo)
    | TranscodingClose
    | Footer

  /** The keys of a Python dict are distinct. */
  predicate DistinctNames(streams: seq<ServerStreams>)
  {
    forall i, j :: 0 <= i < j < |streams| ==> streams[i].name != streams[j].name
  }

  function Names(streams: seq<ServerStreams>): seq<string>
    decreases |streams|
  {
    if streams == [] then [] else Names(streams[..|streams| - 1]) + [streams[|streams| - 1].name]
  }

  // ---------------------------------------------------------------------
  // The statistics

  /** `sum(1 for session in sessions if session['transcoding'])`. */
  function TranscodingCount(sessions: seq<StreamInfo>): (n: nat)
    ensures n <= |sessions|
    decreases |sessions|
  {
    if sessions == [] then 0
    else TranscodingCount(sessions[..|sessions| - 1]) + (if Truthy(sessions[|sessions| - 1].transcoding) then 1 else 0)
  }

  function StatOf(server: ServerStreams): ServerStat
  {
    ServerStat(server.name, |server.sessions|, TranscodingCount(server.sessions))
  }

  /** `server_stats`, in the order of `streams_data`. */
  function Stats(streams: seq<ServerStreams>): seq<ServerStat>
    decreases |streams|
  {
    if streams == [] then [] else Stats(streams[..|streams| - 1]) + [StatOf(streams[|streams| - 1])]
  }

  function TotalUsers(streams: seq<ServerStreams>): nat
    decreases |streams|
  {
    if streams == [] then 0 else TotalUsers(streams[..|streams| - 1]) + |streams[|streams| - 1].sessions|
  }

  function TotalTranscoding(streams: seq<ServerStreams>): nat
    decreases |streams|
  {
    if streams == [] then 0
    else TotalTranscoding(streams[..|streams| - 1]) + TranscodingCount(streams[|streams| - 1].sessions)
  }

  /** The spans of one stat box: users or transcoding, one per server. */
  function Spans(stats: seq<ServerStat>, ofUsers: bool): seq<Block>
    decreases |stats|
  {
    if stats == [] then []
    else
      var s := stats[|stats| - 1];
      Spans(stats[..|stats| - 1], ofUsers) + [StatSpan(s.name, if ofUsers then s.users else s.transcoding)]
  }

  // ---------------------------------------------------------------------
  // The server sections and the transcoding list

  function Flag(session: StreamInfo): string
  {
    if Truthy(session.transcoding) then "Sí" else "No"
  }

  function Cards(sessions: seq<StreamInfo>): seq<Block>
    decreases |sessions|
  {
    if sessions == [] then []
    else
      var s := sessions[|sessions| - 1];
      Cards(sessions[..|sessions| - 1]) + [StreamCard(s, Flag(s))]
  }

  /** A server's sessions with a truthy `transcoding`, tagged with the server. */
  function TranscodingOf(name: string, sessions: seq<StreamInfo>): seq<TranscodingStream>
    decreases |sessions|
  {
    if sessions == [] then []
    else
      var s := sessions[|sessions| - 1];
      TranscodingOf(name, sessions[..|sessions| - 1]) + (if Truthy(s.transcoding) then [TranscodingStream(name, s)] else [])
  }

  function ServerSection(server: ServerStreams): seq<Block>
  {
    [ServerOpen(server.name)] + (if server.sessions != [] then Cards(server.sessions) else [NoStreams]) + [ServerClose]
  }

  function Sections(streams: seq<ServerStreams>): seq<Block>
    decreases |streams|
  {
    if streams == [] then [] else Sections(streams[..|streams| - 1]) + ServerSection(streams[|streams| - 1])
  }

  /** `transcoding_streams`: by server, then by session. */
  function TranscodingStreams(streams: seq<ServerStreams>): seq<TranscodingStream>
    decreases |streams|
  {
    if streams == [] then []
    else
      var server := streams[|streams| - 1];
      TranscodingStreams(streams[..|streams| - 1]) + TranscodingOf(server.name, server.sessions)
  }

  function TranscodingCards(found: seq<TranscodingStream>): seq<Block>
    decreases |found|
  {
    if found == [] then []
    else
      var t := found[|found| - 1];
      TranscodingCards(found[..|found| - 1]) + [TranscodingCard(t.server, t.session)]
  }

  /** The "Usuarios Transcodificando" section, present only when the list is not empty. */
  function TranscodingSection(found: seq<TranscodingStream>): seq<Block>
  {
    if found == [] then [] else [TranscodingOpen] + TranscodingCards(found) + [TranscodingClose]
  }

  /** The part before the server sections: image, the two stat boxes, the details heading. */
  function StatsBlocks(streams: seq<ServerStreams>, logo: Option<string>): seq<Block>
  {
    var stats := Stats(streams);
    [Preamble(logo), StatsOpen, UsersBox(TotalUsers(streams))] + Spans(stats, true) +
    [BoxClose, TranscodesBox(TotalTranscoding(streams))] + Spans(stats, false) +
    [StatsClose, Details]
  }

  /** The whole document. */
  function StreamsDocument(streams: seq<ServerStreams>, logo: Option<string>): seq<Block>
  {
    StatsBlocks(streams, logo) + Sections(streams) + TranscodingSection(TranscodingStreams(streams)) + [Footer]
  }

  // ---------------------------------------------------------------------
  // The function's loops

  /** The first loop: `server_stats` and the two totals. */
  method ComputeStats(streams: seq<ServerStreams>) returns (stats: seq<ServerStat>, totalUsers: nat, totalTranscoding: nat)
    ensures stats == Stats(streams)
    ensures totalUsers == TotalUsers(streams) && totalTranscoding == TotalTranscoding(streams)
  {
    stats, totalUsers, totalTranscoding := [], 0, 0;
    for i := 0 to |streams|
      invariant stats == Stats(streams[..i])
      invariant totalUsers == TotalUsers(streams[..i]) && totalTranscoding == TotalTranscoding(streams[..i])
    {
      var server := streams[i];
      var serverUsers := |server.sessions|;
      var serverTranscoding := TranscodingCount(server.sessions);
      stats := stats + [ServerStat(server.name, serverUsers, serverTranscoding)];
      totalUsers := totalUsers + serverUsers;
      totalTranscoding := totalTranscoding + serverTranscoding;
      assert streams[..i + 1][..i] == streams[..i];
    }
    assert streams[..|streams|] == streams;
  }

  /** One of the two span loops over `server_stats`. */
  method StatSpans(stats: seq<ServerStat>, ofUsers: bool) returns (spans: seq<Block>)
    ensures spans == Spans(stats, ofUsers)
  {
    spans := [];
    for i := 0 to |stats|
      invariant spans == Spans(stats[..i], ofUsers)
    {
      var stat := stats[i];
      spans := spans + [StatSpan(stat.name, if ofUsers then stat.users else stat.transcoding)];
      assert stats[..i + 1][..i] == stats[..i];
    }
    assert stats[..|stats|] == stats;
  }

  /** The inner loop over one server's sessions: its cards and its transcoding entries. */
  method RenderSessions(name: string, sessions: seq<StreamInfo>) returns (cards: seq<Block>, found: seq<TranscodingStream>)
    ensures cards == Cards(sessions)
    ensures found == TranscodingOf(name, sessions)
  {
    cards, found := [], [];
    for j := 0 to |sessions|
      invariant cards == Cards(sessions[..j])
      invariant found == TranscodingOf(name, sessions[..j])
    {
      var session := sessions[j];
      cards := cards + [StreamCard(session, if Truthy(session.transcoding) then "Sí" else "No")];
      if Truthy(session.transcoding) {
        found := found + [TranscodingStream(name, session)];
      }
      assert sessions[..j + 1][..j] == sessions[..j];
    }
    assert sessions[..|sessions|] == sessions;
  }

  /** Visiting one more server extends the sections and the transcoding list by that server's share. */
  lemma SectionsStep(streams: seq<ServerStreams>, i: nat)
    requires i < |streams|
    ensures Sections(streams[..i + 1]) == Sections(streams[..i]) + ServerSection(streams[i])
    ensures TranscodingStreams(streams[..i + 1]) ==
              TranscodingStreams(streams[..i]) + TranscodingOf(streams[i].name, streams[i].sessions)
  {
    assert streams[..i + 1][..i] == streams[..i];
  }

  /** The second loop over `streams_data`: the server sections and `transcoding_streams`. */
  method RenderServers(streams: seq<ServerStreams>) returns (blocks: seq<Block>, found: seq<TranscodingStream>)
    ensures blocks == Sections(streams)
    ensures found == TranscodingStreams(streams)
  {
    blocks, found := [], [];
    for i := 0 to |streams|
      invariant blocks == Sections(streams[..i])
      invariant found == TranscodingStreams(streams[..i])
    {
      var server := streams[i];
      var section := [ServerOpen(server.name)];
      if server.sessions != [] {
        var cards, serverFound := RenderSessions(server.name, server.sessions);
        section := section + cards;
        found := found + serverFound;
      } else {
        section := section + [NoStreams];
        assert TranscodingOf(server.name, server.sessions) == [];
      }
      blocks := blocks + (section + [ServerClose]);
      SectionsStep(streams, i);
    }
    assert streams[..|streams|] == streams;
  }

  /** The loop over `transcoding_streams`. */
  method RenderTranscoding(found: seq<TranscodingStream>) returns (blocks: seq<Block>)
    ensures blocks == TranscodingSection(found)
  {
    blocks := [];
    if found != [] {
      var cards := [];
      for k := 0 to |found|
        invariant cards == TranscodingCards(found[..k])
      {
        cards := cards + [TranscodingCard(found[k].server, found[k].session)];
        assert found[..k + 1][..k] == found[..k];
      }
      assert found[..|found|] == found;
      blocks := [TranscodingOpen] + cards + [TranscodingClose];
    }
  }

  /** `generate_streams_html`, given what `get_image_as_base64` returned. */
  method GenerateStreamsHtml(streams: seq<ServerStreams>, logo: Option<string>) returns (doc: seq<Block>)
    requires DistinctNames(streams)
    ensures doc == StreamsDocument(streams, logo)
  {
    var stats, totalUsers, totalTranscoding := ComputeStats(streams);
    var userSpans := StatSpans(stats, true);
    var transcodeSpans := StatSpans(stats, false);
    var sections, found := RenderServers(streams);
    var transcoding := RenderTranscoding(found);
    doc := [Preamble(logo), StatsOpen, UsersBox(totalUsers)] + userSpans +
           [BoxClose, TranscodesBox(totalTranscoding)] + transcodeSpans +
           [StatsClose, Details];
    doc := doc + sections + transcoding + [Footer];
  }

  // ---------------------------------------------------------------------
  // What the document promises

  /** Each server's stat has its own name, its own number of sessions, and no more transcoding than users. */
  lemma {:induction false} StatsPerServer(streams: seq<ServerStreams>)
    ensures |Stats(streams)| == |streams|
    ensures forall i :: 0 <= i < |streams| ==>
              var st := Stats(streams)[i];
              st.name == streams[i].name && st.users == |streams[i].sessions| &&
              st.transcoding == TranscodingCount(streams[i].sessions) && st.transcoding <= st.users
    decreases |streams|
  {
    if streams != [] {
      var init := streams[..|streams| - 1];
      StatsPerServer(init);
      assert forall i :: 0 <= i < |init| ==> init[i] == streams[i];
    }
  }

  /** The transcoding total never exceeds the users total. */
  lemma {:induction false} TranscodingAtMostUsers(streams: seq<ServerStreams>)
    ensures TotalTranscoding(streams) <= TotalUsers(streams)
    decreases |streams|
  {
    if streams != [] {
      TranscodingAtMostUsers(streams[..|streams| - 1]);
    }
  }

  /** A server's transcoding entries are exactly its sessions with a truthy flag, as many as it counts. */
  lemma {:induction false} TranscodingOfExact(name: string, sessions: seq<StreamInfo>, t: TranscodingStream)
    ensures |TranscodingOf(name, sessions)| == TranscodingCount(sessions)
    ensures t in TranscodingOf(name, sessions) <==>
              t.server == name && t.session in sessions && Truthy(t.session.transcoding)
    decreases |sessions|
  {
    if sessions != [] {
      var init := sessions[..|sessions| - 1];
      TranscodingOfExact(name, init, t);
      assert sessions == init + [sessions[|sessions| - 1]];
    }
  }

  /** The transcoding list has one entry per counted transcoding session. */
  lemma {:induction false} TranscodingListMatchesTotal(streams: seq<ServerStreams>)
    ensures |TranscodingStreams(streams)| == TotalTranscoding(streams)
    decreases |streams|
  {
    if streams != [] {
      var last := streams[|streams| - 1];
      TranscodingListMatchesTotal(streams[..|streams| - 1]);
      TranscodingOfExact(last.name, last.sessions, TranscodingStream(last.name, StreamInfo(JNull, JNull, JNull, JNull, JNull, JNull)));
    }
  }

  /**
   * The transcoding list holds exactly the sessions with a truthy
   * `transcoding`, each with the name of the server it came from.
   */
  lemma {:induction false} TranscodingListExact(streams: seq<ServerStreams>, t: TranscodingStream)
    ensures t in TranscodingStreams(streams) <==>
              exists i :: 0 <= i < |streams| && streams[i].name == t.server &&
                          t.session in streams[i].sessions && Truthy(t.session.transcoding)
    decreases |streams|
  {
    if streams != [] {
      var init, last := streams[..|streams| - 1], streams[|streams| - 1];
      TranscodingListExact(init, t);
      TranscodingOfExact(last.name, last.sessions, t);
      assert forall i :: 0 <= i < |init| ==> init[i] == streams[i];
    }
  }

  /** Within a server the list keeps the sessions' order. */
  lemma {:induction false} TranscodingOfAppend(name: string, a: seq<StreamInfo>, b: seq<StreamInfo>)
    ensures TranscodingOf(name, a + b) == TranscodingOf(name, a) + TranscodingOf(name, b)
    decreases |b|
  {
    if b == [] {
      assert a + b == a;
    } else {
      var init, s := b[..|b| - 1], b[|b| - 1];
      InitOfAppend(a, b);
      TranscodingOfAppend(name, a, init);
      AppendAssoc(TranscodingOf(name, a), TranscodingOf(name, init),
                  if Truthy(s.transcoding) then [TranscodingStream(name, s)] else []);
    }
  }

  /** Across servers the list keeps the servers' order: earlier servers' entries come first. */
  lemma {:induction false} TranscodingStreamsAppend(a: seq<ServerStreams>, b: seq<ServerStreams>)
    ensures TranscodingStreams(a + b) == TranscodingStreams(a) + TranscodingStreams(b)
    decreases |b|
  {
    if b == [] {
      assert a + b == a;
    } else {
      var init, server := b[..|b| - 1], b[|b| - 1];
      InitOfAppend(a, b);
      TranscodingStreamsAppend(a, init);
      AppendAssoc(TranscodingStreams(a), TranscodingStreams(init), TranscodingOf(server.name, server.sessions));
    }
  }

  /** Each box has one span per server, in the order of `server_stats`. */
  lemma {:induction false} SpansOnePerServer(stats: seq<ServerStat>, ofUsers: bool)
    ensures |Spans(stats, ofUsers)| == |stats|
    ensures forall i :: 0 <= i < |stats| ==>
              Spans(stats, ofUsers)[i] == StatSpan(stats[i].name, if ofUsers then stats[i].users else stats[i].transcoding)
    decreases |stats|
  {
    if stats != [] {
      var init := stats[..|stats| - 1];
      SpansOnePerServer(init, ofUsers);
      assert forall i :: 0 <= i < |init| ==> init[i] == stats[i];
    }
  }

  /** One card per session, in order, flagged "Sí" exactly when `transcoding` is truthy and "No" otherwise. */
  lemma {:induction false} CardsFlagged(sessions: seq<StreamInfo>)
    ensures |Cards(sessions)| == |sessions|
    ensures forall i :: 0 <= i < |sessions| ==>
              Cards(sessions)[i].StreamCard? && Cards(sessions)[i].session == sessions[i] &&
              Cards(sessions)[i].flag in {"Sí", "No"} &&
              (Cards(sessions)[i].flag == "Sí" <==> Truthy(sessions[i].transcoding))
    decreases |sessions|
  {
    if sessions != [] {
      var init := sessions[..|sessions| - 1];
      CardsFlagged(init);
      assert forall i :: 0 <= i < |init| ==> init[i] == sessions[i];
    }
  }

  /** A server without sessions gets the "No hay reproducciones activas." paragraph and no card. */
  lemma EmptyServerSection(server: ServerStreams)
    ensures ServerSection(server) == [ServerOpen(server.name), NoStreams, ServerClose] <==> server.sessions == []
  {
    if server.sessions != [] {
      CardsFlagged(server.sessions);
      assert ServerSection(server)[1].StreamCard?;
    }
  }

  // The server sections of a document

  /** The names of the server sections opened in a run of blocks, in order. */
  function Opened(blocks: seq<Block>): seq<string>
    decreases |blocks|
  {
    if blocks == [] then []
    else
      var b := blocks[|blocks| - 1];
      Opened(blocks[..|blocks| - 1]) + (if b.ServerOpen? then [b.server] else [])
  }

  lemma {:induction false} OpenedAppend(a: seq<Block>, b: seq<Block>)
    ensures Opened(a + b) == Opened(a) + Opened(b)
    decreases |b|
  {
    if b == [] {
      assert a + b == a;
    } else {
      var init, last := b[..|b| - 1], b[|b| - 1];
      InitOfAppend(a, b);
      OpenedAppend(a, init);
      AppendAssoc(Opened(a), Opened(init), if last.ServerOpen? then [last.server] else []);
    }
  }

  /** A run of blocks without a section heading opens nothing. */
  lemma {:induction false} OpenedNone(blocks: seq<Block>)
    requires forall i :: 0 <= i < |blocks| ==> !blocks[i].ServerOpen?
    ensures Opened(blocks) == []
    decreases |blocks|
  {
    if blocks != [] {
      OpenedNone(blocks[..|blocks| - 1]);
    }
  }

  /** A server section opens exactly that server. */
  lemma SectionOpensItsServer(server: ServerStreams)
    ensures Opened(ServerSection(server)) == [server.name]
  {
    var body := if server.sessions != [] then Cards(server.sessions) else [NoStreams];
    CardsFlagged(server.sessions);
    OpenedNone(body);
    OpenedNone([ServerClose]);
    OpenedAppend([ServerOpen(server.name)], body);
    OpenedAppend([ServerOpen(server.name)] + body, [ServerClose]);
    assert [ServerOpen(server.name)][..0] == [];
  }

  /** Every server of `streams_data` gets exactly one section, in order. */
  lemma {:induction false} OneSectionPerServer(streams: seq<ServerStreams>)
    ensures Opened(Sections(streams)) == Names(streams)
    decreases |streams|
  {
    if streams != [] {
      var init, last := streams[..|streams| - 1], streams[|streams| - 1];
      OneSectionPerServer(init);
      SectionOpensItsServer(last);
      OpenedAppend(Sections(init), ServerSection(last));
    }
  }

  /** The transcoding section is the one block run that holds `TranscodingOpen`: one card per entry. */
  lemma {:induction false} TranscodingCardsOnePerEntry(found: seq<TranscodingStream>)
    ensures |TranscodingCards(found)| == |found|
    ensures forall k :: 0 <= k < |found| ==> TranscodingCards(found)[k] == TranscodingCard(found[k].server, found[k].session)
    decreases |found|
  {
    if found != [] {
      var init := found[..|found| - 1];
      TranscodingCardsOnePerEntry(init);
      assert forall k :: 0 <= k < |init| ==> init[k] == found[k];
    }
  }

  /** No block before the transcoding section opens it. */
  lemma {:induction false} SectionsHoldNoTranscodingOpen(streams: seq<ServerStreams>)
    ensures TranscodingOpen !in Sections(streams)
    decreases |streams|
  {
    if streams != [] {
      var last := streams[|streams| - 1];
      SectionsHoldNoTranscodingOpen(streams[..|streams| - 1]);
      CardsFlagged(last.sessions);
    }
  }

  /** The stat part of the document holds no section heading of either kind. */
  lemma StatsBlocksPlain(streams: seq<ServerStreams>, logo: Option<string>)
    ensures TranscodingOpen !in StatsBlocks(streams, logo)
    ensures Opened(StatsBlocks(streams, logo)) == []
  {
    var stats := Stats(streams);
    SpansOnePerServer(stats, true);
    SpansOnePerServer(stats, false);
    OpenedNone(StatsBlocks(streams, logo));
  }

  /**
   * The document has the "Usuarios Transcodificando" section exactly when
   * some session is transcoding, with one card per entry of the list.
   */
  lemma TranscodingSectionIff(streams: seq<ServerStreams>, logo: Option<string>)
    ensures TranscodingOpen in StreamsDocument(streams, logo) <==> TotalTranscoding(streams) > 0
    ensures |TranscodingSection(TranscodingStreams(streams))| ==
              if TotalTranscoding(streams) > 0 then TotalTranscoding(streams) + 2 else 0
  {
    var found := TranscodingStreams(streams);
    TranscodingListMatchesTotal(streams);
    TranscodingCardsOnePerEntry(found);
    SectionsHoldNoTranscodingOpen(streams);
    StatsBlocksPlain(streams, logo);
    if found != [] {
      assert TranscodingSection(found)[0] == TranscodingOpen;
    }
  }

  /** The transcoding section and the footer open no server section. */
  lemma TailOpensNothing(found: seq<TranscodingStream>)
    ensures Opened(TranscodingSection(found) + [Footer]) == []
  {
    TranscodingCardsOnePerEntry(found);
    OpenedNone(TranscodingSection(found) + [Footer]);
  }

  /** The whole document opens one section per server, in `streams_data` order. */
  lemma DocumentSectionsFollowServers(streams: seq<ServerStreams>, logo: Option<string>)
    ensures Opened(StreamsDocument(streams, logo)) == Names(streams)
  {
    var head, tail := StatsBlocks(streams, logo), TranscodingSection(TranscodingStreams(streams)) + [Footer];
    calc {
      Opened(StreamsDocument(streams, logo));
      { assert StreamsDocument(streams, logo) == head + Sections(streams) + tail; }
      Opened(head + Sections(streams) + tail);
      { OpenedAppend(head + Sections(streams), tail); }
      Opened(head + Sections(streams)) + Opened(tail);
      { OpenedAppend(head, Sections(streams)); }
      Opened(head) + Opened(Sections(streams)) + Opened(tail);
      { StatsBlocksPlain(streams, logo); TailOpensNothing(TranscodingStreams(streams)); }
      Opened(Sections(streams));
      { OneSectionPerServer(streams); }
      Names(streams);
    }
  }
}
