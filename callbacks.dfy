/**
 * The callback data of the bot's inline buttons (bot.py): how `show_servers`
 * and `show_server_options` build `prefix_index` tokens, how `button` parses
 * them back with `int(data.split('_')[1])` and indexes `PLEX_SERVERS`, and
 * what screen each piece of data leads to.
 */
module Callbacks {
  import opened Outcomes
  import opened Text
  import opened Plex

  /** An inline button: its caption and its callback data. */
  datatype Button = Button(caption: string, data: string)

  /** The per-server actions reached by a `prefix_index` token. */
  datatype Action = Options | Update | Playing | Status | Stats

  /** Why `button` ended in its error menu. */
  datatype Failure =
    | IndexOutOfRange          // IndexError from PLEX_SERVERS[i]: "list index out of range"
    | NotAnInteger(segment: string)   // ValueError from int(segment)

  /** The screen a callback leads to. */
  datatype Screen =
    | MainMenu
    | ServerList
    | CurrentStreamsScreen
    | TranscodingScreen
    | Help
    | ServerScreen(action: Action, server: Server)
    | ErrorMenu(failure: Failure)    // "Lo siento, ha ocurrido un error: …" with a main-menu button
    | Unhandled                       // data no branch of `button` matches: nothing is shown

  const ViewServers := "view_servers"
  const CurrentStreamsData := "current_streams"
  const TranscodingUsers := "transcoding_users"
  const HelpData := "help"
  const MainMenuData := "main_menu"

  function Prefix(a: Action): (p: string)
    ensures '_' !in p && |p| > 0
  {
    match a
    case Options => "server"
    case Update => "update"
    case Playing => "playing"
    case Status => "status"
    case Stats => "stats"
  }

  /** `f"{prefix}_{i}"`: the prefix, the separator, then digits that read back as the index. */
  function Token(a: Action, i: nat): (t: string)
    ensures |t| > |Prefix(a)| + 1 && t[..|Prefix(a)| + 1] == Prefix(a) + "_"
    ensures t[|Prefix(a)| + 1..] != [] && AllDigits(t[|Prefix(a)| + 1..])
  {
    Prefix(a) + "_" + NatToString(i)
  }

  /** `str.startswith`. */
  predicate StartsWith(s: string, p: string)
  {
    |p| <= |s| && s[..|p|] == p
  }

  /** `servers[i]` on a Python list: negative indexes count from the end. */
  function Select(servers: seq<Server>, i: int): (r: Option<Server>)
    ensures r.Some? <==> -|servers| <= i < |servers|
    ensures 0 <= i < |servers| ==> r == Some(servers[i])
    ensures -|servers| <= i < 0 ==> r == Some(servers[|servers| + i])
  {
    if 0 <= i < |servers| then Some(servers[i])
    else if -|servers| <= i < 0 then Some(servers[|servers| + i])
    else None
  }

  /** The branch for a `prefix_` token: parse the index, then select the server. */
  function Indexed(a: Action, data: string, servers: seq<Server>): Screen
    requires StartsWith(data, Prefix(a) + "_")
  {
    var parts := Split(data, '_');
    if |parts| < 2 then Unhandled   // never: the data holds the separator (PrefixedNeverUnhandled)
    else Lookup(a, parts[1], servers)
  }

  /** `PLEX_SERVERS[int(segment)]`, then the action's screen for that server. */
  function Lookup(a: Action, segment: string, servers: seq<Server>): (r: Screen)
    ensures r.ServerScreen? || r.ErrorMenu?
    ensures r.ServerScreen? ==> r.action == a && r.server in servers
    ensures ParseInt(segment).Some? && Select(servers, ParseInt(segment).value).Some? ==>
              r == ServerScreen(a, Select(servers, ParseInt(segment).value).value)
    ensures r == ErrorMenu(NotAnInteger(segment)) <==> ParseInt(segment).None?
    ensures r == ErrorMenu(IndexOutOfRange) <==>
              ParseInt(segment).Some? && !(-|servers| <= ParseInt(segment).value < |servers|)
  {
    match ParseInt(segment)
    case None => ErrorMenu(NotAnInteger(segment))
    case Some(i) =>
      match Select(servers, i)
      case None => ErrorMenu(IndexOutOfRange)
      case Some(server) => ServerScreen(a, server)
  }

  /** Which branch of `button` a piece of data takes. */
  datatype Branch =
    | Fixed(screen: Screen)     // an `==` test on the whole data
    | Prefixed(action: Action)  // a `startswith` test: the data carries a server index
    | NoBranch

  /** The `if`/`elif` chain of `button`, in its order. */
  function Route(data: string): (b: Branch)
    ensures b.Prefixed? ==> StartsWith(data, Prefix(b.action) + "_")
    ensures b.Fixed? ==> b.screen in {ServerList, CurrentStreamsScreen, Help, MainMenu, TranscodingScreen}
  {
    if data == ViewServers then Fixed(ServerList)
    else if data == CurrentStreamsData then Fixed(CurrentStreamsScreen)
    else if StartsWith(data, "server_") then Prefixed(Options)
    else if StartsWith(data, "update_") then Prefixed(Update)
    else if StartsWith(data, "playing_") then Prefixed(Playing)
    else if StartsWith(data, "status_") then Prefixed(Status)
    else if StartsWith(data, "stats_") then Prefixed(Stats)
    else if data == HelpData then Fixed(Help)
    else if data == MainMenuData then Fixed(MainMenu)
    else if data == TranscodingUsers then Fixed(TranscodingScreen)
    else NoBranch
  }

  /** What `button` shows for a piece of data. */
  function Dispatch(data: string, servers: seq<Server>): (r: Screen)
    ensures r.ServerScreen? ==> r.server in servers && Route(data) == Prefixed(r.action)
    ensures r.ErrorMenu? ==> Route(data).Prefixed?
    ensures Route(data) == NoBranch ==> r == Unhandled
  {
    match Route(data)
    case Fixed(screen) => screen
    case Prefixed(a) => Indexed(a, data, servers)
    case NoBranch => Unhandled
  }

  // ---------------------------------------------------------------------
  // Keyboards

  /** `PLEX_SERVERS.index(server)`: the first position of an equal entry. */
  function IndexOf(servers: seq<Server>, server: Server): (i: nat)
    requires server in servers
    ensures i < |servers| && servers[i] == server
    ensures forall k :: 0 <= k < i ==> servers[k] != server
  {
    if servers[0] == server then 0
    else
      assert server in servers[1..] by {
        var k :| 0 <= k < |servers| && servers[k] == server;
        assert servers[1..][k - 1] == server;
      }
      1 + IndexOf(servers[1..], server)
  }

  function MainMenuKeyboard(): seq<Button>
  {
    [Button("🖥️ Ver servidores", ViewServers),
     Button("🎬 Streams actuales", CurrentStreamsData),
     Button("🔄 Usuarios transcodificando", TranscodingUsers),
     Button("ℹ️ Obtener Ayuda", HelpData)]
  }

  /** One button per configured server, then the way back. */
  function ServersKeyboard(servers: seq<Server>): (keys: seq<Button>)
    ensures |keys| == |servers| + 1
  {
    seq(|servers|, i requires 0 <= i < |servers| => Button("🏙️ Servidor " + servers[i].name, Token(Options, i)))
      + [Button("🔙 Volver al Menú Principal", MainMenuData)]
  }

  function OptionsKeyboard(servers: seq<Server>, server: Server): (keys: seq<Button>)
    requires server in servers
    ensures |keys| == 6
    ensures keys[4].data == ViewServers && keys[5].data == MainMenuData
  {
    var i := IndexOf(servers, server);
    [Button("🔄 Actualizar bibliotecas", Token(Update, i)),
     Button("👀 Ver reproducciones", Token(Playing, i)),
     Button("📊 Ver estado del servidor", Token(Status, i)),
     Button("📚 Ver bibliotecas del servidor", Token(Stats, i)),
     Button("🔙 Volver a Servidores", ViewServers),
     Button("🏠 Volver al Menú Principal", MainMenuData)]
  }

  /**
   * The buttons under the result of `update_libraries`, `view_playing`,
   * `show_server_status` and `show_library_stats`.
   */
  function BackToOptionsKeyboard(servers: seq<Server>, server: Server): seq<Button>
    requires server in servers
  {
    [Button("🔙 Volver a Opciones del Servidor", Token(Options, IndexOf(servers, server))),
     Button("🏠 Volver al Menú Principal", MainMenuData)]
  }

  /** The only button of the error menu and of the reports. */
  function ErrorKeyboard(): seq<Button>
  {
    [Button("🏠 Volver al Menú Principal", MainMenuData)]
  }

  // ---------------------------------------------------------------------
  // What the scheme promises

  /** A token splits into its prefix and its digits, and the digits read back as the index. */
  lemma TokenParses(a: Action, i: nat)
    ensures StartsWith(Token(a, i), Prefix(a) + "_")
    ensures Split(Token(a, i), '_') == [Prefix(a), NatToString(i)]
    ensures ParseInt(NatToString(i)) == Some(i)
  {
    var p, digits := Prefix(a), NatToString(i);
    assert Token(a, i) == Join([p, digits], '_');
    assert forall k :: 0 <= k < |digits| ==> IsDigit(digits[k]);
    SplitJoin([p, digits], '_');
    ParseRendered(i);
  }

  /** Two strings differ where one character differs. */
  lemma DifferAt(s: string, t: string, k: nat)
    requires k < |s| && k < |t| && s[k] != t[k]
    ensures s != t && !StartsWith(s, t) && !StartsWith(t, s)
  {
  }

  /**
   * Data that starts with an action's prefix fails every test `button` makes
   * before that action's test, each on some character.
   */
  lemma EarlierTestsFail(a: Action, data: string)
    requires StartsWith(data, Prefix(a) + "_")
    ensures data != ViewServers && data != CurrentStreamsData
    ensures a != Options ==> !StartsWith(data, "server_")
    ensures a != Options && a != Update ==> !StartsWith(data, "update_")
    ensures a == Status || a == Stats ==> !StartsWith(data, "playing_")
    ensures a == Stats ==> !StartsWith(data, "status_")
  {
    var p := Prefix(a) + "_";
    assert data[0] == p[0] && data[1] == p[1] && data[4] == p[4] by {
      assert data[..|p|] == p;
    }
    DifferAt(data, ViewServers, 0);
    DifferAt(data, CurrentStreamsData, 0);
    if a != Options {
      DifferAt(data, "server_", if a == Update || a == Playing then 0 else 1);
      if a != Update {
        DifferAt(data, "update_", 0);
        if a != Playing {
          DifferAt(data, "playing_", 0);
          if a == Stats {
            DifferAt(data, "status_", 4);
          }
        }
      }
    }
  }

  /** Data that starts with an action's prefix reaches that action's branch. */
  lemma PrefixReachesItsBranch(a: Action, data: string, servers: seq<Server>)
    requires StartsWith(data, Prefix(a) + "_")
    ensures Dispatch(data, servers) == Indexed(a, data, servers)
  {
    EarlierTestsFail(a, data);
    assert Route(data) == Prefixed(a);
  }

  /** The data of a `prefix_` branch holds the separator, so it is always looked up. */
  lemma PrefixedNeverUnhandled(a: Action, data: string, servers: seq<Server>)
    requires StartsWith(data, Prefix(a) + "_")
    ensures |Split(data, '_')| >= 2 && Indexed(a, data, servers) == Lookup(a, Split(data, '_')[1], servers)
  {
    assert data[|Prefix(a)|] == (Prefix(a) + "_")[|Prefix(a)|];
  }

  /** `button` shows nothing exactly when no branch of its chain matches the data. */
  lemma UnhandledExactlyWithoutBranch(data: string, servers: seq<Server>)
    ensures Dispatch(data, servers) == Unhandled <==> Route(data) == NoBranch
  {
    if Route(data).Prefixed? {
      PrefixedNeverUnhandled(Route(data).action, data, servers);
    }
  }

  /** A built token reaches its own branch. */
  lemma TokenReachesItsBranch(a: Action, i: nat, servers: seq<Server>)
    ensures Dispatch(Token(a, i), servers) == Indexed(a, Token(a, i), servers)
  {
    TokenParses(a, i);
    PrefixReachesItsBranch(a, Token(a, i), servers);
  }

  /** Every token built for an index in range leads back to the server at that index. */
  lemma TokenRoundTrip(a: Action, i: nat, servers: seq<Server>)
    requires i < |servers|
    ensures Dispatch(Token(a, i), servers) == ServerScreen(a, servers[i])
  {
    TokenParses(a, i);
    TokenReachesItsBranch(a, i, servers);
  }

  /** An index past the end of the list ends in the error menu. */
  lemma TokenOutOfRange(a: Action, i: nat, servers: seq<Server>)
    requires i >= |servers|
    ensures Dispatch(Token(a, i), servers) == ErrorMenu(IndexOutOfRange)
  {
    TokenParses(a, i);
    TokenReachesItsBranch(a, i, servers);
  }

  /** The i-th button of the server list opens the options of the i-th server. */
  lemma ServerButtonRoundTrip(servers: seq<Server>, i: nat)
    requires i < |servers|
    ensures Dispatch(ServersKeyboard(servers)[i].data, servers) == ServerScreen(Options, servers[i])
  {
    TokenRoundTrip(Options, i, servers);
  }

  /** The four action buttons of a server's options act on that same server. */
  lemma OptionButtonsRoundTrip(servers: seq<Server>, server: Server, k: nat)
    requires server in servers && k < 4
    ensures var b := OptionsKeyboard(servers, server)[k];
            var a := [Update, Playing, Status, Stats][k];
            Dispatch(b.data, servers) == ServerScreen(a, server)
  {
    var i := IndexOf(servers, server);
    var a := [Update, Playing, Status, Stats][k];
    var keys := OptionsKeyboard(servers, server);
    assert keys[k].data == Token(a, i);
    TokenRoundTrip(a, i, servers);
  }

  /** The data of the fixed buttons reaches the screen it names. */
  lemma FixedDataDispatch(servers: seq<Server>)
    ensures Dispatch(ViewServers, servers) == ServerList
    ensures Dispatch(CurrentStreamsData, servers) == CurrentStreamsScreen
    ensures Dispatch(HelpData, servers) == Help
    ensures Dispatch(MainMenuData, servers) == MainMenu
    ensures Dispatch(TranscodingUsers, servers) == TranscodingScreen
  {
    DifferAt(CurrentStreamsData, ViewServers, 0);
    DifferAt(HelpData, ViewServers, 0);
    DifferAt(HelpData, CurrentStreamsData, 0);
    DifferAt(HelpData, "server_", 0);
    DifferAt(HelpData, "update_", 0);
    DifferAt(HelpData, "playing_", 0);
    DifferAt(HelpData, "status_", 0);
    DifferAt(HelpData, "stats_", 0);
    DifferAt(MainMenuData, ViewServers, 0);
    DifferAt(MainMenuData, CurrentStreamsData, 0);
    DifferAt(MainMenuData, "server_", 0);
    DifferAt(MainMenuData, "update_", 0);
    DifferAt(MainMenuData, "playing_", 0);
    DifferAt(MainMenuData, "status_", 0);
    DifferAt(MainMenuData, "stats_", 0);
    DifferAt(MainMenuData, HelpData, 0);
    DifferAt(TranscodingUsers, ViewServers, 0);
    DifferAt(TranscodingUsers, CurrentStreamsData, 0);
    DifferAt(TranscodingUsers, "server_", 0);
    DifferAt(TranscodingUsers, "update_", 0);
    DifferAt(TranscodingUsers, "playing_", 0);
    DifferAt(TranscodingUsers, "status_", 0);
    DifferAt(TranscodingUsers, "stats_", 0);
    DifferAt(TranscodingUsers, HelpData, 0);
    DifferAt(TranscodingUsers, MainMenuData, 0);
  }

  /** The way back from a result screen leads to the same server's options. */
  lemma BackToOptionsRoundTrip(servers: seq<Server>, server: Server)
    requires server in servers
    ensures Dispatch(BackToOptionsKeyboard(servers, server)[0].data, servers) == ServerScreen(Options, server)
    ensures Dispatch(BackToOptionsKeyboard(servers, server)[1].data, servers) == MainMenu
  {
    TokenRoundTrip(Options, IndexOf(servers, server), servers);
    FixedDataDispatch(servers);
  }

  /** Every fixed button is handled: the menus and the error menu lead to real screens. */
  lemma FixedButtonsHandled(servers: seq<Server>)
    ensures forall b :: b in MainMenuKeyboard() ==> Dispatch(b.data, servers) != Unhandled
    ensures Dispatch(ErrorKeyboard()[0].data, servers) == MainMenu
    ensures Dispatch(ServersKeyboard(servers)[|servers|].data, servers) == MainMenu
  {
    FixedDataDispatch(servers);
    var keys := MainMenuKeyboard();
    forall b | b in keys
      ensures Dispatch(b.data, servers) != Unhandled
    {
      assert b.data in {ViewServers, CurrentStreamsData, TranscodingUsers, HelpData};
    }
  }

  /** `int("-1")` is -1. */
  lemma ParseMinusOne()
    ensures ParseInt("-1") == Some(-1)
  {
    ParsePlain("-1");
    assert ParseStripped("-1") == Some(-1) by {
      assert "-1"[1..] == "1";
      assert "1"[..0] == [];
    }
  }

  /** `int("x")` raises ValueError. */
  lemma ParseLetter()
    ensures ParseInt("x") == None
  {
    ParsePlain("x");
    assert ParseStripped("x") == None by {
      assert !IsDigit("x"[0]);
    }
  }

  /** Data with an action's prefix and one more segment is looked up by that segment. */
  lemma PrefixedLookup(a: Action, data: string, segment: string, servers: seq<Server>)
    requires StartsWith(data, Prefix(a) + "_")
    requires Split(data, '_') == [Prefix(a), segment]
    ensures Dispatch(data, servers) == Lookup(a, segment, servers)
  {
    PrefixReachesItsBranch(a, data, servers);
  }

  /** `server_-1` selects the last server, as Python's negative indexing does. */
  lemma NegativeIndexWraps(servers: seq<Server>)
    requires servers != []
    ensures Dispatch("server_-1", servers) == ServerScreen(Options, servers[|servers| - 1])
  {
    assert StartsWith("server_-1", Prefix(Options) + "_");
    assert Split("server_-1", '_') == ["server", "-1"] by {
      assert Join(["server", "-1"], '_') == "server_-1";
      SplitJoin(["server", "-1"], '_');
    }
    PrefixedLookup(Options, "server_-1", "-1", servers);
    ParseMinusOne();
  }

  /** A segment that is not a number ends in the error menu, naming the segment. */
  lemma NonNumericIndex(servers: seq<Server>)
    ensures Dispatch("stats_x", servers) == ErrorMenu(NotAnInteger("x"))
  {
    assert StartsWith("stats_x", Prefix(Stats) + "_");
    assert Split("stats_x", '_') == ["stats", "x"] by {
      assert Join(["stats", "x"], '_') == "stats_x";
      SplitJoin(["stats", "x"], '_');
    }
    PrefixedLookup(Stats, "stats_x", "x", servers);
    ParseLetter();
  }
}
