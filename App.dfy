/** The key-driven `App` view: its state, the event filter, the key table and
    the row builders. */
module App {
  import opened Prelude
  import opened Spotify
  import opened Tui
  import opened Display

  /** A snapshot of every field of `App`. */
  datatype AppState = AppState(
    running: bool,
    topTracks: seq<TrackEntry>,
    topArtists: seq<ArtistEntry>,
    username: string,
    resultLimit: u8,
    timeRange: TimeRange,
    verticalScrollState: ScrollbarState,
    verticalScroll: usize)

  /** What a key press does, by the table of `on_key_event`. */
  datatype KeyAction = QuitKey | ScrollKey | OtherKey

  /** The arms of `on_key_event`, tried in order: Esc or `q` with any
      modifiers, or `c`/`C` with exactly Control, quit; `j` or Down scroll. */
  function ActionOf(key: KeyEvent): KeyAction
  {
    if key.code == Esc || key.code == Char('q') then QuitKey
    else if key.modifiers == {Control} && (key.code == Char('c') || key.code == Char('C')) then QuitKey
    else if key.code == Char('j') || key.code == Down then ScrollKey
    else OtherKey
  }

  /** The state after `on_key_event(key)`. */
  function OnKey(s: AppState, key: KeyEvent): (t: AppState)
    ensures t.topTracks == s.topTracks && t.topArtists == s.topArtists
    ensures t.username == s.username && t.resultLimit == s.resultLimit && t.timeRange == s.timeRange
    ensures t.verticalScroll >= s.verticalScroll
    ensures t.running ==> s.running
    ensures ScrollSynced(s) ==> ScrollSynced(t)
  {
    match ActionOf(key)
    case QuitKey => s.(running := false)
    case ScrollKey =>
      var v := SaturatingAdd(s.verticalScroll, 1);
      s.(verticalScroll := v, verticalScrollState := s.verticalScrollState.WithPosition(v))
    case OtherKey => s
  }

  /** The state after `handle_crossterm_events` has read `ev`: only key
      presses reach the key table. */
  function OnEvent(s: AppState, ev: Event): (t: AppState)
    ensures !(ev.Key? && ev.key.kind == Press) ==> t == s
    ensures t.topTracks == s.topTracks && t.topArtists == s.topArtists
    ensures t.username == s.username && t.resultLimit == s.resultLimit && t.timeRange == s.timeRange
    ensures t.verticalScroll >= s.verticalScroll
    ensures t.running ==> s.running
    ensures ScrollSynced(s) ==> ScrollSynced(t)
  {
    match ev
    case Key(key) => if key.kind == Press then OnKey(s, key) else s
    case _ => s
  }

  /** The state after a run of events handled one after another. */
  function OnEvents(s: AppState, events: seq<Event>): AppState
    decreases |events|
  {
    if events == [] then s else OnEvents(OnEvent(s, events[0]), events[1..])
  }

  /** The number of events in `events` that are presses of a scroll key. */
  function ScrollPresses(events: seq<Event>): nat
    decreases |events|
  {
    if events == [] then 0
    else
      var hit := events[0].Key? && events[0].key.kind == Press && ActionOf(events[0].key) == ScrollKey;
      (if hit then 1 else 0) + ScrollPresses(events[1..])
  }

  /** The scrollbar shows the scroll offset. */
  predicate ScrollSynced(s: AppState)
  {
    s.verticalScrollState.position == s.verticalScroll
  }

  class App {
    var running: bool
    var topTracks: seq<TrackEntry>
    var topArtists: seq<ArtistEntry>
    var username: string
    var resultLimit: u8
    var timeRange: TimeRange
    var verticalScrollState: ScrollbarState
    var verticalScroll: usize

    function State(): AppState
      reads this
    {
      AppState(running, topTracks, topArtists, username, resultLimit, timeRange,
               verticalScrollState, verticalScroll)
    }

    /** `App::new`: not yet running, no results, limit 10, short term, top of
        the list. */
    constructor ()
      ensures !running && topTracks == [] && topArtists == [] && username == ""
      ensures resultLimit == 10 && timeRange == ShortTerm
      ensures verticalScrollState == DefaultScrollbar && verticalScroll == 0
      ensures ScrollSynced(State())
    {
      running := false;
      topTracks := [];
      topArtists := [];
      username := "";
      resultLimit := 10;
      timeRange := ShortTerm;
      verticalScrollState := DefaultScrollbar;
      verticalScroll := 0;
    }

    /** `handle_crossterm_events` for an event already read. */
    method HandleCrosstermEvents(ev: Event)
      modifies this
      ensures State() == OnEvent(old(State()), ev)
    {
      match ev {
        case Key(key) =>
          if key.kind == Press {
            OnKeyEvent(key);
          }
        case Mouse =>
        case Resize(_, _) =>
        case _ =>
      }
    }

    /** `on_key_event`. */
    method OnKeyEvent(key: KeyEvent)
      modifies this
      ensures State() == OnKey(old(State()), key)
    {
      if key.code == Esc || key.code == Char('q')
         || (key.modifiers == {Control} && (key.code == Char('c') || key.code == Char('C'))) {
        Quit();
      } else if key.code == Char('j') || key.code == Down {
        verticalScroll := SaturatingAdd(verticalScroll, 1);
        verticalScrollState := verticalScrollState.WithPosition(verticalScroll);
      }
    }

    /** `quit`: stop the main loop, touch nothing else. */
    method Quit()
      modifies this
      ensures State() == old(State()).(running := false)
    {
      running := false;
    }

    /** `parse_top_tracks_output`: one line per track, in order. */
    method ParseTopTracksOutput() returns (lines: seq<string>)
      ensures lines == TrackLines(topTracks)
    {
      lines := [];
      for i := 0 to |topTracks|
        invariant |lines| == i
        invariant forall j :: 0 <= j < i ==> lines[j] == TrackLine(topTracks[j])
      {
        var track := topTracks[i];
        var row := NatToString(track.index) + " - " + track.trackName + " by "
                   + Join(track.artists, ", ") + " (" + track.duration + ")";
        lines := lines + [row];
      }
    }

    /** `parse_top_artists_output`: one line per artist, in order. */
    method ParseTopArtistsOutput() returns (lines: seq<string>)
      ensures lines == ArtistLines(topArtists)
    {
      lines := [];
      for i := 0 to |topArtists|
        invariant |lines| == i
        invariant forall j :: 0 <= j < i ==> lines[j] == ArtistLine(topArtists[j])
      {
        var artist := topArtists[i];
        var row := NatToString(artist.index) + " - " + artist.artistName + " " + "(" + artist.genres + ")";
        lines := lines + [row];
      }
    }
  }

  // ---------------------------------------------------------------------------
  // Properties of the key handler

  /** Esc and `q` quit whatever modifiers are held. */
  lemma EscAndQQuitWithAnyModifiers(code: KeyCode, mods: set<Modifier>, kind: KeyEventKind)
    requires code == Esc || code == Char('q')
    ensures ActionOf(KeyEvent(code, mods, kind)) == QuitKey
  {
  }

  /** `c` or `C` quits exactly when the only modifier held is Control. */
  lemma CtrlCNeedsExactlyControl(key: KeyEvent)
    requires key.code == Char('c') || key.code == Char('C')
    ensures ActionOf(key) == QuitKey <==> key.modifiers == {Control}
  {
  }

  /** A quitting key clears `running` and changes nothing else. */
  lemma QuitKeyOnlyStops(s: AppState, key: KeyEvent)
    requires ActionOf(key) == QuitKey
    ensures !OnKey(s, key).running
    ensures OnKey(s, key) == s.(running := false)
  {
  }

  /** A scroll key moves one row down (saturating) and keeps the scrollbar in
      step; nothing else changes. */
  lemma ScrollKeyMovesDown(s: AppState, key: KeyEvent)
    requires ActionOf(key) == ScrollKey
    ensures OnKey(s, key).verticalScroll == Min(s.verticalScroll + 1, USIZE_MAX)
    ensures ScrollSynced(OnKey(s, key))
    ensures OnKey(s, key).(verticalScroll := s.verticalScroll,
                           verticalScrollState := s.verticalScrollState) == s
  {
  }

  /** Every key not in the table leaves the state as it is. */
  lemma OtherKeysIgnored(s: AppState, key: KeyEvent)
    requires ActionOf(key) == OtherKey
    ensures OnKey(s, key) == s
  {
  }

  /** Only key presses act: releases, repeats, mouse, resize, focus and paste
      events leave the state as it is. */
  lemma OnlyPressesAct(s: AppState, ev: Event)
    requires !(ev.Key? && ev.key.kind == Press)
    ensures OnEvent(s, ev) == s
  {
  }

  /** Over any run of events the offset is the start plus the scroll presses,
      capped at the `usize` maximum. */
  lemma {:induction false} ScrollCountsPresses(s: AppState, events: seq<Event>)
    ensures OnEvents(s, events).verticalScroll == Min(s.verticalScroll + ScrollPresses(events), USIZE_MAX)
    decreases |events|
  {
    if events != [] {
      ScrollCountsPresses(OnEvent(s, events[0]), events[1..]);
    }
  }

  /** There is no scroll-up key: the offset never decreases. */
  lemma ScrollNeverDecreases(s: AppState, events: seq<Event>)
    ensures OnEvents(s, events).verticalScroll >= s.verticalScroll
  {
    ScrollCountsPresses(s, events);
  }

  /** Events change only `running` and the scroll fields; the lists, the user
      name, the limit and the window stay, and the scrollbar stays in step. */
  lemma {:induction false} EventsKeepData(s: AppState, events: seq<Event>)
    ensures var t := OnEvents(s, events);
      && t.topTracks == s.topTracks && t.topArtists == s.topArtists
      && t.username == s.username && t.resultLimit == s.resultLimit
      && t.timeRange == s.timeRange
      && (ScrollSynced(s) ==> ScrollSynced(t))
    decreases |events|
  {
    if events != [] {
      EventsKeepData(OnEvent(s, events[0]), events[1..]);
    }
  }

  /** No event sets `running` again: once stopped, the app stays stopped. */
  lemma {:induction false} StoppedStaysStopped(s: AppState, events: seq<Event>)
    requires !s.running
    ensures !OnEvents(s, events).running
    decreases |events|
  {
    if events != [] {
      StoppedStaysStopped(OnEvent(s, events[0]), events[1..]);
    }
  }
}
