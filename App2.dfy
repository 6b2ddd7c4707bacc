/** The message-driven view model: `Model`, the messages it reacts to, and
    `update`. */
module App2 {
  import opened Prelude
  import opened Spotify
  import opened Tui
  import opened Display

  datatype RunningState = Running | Done

  datatype Message = ScrollUp | ScrollDown | ChangeTimeRange | Quit

  /** A snapshot of every field of `Model` (the session handle aside). */
  datatype ModelState = ModelState(
    runningState: RunningState,
    timeRange: TimeRange,
    displayName: string,
    limit: usize,
    topTracks: seq<TrackEntry>,
    topArtists: seq<ArtistEntry>,
    scrollbarState: ScrollbarState,
    scrollPosition: usize)

  /** The window `ChangeTimeRange` moves to: short, medium, long, and round. */
  function NextTimeRange(t: TimeRange): TimeRange
  {
    match t
    case LongTerm => ShortTerm
    case MediumTerm => LongTerm
    case ShortTerm => MediumTerm
  }

  /** The state `update(model, msg)` leaves behind. It never consults
      `runningState`. */
  function Step(s: ModelState, msg: Message): (t: ModelState)
    ensures t.limit == s.limit && t.displayName == s.displayName
    ensures t.topTracks == s.topTracks && t.topArtists == s.topArtists
    ensures msg != Quit ==> t.runningState == s.runningState
    ensures ScrollSynced(s) ==> ScrollSynced(t)
  {
    match msg
    case ScrollDown =>
      var p := SaturatingAdd(s.scrollPosition, 1);
      s.(scrollPosition := p, scrollbarState := s.scrollbarState.WithPosition(p))
    case ScrollUp =>
      var p := SaturatingSub(s.scrollPosition, 1);
      s.(scrollPosition := p, scrollbarState := s.scrollbarState.WithPosition(p))
    case Quit => s.(runningState := Done)
    case ChangeTimeRange => s.(timeRange := NextTimeRange(s.timeRange))
  }

  /** Messages applied one after another. */
  function Steps(s: ModelState, msgs: seq<Message>): ModelState
    decreases |msgs|
  {
    if msgs == [] then s else Steps(Step(s, msgs[0]), msgs[1..])
  }

  /** The scrollbar shows the scroll offset. */
  predicate ScrollSynced(s: ModelState)
  {
    s.scrollbarState.position == s.scrollPosition
  }

  class Model {
    var runningState: RunningState
    var timeRange: TimeRange
    var displayName: string
    var limit: usize
    var topTracks: seq<TrackEntry>
    var topArtists: seq<ArtistEntry>
    var scrollbarState: ScrollbarState
    var scrollPosition: usize

    function State(): ModelState
      reads this
    {
      ModelState(runningState, timeRange, displayName, limit, topTracks, topArtists,
                 scrollbarState, scrollPosition)
    }

    /** `Model::new`: running, short term, display name "None", limit 10, no
        results, top of the list. */
    constructor ()
      ensures runningState == Running && timeRange == ShortTerm
      ensures displayName == "None" && limit == 10
      ensures topTracks == [] && topArtists == []
      ensures scrollbarState == DefaultScrollbar && scrollPosition == 0
      ensures ScrollSynced(State())
    {
      runningState := Running;
      displayName := "None";
      limit := 10;
      scrollbarState := DefaultScrollbar;
      scrollPosition := 0;
      topTracks := [];
      topArtists := [];
      timeRange := ShortTerm;
    }

    /** `parse_top_artists_output`: one line per artist, in order. */
    method ParseTopArtistsOutput() returns (lines: seq<string>)
      ensures lines == ArtistLines(topArtists)
    {
      lines := [];
      for i := 0 to |topArtists|
        invariant |lines| == i
        invariant forall j :: 0 <= j < i ==> lines[j] == ArtistLine(topArtists[j])
      {
        var artist := topArtists[i];
        var row := NatToString(artist.index) + " - " + artist.artistName + " " + "(" + artist.genres + ")";
        lines := lines + [row];
      }
    }

    /** `show_time_range`: the title of the current window. */
    function ShowTimeRange(): (title: string)
      reads this
      ensures title == TimeRangeTitle(timeRange)
    {
      match timeRange
      case ShortTerm => "Short Term"
      case MediumTerm => "Medium Term"
      case LongTerm => "Long Term"
    }
  }

  /** `update`: apply one message in place; no follow-up message is produced. */
  method Update(model: Model, msg: Message) returns (next: Option<Message>)
    modifies model
    ensures model.State() == Step(old(model.State()), msg)
    ensures next == None
  {
    match msg {
      case ScrollDown =>
        model.scrollPosition := SaturatingAdd(model.scrollPosition, 1);
        model.scrollbarState := model.scrollbarState.WithPosition(model.scrollPosition);
      case ScrollUp =>
        model.scrollPosition := SaturatingSub(model.scrollPosition, 1);
        model.scrollbarState := model.scrollbarState.WithPosition(model.scrollPosition);
      case Quit =>
        model.runningState := Done;
      case ChangeTimeRange =>
        match model.timeRange {
          case LongTerm => model.timeRange := ShortTerm;
          case MediumTerm => model.timeRange := LongTerm;
          case ShortTerm => model.timeRange := MediumTerm;
        }
    }
    next := None;
  }

  // ---------------------------------------------------------------------------
  // Properties of update

  /** ScrollDown moves one row down, saturating at the `usize` maximum, puts
      the scrollbar at the new offset, and changes nothing else. */
  lemma ScrollDownSaturates(s: ModelState)
    ensures Step(s, ScrollDown).scrollPosition == Min(s.scrollPosition + 1, USIZE_MAX)
    ensures Step(s, ScrollDown).scrollbarState.position == Step(s, ScrollDown).scrollPosition
    ensures Step(s, ScrollDown).(scrollPosition := s.scrollPosition, scrollbarState := s.scrollbarState) == s
  {
  }

  /** ScrollUp moves one row up, stays at 0 at the top, puts the scrollbar at
      the new offset, and changes nothing else. */
  lemma ScrollUpSaturates(s: ModelState)
    ensures Step(s, ScrollUp).scrollPosition == if s.scrollPosition == 0 then 0 else s.scrollPosition - 1
    ensures Step(s, ScrollUp).scrollbarState.position == Step(s, ScrollUp).scrollPosition
    ensures Step(s, ScrollUp).(scrollPosition := s.scrollPosition, scrollbarState := s.scrollbarState) == s
  {
  }

  /** Below the maximum, ScrollDown then ScrollUp returns to the same model
      when the scrollbar was in step. */
  lemma ScrollDownThenUp(s: ModelState)
    requires s.scrollPosition < USIZE_MAX && ScrollSynced(s)
    ensures Steps(s, [ScrollDown, ScrollUp]) == s
  {
    assert [ScrollDown, ScrollUp][1..] == [ScrollUp];
    assert s.scrollbarState.WithPosition(s.scrollPosition) == s.scrollbarState;
  }

  /** Away from the top, ScrollUp then ScrollDown returns to the same model. */
  lemma ScrollUpThenDown(s: ModelState)
    requires 0 < s.scrollPosition && ScrollSynced(s)
    ensures Steps(s, [ScrollUp, ScrollDown]) == s
  {
    assert [ScrollUp, ScrollDown][1..] == [ScrollDown];
    assert s.scrollbarState.WithPosition(s.scrollPosition) == s.scrollbarState;
  }

  /** The window cycles short, medium, long and back with period three; a
      change touches nothing but the window. */
  lemma TimeRangeCycle(s: ModelState)
    ensures Step(s.(timeRange := ShortTerm), ChangeTimeRange).timeRange == MediumTerm
    ensures Step(s.(timeRange := MediumTerm), ChangeTimeRange).timeRange == LongTerm
    ensures Step(s.(timeRange := LongTerm), ChangeTimeRange).timeRange == ShortTerm
    ensures Step(s, ChangeTimeRange).(timeRange := s.timeRange) == s
    ensures Steps(s, [ChangeTimeRange, ChangeTimeRange, ChangeTimeRange]) == s
  {
    var m := [ChangeTimeRange, ChangeTimeRange, ChangeTimeRange];
    assert m[1..] == [ChangeTimeRange, ChangeTimeRange];
    assert m[1..][1..] == [ChangeTimeRange];
  }

  /** Quit sets Done and changes nothing else. */
  lemma QuitOnlyStops(s: ModelState)
    ensures Step(s, Quit) == s.(runningState := Done)
  {
  }

  /** Done does not block later messages: once quit, a further ScrollDown
      below the maximum still moves the offset. */
  lemma DoneDoesNotFreeze(s: ModelState)
    requires s.scrollPosition < USIZE_MAX
    ensures Steps(s, [Quit, ScrollDown]).runningState == Done
    ensures Steps(s, [Quit, ScrollDown]).scrollPosition == s.scrollPosition + 1
  {
    assert [Quit, ScrollDown][1..] == [ScrollDown];
  }

  /** Only Quit changes the running state. */
  lemma OnlyQuitStops(s: ModelState, msg: Message)
    requires msg != Quit
    ensures Step(s, msg).runningState == s.runningState
  {
  }

  /** The limit, display name and both lists are never changed by `update`,
      and the scrollbar stays in step with the offset. */
  lemma {:induction false} StepsKeepData(s: ModelState, msgs: seq<Message>)
    ensures var t := Steps(s, msgs);
      && t.limit == s.limit && t.displayName == s.displayName
      && t.topTracks == s.topTracks && t.topArtists == s.topArtists
      && (ScrollSynced(s) ==> ScrollSynced(t))
    decreases |msgs|
  {
    if msgs != [] {
      StepsKeepData(Step(s, msgs[0]), msgs[1..]);
    }
  }

  /** Number of occurrences of a message. */
  function Count(msgs: seq<Message>, m: Message): nat
    decreases |msgs|
  {
    if msgs == [] then 0 else (if msgs[0] == m then 1 else 0) + Count(msgs[1..], m)
  }

  /** Bounds on the offset after any run of messages: it rises by at most the
      number of ScrollDowns and, as long as the maximum is out of reach, falls
      short of start + downs - ups only through ScrollUps absorbed at the top. */
  lemma {:induction false} ScrollBounds(s: ModelState, msgs: seq<Message>)
    requires s.scrollPosition + |msgs| <= USIZE_MAX
    ensures Steps(s, msgs).scrollPosition <= s.scrollPosition + Count(msgs, ScrollDown)
    ensures Steps(s, msgs).scrollPosition >= s.scrollPosition + Count(msgs, ScrollDown) - Count(msgs, ScrollUp)
    decreases |msgs|
  {
    if msgs != [] {
      ScrollBounds(Step(s, msgs[0]), msgs[1..]);
    }
  }

  /** The offset depends on the order of the messages, not only on the counts:
      from the top, ScrollUp then ScrollDown ends one row down, while
      ScrollDown then ScrollUp ends at the top. */
  lemma ScrollDependsOnOrder(s: ModelState)
    requires s.scrollPosition == 0
    ensures Steps(s, [ScrollUp, ScrollDown]).scrollPosition == 1
    ensures Steps(s, [ScrollDown, ScrollUp]).scrollPosition == 0
  {
    assert [ScrollUp, ScrollDown][1..] == [ScrollDown];
    assert [ScrollDown, ScrollUp][1..] == [ScrollUp];
  }
}
