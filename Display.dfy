/** The row records the two views list, the text of one row (the
    concatenation of its spans, styles dropped) and the window titles. */
module Display {
  import opened Prelude
  import opened Spotify

  /** A track row record, as its uses read it: a rank, the title, the artist
      names and the formatted duration. */
  datatype TrackEntry = TrackEntry(index: nat, trackName: string, artists: seq<string>, duration: string)

  /** An artist row record: a rank, the name and the genre tags already joined. */
  datatype ArtistEntry = ArtistEntry(index: nat, artistName: string, genres: string)

  /** `show_time_range`: the human-readable title of a window. */
  function TimeRangeTitle(timeRange: TimeRange): (title: string)
    ensures title == "Short Term" <==> timeRange == ShortTerm
    ensures title == "Medium Term" <==> timeRange == MediumTerm
    ensures title == "Long Term" <==> timeRange == LongTerm
  {
    match timeRange
    case ShortTerm => "Short Term"
    case MediumTerm => "Medium Term"
    case LongTerm => "Long Term"
  }

  /** Distinct windows get distinct titles. */
  lemma TimeRangeTitleInjective(a: TimeRange, b: TimeRange)
    ensures TimeRangeTitle(a) == TimeRangeTitle(b) <==> a == b
  {
  }

  /** The spans `index`, ` - `, `track_name`, ` by `, the artists joined by
      `, `, and ` (duration)`. */
  function TrackLine(t: TrackEntry): string
  {
    NatToString(t.index) + " - " + t.trackName + " by " + Join(t.artists, ", ") + " (" + t.duration + ")"
  }

  /** The spans `index`, ` - `, `artist_name`, ` ` and `(genres)`. */
  function ArtistLine(a: ArtistEntry): string
  {
    NatToString(a.index) + " - " + a.artistName + " " + "(" + a.genres + ")"
  }

  /** One line per track, in list order. */
  function TrackLines(tracks: seq<TrackEntry>): seq<string>
  {
    seq(|tracks|, i requires 0 <= i < |tracks| => TrackLine(tracks[i]))
  }

  /** One line per artist, in list order. */
  function ArtistLines(artists: seq<ArtistEntry>): seq<string>
  {
    seq(|artists|, i requires 0 <= i < |artists| => ArtistLine(artists[i]))
  }

  /** The rank a row shows: the number its leading digits spell. */
  function RowIndex(line: string): nat
  {
    DigitsValue(LeadingDigits(line))
  }

  /** A row that starts with a rank followed by ` - ` shows that rank. */
  lemma RankPrefixIndex(index: nat, rest: string)
    ensures RowIndex(NatToString(index) + " - " + rest) == index
  {
    var d := NatToString(index);
    assert d + " - " + rest == d + (" - " + rest);
    LeadingDigitsOf(d, " - " + rest);
    NatToStringValue(index);
  }

  /** A track row shows its entry's rank, then ` - ` and the title, and ends
      with the duration in parentheses. */
  lemma TrackLineShape(t: TrackEntry)
    ensures RowIndex(TrackLine(t)) == t.index
    ensures var line := TrackLine(t); var d := NatToString(t.index);
      && line[..|d| + 3 + |t.trackName|] == d + " - " + t.trackName
      && line[|line| - |t.duration| - 3..] == " (" + t.duration + ")"
  {
    var rest := t.trackName + " by " + Join(t.artists, ", ") + " (" + t.duration + ")";
    assert TrackLine(t) == NatToString(t.index) + " - " + rest;
    RankPrefixIndex(t.index, rest);
  }

  /** An artist row shows its entry's rank, then ` - ` and the name, and ends
      with the genres in parentheses. */
  lemma ArtistLineShape(a: ArtistEntry)
    ensures RowIndex(ArtistLine(a)) == a.index
    ensures var line := ArtistLine(a); var d := NatToString(a.index);
      && line[..|d| + 3 + |a.artistName|] == d + " - " + a.artistName
      && line[|line| - |a.genres| - 3..] == " (" + a.genres + ")"
  {
    var rest := a.artistName + " " + "(" + a.genres + ")";
    assert ArtistLine(a) == NatToString(a.index) + " - " + rest;
    RankPrefixIndex(a.index, rest);
  }

  /** Rendering densely ranked tracks shows the ranks 1, 2, ... top to bottom. */
  lemma TrackLinesShowRanks(tracks: seq<TrackEntry>)
    requires forall i :: 0 <= i < |tracks| ==> tracks[i].index == i + 1
    ensures |TrackLines(tracks)| == |tracks|
    ensures forall i :: 0 <= i < |tracks| ==> RowIndex(TrackLines(tracks)[i]) == i + 1
  {
    forall i | 0 <= i < |tracks|
      ensures RowIndex(TrackLines(tracks)[i]) == i + 1
    {
      TrackLineShape(tracks[i]);
    }
  }

  /** Rendering densely ranked artists shows the ranks 1, 2, ... top to bottom. */
  lemma ArtistLinesShowRanks(artists: seq<ArtistEntry>)
    requires forall i :: 0 <= i < |artists| ==> artists[i].index == i + 1
    ensures |ArtistLines(artists)| == |artists|
    ensures forall i :: 0 <= i < |artists| ==> RowIndex(ArtistLines(artists)[i]) == i + 1
  {
    forall i | 0 <= i < |artists|
      ensures RowIndex(ArtistLines(artists)[i]) == i + 1
    {
      ArtistLineShape(artists[i]);
    }
  }
}
