/** The result-collection layer: duration formatting and the two loops that
    pull ranked items off the service's top-items streams. */
module Client {
  import opened Prelude
  import opened Spotify

  /** What a collection call ends in: the collected list, or the panic that
      `unwrap()` raises on the client's error (no partial list survives it). */
  datatype Outcome<T> = Returned(value: T) | Panicked(cause: string)

  /** `TopTrack`: a ranked track. */
  datatype TopTrack = TopTrack(place: nat, name: string, duration: string, artists: seq<SimplifiedArtist>)

  /** `TopArtist`: a ranked artist. */
  datatype TopArtist = TopArtist(place: nat, name: string)

  // ---------------------------------------------------------------------------
  // Duration formatting

  /** `format_duration`: whole minutes, unpadded, then `:` and the remaining
      seconds padded to two digits. */
  function FormatDuration(duration: Duration): string
  {
    var total := NumSeconds(duration);
    var minutes := total / 60;
    var seconds := total % 60;
    NatToString(minutes) + ":" + ZeroPad2(seconds)
  }

  /** Reads an `m:ss` string back: the digits before the colon are minutes,
      the two digits after it are seconds. */
  function ParseDuration(s: string): Option<nat>
  {
    if |s| >= 4 && s[|s| - 3] == ':' && AllDigits(s[..|s| - 3]) && AllDigits(s[|s| - 2..])
    then Some(DigitsValue(s[..|s| - 3]) * 60 + DigitsValue(s[|s| - 2..]))
    else None
  }

  /** The shape of a formatted duration: canonical minutes, a colon, and a
      two-digit seconds field below 60, which together add up to the input. */
  lemma FormatDurationShape(d: Duration)
    ensures var s := FormatDuration(d);
      && |s| >= 4
      && s[..|s| - 3] == NatToString(NumSeconds(d) / 60)
      && s[|s| - 3] == ':'
      && AllDigits(s[|s| - 2..])
      && DigitsValue(s[|s| - 2..]) < 60
      && DigitsValue(s[..|s| - 3]) * 60 + DigitsValue(s[|s| - 2..]) == NumSeconds(d)
  {
    var total := NumSeconds(d);
    var m := NatToString(total / 60);
    var ss := ZeroPad2(total % 60);
    var s := FormatDuration(d);
    assert s == m + ":" + ss;
    assert s[..|s| - 3] == m;
    assert s[|s| - 2..] == ss;
    NatToStringValue(total / 60);
  }

  /** Parsing a formatted duration gives back the whole seconds. */
  lemma FormatDurationRoundTrip(d: Duration)
    ensures ParseDuration(FormatDuration(d)) == Some(NumSeconds(d))
  {
    FormatDurationShape(d);
  }

  /** Two durations format alike exactly when they have the same whole seconds. */
  lemma FormatDurationInjective(a: Duration, b: Duration)
    ensures FormatDuration(a) == FormatDuration(b) <==> NumSeconds(a) == NumSeconds(b)
  {
    FormatDurationRoundTrip(a);
    FormatDurationRoundTrip(b);
  }

  /** The worked values: 125 s, 59 s and 600 s. */
  lemma FormatDurationExamples()
    ensures FormatDuration(Duration(125_000)) == "2:05"
    ensures FormatDuration(Duration(59_000)) == "0:59"
    ensures FormatDuration(Duration(600_999)) == "10:00"
  {
    assert NatToString(10) == "10";
  }

  // ---------------------------------------------------------------------------
  // Specification of the collection loops

  /** The first length at which `len as u8 == limit` holds: `limit` itself,
      except that a zero limit first matches at 256 items. */
  function Cap(limit: u8): (n: nat)
    ensures 1 <= n <= 256
    ensures AsU8(n) == limit
    ensures forall m :: 1 <= m < n ==> AsU8(m) != limit
  {
    if limit == 0 then 256 else limit
  }

  /** Index of the first error answer in `s`, or `|s|` when there is none. */
  function FirstFault<T>(s: seq<Pull<T>>): (f: nat)
    ensures f <= |s|
    ensures forall j :: 0 <= j < f ==> s[j].Item?
    ensures f < |s| ==> s[f].Fault?
  {
    if s == [] || s[0].Fault? then 0 else 1 + FirstFault(s[1..])
  }

  /** The items carried by answers that are all items. */
  function Values<T>(s: seq<Pull<T>>): (v: seq<T>)
    requires forall j :: 0 <= j < |s| ==> s[j].Item?
    ensures |v| == |s|
    ensures forall j :: 0 <= j < |s| ==> v[j] == s[j].value
  {
    if s == [] then [] else [s[0].value] + Values(s[1..])
  }

  /** How many answers the loop looks at, if none of them is an error. */
  function Window<T>(stream: Stream<T>, limit: u8): nat
  {
    Min(Cap(limit), |stream|)
  }

  /** How many answers the loop actually pulls: up to and including the first
      error inside the window, or the whole window. */
  function Pulled<T>(stream: Stream<T>, limit: u8): (n: nat)
    ensures n <= Window(stream, limit) <= Cap(limit)
  {
    var k := Window(stream, limit);
    var f := FirstFault(stream[..k]);
    if f < k then f + 1 else k
  }

  function RankTrack(place: nat, t: FullTrack): TopTrack
  {
    TopTrack(place, t.name, FormatDuration(t.duration), t.artists)
  }

  function RankArtist(place: nat, a: FullArtist): TopArtist
  {
    TopArtist(place, a.name)
  }

  /** The ranked list `get_top_tracks` builds from a stream. */
  function TopTracksOf(stream: Stream<FullTrack>, limit: u8): Outcome<seq<TopTrack>>
  {
    var k := Window(stream, limit);
    var f := FirstFault(stream[..k]);
    if f < k then Panicked(stream[f].cause)
    else
      var items := Values(stream[..k]);
      Returned(seq(k, i requires 0 <= i < k => RankTrack(i + 1, items[i])))
  }

  /** The ranked list `get_top_artists` builds from a stream. */
  function TopArtistsOf(stream: Stream<FullArtist>, limit: u8): Outcome<seq<TopArtist>>
  {
    var k := Window(stream, limit);
    var f := FirstFault(stream[..k]);
    if f < k then Panicked(stream[f].cause)
    else
      var items := Values(stream[..k]);
      Returned(seq(k, i requires 0 <= i < k => RankArtist(i + 1, items[i])))
  }

  /** An error answer inside the window, after only items, is the first fault. */
  lemma FirstFaultAt<T>(stream: Stream<T>, limit: u8, p: nat)
    requires p < Window(stream, limit)
    requires forall j :: 0 <= j < p ==> stream[j].Item?
    requires stream[p].Fault?
    ensures FirstFault(stream[..Window(stream, limit)]) == p
    ensures Pulled(stream, limit) == p + 1
  {
    var k := Window(stream, limit);
    assert forall j :: 0 <= j <= p ==> stream[..k][j] == stream[j];
  }

  /** A window of items ranked in order is the specified track list. */
  lemma TopTracksOfAllItems(stream: Stream<FullTrack>, limit: u8, r: seq<TopTrack>)
    requires forall j :: 0 <= j < Window(stream, limit) ==> stream[j].Item?
    requires |r| == Window(stream, limit)
    requires forall j :: 0 <= j < |r| ==> r[j] == RankTrack(j + 1, stream[j].value)
    ensures TopTracksOf(stream, limit) == Returned(r)
    ensures Pulled(stream, limit) == |r|
  {
    var k := Window(stream, limit);
    assert forall j :: 0 <= j < k ==> stream[..k][j] == stream[j];
    var items := Values(stream[..k]);
    assert r == seq(k, i requires 0 <= i < k => RankTrack(i + 1, items[i]));
  }

  /** A window of items ranked in order is the specified artist list. */
  lemma TopArtistsOfAllItems(stream: Stream<FullArtist>, limit: u8, r: seq<TopArtist>)
    requires forall j :: 0 <= j < Window(stream, limit) ==> stream[j].Item?
    requires |r| == Window(stream, limit)
    requires forall j :: 0 <= j < |r| ==> r[j] == RankArtist(j + 1, stream[j].value)
    ensures TopArtistsOf(stream, limit) == Returned(r)
    ensures Pulled(stream, limit) == |r|
  {
    var k := Window(stream, limit);
    assert forall j :: 0 <= j < k ==> stream[..k][j] == stream[j];
    var items := Values(stream[..k]);
    assert r == seq(k, i requires 0 <= i < k => RankArtist(i + 1, items[i]));
  }

  // ---------------------------------------------------------------------------
  // The collection loops

  /** `get_top_tracks`: pull tracks of `timeRange` one at a time, rank each by
      the list length so far, stop once `len as u8 == limit`. `pulled` is the
      number of answers taken from the stream. */
  method GetTopTracks(client: Session, timeRange: TimeRange, limit: u8)
    returns (result: Outcome<seq<TopTrack>>, pulled: nat)
    ensures result == TopTracksOf(client.topTracks(timeRange), limit)
    ensures pulled == Pulled(client.topTracks(timeRange), limit)
  {
    var stream := client.topTracks(timeRange);
    var topTracks: seq<TopTrack> := [];
    pulled := 0;
    while pulled < |stream|
      invariant pulled <= |stream| && pulled < Cap(limit)
      invariant |topTracks| == pulled
      invariant forall j :: 0 <= j < pulled ==> stream[j].Item?
      invariant forall j :: 0 <= j < pulled ==> topTracks[j] == RankTrack(j + 1, stream[j].value)
    {
      var answer := stream[pulled];
      pulled := pulled + 1;
      if answer.Fault? {
        // `unwrap()` on the error: the call panics, dropping `topTracks`.
        FirstFaultAt(stream, limit, pulled - 1);
        return Panicked(answer.cause), pulled;
      }
      var item := answer.value;
      var artists: seq<SimplifiedArtist> := [];
      for a := 0 to |item.artists|
        invariant artists == item.artists[..a]
      {
        artists := artists + [item.artists[a]];
      }
      assert item.artists[..|item.artists|] == item.artists;
      var place := AsU32(|topTracks|) + 1;
      var duration := FormatDuration(item.duration);
      topTracks := topTracks + [TopTrack(place, item.name, duration, artists)];
      if AsU8(|topTracks|) == limit {
        break;
      }
    }
    assert pulled == Window(stream, limit);
    TopTracksOfAllItems(stream, limit, topTracks);
    result := Returned(topTracks);
  }

  /** `get_top_artists`: the same loop over the artists stream, which is always
      the medium-term one. */
  method GetTopArtists(client: Session, limit: u8)
    returns (result: Outcome<seq<TopArtist>>, pulled: nat)
    ensures result == TopArtistsOf(client.topArtists(MediumTerm), limit)
    ensures pulled == Pulled(client.topArtists(MediumTerm), limit)
  {
    var stream := client.topArtists(MediumTerm);
    var topArtists: seq<TopArtist> := [];
    pulled := 0;
    while pulled < |stream|
      invariant pulled <= |stream| && pulled < Cap(limit)
      invariant |topArtists| == pulled
      invariant forall j :: 0 <= j < pulled ==> stream[j].Item?
      invariant forall j :: 0 <= j < pulled ==> topArtists[j] == RankArtist(j + 1, stream[j].value)
    {
      var answer := stream[pulled];
      pulled := pulled + 1;
      if answer.Fault? {
        FirstFaultAt(stream, limit, pulled - 1);
        return Panicked(answer.cause), pulled;
      }
      var item := answer.value;
      var place := AsU32(|topArtists|) + 1;
      topArtists := topArtists + [TopArtist(place, item.name)];
      if AsU8(|topArtists|) == limit {
        break;
      }
    }
    assert pulled == Window(stream, limit);
    TopArtistsOfAllItems(stream, limit, topArtists);
    result := Returned(topArtists);
  }

  // ---------------------------------------------------------------------------
  // Properties of the collected lists

  /** Places are dense and 1-based in stream order, and each entry carries its
      track's name, formatted duration and artist list unchanged. */
  lemma TopTracksRanked(stream: Stream<FullTrack>, limit: u8)
    requires TopTracksOf(stream, limit).Returned?
    ensures var r := TopTracksOf(stream, limit).value;
      forall i :: 0 <= i < |r| ==>
        && stream[i].Item?
        && r[i].place == i + 1
        && r[i].name == stream[i].value.name
        && r[i].duration == FormatDuration(stream[i].value.duration)
        && r[i].artists == stream[i].value.artists
  {
    var k := Window(stream, limit);
    assert forall j :: 0 <= j < k ==> stream[..k][j] == stream[j];
  }

  /** The list is as long as the limit allows and the stream provides:
      `min(limit, |stream|)` for a limit of 1 to 255, `min(256, |stream|)` for 0. */
  lemma TopTracksLength(stream: Stream<FullTrack>, limit: u8)
    requires TopTracksOf(stream, limit).Returned?
    ensures |TopTracksOf(stream, limit).value| == Min(if limit == 0 then 256 else limit, |stream|)
  {
  }

  /** The call fails exactly when an error answer lies within the window, and
      then with the first such error. */
  lemma TopTracksFailure(stream: Stream<FullTrack>, limit: u8)
    ensures TopTracksOf(stream, limit).Panicked? <==>
      exists j :: 0 <= j < Window(stream, limit) && stream[j].Fault?
    ensures TopTracksOf(stream, limit).Panicked? ==>
      var f := FirstFault(stream[..Window(stream, limit)]);
      && (forall j :: 0 <= j < f ==> stream[j].Item?)
      && stream[f].Fault?
      && TopTracksOf(stream, limit).cause == stream[f].cause
  {
    var k := Window(stream, limit);
    assert forall j :: 0 <= j < k ==> stream[..k][j] == stream[j];
  }

  /** Answers past the window never influence the result, and the loop never
      pulls more than `Cap(limit)` answers. */
  lemma TopTracksLazy(stream: Stream<FullTrack>, rest: Stream<FullTrack>, limit: u8)
    requires |stream| >= Cap(limit)
    ensures TopTracksOf(stream + rest, limit) == TopTracksOf(stream, limit)
    ensures Pulled(stream + rest, limit) == Pulled(stream, limit) <= Cap(limit)
  {
    var k := Cap(limit);
    assert (stream + rest)[..k] == stream[..k];
  }

  /** A zero limit does not stop early: with at least 256 good answers the list
      has 256 entries, because 256 is the first length whose `u8` cast is 0. */
  lemma ZeroLimitTakes256(stream: Stream<FullTrack>)
    requires |stream| >= 256
    requires forall j :: 0 <= j < 256 ==> stream[j].Item?
    ensures TopTracksOf(stream, 0).Returned?
    ensures |TopTracksOf(stream, 0).value| == 256
  {
    assert forall j :: 0 <= j < 256 ==> stream[..256][j] == stream[j];
  }

  /** The artists list has the same dense 1-based places and the same
      prefix-of-stream shape. */
  lemma TopArtistsRanked(stream: Stream<FullArtist>, limit: u8)
    requires TopArtistsOf(stream, limit).Returned?
    ensures |TopArtistsOf(stream, limit).value| == Window(stream, limit)
    ensures var r := TopArtistsOf(stream, limit).value;
      forall i :: 0 <= i < |r| ==>
        && stream[i].Item?
        && r[i] == TopArtist(i + 1, stream[i].value.name)
  {
    var k := Window(stream, limit);
    assert forall j :: 0 <= j < k ==> stream[..k][j] == stream[j];
  }

  /** The artists call fails exactly when an error lies within the window. */
  lemma TopArtistsFailure(stream: Stream<FullArtist>, limit: u8)
    ensures TopArtistsOf(stream, limit).Panicked? <==>
      exists j :: 0 <= j < Window(stream, limit) && stream[j].Fault?
  {
    var k := Window(stream, limit);
    assert forall j :: 0 <= j < k ==> stream[..k][j] == stream[j];
  }
}
