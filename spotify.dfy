/** The music source: the currently-playing snapshot and the label announced for it. */
module Spotify {
  import opened Errors

  datatype Artist = Artist(name: string)

  datatype Track = Track(name: string, artists: seq<Artist>)

  /** What the player reports as playing; only tracks are ever announced. */
  datatype PlayableItem = TrackItem(track: Track) | Episode

  /** The parts of a currently-playing response that the reconciler reads. */
  datatype CurrentlyPlayingContext = CurrentlyPlayingContext(isPlaying: bool, item: Option<PlayableItem>)

  const TitleSeparator: string := " - "
  const ArtistSeparator: string := ", "

  /** The snapshot used when the player reports nothing at all. */
  const NothingPlaying: CurrentlyPlayingContext := CurrentlyPlayingContext(false, None)

  /** The names of the artists, in the order the track lists them. */
  function ArtistNames(artists: seq<Artist>): (names: seq<string>)
    ensures |names| == |artists|
    ensures forall i :: 0 <= i < |artists| ==> names[i] == artists[i].name
  {
    if artists == [] then [] else [artists[0].name] + ArtistNames(artists[1..])
  }

  /** The combined length of the parts. */
  function TotalLength(parts: seq<string>): nat
  {
    if parts == [] then 0 else |parts[0]| + TotalLength(parts[1..])
  }

  /** The parts separated by `sep`, with no separator before the first or after the last. */
  function Join(parts: seq<string>, sep: string): (s: string)
    ensures |parts| > 0 ==> |s| == TotalLength(parts) + (|parts| - 1) * |sep|
  {
    if |parts| == 0 then ""
    else if |parts| == 1 then parts[0]
    else parts[0] + sep + Join(parts[1..], sep)
  }

  /** The label announced for a snapshot: "<name> - <artists>" for a track, empty otherwise. */
  function FormatCurrentlyPlaying(currentlyPlaying: CurrentlyPlayingContext): string
  {
    match currentlyPlaying.item
    case Some(TrackItem(track)) =>
      track.name + TitleSeparator + Join(ArtistNames(track.artists), ArtistSeparator)
    case _ => ""
  }

  /** Whether the snapshot carries a track, the only kind of item with a label. */
  predicate HasTrack(currentlyPlaying: CurrentlyPlayingContext)
  {
    currentlyPlaying.item.Some? && currentlyPlaying.item.value.TrackItem?
  }

  /**
   * The snapshot a fetch yields: a failed request is an error, an absent
   * response is the not-playing snapshot, any other response is kept.
   */
  function GetCurrentlyPlayingSong(response: Result<Option<CurrentlyPlayingContext>>): (r: Result<CurrentlyPlayingContext>)
    ensures r.Ok? <==> response.Ok?
    ensures response.Err? ==> r.error == PlaybackUnavailable
    ensures response == Ok(None) ==> !r.value.isPlaying && r.value.item == None
    ensures response.Ok? && response.value.Some? ==> r.value == response.value.value
  {
    match response
    case Err(_) => Err(PlaybackUnavailable)
    case Ok(None) => Ok(NothingPlaying)
    case Ok(Some(context)) => Ok(context)
  }

  lemma {:induction false} JoinAppend(a: seq<string>, b: seq<string>, sep: string)
    requires |a| > 0 && |b| > 0
    ensures Join(a + b, sep) == Join(a, sep) + sep + Join(b, sep)
  {
    if |a| == 1 {
      assert (a + b)[1..] == b;
    } else {
      assert (a + b)[1..] == a[1..] + b;
      JoinAppend(a[1..], b, sep);
    }
  }

  lemma ArtistNamesAppend(a: seq<Artist>, b: seq<Artist>)
    ensures ArtistNames(a + b) == ArtistNames(a) + ArtistNames(b)
  {
  }

  /** A track's label is its name, the title separator, then the joined artist names. */
  lemma TrackLabel(currentlyPlaying: CurrentlyPlayingContext)
    requires HasTrack(currentlyPlaying)
    ensures var track := currentlyPlaying.item.value.track;
            var shown := FormatCurrentlyPlaying(currentlyPlaying);
            && |shown| >= |track.name| + |TitleSeparator|
            && shown[..|track.name|] == track.name
            && shown[|track.name|..|track.name| + |TitleSeparator|] == TitleSeparator
            && shown[|track.name| + |TitleSeparator|..] == Join(ArtistNames(track.artists), ArtistSeparator)
  {
  }

  /** The label is empty exactly when the snapshot carries no track (no item, or an episode). */
  lemma EmptyLabelIffNoTrack(currentlyPlaying: CurrentlyPlayingContext)
    ensures FormatCurrentlyPlaying(currentlyPlaying) == "" <==> !HasTrack(currentlyPlaying)
  {
    if HasTrack(currentlyPlaying) {
      TrackLabel(currentlyPlaying);
    }
  }

  /** A track with one artist is labelled "<name> - <artist>". */
  lemma SingleArtistLabel(name: string, artist: Artist, isPlaying: bool)
    ensures FormatCurrentlyPlaying(CurrentlyPlayingContext(isPlaying, Some(TrackItem(Track(name, [artist])))))
            == name + TitleSeparator + artist.name
  {
    assert ArtistNames([artist]) == [artist.name];
  }

  /** A track without artists is still labelled, with nothing after the separator. */
  lemma NoArtistLabel(name: string, isPlaying: bool)
    ensures FormatCurrentlyPlaying(CurrentlyPlayingContext(isPlaying, Some(TrackItem(Track(name, [])))))
            == name + TitleSeparator
  {
  }

  /**
   * Artists appear in the label in the order the track lists them: splitting
   * the artist list anywhere splits the artist part of the label at a separator.
   */
  lemma ArtistOrderKept(name: string, front: seq<Artist>, back: seq<Artist>, isPlaying: bool)
    requires |front| > 0 && |back| > 0
    ensures FormatCurrentlyPlaying(CurrentlyPlayingContext(isPlaying, Some(TrackItem(Track(name, front + back)))))
            == name + TitleSeparator + Join(ArtistNames(front), ArtistSeparator)
               + ArtistSeparator + Join(ArtistNames(back), ArtistSeparator)
  {
    ArtistNamesAppend(front, back);
    JoinAppend(ArtistNames(front), ArtistNames(back), ArtistSeparator);
  }

  /** An absent response is not playing and announces nothing. */
  lemma AbsentResponseAnnouncesNothing()
    ensures GetCurrentlyPlayingSong(Ok(None)).Ok?
    ensures !GetCurrentlyPlayingSong(Ok(None)).value.isPlaying
    ensures FormatCurrentlyPlaying(GetCurrentlyPlayingSong(Ok(None)).value) == ""
  {
  }
}
