/**
 * Songs (autodj/dj/song.py): the artist/title naming rule for song files and
 * the conversion between playback time (seconds) and bar position.
 */
module DjSong {

  /** Frames per second every audio file is converted to (AudioFile.SAMPLE_RATE). */
  const SampleRate: real := 48000.0

  /** Tempo in beats per minute; the analysis only ever produces positive tempos. */
  type Bpm = r: real | r > 0.0 witness 120.0

  /**
   * The metadata of a loaded song that the mixer uses: its file, its tempo and
   * the offset (in frames) of its first beat.
   */
  datatype Song = Song(file: string, bpm: Bpm, offset: real) {

    /**
     * Bar position of playback time `time` (a bar is four beats): how many
     * bar lengths have passed since the first beat.
     */
    function TimeToBar(time: real): (bar: real)
      ensures bar * BarLength() == time - offset / SampleRate
    {
      (time - offset / SampleRate) / (60.0 / bpm * 4.0)
    }

    /** Playback time at which bar `bar` starts: `bar` bar lengths after the first beat. */
    function BarToTime(bar: real): (time: real)
      ensures time == offset / SampleRate + bar * BarLength()
    {
      assert bar * 60.0 / bpm == bar * (60.0 / bpm);
      offset / SampleRate + bar * 60.0 / bpm * 4.0
    }

    /** Length of one bar in seconds. */
    function BarLength(): (len: real)
      ensures len > 0.0
      ensures len * bpm == 240.0
    {
      60.0 / bpm * 4.0
    }
  }

  /** Converting a bar to time and back gives the bar. */
  lemma TimeOfBarRoundTrip(s: Song, bar: real)
    ensures s.TimeToBar(s.BarToTime(bar)) == bar
  {
    var len := s.BarLength();
    assert s.BarToTime(bar) - s.offset / SampleRate == bar * len;
    assert (bar * len) / len == bar;
  }

  /** Converting a time to a bar and back gives the time. */
  lemma BarOfTimeRoundTrip(s: Song, time: real)
    ensures s.BarToTime(s.TimeToBar(time)) == time
  {
    var len := s.BarLength();
    var bar := s.TimeToBar(time);
    assert bar == (time - s.offset / SampleRate) / len;
    assert bar * len == time - s.offset / SampleRate;
  }

  /**
   * Bar 0 starts at the song's offset, successive bars are 240/bpm seconds
   * apart, and later bars start strictly later.
   */
  lemma BarToTimeShape(s: Song, b1: real, b2: real)
    ensures s.BarToTime(0.0) == s.offset / SampleRate
    ensures s.BarToTime(b1 + 1.0) - s.BarToTime(b1) == 240.0 / s.bpm
    ensures b1 < b2 ==> s.BarToTime(b1) < s.BarToTime(b2)
  {
    var len := s.BarLength();
    assert len == 240.0 / s.bpm;
    assert (b1 + 1.0) * len - b1 * len == len;
    if b1 < b2 {
      assert b2 * len - b1 * len == (b2 - b1) * len;
    }
  }

  /** Later times lie in later (or the same) bars. */
  lemma TimeToBarMonotone(s: Song, t1: real, t2: real)
    requires t1 <= t2
    ensures s.TimeToBar(t1) <= s.TimeToBar(t2)
  {
    var len := s.BarLength();
    var d := s.offset / SampleRate;
    assert s.TimeToBar(t2) - s.TimeToBar(t1) == (t2 - d) / len - (t1 - d) / len;
    assert (t2 - d) / len - (t1 - d) / len == (t2 - t1) / len;
  }

  // ---------------------------------------------------------------------------
  // Artist and title from a file name

  /** Python whitespace as recognised by `str.strip()` without arguments. */
  predicate IsSpace(c: char) {
    || c == ' ' || '\t' <= c <= '\r' || '\U{1C}' <= c <= '\U{1F}'
    || c == '\U{85}' || c == '\U{A0}' || c == '\U{1680}' || '\U{2000}' <= c <= '\U{200A}'
    || c == '\U{2028}' || c == '\U{2029}' || c == '\U{202F}' || c == '\U{205F}' || c == '\U{3000}'
  }

  /** `s.find(c)`: the first index of `c` in `s`, or -1. */
  function Find(s: string, c: char): (r: int)
    ensures -1 <= r < |s|
    ensures r == -1 <==> c !in s
    ensures r >= 0 ==> s[r] == c
    ensures forall k :: 0 <= k < r ==> s[k] != c
  {
    if |s| == 0 then -1
    else if s[0] == c then 0
    else
      var r := Find(s[1..], c);
      if r == -1 then -1 else 1 + r
  }

  /** `s.rfind(c)`: the last index of `c` in `s`, or -1. */
  function RFind(s: string, c: char): (r: int)
    ensures -1 <= r < |s|
    ensures r == -1 <==> c !in s
    ensures r >= 0 ==> s[r] == c
    ensures forall k :: r < k < |s| ==> s[k] != c
  {
    if |s| == 0 then -1
    else if s[|s| - 1] == c then |s| - 1
    else
      var r := RFind(s[..|s| - 1], c);
      assert r == -1 ==> s == s[..|s| - 1] + [s[|s| - 1]];
      r
  }

  /** Python's `s[:stop]`, where a negative `stop` counts from the end. */
  function PyPrefix(s: string, stop: int): (r: string)
    ensures r <= s
    ensures 0 <= stop <= |s| ==> |r| == stop
    ensures stop > |s| ==> r == s
    ensures -|s| <= stop < 0 ==> |r| == |s| + stop
    ensures stop < -|s| ==> r == []
  {
    if stop >= 0 then s[..if stop <= |s| then stop else |s|]
    else s[..if |s| + stop >= 0 then |s| + stop else 0]
  }

  /** `os.path.basename`: everything after the last '/'. */
  function Basename(path: string): (name: string)
    ensures '/' !in name
    ensures |name| <= |path| && name == path[|path| - |name|..]
    ensures |name| < |path| ==> path[|path| - |name| - 1] == '/'
    ensures '/' !in path ==> name == path
  {
    path[RFind(path, '/') + 1..]
  }

  /** How many leading characters of `s` satisfy `drop`. */
  function LeadingCount(s: string, drop: char -> bool): (n: nat)
    ensures n <= |s|
    ensures forall k :: 0 <= k < n ==> drop(s[k])
    ensures n < |s| ==> !drop(s[n])
  {
    if |s| > 0 && drop(s[0]) then 1 + LeadingCount(s[1..], drop) else 0
  }

  /** How many trailing characters of `s` satisfy `drop`. */
  function TrailingCount(s: string, drop: char -> bool): (n: nat)
    ensures n <= |s|
    ensures forall k :: |s| - n <= k < |s| ==> drop(s[k])
    ensures n < |s| ==> !drop(s[|s| - n - 1])
  {
    if |s| > 0 && drop(s[|s| - 1]) then 1 + TrailingCount(s[..|s| - 1], drop) else 0
  }

  /**
   * The infix of `s` left when the characters satisfying `drop` are removed
   * from both ends: everything before and after it satisfies `drop`, and its
   * own first and last characters do not.
   */
  function StripBy(s: string, drop: char -> bool): (r: string)
    ensures var i := LeadingCount(s, drop);
            && i + |r| <= |s| && r == s[i..i + |r|]
            && (forall k :: 0 <= k < i ==> drop(s[k]))
            && (forall k :: i + |r| <= k < |s| ==> drop(s[k]))
    ensures |r| > 0 ==> !drop(r[0]) && !drop(r[|r| - 1])
    ensures forall c :: c in r ==> c in s
  {
    var i := LeadingCount(s, drop);
    var j := TrailingCount(s[i..], drop);
    InfixFacts(s, i, |s| - i - j, drop);
    s[i..|s| - j]
  }

  /** What an infix `s[i..i + n]` of `s` inherits from it. */
  lemma InfixFacts(s: string, i: nat, n: nat, drop: char -> bool)
    requires i + n <= |s|
    requires forall k :: n <= k < |s| - i ==> drop(s[i..][k])
    ensures forall k :: i + n <= k < |s| ==> drop(s[k])
    ensures forall c :: c in s[i..i + n] ==> c in s
  {
    forall k | i + n <= k < |s|
      ensures drop(s[k])
    {
      assert s[k] == s[i..][k - i];
    }
    forall c | c in s[i..i + n]
      ensures c in s
    {
      var j :| 0 <= j < n && s[i..i + n][j] == c;
      assert s[i + j] == c;
    }
  }

  /**
   * `s.strip()`: the infix of `s` that neither starts nor ends with
   * whitespace, with only whitespace around it.
   */
  function Strip(s: string): (r: string)
    ensures var i := LeadingCount(s, IsSpace);
            && i + |r| <= |s| && r == s[i..i + |r|]
            && (forall k :: 0 <= k < i ==> IsSpace(s[k]))
            && (forall k :: i + |r| <= k < |s| ==> IsSpace(s[k]))
    ensures |r| > 0 ==> !IsSpace(r[0]) && !IsSpace(r[|r| - 1])
  {
    StripBy(s, IsSpace)
  }

  /**
   * The name a song's artist and title are read from: the base name with
   * everything from its last '.' removed. When the base name has no '.',
   * `rfind` gives -1 and only its last character is dropped.
   */
  function SongName(file: string): (name: string)
    ensures '/' !in name
    ensures var base := Basename(file);
            && |name| <= |base| && name == base[..|name|]
            && ('.' in base ==> (|name| < |base| && base[|name|] == '.'
                                 && forall k :: |name| < k < |base| ==> base[k] != '.'))
            && ('.' !in base ==> |name| == if |base| == 0 then 0 else |base| - 1)
  {
    var base := Basename(file);
    PyPrefix(base, RFind(base, '.'))
  }

  /**
   * get_artist_and_title: the song name split at its first '-' into a
   * stripped artist and a stripped title, or an empty artist and the whole,
   * unstripped name when there is no '-'.
   */
  function GetArtistAndTitle(file: string): (r: (string, string))
    ensures var name := SongName(file);
            && '/' !in r.0 && '/' !in r.1 && '-' !in r.0
            && ('-' !in name ==> r == ("", name))
  {
    var name := SongName(file);
    var idx := Find(name, '-');
    if idx != -1 then
      var artist := Strip(name[..idx]);
      var title := Strip(name[idx + 1..]);
      assert forall c :: c in name[..idx] ==> c in name;
      assert forall c :: c in name[idx + 1..] ==> c in name;
      (artist, title)
    else ("", name)
  }

  /**
   * Any way of writing the song name as `artist + "-" + title` with no '-' in
   * the artist part is the split get_artist_and_title makes.
   */
  lemma {:induction false} ArtistTitleSplit(file: string, artist: string, title: string)
    requires SongName(file) == artist + "-" + title
    requires '-' !in artist
    ensures GetArtistAndTitle(file) == (Strip(artist), Strip(title))
  {
    var name := SongName(file);
    FindAfterFree(artist, title);
    assert name[..|artist|] == artist;
    assert name[|artist| + 1..] == title;
  }

  lemma {:induction false} FindAfterFree(artist: string, title: string)
    requires '-' !in artist
    ensures Find(artist + "-" + title, '-') == |artist|
  {
    var s := artist + "-" + title;
    assert s[|artist|] == '-';
    assert forall k :: 0 <= k < |artist| ==> s[k] == artist[k];
  }

  /** A base name without a '.' loses its last character. */
  lemma NoExtensionDropsLastChar(file: string)
    requires '/' !in file && '.' !in file && |file| > 0
    ensures SongName(file) == file[..|file| - 1]
  {
  }
}
