/**
 * Name and URL helpers of src/music_downloader/utils.py: filename
 * sanitising, duration formatting, YouTube video-id extraction and the
 * playlist-URL test. The two regular expressions of `extract_video_id` are
 * written out as character scans.
 */
module Utils {
  import opened Wrappers
  import opened Text

  // ---------------------------------------------------------------------------
  // sanitize_filename
  // ---------------------------------------------------------------------------

  /** Longest name `sanitize_filename` returns. */
  const MaxNameLength: nat := 200

  /** The characters the first substitution of `sanitize_filename` deletes. */
  predicate IsIllegal(c: char) {
    c == '<' || c == '>' || c == ':' || c == '"' || c == '/' || c == '\\' || c == '|' || c == '?' || c == '*'
  }

  predicate NoIllegal(s: string) {
    forall i :: 0 <= i < |s| ==> !IsIllegal(s[i])
  }

  /** Every whitespace character of `s` is a plain space. */
  predicate OnlyPlainSpaces(s: string) {
    forall i :: 0 <= i < |s| ==> IsSpace(s[i]) ==> s[i] == ' '
  }

  /** `s` has no two spaces in a row. */
  predicate NoDoubleSpace(s: string) {
    forall i :: 0 <= i < |s| - 1 ==> !(s[i] == ' ' && s[i + 1] == ' ')
  }

  /** The non-whitespace characters of `s`, in order. */
  function NonSpace(s: string): string {
    if s == [] then []
    else if IsSpace(s[0]) then NonSpace(s[1..])
    else [s[0]] + NonSpace(s[1..])
  }

  /** `re.sub(r'[<>:"/\\|?*]', '', s)`: drops the illegal characters and keeps every other one. */
  function RemoveIllegal(s: string): (r: string)
    ensures NoIllegal(r)
    ensures forall c :: !IsIllegal(c) ==> multiset(r)[c] == multiset(s)[c]
    ensures |r| <= |s|
  {
    if s == [] then []
    else
      assert s == [s[0]] + s[1..];
      if IsIllegal(s[0]) then RemoveIllegal(s[1..]) else [s[0]] + RemoveIllegal(s[1..])
  }

  /**
   * `re.sub(r'\s+', ' ', s)`: every maximal run of whitespace becomes one
   * space. `inRun` says that the character before `s` was whitespace, so a
   * run continuing into `s` is not replaced twice.
   */
  function Collapse(s: string, inRun: bool): (r: string)
    ensures OnlyPlainSpaces(r)
    ensures NoDoubleSpace(r)
    ensures inRun && r != [] ==> r[0] != ' '
    ensures NonSpace(r) == NonSpace(s)
    ensures NoIllegal(s) ==> NoIllegal(r)
    ensures |r| <= |s|
  {
    if s == [] then []
    else if IsSpace(s[0]) then
      if inRun then Collapse(s[1..], true) else [' '] + Collapse(s[1..], true)
    else
      [s[0]] + Collapse(s[1..], false)
  }

  /** The properties `Cleaned` establishes survive taking a slice. */
  lemma SliceKeepsClean(r: string, c: string, i: nat)
    requires SliceAt(r, c, i)
    requires NoIllegal(c) && OnlyPlainSpaces(c) && NoDoubleSpace(c)
    ensures NoIllegal(r) && OnlyPlainSpaces(r) && NoDoubleSpace(r)
  {
    assert forall k :: 0 <= k < |r| ==> r[k] == c[i + k];
  }

  /** The name after deletion, whitespace collapsing and stripping, before the length cut. */
  function Cleaned(name: string): (r: string)
    ensures NoIllegal(r) && OnlyPlainSpaces(r) && NoDoubleSpace(r)
    ensures r != [] ==> r[0] != ' ' && r[|r| - 1] != ' '
  {
    var c := Collapse(RemoveIllegal(name), false);
    var r := Strip(c);
    var i: nat :| SliceAt(r, c, i);
    SliceKeepsClean(r, c, i);
    r
  }

  /**
   * `sanitize_filename`: a name safe for the file system. It holds none of
   * the illegal characters, no whitespace but single plain spaces, does not
   * start with a space, and is at most 200 characters long; it can end with a
   * space only when the 200-character cut landed right after one.
   */
  function SanitizeFilename(name: string): (r: string)
    ensures NoIllegal(r) && OnlyPlainSpaces(r) && NoDoubleSpace(r)
    ensures |r| <= MaxNameLength
    ensures |Cleaned(name)| <= MaxNameLength ==> r == Cleaned(name)
    ensures |Cleaned(name)| > MaxNameLength ==> r == Cleaned(name)[..MaxNameLength]
    ensures r != [] ==> r[0] != ' '
    ensures r != [] && r[|r| - 1] == ' ' ==> |Cleaned(name)| > MaxNameLength
  {
    var c := Cleaned(name);
    if |c| > MaxNameLength then
      SliceKeepsClean(c[..MaxNameLength], c, 0);
      c[..MaxNameLength]
    else c
  }

  lemma {:induction false} RemoveIllegalKeepsClean(s: string)
    requires NoIllegal(s)
    ensures RemoveIllegal(s) == s
  {
    if s != [] {
      RemoveIllegalKeepsClean(s[1..]);
    }
  }

  lemma {:induction false} CollapseKeepsClean(s: string, inRun: bool)
    requires OnlyPlainSpaces(s) && NoDoubleSpace(s)
    requires inRun && s != [] ==> s[0] != ' '
    ensures Collapse(s, inRun) == s
  {
    if s != [] {
      CollapseKeepsClean(s[1..], s[0] == ' ');
    }
  }

  /** `RemoveIllegal` works character by character: on one character it keeps or drops it. */
  lemma RemoveIllegalChar(c: char)
    ensures RemoveIllegal([c]) == if IsIllegal(c) then [] else [c]
  {
    assert [c][1..] == [];
  }

  /** ... and the survivors of two pieces keep their order: it distributes over concatenation. */
  lemma {:induction false} RemoveIllegalConcat(a: string, b: string)
    ensures RemoveIllegal(a + b) == RemoveIllegal(a) + RemoveIllegal(b)
  {
    if a == [] {
      assert a + b == b;
    } else {
      assert (a + b)[0] == a[0];
      assert (a + b)[1..] == a[1..] + b;
      RemoveIllegalConcat(a[1..], b);
    }
  }

  /** Whether the text scanned so far ends inside a whitespace run. */
  function EndsInRun(a: string, inRun: bool): bool {
    if a == [] then inRun else IsSpace(a[|a| - 1])
  }

  /** `Collapse` on one character: whitespace becomes a space unless a run is already open. */
  lemma CollapseChar(c: char, inRun: bool)
    ensures Collapse([c], inRun) == if !IsSpace(c) then [c] else if inRun then [] else [' ']
  {
    assert [c][1..] == [];
  }

  /**
   * `Collapse` of a concatenation is the two pieces collapsed in turn, the
   * second told whether the first ended in whitespace.
   */
  lemma {:induction false} CollapseConcat(a: string, b: string, inRun: bool)
    ensures Collapse(a + b, inRun) == Collapse(a, inRun) + Collapse(b, EndsInRun(a, inRun))
  {
    if a == [] {
      assert a + b == b;
    } else {
      var c, t := a[0], a[1..];
      assert a == [c] + t;
      assert a + b == [c] + (t + b);
      var h := if !IsSpace(c) then [c] else if inRun then [] else [' '];
      var e := EndsInRun(a, inRun);
      assert EndsInRun(t, IsSpace(c)) == e;
      calc {
        Collapse(a + b, inRun);
        { CollapseCons(c, t + b, inRun); }
        h + Collapse(t + b, IsSpace(c));
        { CollapseConcat(t, b, IsSpace(c)); }
        h + (Collapse(t, IsSpace(c)) + Collapse(b, e));
        (h + Collapse(t, IsSpace(c))) + Collapse(b, e);
        { CollapseCons(c, t, inRun); }
        Collapse(a, inRun) + Collapse(b, e);
      }
    }
  }

  lemma CollapseCons(c: char, t: string, inRun: bool)
    ensures Collapse([c] + t, inRun) ==
      (if !IsSpace(c) then [c] else if inRun then [] else [' ']) + Collapse(t, IsSpace(c))
  {
    assert ([c] + t)[0] == c && ([c] + t)[1..] == t;
  }

  predicate AllSpace(w: string) {
    forall i :: 0 <= i < |w| ==> IsSpace(w[i])
  }

  /** A whole run of whitespace becomes one space, or nothing when it continues an open run. */
  lemma {:induction false} CollapseRun(w: string, inRun: bool)
    requires w != [] && AllSpace(w)
    ensures Collapse(w, inRun) == if inRun then [] else [' ']
  {
    if |w| > 1 {
      CollapseRun(w[1..], true);
    }
  }

  /**
   * Between two words, a maximal run of whitespace of any length and kind
   * becomes exactly one space: `re.sub(r'\s+', ' ', ...)`.
   */
  lemma RunBetweenWords(a: string, w: string, b: string)
    requires a != [] && !IsSpace(a[|a| - 1])
    requires w != [] && AllSpace(w)
    ensures Collapse(a + w + b, false) == Collapse(a, false) + [' '] + Collapse(b, true)
  {
    CollapseConcat(a + w, b, false);
    CollapseConcat(a, w, false);
    CollapseRun(w, false);
    assert EndsInRun(a + w, false) == IsSpace(w[|w| - 1]);
  }

  /**
   * A name that is already clean (no illegal character, only single plain
   * spaces, none at either end, at most 200 characters) is returned as it is.
   */
  lemma SanitizeKeepsCleanNames(name: string)
    requires NoIllegal(name) && OnlyPlainSpaces(name) && NoDoubleSpace(name)
    requires name != [] ==> name[0] != ' ' && name[|name| - 1] != ' '
    requires |name| <= MaxNameLength
    ensures SanitizeFilename(name) == name
  {
    RemoveIllegalKeepsClean(name);
    CollapseKeepsClean(name, false);
  }

  // ---------------------------------------------------------------------------
  // format_duration
  // ---------------------------------------------------------------------------

  predicate IsDigit(c: char) {
    '0' <= c <= '9'
  }

  predicate AllDigits(s: string) {
    forall i :: 0 <= i < |s| ==> IsDigit(s[i])
  }

  function DigitChar(d: nat): (c: char)
    requires d < 10
    ensures IsDigit(c)
  {
    "0123456789"[d]
  }

  /** The number a string of decimal digits denotes. */
  function DigitsValue(s: string): nat
    requires AllDigits(s)
  {
    if s == [] then 0 else 10 * DigitsValue(s[..|s| - 1]) + (s[|s| - 1] as int - '0' as int)
  }

  /** Python's `str(n)` / `f"{n}"` for a non-negative integer. */
  function Decimal(n: nat): (r: string)
    ensures r != [] && AllDigits(r)
    ensures n < 10 ==> |r| == 1
    ensures 10 <= n < 100 ==> |r| == 2
  {
    if n < 10 then [DigitChar(n)] else Decimal(n / 10) + [DigitChar(n % 10)]
  }

  lemma {:induction false} DecimalValue(n: nat)
    ensures DigitsValue(Decimal(n)) == n
  {
    if n >= 10 {
      DecimalValue(n / 10);
      var d := Decimal(n);
      assert d[..|d| - 1] == Decimal(n / 10);
    }
  }

  /** Python's `f"{n:02d}"` for `0 <= n < 100`: zero-padded to two digits. */
  function Pad2(n: nat): (r: string)
    requires n < 100
    ensures |r| == 2 && AllDigits(r)
    ensures DigitsValue(r) == n
  {
    DecimalValue(n);
    if n < 10 then
      var r := "0" + Decimal(n);
      assert r[..1] == "0";
      r
    else Decimal(n)
  }

  /**
   * `format_duration`: `divmod` by 3600 and 60 (floor division, as Dafny's
   * `/` and `%` with a positive divisor), printed as `H:MM:SS` when the hour
   * count is positive and as `M:SS` otherwise.
   */
  function FormatDuration(seconds: int): (r: string)
    ensures |r| >= 4 && r[|r| - 3] == ':' && AllDigits(r[|r| - 2..])
    ensures DigitsValue(r[|r| - 2..]) == seconds % 60
  {
    var hours := seconds / 3600;
    var remainder := seconds % 3600;
    var minutes := remainder / 60;
    var secs := remainder % 60;
    if hours > 0 then Decimal(hours) + ":" + Pad2(minutes) + ":" + Pad2(secs)
    else Decimal(minutes) + ":" + Pad2(secs)
  }

  /**
   * Reads back an `M:SS` or `H:MM:SS` clock string: the last two digits are
   * seconds, the two before a second colon are minutes.
   */
  function ParseClock(t: string): Option<int> {
    if |t| < 4 || t[|t| - 3] != ':' || !AllDigits(t[|t| - 2..]) then None
    else
      var ss := t[|t| - 2..];
      var rest := t[..|t| - 3];
      if |rest| >= 4 && rest[|rest| - 3] == ':' then
        var mm := rest[|rest| - 2..];
        var hh := rest[..|rest| - 3];
        if hh != [] && AllDigits(hh) && AllDigits(mm) then
          Some(3600 * DigitsValue(hh) + 60 * DigitsValue(mm) + DigitsValue(ss))
        else None
      else if rest != [] && AllDigits(rest) then Some(60 * DigitsValue(rest) + DigitsValue(ss))
      else None
  }

  /** The clock `t` spelled `H:MM:SS` from its fields reads back as its hours, minutes and seconds. */
  lemma ParseHoursClock(hh: string, mm: string, ss: string) returns (t: string)
    requires hh != [] && AllDigits(hh) && |mm| == 2 && AllDigits(mm) && |ss| == 2 && AllDigits(ss)
    ensures t == hh + ":" + mm + ":" + ss
    ensures ParseClock(t) == Some(3600 * DigitsValue(hh) + 60 * DigitsValue(mm) + DigitsValue(ss))
    ensures |t| >= 7 && t[|t| - 6] == ':'
  {
    var rest := hh + ":" + mm;
    t := rest + ":" + ss;
    assert t[..|t| - 3] == rest && t[|t| - 3] == ':' && t[|t| - 2..] == ss;
    assert rest[..|rest| - 3] == hh && rest[|rest| - 3] == ':' && rest[|rest| - 2..] == mm;
    assert t[|t| - 6] == rest[|rest| - 3];
  }

  /** From one hour on, `format_duration` prints the hours, then the minutes and the seconds padded to two digits. */
  lemma FormatHoursShape(seconds: nat)
    requires seconds >= 3600
    ensures FormatDuration(seconds) == Decimal(seconds / 3600) + ":" + Pad2(seconds % 3600 / 60) + ":" + Pad2(seconds % 3600 % 60)
  {
  }

  /** `divmod` by 3600 and then by 60 splits a duration into hours, minutes and seconds. */
  lemma ClockFields(seconds: nat)
    ensures seconds == 3600 * (seconds / 3600) + 60 * (seconds % 3600 / 60) + seconds % 3600 % 60
    ensures seconds % 3600 / 60 < 60 && seconds % 3600 % 60 == seconds % 60
  {
    var hours, rest := seconds / 3600, seconds % 3600;
    var minutes, secs := rest / 60, rest % 60;
    assert seconds == 3600 * hours + rest;
    assert rest == 60 * minutes + secs;
    SixtyRemainder(seconds, 60 * hours + minutes, secs);
  }

  lemma SixtyRemainder(n: int, q: int, r: int)
    requires 0 <= r < 60 && n == 60 * q + r
    ensures n % 60 == r
  {
  }

  lemma {:induction false} FormatHoursRoundTrip(seconds: nat)
    requires seconds >= 3600
    ensures ParseClock(FormatDuration(seconds)) == Some(seconds)
    ensures |FormatDuration(seconds)| >= 7 && FormatDuration(seconds)[|FormatDuration(seconds)| - 6] == ':'
  {
    var hours := seconds / 3600;
    var minutes := seconds % 3600 / 60;
    var secs := seconds % 3600 % 60;
    ClockFields(seconds);
    DecimalValue(hours);
    FormatHoursShape(seconds);
    var t := ParseHoursClock(Decimal(hours), Pad2(minutes), Pad2(secs));
  }

  lemma {:induction false} FormatMinutesRoundTrip(seconds: nat)
    requires seconds < 3600
    ensures ParseClock(FormatDuration(seconds)) == Some(seconds)
    ensures !(|FormatDuration(seconds)| >= 7 && FormatDuration(seconds)[|FormatDuration(seconds)| - 6] == ':')
  {
    assert seconds / 3600 == 0 && seconds % 3600 == seconds;
    var minutes := seconds / 60;
    var secs := seconds % 60;
    var t := FormatDuration(seconds);
    assert t == Decimal(minutes) + ":" + Pad2(secs);
    assert |Decimal(minutes)| <= 2;
    DecimalValue(minutes);
    var rest := t[..|t| - 3];
    assert t[|t| - 2..] == Pad2(secs);
    assert rest == Decimal(minutes);
    assert seconds == 60 * minutes + secs;
  }

  /**
   * For a non-negative duration the formatted string is `H:MM:SS` (two
   * colons) exactly when it is at least an hour, `M:SS` (one colon)
   * otherwise, and reading the clock back gives the same number of seconds:
   * hours * 3600 + minutes * 60 + seconds, with minutes and seconds below 60.
   */
  lemma FormatDurationRoundTrip(seconds: nat)
    ensures ParseClock(FormatDuration(seconds)) == Some(seconds)
    ensures seconds >= 3600 <==> |FormatDuration(seconds)| >= 7 && FormatDuration(seconds)[|FormatDuration(seconds)| - 6] == ':'
  {
    if seconds >= 3600 {
      FormatHoursRoundTrip(seconds);
    } else {
      FormatMinutesRoundTrip(seconds);
    }
  }

  // ---------------------------------------------------------------------------
  // extract_video_id
  // ---------------------------------------------------------------------------

  /** Length of a YouTube video id, the `{11}` of both patterns. */
  const VideoIdLength: nat := 11

  /** `[a-zA-Z0-9_-]`. */
  predicate IsIdChar(c: char) {
    ('a' <= c <= 'z') || ('A' <= c <= 'Z') || ('0' <= c <= '9') || c == '_' || c == '-'
  }

  /** Eleven id characters start at index `k` of `url`. */
  predicate IdRunAt(url: string, k: nat) {
    k + VideoIdLength <= |url| && forall i :: k <= i < k + VideoIdLength ==> IsIdChar(url[i])
  }

  /** The alternatives of the first pattern, `(?:v=|/v/|youtu\.be/)`. */
  const PrimaryPrefixes: seq<string> := ["v=", "/v/", "youtu.be/"]

  /** The second pattern's prefix, `(?:embed/)`. */
  const EmbedPrefixes: seq<string> := ["embed/"]

  /**
   * A match of `(?:p0|p1|...)([a-zA-Z0-9_-]{11})` starting at index `p`,
   * trying the alternatives in order from `j`: the index where the group starts.
   */
  function AltAt(url: string, prefixes: seq<string>, p: nat, j: nat := 0): (r: Option<nat>)
    ensures r.Some? ==> exists a :: j <= a < |prefixes| && OccursAt(url, prefixes[a], p) && r.value == p + |prefixes[a]|
    ensures r.Some? ==> p <= r.value && IdRunAt(url, r.value)
    ensures r.None? ==> forall a :: j <= a < |prefixes| ==> !(OccursAt(url, prefixes[a], p) && IdRunAt(url, p + |prefixes[a]|))
    decreases |prefixes| - j
  {
    if j >= |prefixes| then None
    else if OccursAt(url, prefixes[j], p) && IdRunAt(url, p + |prefixes[j]|) then Some(p + |prefixes[j]|)
    else AltAt(url, prefixes, p, j + 1)
  }

  /** `re.search`: the leftmost index at or after `from` where the pattern matches. */
  function SearchFrom(url: string, prefixes: seq<string>, from: nat): (r: Option<nat>)
    ensures r.Some? ==> from <= r.value && AltAt(url, prefixes, r.value).Some?
    ensures r.Some? ==> forall q: nat :: from <= q < r.value ==> AltAt(url, prefixes, q).None?
    ensures r.None? ==> forall q: nat :: from <= q ==> AltAt(url, prefixes, q).None?
    decreases |url| - from
  {
    if from + VideoIdLength > |url| then None
    else if AltAt(url, prefixes, from).Some? then Some(from)
    else SearchFrom(url, prefixes, from + 1)
  }

  /** The pattern matches nowhere in `url`. */
  ghost predicate NoMatch(url: string, prefixes: seq<string>) {
    forall q: nat :: AltAt(url, prefixes, q).None?
  }

  /** A match starts at `p` and none starts further left: the match `re.search` reports. */
  ghost predicate LeftmostAt(url: string, prefixes: seq<string>, p: nat) {
    AltAt(url, prefixes, p).Some? && forall q: nat :: q < p ==> AltAt(url, prefixes, q).None?
  }

  /** The eleven characters of the group of a match at `p`. */
  function GroupAt(url: string, prefixes: seq<string>, p: nat): (r: string)
    requires AltAt(url, prefixes, p).Some?
    ensures |r| == VideoIdLength && forall i :: 0 <= i < |r| ==> IsIdChar(r[i])
  {
    var k := AltAt(url, prefixes, p).value;
    url[k..k + VideoIdLength]
  }

  lemma SearchFindsLeftmost(url: string, prefixes: seq<string>, p: nat)
    requires LeftmostAt(url, prefixes, p)
    ensures SearchFrom(url, prefixes, 0) == Some(p)
  {
  }

  /** The group of the leftmost match, if there is a match. */
  function SearchGroup(url: string, prefixes: seq<string>): (r: Option<string>)
    ensures r.Some? ==> |r.value| == VideoIdLength && forall i :: 0 <= i < |r.value| ==> IsIdChar(r.value[i])
    ensures r.None? <==> NoMatch(url, prefixes)
    ensures forall p: nat :: LeftmostAt(url, prefixes, p) ==> r == Some(GroupAt(url, prefixes, p))
  {
    match SearchFrom(url, prefixes, 0)
    case Some(p) =>
      assert LeftmostAt(url, prefixes, p);
      assert forall p': nat :: LeftmostAt(url, prefixes, p') ==> p' == p by {
        forall p': nat | LeftmostAt(url, prefixes, p') ensures p' == p {
          SearchFindsLeftmost(url, prefixes, p');
        }
      }
      Some(GroupAt(url, prefixes, p))
    case None => None
  }

  /**
   * `extract_video_id`: the id after the leftmost `v=`, `/v/` or
   * `youtu.be/` that is followed by eleven id characters; only when there is
   * none, the id after the leftmost such `embed/`; otherwise `None`.
   */
  function ExtractVideoId(url: string): (r: Option<string>)
    ensures r.Some? ==> |r.value| == VideoIdLength && forall i :: 0 <= i < |r.value| ==> IsIdChar(r.value[i])
    ensures r.None? <==> NoMatch(url, PrimaryPrefixes) && NoMatch(url, EmbedPrefixes)
    ensures forall p: nat :: LeftmostAt(url, PrimaryPrefixes, p) ==> r == Some(GroupAt(url, PrimaryPrefixes, p))
    ensures NoMatch(url, PrimaryPrefixes) ==>
      forall p: nat :: LeftmostAt(url, EmbedPrefixes, p) ==> r == Some(GroupAt(url, EmbedPrefixes, p))
  {
    match SearchGroup(url, PrimaryPrefixes)
    case Some(id) => Some(id)
    case None =>
      SearchGroup(url, EmbedPrefixes)
  }

  // ---------------------------------------------------------------------------
  // is_playlist_url
  // ---------------------------------------------------------------------------

  /** `is_playlist_url`: the URL contains `list=` or `/playlist/` somewhere. */
  predicate IsPlaylistUrl(url: string)
    ensures IsPlaylistUrl(url) <==>
      exists j: nat :: OccursAt(url, "list=", j) || OccursAt(url, "/playlist/", j)
  {
    Contains(url, "list=") || Contains(url, "/playlist/")
  }
}
