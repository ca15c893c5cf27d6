/**
 * File names: the audio file is named from the song's album, title and
 * artist with a fixed `.mp3` suffix; the lyric file name is derived from it
 * with Python's `str.replace('.mp3', '.lrc')`.
 */
module Naming {

  const Separator: string := " - "
  const AudioSuffix: string := ".mp3"
  const LyricSuffix: string := ".lrc"

  /** `f"{album} - {song} - {artist}.mp3"`: the suffix does not depend on the quality tier. */
  function SongFilename(album: string, song: string, artist: string): (r: string)
    ensures |r| == |album| + |song| + |artist| + 10
    ensures r[..|album|] == album
    ensures r[|r| - 4..] == AudioSuffix
  {
    album + Separator + song + Separator + artist + AudioSuffix
  }

  /** Whether `pat` occurs in `s` starting at index i. */
  predicate OccursAt(s: string, pat: string, i: nat) {
    i + |pat| <= |s| && s[i..i + |pat|] == pat
  }

  /**
   * Python's `s.replace(pat, rep)` for a non-empty `pat`: scanning left to
   * right, every non-overlapping occurrence is replaced.
   */
  function ReplaceAll(s: string, pat: string, rep: string): (r: string)
    requires |pat| > 0
    ensures forall c :: c in r ==> c in s || c in rep
    decreases |s|
  {
    if |s| < |pat| then s
    else if s[..|pat|] == pat then rep + ReplaceAll(s[|pat|..], pat, rep)
    else [s[0]] + ReplaceAll(s[1..], pat, rep)
  }

  /** `song_filename.replace('.mp3', '.lrc')`. */
  function LyricFilename(songFilename: string): (r: string)
    ensures |r| == |songFilename|
  {
    ReplaceAllLength(songFilename, AudioSuffix, LyricSuffix);
    ReplaceAll(songFilename, AudioSuffix, LyricSuffix)
  }

  /** Replacing with a string of the same length keeps the length. */
  lemma {:induction false} ReplaceAllLength(s: string, pat: string, rep: string)
    requires |pat| > 0 && |rep| == |pat|
    ensures |ReplaceAll(s, pat, rep)| == |s|
    decreases |s|
  {
    if |s| < |pat| {
    } else if s[..|pat|] == pat {
      ReplaceAllLength(s[|pat|..], pat, rep);
    } else {
      ReplaceAllLength(s[1..], pat, rep);
    }
  }

  /** A string with no occurrence of `pat` is returned unchanged. */
  lemma {:induction false} ReplaceAllNoOccurrence(s: string, pat: string, rep: string)
    requires |pat| > 0
    requires forall i: nat :: !OccursAt(s, pat, i)
    ensures ReplaceAll(s, pat, rep) == s
    decreases |s|
  {
    if |s| >= |pat| {
      assert !OccursAt(s, pat, 0);
      forall i: nat ensures !OccursAt(s[1..], pat, i) {
        assert !OccursAt(s, pat, i + 1);
        if i + |pat| <= |s| - 1 {
          assert s[1..][i..i + |pat|] == s[i + 1..i + 1 + |pat|];
        }
      }
      ReplaceAllNoOccurrence(s[1..], pat, rep);
    }
  }

  /** One step of ReplaceAll at a position where `pat` does not start. */
  lemma ReplaceAllSkip(s: string, pat: string, rep: string)
    requires |pat| > 0 && |s| > 0
    requires |s| >= |pat| ==> s[..|pat|] != pat
    ensures ReplaceAll(s, pat, rep) == [s[0]] + ReplaceAll(s[1..], pat, rep)
  {
    if |s| < |pat| {
      assert ReplaceAll(s[1..], pat, rep) == s[1..];
      assert s == [s[0]] + s[1..];
    }
  }

  /**
   * `x + t` does not start with `pat` when `x` does not and no occurrence can
   * reach from `x` into `t`.
   */
  lemma NoPrefixInConcat(x: string, t: string, pat: string)
    requires 0 < |x| && 0 < |t| && 0 < |pat|
    requires forall k :: 1 <= k < |pat| ==> pat[k] != t[0]
    requires |x| < |pat| || x[..|pat|] != pat
    ensures |x + t| >= |pat| ==> (x + t)[..|pat|] != pat
  {
    if |x + t| >= |pat| {
      if |x| < |pat| {
        assert (x + t)[..|pat|][|x|] == t[0];
      } else {
        assert (x + t)[..|pat|] == x[..|pat|];
      }
    }
  }

  /**
   * Replacement distributes over a concatenation when no occurrence of `pat`
   * can straddle the boundary, which holds when `t` starts with a character
   * that appears nowhere in `pat` past its first position.
   */
  lemma {:induction false} ReplaceAllConcat(x: string, t: string, pat: string, rep: string)
    requires |pat| > 0 && |t| > 0
    requires forall k :: 1 <= k < |pat| ==> pat[k] != t[0]
    ensures ReplaceAll(x + t, pat, rep) == ReplaceAll(x, pat, rep) + ReplaceAll(t, pat, rep)
    decreases |x|, 1
  {
    if x == [] {
      assert x + t == t;
    } else if |x| < |pat| || x[..|pat|] != pat {
      ReplaceAllConcatSkip(x, t, pat, rep);
    } else {
      ReplaceAllConcatMatch(x, t, pat, rep);
    }
  }

  /** ReplaceAllConcat when `x` does not start with `pat`. */
  lemma {:induction false} ReplaceAllConcatSkip(x: string, t: string, pat: string, rep: string)
    requires |pat| > 0 && |t| > 0 && |x| > 0
    requires forall k :: 1 <= k < |pat| ==> pat[k] != t[0]
    requires |x| < |pat| || x[..|pat|] != pat
    ensures ReplaceAll(x + t, pat, rep) == ReplaceAll(x, pat, rep) + ReplaceAll(t, pat, rep)
    decreases |x|, 0
  {
    var xt := x + t;
    NoPrefixInConcat(x, t, pat);
    assert xt[0] == x[0] && xt[1..] == x[1..] + t;
    calc {
      ReplaceAll(xt, pat, rep);
    == { ReplaceAllSkip(xt, pat, rep); }
      [x[0]] + ReplaceAll(x[1..] + t, pat, rep);
    == { ReplaceAllConcat(x[1..], t, pat, rep); }
      [x[0]] + (ReplaceAll(x[1..], pat, rep) + ReplaceAll(t, pat, rep));
    == { ReplaceAllSkip(x, pat, rep); }
      ReplaceAll(x, pat, rep) + ReplaceAll(t, pat, rep);
    }
  }

  /** ReplaceAllConcat when `x` starts with `pat`. */
  lemma {:induction false} ReplaceAllConcatMatch(x: string, t: string, pat: string, rep: string)
    requires |pat| > 0 && |t| > 0 && |x| >= |pat|
    requires forall k :: 1 <= k < |pat| ==> pat[k] != t[0]
    requires x[..|pat|] == pat
    ensures ReplaceAll(x + t, pat, rep) == ReplaceAll(x, pat, rep) + ReplaceAll(t, pat, rep)
    decreases |x|, 0
  {
    var xt := x + t;
    assert xt[..|pat|] == pat;
    assert xt[|pat|..] == x[|pat|..] + t;
    ReplaceAllConcat(x[|pat|..], t, pat, rep);
  }

  /** A prefix in which `pat` cannot start is copied unchanged. */
  lemma {:induction false} ReplaceAllFreePrefix(x: string, s: string, pat: string, rep: string)
    requires |pat| > 0
    requires forall i :: 0 <= i < |x| ==> x[i] != pat[0]
    ensures ReplaceAll(x + s, pat, rep) == x + ReplaceAll(s, pat, rep)
    decreases |x|
  {
    if x == [] {
      assert x + s == s;
    } else {
      var xs := x + s;
      assert xs[0] == x[0] && xs[1..] == x[1..] + s;
      assert |xs| >= |pat| ==> xs[..|pat|][0] != pat[0];
      calc {
        ReplaceAll(xs, pat, rep);
      == { ReplaceAllSkip(xs, pat, rep); }
        [x[0]] + ReplaceAll(x[1..] + s, pat, rep);
      == { ReplaceAllFreePrefix(x[1..], s, pat, rep); }
        [x[0]] + (x[1..] + ReplaceAll(s, pat, rep));
      == { assert x == [x[0]] + x[1..]; }
        x + ReplaceAll(s, pat, rep);
      }
    }
  }

  /** `pat` replaced in itself gives `rep`. */
  lemma ReplaceAllWhole(pat: string, rep: string)
    requires |pat| > 0
    ensures ReplaceAll(pat, pat, rep) == rep
  {
    assert pat[..|pat|] == pat && pat[|pat|..] == [];
  }

  /**
   * ReplaceAll over `a + sep + b + sep + c + suffix` for a separator in which
   * `pat` cannot start or straddle into, and a suffix equal to `pat`.
   */
  lemma {:induction false} ReplaceAllJoined(a: string, b: string, c: string, sep: string, pat: string, rep: string)
    requires |pat| > 0 && |sep| > 0
    requires forall i :: 0 <= i < |sep| ==> sep[i] != pat[0]
    requires forall k :: 1 <= k < |pat| ==> pat[k] != sep[0] && pat[k] != pat[0]
    ensures ReplaceAll(a + sep + b + sep + c + pat, pat, rep)
      == ReplaceAll(a, pat, rep) + sep + ReplaceAll(b, pat, rep) + sep + ReplaceAll(c, pat, rep) + rep
  {
    var tail2 := sep + (c + pat);
    var tail1 := (sep + b) + tail2;
    assert a + sep + b + sep + c + pat == a + tail1;
    calc {
      ReplaceAll(a + tail1, pat, rep);
    == { ReplaceAllConcat(a, tail1, pat, rep); }
      ReplaceAll(a, pat, rep) + ReplaceAll(tail1, pat, rep);
    == { ReplaceAllConcat(sep + b, tail2, pat, rep); }
      ReplaceAll(a, pat, rep) + ReplaceAll(sep + b, pat, rep) + ReplaceAll(tail2, pat, rep);
    == { ReplaceAllFreePrefix(sep, b, pat, rep); }
      ReplaceAll(a, pat, rep) + (sep + ReplaceAll(b, pat, rep)) + ReplaceAll(tail2, pat, rep);
    == { ReplaceAllFreePrefix(sep, c + pat, pat, rep); }
      ReplaceAll(a, pat, rep) + (sep + ReplaceAll(b, pat, rep)) + (sep + ReplaceAll(c + pat, pat, rep));
    == { ReplaceAllConcat(c, pat, pat, rep); ReplaceAllWhole(pat, rep); }
      ReplaceAll(a, pat, rep) + (sep + ReplaceAll(b, pat, rep)) + (sep + (ReplaceAll(c, pat, rep) + rep));
    }
  }

  /**
   * The lyric file name is every field with its own `.mp3` substrings turned
   * into `.lrc`, joined as before, with the suffix turned into `.lrc`.
   */
  lemma LyricFilenameOfSongFilename(album: string, song: string, artist: string)
    ensures LyricFilename(SongFilename(album, song, artist))
      == ReplaceAll(album, AudioSuffix, LyricSuffix) + Separator
       + ReplaceAll(song, AudioSuffix, LyricSuffix) + Separator
       + ReplaceAll(artist, AudioSuffix, LyricSuffix) + LyricSuffix
  {
    ReplaceAllJoined(album, song, artist, Separator, AudioSuffix, LyricSuffix);
  }

  /** When no field contains `.mp3`, the lyric file is the audio file with its suffix swapped. */
  lemma LyricFilenameSwapsSuffix(album: string, song: string, artist: string)
    requires forall i: nat :: !OccursAt(album, AudioSuffix, i)
    requires forall i: nat :: !OccursAt(song, AudioSuffix, i)
    requires forall i: nat :: !OccursAt(artist, AudioSuffix, i)
    ensures LyricFilename(SongFilename(album, song, artist)) == album + Separator + song + Separator + artist + LyricSuffix
  {
    LyricFilenameOfSongFilename(album, song, artist);
    ReplaceAllNoOccurrence(album, AudioSuffix, LyricSuffix);
    ReplaceAllNoOccurrence(song, AudioSuffix, LyricSuffix);
    ReplaceAllNoOccurrence(artist, AudioSuffix, LyricSuffix);
  }

  /** The file name with its last four characters (the suffix) removed. */
  function Stem(filename: string): string
    requires |filename| >= 4
  {
    filename[..|filename| - 4]
  }

  /**
   * A `.mp3` inside a field is rewritten too, so the lyric file then does not
   * share the audio file's stem.
   */
  lemma LyricFilenameRewritesFields(albumStem: string, song: string, artist: string)
    requires forall i :: 0 <= i < |albumStem| ==> albumStem[i] != '.'
    requires forall i :: 0 <= i < |song| ==> song[i] != '.'
    requires forall i :: 0 <= i < |artist| ==> artist[i] != '.'
    ensures LyricFilename(SongFilename(albumStem + AudioSuffix, song, artist))
      == albumStem + LyricSuffix + Separator + song + Separator + artist + LyricSuffix
    ensures LyricFilename(SongFilename(albumStem + AudioSuffix, song, artist))
      != Stem(SongFilename(albumStem + AudioSuffix, song, artist)) + LyricSuffix
  {
    var o, n := AudioSuffix, LyricSuffix;
    var album := albumStem + o;
    LyricFilenameOfSongFilename(album, song, artist);
    assert ReplaceAll(album, o, n) == albumStem + n by {
      ReplaceAllFreePrefix(albumStem, o, o, n);
      ReplaceAllWhole(o, n);
    }
    assert ReplaceAll(song, o, n) == song by {
      assert song + [] == song;
      ReplaceAllFreePrefix(song, [], o, n);
    }
    assert ReplaceAll(artist, o, n) == artist by {
      assert artist + [] == artist;
      ReplaceAllFreePrefix(artist, [], o, n);
    }
    var lyric := LyricFilename(SongFilename(album, song, artist));
    var swapped := Stem(SongFilename(album, song, artist)) + n;
    assert lyric[|albumStem| + 1] == 'l';
    assert swapped[|albumStem| + 1] == 'm';
  }
}
