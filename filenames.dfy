/** The file names the pipeline and the downloader derive from a track:
    `get_safe_filename` (a character filter over "<artist> - <track>.mp3"),
    the `.mp3` to `.npy` rename of the embedding file, and joining a name
    onto a directory. */
module Filenames {

  const Mp3 := ".mp3"
  const Npy := ".npy"

  /** `c.isalnum()` for ASCII characters. */
  predicate IsAlnum(c: char)
  {
    ('a' <= c <= 'z') || ('A' <= c <= 'Z') || ('0' <= c <= '9')
  }

  /** The characters `get_safe_filename` keeps. */
  predicate IsSafe(c: char)
  {
    IsAlnum(c) || c == ' ' || c == '-' || c == '_' || c == '.'
  }

  predicate AllSafe(s: string)
  {
    forall i :: 0 <= i < |s| ==> IsSafe(s[i])
  }

  predicate EndsWith(s: string, suffix: string)
  {
    |suffix| <= |s| && s[|s| - |suffix|..] == suffix
  }

  /** `"".join(c for c in s if c.isalnum() or c in (' ', '-', '_', '.'))` */
  function Filter(s: string): (r: string)
    ensures |r| <= |s|
    ensures AllSafe(r)
  {
    if s == [] then []
    else (if IsSafe(s[0]) then [s[0]] else []) + Filter(s[1..])
  }

  /** `get_safe_filename(track_name, artist_name)` */
  function SafeFilename(trackName: string, artistName: string): string
  {
    Filter(artistName + " - " + trackName + Mp3)
  }

  /** `a` occurs in `b` in order, possibly with gaps. */
  predicate IsSubsequence(a: string, b: string)
    decreases |b|
  {
    a == [] || (b != [] && if a[0] == b[0] then IsSubsequence(a[1..], b[1..]) else IsSubsequence(a, b[1..]))
  }

  /** The filter distributes over concatenation. */
  lemma {:induction false} FilterAppend(a: string, b: string)
    ensures Filter(a + b) == Filter(a) + Filter(b)
  {
    if a == [] {
      assert a + b == b;
    } else {
      var h := if IsSafe(a[0]) then [a[0]] else [];
      assert (a + b)[1..] == a[1..] + b;
      calc {
        Filter(a + b);
        h + Filter(a[1..] + b);
        { FilterAppend(a[1..], b); }
        h + (Filter(a[1..]) + Filter(b));
        (h + Filter(a[1..])) + Filter(b);
      }
    }
  }

  /** A string made only of kept characters passes through unchanged. */
  lemma {:induction false} FilterKeepsSafe(s: string)
    requires AllSafe(s)
    ensures Filter(s) == s
  {
    if s != [] {
      FilterKeepsSafe(s[1..]);
      assert [s[0]] + s[1..] == s;
    }
  }

  /** Sanitising a sanitised name changes nothing. */
  lemma FilterIdempotent(s: string)
    ensures Filter(Filter(s)) == Filter(s)
  {
    FilterKeepsSafe(Filter(s));
  }

  /** The result keeps the input's order: it is a subsequence of it. */
  lemma {:induction false} FilterIsSubsequence(s: string)
    ensures IsSubsequence(Filter(s), s)
  {
    if s != [] {
      FilterIsSubsequence(s[1..]);
      if IsSafe(s[0]) {
        assert Filter(s)[0] == s[0] && Filter(s)[1..] == Filter(s[1..]);
      } else {
        // The first kept character is safe, so it cannot be the dropped s[0].
        assert Filter(s) == Filter(s[1..]);
        assert Filter(s) != [] ==> Filter(s)[0] != s[0];
      }
    }
  }

  /** The result keeps every safe character as often as the input has it,
      and no unsafe one. */
  lemma {:induction false} FilterCounts(s: string)
    ensures forall c :: multiset(Filter(s))[c] == if IsSafe(c) then multiset(s)[c] else 0
  {
    if s != [] {
      FilterCounts(s[1..]);
      assert s == [s[0]] + s[1..];
      assert multiset(s) == multiset([s[0]]) + multiset(s[1..]);
    }
  }

  /** The safe name is the filtered artist, " - ", the filtered track and ".mp3". */
  lemma SafeFilenameParts(trackName: string, artistName: string)
    ensures SafeFilename(trackName, artistName) == Filter(artistName) + " - " + Filter(trackName) + Mp3
  {
    FilterAppend(artistName + " - " + trackName, Mp3);
    FilterAppend(artistName + " - ", trackName);
    FilterAppend(artistName, " - ");
    FilterKeepsSafe(" - ");
    FilterKeepsSafe(Mp3);
  }

  /** The safe name always ends in ".mp3" and never holds a '/'. */
  lemma SafeFilenameShape(trackName: string, artistName: string)
    ensures EndsWith(SafeFilename(trackName, artistName), Mp3)
    ensures AllSafe(SafeFilename(trackName, artistName))
    ensures '/' !in SafeFilename(trackName, artistName)
  {
    SafeFilenameParts(trackName, artistName);
    var r := SafeFilename(trackName, artistName);
    var front := Filter(artistName) + " - " + Filter(trackName);
    assert r == front + Mp3;
    assert r[|r| - 4..] == Mp3;
  }

  /** `s.replace('.mp3', '.npy')`: every non-overlapping occurrence, scanning
      from the left. */
  function Mp3ToNpy(s: string): (r: string)
    ensures |r| == |s|
  {
    if |s| < |Mp3| then s
    else if s[..|Mp3|] == Mp3 then Npy + Mp3ToNpy(s[|Mp3|..])
    else [s[0]] + Mp3ToNpy(s[1..])
  }

  /** A name ending in ".mp3" becomes one ending in ".npy": no earlier match
      can swallow part of the final ".mp3", because ".mp3" does not overlap
      itself. */
  lemma {:induction false} Mp3ToNpyEnds(s: string)
    requires EndsWith(s, Mp3)
    ensures EndsWith(Mp3ToNpy(s), Npy)
    decreases |s|
  {
    var n := |s|;
    if n == 4 {
      assert s[..4] == s == Mp3;
      assert Mp3ToNpy(s) == Npy + Mp3ToNpy([]);
    } else {
      if n < 8 {
        ShortNameHasOneMp3(s);
      }
      var k := if s[..4] == Mp3 then 4 else 1;
      var rest := s[k..];
      assert rest[|rest| - 4..] == s[n - 4..];
      Mp3ToNpyEnds(rest);
      var t := Mp3ToNpy(rest);
      var head := if k == 4 then Npy else [s[0]];
      assert Mp3ToNpy(s) == head + t;
      assert (head + t)[n - 4..] == t[|t| - 4..];
    }
  }

  /** ".mp3" does not overlap itself: a name of 5 to 7 characters ending in
      ".mp3" cannot also start with it, since the trailing '.' would fall on
      one of "mp3". */
  lemma ShortNameHasOneMp3(s: string)
    requires 4 < |s| < 8 && EndsWith(s, Mp3)
    ensures s[..4] != Mp3
  {
    var p := |s| - 4;
    assert s[p] == s[|s| - 4..][0] == '.';
    assert s[..4][p] == s[p];
    assert Mp3[p] != '.';
  }

  /** The rename only writes the characters of ".npy", so it keeps a safe name safe. */
  lemma {:induction false} Mp3ToNpySafe(s: string)
    requires AllSafe(s)
    ensures AllSafe(Mp3ToNpy(s))
  {
    if |s| >= 4 {
      if s[..4] == Mp3 {
        Mp3ToNpySafe(s[4..]);
        assert AllSafe(Npy);
      } else {
        Mp3ToNpySafe(s[1..]);
      }
    }
  }

  /** `directory / name` for a name without a separator. */
  function Join(directory: string, name: string): string
  {
    directory + "/" + name
  }

  /** The last component of a path: what follows its last '/'. */
  function Basename(path: string): string
  {
    if path == [] || path[|path| - 1] == '/' then []
    else Basename(path[..|path| - 1]) + [path[|path| - 1]]
  }

  /** A name without '/' joined onto any directory is the path's last
      component, so the file lands directly inside that directory. */
  lemma {:induction false} JoinBasename(directory: string, name: string)
    requires '/' !in name
    ensures Basename(Join(directory, name)) == name
    decreases |name|
  {
    var p := Join(directory, name);
    if name == [] {
      assert p[|p| - 1] == '/';
    } else {
      var front := name[..|name| - 1];
      assert p[..|p| - 1] == Join(directory, front);
      assert '/' !in front by {
        forall i | 0 <= i < |front| ensures front[i] != '/' {
          assert front[i] == name[i];
        }
      }
      JoinBasename(directory, front);
      assert front + [name[|name| - 1]] == name;
    }
  }

  /** The paths `process_track` derives: the preview under the preview
      directory, the embedding under the embeddings directory. */
  function PreviewPath(previewDir: string, trackName: string, artistName: string): string
  {
    Join(previewDir, SafeFilename(trackName, artistName))
  }

  function EmbeddingPath(embeddingsDir: string, trackName: string, artistName: string): string
  {
    Join(embeddingsDir, Mp3ToNpy(SafeFilename(trackName, artistName)))
  }

  /** The embedding file sits directly in the embeddings directory, its name
      ends in ".npy" and has the same length as the preview's name. */
  lemma EmbeddingPathShape(embeddingsDir: string, trackName: string, artistName: string)
    ensures var name := Mp3ToNpy(SafeFilename(trackName, artistName));
            && Basename(EmbeddingPath(embeddingsDir, trackName, artistName)) == name
            && EndsWith(name, Npy)
            && AllSafe(name)
            && |name| == |SafeFilename(trackName, artistName)|
  {
    var safe := SafeFilename(trackName, artistName);
    SafeFilenameShape(trackName, artistName);
    Mp3ToNpyEnds(safe);
    Mp3ToNpySafe(safe);
    var name := Mp3ToNpy(safe);
    assert '/' !in name by {
      forall i | 0 <= i < |name| ensures name[i] != '/' {
        assert IsSafe(name[i]);
      }
    }
    JoinBasename(embeddingsDir, name);
  }

  /** The preview file sits directly in the preview directory under the safe name. */
  lemma PreviewPathShape(previewDir: string, trackName: string, artistName: string)
    ensures Basename(PreviewPath(previewDir, trackName, artistName)) == SafeFilename(trackName, artistName)
  {
    SafeFilenameShape(trackName, artistName);
    JoinBasename(previewDir, SafeFilename(trackName, artistName));
  }
}
