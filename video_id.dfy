/**
 * `extractVideoId`: the meaning of matching the pattern
 *   ^.*(youtu.be\/|v\/|u\/\w\/|embed\/|watch\?v=|\&v=)([^#\&\?]*).*
 * against a URL, followed by the check that the second group has 11 characters.
 *
 * The greedy leading `.*` gives back characters from the longest prefix it
 * can take, and `.` stops at a line terminator, so the first group starts at
 * the RIGHTMOST position, before the first line terminator, where one of the
 * six markers matches. The second group is then the longest run of characters
 * other than `#`, `&` and `?` after that marker (it may cross a line
 * terminator). The trailing `.*` always succeeds. A run whose length is not 11
 * is rejected; no earlier marker is tried.
 */
module VideoId {
  import opened Wrappers

  /** The error `extractVideoId` throws. */
  datatype Error = InvalidYouTubeUrl

  /** The characters `.` does not match: LF, CR, LINE SEPARATOR, PARAGRAPH SEPARATOR. */
  predicate IsLineTerminator(c: char)
  {
    c == '\n' || c == '\r' || c == '\U{2028}' || c == '\U{2029}'
  }

  /** The class `\w`. */
  predicate IsWordChar(c: char)
  {
    ('a' <= c <= 'z') || ('A' <= c <= 'Z') || ('0' <= c <= '9') || c == '_'
  }

  /** The characters the class `[^#&?]` excludes. */
  predicate IsDelimiter(c: char)
  {
    c == '#' || c == '&' || c == '?'
  }

  /**
   * Length of the marker (first group) that matches at position `i`, tried in
   * the pattern's order, or 0 when none does. The `.` in `youtu.be/` is any
   * character but a line terminator.
   */
  function MarkerAt(url: string, i: nat): (n: nat)
    requires i <= |url|
    ensures n > 0 ==> i + n <= |url|
    ensures n in {0, 2, 3, 4, 6, 8, 9}
  {
    var len := |url| - i;
    if len >= 9 && url[i] == 'y' && url[i + 1] == 'o' && url[i + 2] == 'u' && url[i + 3] == 't' && url[i + 4] == 'u'
       && !IsLineTerminator(url[i + 5]) && url[i + 6] == 'b' && url[i + 7] == 'e' && url[i + 8] == '/' then 9
    else if len >= 2 && url[i] == 'v' && url[i + 1] == '/' then 2
    else if len >= 4 && url[i] == 'u' && url[i + 1] == '/' && IsWordChar(url[i + 2]) && url[i + 3] == '/' then 4
    else if len >= 6 && url[i] == 'e' && url[i + 1] == 'm' && url[i + 2] == 'b' && url[i + 3] == 'e' && url[i + 4] == 'd'
       && url[i + 5] == '/' then 6
    else if len >= 8 && url[i] == 'w' && url[i + 1] == 'a' && url[i + 2] == 't' && url[i + 3] == 'c' && url[i + 4] == 'h'
       && url[i + 5] == '?' && url[i + 6] == 'v' && url[i + 7] == '=' then 8
    else if len >= 3 && url[i] == '&' && url[i + 1] == 'v' && url[i + 2] == '=' then 3
    else 0
  }

  /** Index of the first line terminator, or `|url|` if there is none. */
  function FirstLineTerminator(url: string): (p: nat)
    ensures p <= |url|
    ensures forall k :: 0 <= k < p ==> !IsLineTerminator(url[k])
    ensures p < |url| ==> IsLineTerminator(url[p])
  {
    if url == [] || IsLineTerminator(url[0]) then 0
    else 1 + FirstLineTerminator(url[1..])
  }

  /** The rightmost position below `n` where a marker matches. */
  function LastMarkerBefore(url: string, n: nat): (r: Option<nat>)
    requires n <= |url|
    ensures r.Some? ==> r.value < n && MarkerAt(url, r.value) > 0
    ensures r.Some? ==> forall j :: r.value < j < n ==> MarkerAt(url, j) == 0
    ensures r.None? ==> forall j :: 0 <= j < n ==> MarkerAt(url, j) == 0
  {
    if n == 0 then None
    else if MarkerAt(url, n - 1) > 0 then Some(n - 1)
    else LastMarkerBefore(url, n - 1)
  }

  /** End of the longest run of non-delimiter characters starting at `from`. */
  function RunEnd(url: string, from: nat): (e: nat)
    requires from <= |url|
    ensures from <= e <= |url|
    ensures forall k :: from <= k < e ==> !IsDelimiter(url[k])
    ensures e < |url| ==> IsDelimiter(url[e])
    decreases |url| - from
  {
    if from == |url| || IsDelimiter(url[from]) then from
    else RunEnd(url, from + 1)
  }

  /** `url.match(regExp)` reduced to its second group, or None when there is no match. */
  function SecondGroup(url: string): Option<string>
  {
    match LastMarkerBefore(url, FirstLineTerminator(url))
    case None => None
    case Some(i) =>
      var from := i + MarkerAt(url, i);
      Some(url[from..RunEnd(url, from)])
  }

  /** `extractVideoId(url)`: the second group when it has 11 characters; otherwise it throws. */
  function ExtractVideoId(url: string): (r: Result<string, Error>)
    ensures r.Ok? ==> |r.value| == 11
    ensures r.Ok? ==> forall k :: 0 <= k < |r.value| ==> !IsDelimiter(r.value[k])
  {
    match SecondGroup(url)
    case Some(g) => if |g| == 11 then Ok(g) else Err(InvalidYouTubeUrl)
    case None => Err(InvalidYouTubeUrl)
  }

  // ---- The same semantics stated declaratively ----

  /** The leading `.*` can consume exactly `url[..j]`. */
  ghost predicate DotStarCovers(url: string, j: nat)
  {
    j <= |url| && forall k :: 0 <= k < j ==> !IsLineTerminator(url[k])
  }

  /**
   * `i` is where the match's first group starts: a marker matches there, the
   * leading `.*` can reach it, and no later position it can reach holds a marker.
   */
  ghost predicate ChosenMarker(url: string, i: nat)
  {
    && i < |url|
    && DotStarCovers(url, i)
    && MarkerAt(url, i) > 0
    && forall j :: i < j <= |url| && DotStarCovers(url, j) ==> MarkerAt(url, j) == 0
  }

  /** `url[from..to]` is a longest run of characters other than `#`, `&` and `?`. */
  ghost predicate MaximalRun(url: string, from: nat, to: nat)
  {
    && from <= to <= |url|
    && (forall k :: from <= k < to ==> !IsDelimiter(url[k]))
    && (to == |url| || IsDelimiter(url[to]))
  }

  /** Whether `id` is what `extractVideoId` returns, stated without the search. */
  ghost predicate AcceptedId(url: string, id: string)
  {
    exists i: nat :: ChosenMarker(url, i) &&
      var from := i + MarkerAt(url, i);
      && from + 11 <= |url|
      && MaximalRun(url, from, from + 11)
      && id == url[from..from + 11]
  }

  /** At most one position can be the chosen marker. */
  lemma ChosenMarkerUnique(url: string, i: nat, i': nat)
    requires ChosenMarker(url, i) && ChosenMarker(url, i')
    ensures i == i'
  {
  }

  /** Two maximal runs from the same start end at the same place. */
  lemma MaximalRunUnique(url: string, from: nat, to: nat, to': nat)
    requires MaximalRun(url, from, to) && MaximalRun(url, from, to')
    ensures to == to'
  {
  }

  /** The search finds exactly the chosen marker, when there is one. */
  lemma {:induction false} SearchFindsChosenMarker(url: string)
    ensures var p := FirstLineTerminator(url);
            match LastMarkerBefore(url, p)
            case Some(i) => ChosenMarker(url, i)
            case None => forall i: nat :: !ChosenMarker(url, i)
  {
    var p := FirstLineTerminator(url);
    // A position the leading `.*` can reach is at most p.
    forall j: nat | DotStarCovers(url, j)
      ensures j <= p
    {
    }
    match LastMarkerBefore(url, p)
    case Some(i) =>
      assert DotStarCovers(url, i);
      forall j: nat | i < j <= |url| && DotStarCovers(url, j)
        ensures MarkerAt(url, j) == 0
      {
        if j == p {
          NoMarkerAtLineTerminator(url, p);
        }
      }
    case None =>
      forall i: nat
        ensures !ChosenMarker(url, i)
      {
        if ChosenMarker(url, i) {
          assert i <= p;
          if i == p {
            NoMarkerAtLineTerminator(url, p);
          }
          assert false;
        }
      }
  }

  /** No marker starts at a line terminator or at the end of the string. */
  lemma NoMarkerAtLineTerminator(url: string, p: nat)
    requires p <= |url|
    requires p < |url| ==> IsLineTerminator(url[p])
    ensures MarkerAt(url, p) == 0
  {
  }

  /**
   * `extractVideoId` returns `id` exactly when the declarative statement holds:
   * the chosen marker is followed by a longest run of exactly 11 characters,
   * and that run is `id`.
   */
  lemma ExtractVideoIdAccepts(url: string, id: string)
    ensures ExtractVideoId(url) == Ok(id) <==> AcceptedId(url, id)
  {
    if ExtractVideoId(url) == Ok(id) {
      AcceptedWhenExtracted(url, id);
    }
    if AcceptedId(url, id) {
      ExtractedWhenAccepted(url, id);
    }
  }

  lemma AcceptedWhenExtracted(url: string, id: string)
    requires ExtractVideoId(url) == Ok(id)
    ensures AcceptedId(url, id)
  {
    var p := FirstLineTerminator(url);
    assert LastMarkerBefore(url, p).Some?;
    var i := LastMarkerBefore(url, p).value;
    var from := i + MarkerAt(url, i);
    var e := RunEnd(url, from);
    assert SecondGroup(url) == Some(url[from..e]);
    assert url[from..e] == id && e == from + 11;
    assert MaximalRun(url, from, from + 11);
    SearchFindsChosenMarker(url);
    assert ChosenMarker(url, i);
  }

  lemma ExtractedWhenAccepted(url: string, id: string)
    requires AcceptedId(url, id)
    ensures ExtractVideoId(url) == Ok(id)
  {
    var i: nat :| ChosenMarker(url, i) &&
      var from := i + MarkerAt(url, i);
      && from + 11 <= |url| && MaximalRun(url, from, from + 11) && id == url[from..from + 11];
    SearchIsChosen(url, i);
    var from := i + MarkerAt(url, i);
    MaximalRunUnique(url, from, RunEnd(url, from), from + 11);
    ExtractedFromSearch(url, i);
  }

  /** When the search stops at `i` and the run after it has 11 characters, that run is the id. */
  lemma ExtractedFromSearch(url: string, i: nat)
    requires LastMarkerBefore(url, FirstLineTerminator(url)) == Some(i)
    requires RunEnd(url, i + MarkerAt(url, i)) == i + MarkerAt(url, i) + 11
    ensures ExtractVideoId(url) == Ok(url[i + MarkerAt(url, i)..i + MarkerAt(url, i) + 11])
  {
    var from := i + MarkerAt(url, i);
    var g := url[from..from + 11];
    assert SecondGroup(url) == Some(g);
    assert |g| == 11;
  }

  /** The search returns the chosen marker. */
  lemma SearchIsChosen(url: string, i: nat)
    requires ChosenMarker(url, i)
    ensures LastMarkerBefore(url, FirstLineTerminator(url)) == Some(i)
  {
    SearchFindsChosenMarker(url);
    var r := LastMarkerBefore(url, FirstLineTerminator(url));
    if r.Some? {
      ChosenMarkerUnique(url, i, r.value);
    }
  }

  /** `extractVideoId` throws when no marker is reachable by the leading `.*`. */
  lemma NoMarkerThrows(url: string)
    requires forall i: nat :: !ChosenMarker(url, i)
    ensures ExtractVideoId(url) == Err(InvalidYouTubeUrl)
  {
    SearchFindsChosenMarker(url);
  }

  /**
   * `extractVideoId` throws when the run after the chosen marker is not 11
   * characters long, even if an earlier marker is followed by 11 characters.
   */
  lemma WrongRunLengthThrows(url: string, i: nat, to: nat)
    requires ChosenMarker(url, i)
    requires MaximalRun(url, i + MarkerAt(url, i), to) && to - (i + MarkerAt(url, i)) != 11
    ensures ExtractVideoId(url) == Err(InvalidYouTubeUrl)
  {
    SearchFindsChosenMarker(url);
    var p := FirstLineTerminator(url);
    var i' := LastMarkerBefore(url, p).value;
    ChosenMarkerUnique(url, i, i');
    var from := i + MarkerAt(url, i);
    assert MaximalRun(url, from, RunEnd(url, from));
    MaximalRunUnique(url, from, to, RunEnd(url, from));
  }

  // ---- Helpers for concrete URLs ----

  /** The first two characters of some marker. */
  predicate MarkerPair(c: char, d: char)
  {
    || (c == 'y' && d == 'o') || (c == 'v' && d == '/') || (c == 'u' && d == '/')
    || (c == 'e' && d == 'm') || (c == 'w' && d == 'a') || (c == '&' && d == 'v')
  }

  /** Every marker begins with one of the six pairs. */
  lemma MarkerNeedsPair(url: string, j: nat)
    requires j <= |url| && MarkerAt(url, j) > 0
    ensures j + 1 < |url| && MarkerPair(url[j], url[j + 1])
  {
    var rest := url[j..];
    assert rest[0] == url[j] && rest[1] == url[j + 1];
  }

  /** No marker starts strictly between `i` and `n` when no such position starts a pair. */
  lemma NoPairNoMarker(url: string, i: nat, n: nat)
    requires i <= n <= |url|
    requires forall j :: i < j < n && j + 1 < |url| ==> !MarkerPair(url[j], url[j + 1])
    ensures forall j :: i < j < n ==> MarkerAt(url, j) == 0
  {
    forall j | i < j < n
      ensures MarkerAt(url, j) == 0
    {
      if MarkerAt(url, j) > 0 {
        MarkerNeedsPair(url, j);
      }
    }
  }

  /** In a URL without line terminators, the last marker is the chosen one. */
  lemma LastMarkerIsChosen(url: string, i: nat)
    requires forall k :: 0 <= k < |url| ==> !IsLineTerminator(url[k])
    requires i < |url| && MarkerAt(url, i) > 0
    requires forall j :: i < j < |url| ==> MarkerAt(url, j) == 0
    ensures ChosenMarker(url, i)
  {
    NoMarkerAtLineTerminator(url, |url|);
  }

  /** In a URL without line terminators, a last marker followed by 11 id characters yields them. */
  lemma LastMarkerAccepted(url: string, i: nat, id: string)
    requires forall k :: 0 <= k < |url| ==> !IsLineTerminator(url[k])
    requires i < |url| && MarkerAt(url, i) > 0
    requires forall j :: i < j < |url| ==> MarkerAt(url, j) == 0
    requires i + MarkerAt(url, i) + 11 <= |url|
    requires MaximalRun(url, i + MarkerAt(url, i), i + MarkerAt(url, i) + 11)
    requires id == url[i + MarkerAt(url, i)..i + MarkerAt(url, i) + 11]
    ensures ExtractVideoId(url) == Ok(id)
  {
    LastMarkerIsChosen(url, i);
    assert AcceptedId(url, id);
    ExtractVideoIdAccepts(url, id);
  }
}
