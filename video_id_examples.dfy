/**
 * `extractVideoId` on concrete URLs. Each URL is built from short pieces so
 * that the facts about it follow from facts about the pieces.
 */
module VideoIdExamples {
  import opened Wrappers
  import opened VideoId

  const Id: string := "dQw4w9WgXcQ"
  const ShortLink: string := "https://" + "youtu.be/" + Id
  const WatchLink: string := "youtube.com/" + "watch?v=" + Id
  const LaterVLink: string := WatchLink + "&v=1"

  // ---- Facts about strings built by concatenation ----

  /** No line terminator anywhere in `s`. */
  predicate Plain(s: string)
  {
    forall k :: 0 <= k < |s| ==> !IsLineTerminator(s[k])
  }

  /** No delimiter anywhere in `s`. */
  predicate NoDelimiters(s: string)
  {
    forall k :: 0 <= k < |s| ==> !IsDelimiter(s[k])
  }

  /** No position from `i` on starts a marker's first two characters. */
  predicate NoPairFrom(s: string, i: nat)
  {
    forall j :: i <= j && j + 1 < |s| ==> !MarkerPair(s[j], s[j + 1])
  }

  lemma PlainConcat(a: string, b: string)
    requires Plain(a) && Plain(b)
    ensures Plain(a + b)
  {
    forall k | 0 <= k < |a + b|
      ensures !IsLineTerminator((a + b)[k])
    {
      if k >= |a| {
        assert (a + b)[k] == b[k - |a|];
      }
    }
  }

  lemma NoPairConcat(a: string, b: string, i: nat)
    requires NoPairFrom(a, i)
    requires NoPairFrom(b, if i <= |a| then 0 else i - |a|)
    requires i < |a| && |b| > 0 ==> !MarkerPair(a[|a| - 1], b[0])
    ensures NoPairFrom(a + b, i)
  {
    forall j | i <= j && j + 1 < |a + b|
      ensures !MarkerPair((a + b)[j], (a + b)[j + 1])
    {
      if j + 1 < |a| {
        assert (a + b)[j] == a[j] && (a + b)[j + 1] == a[j + 1];
      } else if j + 1 == |a| {
        assert (a + b)[j] == a[|a| - 1] && (a + b)[j + 1] == b[0];
      } else {
        assert (a + b)[j] == b[j - |a|] && (a + b)[j + 1] == b[j + 1 - |a|];
      }
    }
  }

  /** `youtu.be/` at `i` is recognised as a 9-character marker. */
  lemma ShortMarkerAt(url: string, i: nat)
    requires i + 9 <= |url| && url[i..i + 9] == "youtu.be/"
    ensures MarkerAt(url, i) == 9
  {
    var rest := url[i..];
    assert rest[..9] == url[i..i + 9];
    assert rest[..5] == "youtu" && rest[5] == '.' && rest[6..9] == "be/";
  }

  /** `watch?v=` at `i` is recognised as an 8-character marker. */
  lemma WatchMarkerAt(url: string, i: nat)
    requires i + 8 <= |url| && url[i..i + 8] == "watch?v="
    ensures MarkerAt(url, i) == 8
  {
    var rest := url[i..];
    assert rest[..8] == url[i..i + 8];
    assert rest[0] == 'w';
    assert rest[..5][0] == 'w' && rest[..2][0] == 'w' && rest[..6][0] == 'w';
  }

  /** `&v=` at `i` is recognised as a 3-character marker. */
  lemma AmpMarkerAt(url: string, i: nat)
    requires i + 3 <= |url| && url[i..i + 3] == "&v="
    ensures MarkerAt(url, i) == 3
  {
    var rest := url[i..];
    assert rest[..3] == url[i..i + 3];
    assert rest[0] == '&';
    if |rest| >= 9 {
      assert rest[..5][0] == '&';
    }
    if |rest| >= 8 {
      assert rest[..8][0] == '&';
    }
    if |rest| >= 6 {
      assert rest[..6][0] == '&';
    }
    assert rest[..2][0] == '&';
  }

  /** The middle piece of a three-piece concatenation. */
  lemma MiddlePiece(p: string, m: string, t: string)
    ensures (p + m + t)[|p|..|p| + |m|] == m
  {
    assert (p + m + t)[..|p| + |m|] == p + m;
  }

  /**
   * When `url` starts with `p + c`, `c` has no delimiter and is followed by a
   * delimiter or the end, `c` is the longest run after `p`.
   */
  lemma RunOfPiece(url: string, p: string, c: string)
    requires |p| + |c| <= |url| && url[..|p| + |c|] == p + c
    requires NoDelimiters(c)
    requires |p| + |c| == |url| || IsDelimiter(url[|p| + |c|])
    ensures MaximalRun(url, |p|, |p| + |c|) && url[|p|..|p| + |c|] == c
  {
    forall k | |p| <= k < |p| + |c|
      ensures url[k] == c[k - |p|]
    {
      assert url[k] == url[..|p| + |c|][k] == (p + c)[k];
    }
  }

  // ---- The three URLs ----

  lemma IdFacts()
    ensures |Id| == 11 && Plain(Id) && NoDelimiters(Id)
    ensures NoPairFrom(Id, 0)
  {
    IdPlain();
  }

  lemma IdPlain()
    ensures Plain(Id) && NoDelimiters(Id)
  {
  }

  lemma ShortLinkPlain()
    ensures Plain(ShortLink)
  {
    IdFacts();
    assert Plain("https://") && Plain("youtu.be/");
    PlainConcat("https://", "youtu.be/");
    PlainConcat("https://" + "youtu.be/", Id);
  }

  lemma ShortLinkMarker()
    ensures MarkerAt(ShortLink, 8) == 9
  {
    MiddlePiece("https://", "youtu.be/", Id);
    ShortMarkerAt(ShortLink, 8);
  }

  lemma ShortLinkNoLaterPair()
    ensures NoPairFrom(ShortLink, 9)
  {
    IdFacts();
    assert NoPairFrom("youtu.be/", 1);
    NoPairConcat("https://", "youtu.be/", 9);
    NoPairConcat("https://" + "youtu.be/", Id, 9);
  }

  /** A short link: the marker `youtu.be/` at 8 is followed by the 11-character id. */
  lemma ShortLinkAccepted()
    ensures ExtractVideoId(ShortLink) == Ok("dQw4w9WgXcQ")
  {
    ShortLinkPlain();
    ShortLinkMarker();
    ShortLinkNoLaterPair();
    IdFacts();
    NoPairNoMarker(ShortLink, 8, |ShortLink|);
    RunOfPiece(ShortLink, "https://" + "youtu.be/", Id);
    LastMarkerAccepted(ShortLink, 8, Id);
  }

  lemma WatchLinkPlain()
    ensures Plain(WatchLink)
  {
    IdFacts();
    assert Plain("youtube.com/") && Plain("watch?v=");
    PlainConcat("youtube.com/", "watch?v=");
    PlainConcat("youtube.com/" + "watch?v=", Id);
  }

  lemma WatchLinkMarker()
    ensures MarkerAt(WatchLink, 12) == 8
  {
    MiddlePiece("youtube.com/", "watch?v=", Id);
    WatchMarkerAt(WatchLink, 12);
  }

  lemma WatchLinkNoLaterPair()
    ensures NoPairFrom(WatchLink, 13)
  {
    IdFacts();
    assert NoPairFrom("watch?v=", 1);
    NoPairConcat("youtube.com/", "watch?v=", 13);
    NoPairConcat("youtube.com/" + "watch?v=", Id, 13);
  }

  /** A watch link: the marker `watch?v=` at 12 is followed by the 11-character id. */
  lemma WatchLinkAccepted()
    ensures ExtractVideoId(WatchLink) == Ok("dQw4w9WgXcQ")
  {
    WatchLinkPlain();
    WatchLinkMarker();
    WatchLinkNoLaterPair();
    IdFacts();
    NoPairNoMarker(WatchLink, 12, |WatchLink|);
    RunOfPiece(WatchLink, "youtube.com/" + "watch?v=", Id);
    LastMarkerAccepted(WatchLink, 12, Id);
  }

  lemma LaterVLinkPlain()
    ensures Plain(LaterVLink)
  {
    WatchLinkPlain();
    WatchLinkMarker();
    WatchLinkNoLaterPair();
    assert Plain("&v=1");
    PlainConcat(WatchLink, "&v=1");
  }

  lemma LaterVLinkEarlierMarker()
    ensures MarkerAt(LaterVLink, 12) == 8 && MaximalRun(LaterVLink, 20, 31)
  {
    WatchLinkPlain();
    WatchLinkMarker();
    WatchLinkNoLaterPair();
    IdFacts();
    MiddlePiece("youtube.com/", "watch?v=", Id);
    assert LaterVLink[..31] == WatchLink;
    assert LaterVLink[12..20] == WatchLink[12..20];
    WatchMarkerAt(LaterVLink, 12);
    RunOfPiece(LaterVLink, "youtube.com/" + "watch?v=", Id);
  }

  lemma LaterVLinkLastMarker()
    ensures MarkerAt(LaterVLink, 31) == 3
    ensures NoPairFrom(LaterVLink, 32)
    ensures |LaterVLink| == 35 && MaximalRun(LaterVLink, 34, 35)
  {
    assert |WatchLink| == 31;
    MiddlePiece(WatchLink, "&v=", "1");
    assert WatchLink + "&v=" + "1" == LaterVLink;
    AmpMarkerAt(LaterVLink, 31);
    assert NoPairFrom("&v=1", 1);
    NoPairConcat(WatchLink, "&v=1", 32);
    assert LaterVLink[34] == '1';
  }

  /**
   * A later `&v=` followed by one character decides the match, so the call
   * throws although the earlier `watch?v=` is followed by 11 characters.
   */
  lemma LaterShortRunThrows()
    ensures MarkerAt(LaterVLink, 12) == 8 && MaximalRun(LaterVLink, 20, 31)
    ensures ExtractVideoId(LaterVLink) == Err(InvalidYouTubeUrl)
  {
    LaterVLinkPlain();
    LaterVLinkEarlierMarker();
    LaterVLinkLastMarker();
    NoPairNoMarker(LaterVLink, 31, |LaterVLink|);
    LastMarkerIsChosen(LaterVLink, 31);
    WrongRunLengthThrows(LaterVLink, 31, 35);
  }
}
