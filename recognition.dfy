/**
 * The speech-recognition `onresult` handler's scan of the result list
 * (VoiceChat.js): every segment from `resultIndex` on is appended either to
 * the final transcript or to the interim one, by its `isFinal` flag.
 */
module Recognition {

  /** One entry of `event.results`: the transcript of its first alternative and its flag. */
  datatype Segment = Segment(transcript: string, isFinal: bool)

  /** The segments the loop visits: none when `resultIndex` is past the end. */
  function InRange(results: seq<Segment>, resultIndex: nat): seq<Segment> {
    if resultIndex <= |results| then results[resultIndex..] else []
  }

  /** The transcripts of the segments with flag `fin`, concatenated in order. */
  function Joined(s: seq<Segment>, fin: bool): string
    decreases |s|
  {
    if s == [] then ""
    else Joined(s[..|s| - 1], fin) + (if s[|s| - 1].isFinal == fin then s[|s| - 1].transcript else "")
  }

  function FinalText(s: seq<Segment>): string {
    Joined(s, true)
  }

  function InterimText(s: seq<Segment>): string {
    Joined(s, false)
  }

  /** The transcripts of all segments, concatenated in order. */
  function AllText(s: seq<Segment>): string
    decreases |s|
  {
    if s == [] then "" else AllText(s[..|s| - 1]) + s[|s| - 1].transcript
  }

  /** The segments with flag `fin`, in their original order. */
  function Select(s: seq<Segment>, fin: bool): (r: seq<Segment>)
    ensures |r| <= |s|
    ensures forall k :: 0 <= k < |r| ==> r[k].isFinal == fin
    decreases |s|
  {
    if s == [] then []
    else Select(s[..|s| - 1], fin) + (if s[|s| - 1].isFinal == fin then [s[|s| - 1]] else [])
  }

  /**
   * The loop of `onresult`: returns the final and the interim transcript of
   * the segments in `[resultIndex, |results|)`.
   */
  method SplitSegments(results: seq<Segment>, resultIndex: nat) returns (final: string, interim: string)
    ensures final == FinalText(InRange(results, resultIndex))
    ensures interim == InterimText(InRange(results, resultIndex))
    ensures resultIndex >= |results| ==> final == "" && interim == ""
  {
    final, interim := "", "";
    var i := resultIndex;
    while i < |results|
      invariant resultIndex <= i
      invariant i > |results| ==> i == resultIndex && final == "" && interim == ""
      invariant i <= |results| ==> final == FinalText(results[resultIndex..i])
      invariant i <= |results| ==> interim == InterimText(results[resultIndex..i])
    {
      var transcript := results[i].transcript;
      if results[i].isFinal {
        final := final + transcript;
      } else {
        interim := interim + transcript;
      }
      assert results[resultIndex..i + 1][..i - resultIndex] == results[resultIndex..i];
      i := i + 1;
    }
    assert resultIndex <= |results| ==> results[resultIndex..i] == results[resultIndex..];
  }

  /**
   * Every segment goes to exactly one side: the final and the interim
   * segments together are the segments in range, each counted once.
   */
  lemma {:induction false} SelectPartitions(s: seq<Segment>)
    ensures |Select(s, true)| + |Select(s, false)| == |s|
    ensures multiset(Select(s, true)) + multiset(Select(s, false)) == multiset(s)
    decreases |s|
  {
    if s != [] {
      var init, last := s[..|s| - 1], s[|s| - 1];
      SelectPartitions(init);
      var t, f := Select(init, true), Select(init, false);
      assert multiset(s) == multiset(init) + multiset{last} by {
        assert s == init + [last];
      }
      if last.isFinal {
        assert Select(s, true) == t + [last];
        assert multiset(t + [last]) == multiset(t) + multiset{last};
      } else {
        assert Select(s, false) == f + [last];
        assert multiset(f + [last]) == multiset(f) + multiset{last};
      }
    }
  }

  /** The final (interim) transcript is the text of the final (interim) segments. */
  lemma {:induction false} JoinedIsSelectedText(s: seq<Segment>, fin: bool)
    ensures Joined(s, fin) == AllText(Select(s, fin))
    decreases |s|
  {
    if s != [] {
      var init := s[..|s| - 1];
      JoinedIsSelectedText(init, fin);
      var r := Select(init, fin);
      if s[|s| - 1].isFinal == fin {
        var r' := r + [s[|s| - 1]];
        assert r'[..|r'| - 1] == r;
        assert AllText(r') == AllText(r) + s[|s| - 1].transcript;
      } else {
        assert Select(s, fin) == r + [] == r;
      }
    }
  }

  /**
   * No character is lost or duplicated: the two transcripts together hold
   * exactly the characters of all segments in range.
   */
  lemma {:induction false} SplitPreservesText(s: seq<Segment>)
    ensures |FinalText(s)| + |InterimText(s)| == |AllText(s)|
    ensures multiset(FinalText(s) + InterimText(s)) == multiset(AllText(s))
    decreases |s|
  {
    if s != [] {
      var init := s[..|s| - 1];
      SplitPreservesText(init);
      var last := s[|s| - 1];
      if last.isFinal {
        calc {
          multiset(FinalText(s) + InterimText(s));
        ==
          multiset(FinalText(init)) + multiset(last.transcript) + multiset(InterimText(init));
        ==
          multiset(FinalText(init) + InterimText(init)) + multiset(last.transcript);
        }
      } else {
        calc {
          multiset(FinalText(s) + InterimText(s));
        ==
          multiset(FinalText(init)) + multiset(InterimText(init)) + multiset(last.transcript);
        ==
          multiset(FinalText(init) + InterimText(init)) + multiset(last.transcript);
        }
      }
    }
  }

  /** When every segment in range is final the interim transcript is empty, and vice versa. */
  lemma {:induction false} UniformSegments(s: seq<Segment>, fin: bool)
    requires forall k :: 0 <= k < |s| ==> s[k].isFinal == fin
    ensures Joined(s, fin) == AllText(s)
    ensures Joined(s, !fin) == ""
    decreases |s|
  {
    if s != [] {
      UniformSegments(s[..|s| - 1], fin);
    }
  }
}
