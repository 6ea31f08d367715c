/**
 * Phrase segmentation (demo.py:118-131 and the guard at demo.py:173): each
 * recognised text either replaces the last transcript line or, after a
 * pause longer than the phrase timeout, starts a new one.
 */
module Segmentation {
  import opened Wrappers

  /** The transcript lines and the time of the last recognised phrase, in seconds. */
  datatype Transcript = Transcript(lines: seq<string>, lastPhraseTime: Option<real>)

  /** demo.py:25-26: one empty line and no phrase yet. */
  const Initial: Transcript := Transcript([""], None)

  /** One recognition event: the text and the clock reading at which it arrived. */
  datatype Recognition = Recognition(text: string, at: real)

  /** demo.py:123: a phrase is complete only when the gap strictly exceeds the timeout. */
  predicate PhraseComplete(lastPhraseTime: Option<real>, now: real, phraseTimeout: real)
  {
    lastPhraseTime.Some? && now - lastPhraseTime.value > phraseTimeout
  }

  /** `_update_transcription` (demo.py:118-131). */
  function Update(t: Transcript, text: string, now: real, phraseTimeout: real): (u: Transcript)
    requires |t.lines| > 0
    ensures u.lastPhraseTime == Some(now)
    ensures |u.lines| == |t.lines| + (if PhraseComplete(t.lastPhraseTime, now, phraseTimeout) then 1 else 0)
    ensures u.lines[..|t.lines| - 1] == t.lines[..|t.lines| - 1]
    ensures u.lines[|u.lines| - 1] == text
    ensures PhraseComplete(t.lastPhraseTime, now, phraseTimeout) ==> u.lines[..|t.lines|] == t.lines
  {
    var complete := PhraseComplete(t.lastPhraseTime, now, phraseTimeout);
    if complete then Transcript(t.lines + [text], Some(now))
    else Transcript(t.lines[..|t.lines| - 1] + [text], Some(now))
  }

  /** demo.py:172-174: empty recognised text leaves the transcript alone. */
  function Feed(t: Transcript, text: string, now: real, phraseTimeout: real): (u: Transcript)
    requires |t.lines| > 0
    ensures |u.lines| > 0
    ensures text == "" ==> u == t
    ensures text != "" ==> u == Update(t, text, now, phraseTimeout)
  {
    if text != "" then Update(t, text, now, phraseTimeout) else t
  }

  /** A run of recognition events fed one after another. */
  function Replay(t: Transcript, events: seq<Recognition>, phraseTimeout: real): (u: Transcript)
    requires |t.lines| > 0
    ensures |u.lines| > 0
    decreases |events|
  {
    if events == [] then t
    else Replay(Feed(t, events[0].text, events[0].at, phraseTimeout), events[1..], phraseTimeout)
  }

  /**
   * Across any run of events the transcript is append-only except for its
   * last line: it never shrinks, grows by at most one line per event, and
   * every line before the last is kept as it was.
   */
  lemma {:induction false} ReplayKeepsHistory(t: Transcript, events: seq<Recognition>, phraseTimeout: real)
    requires |t.lines| > 0
    ensures var u := Replay(t, events, phraseTimeout);
            |t.lines| <= |u.lines| <= |t.lines| + |events| &&
            u.lines[..|t.lines| - 1] == t.lines[..|t.lines| - 1]
    decreases |events|
  {
    if events != [] {
      var t1 := Feed(t, events[0].text, events[0].at, phraseTimeout);
      ReplayKeepsHistory(t1, events[1..], phraseTimeout);
      var u := Replay(t1, events[1..], phraseTimeout);
      assert u.lines[..|t.lines| - 1] == u.lines[..|t1.lines| - 1][..|t.lines| - 1];
      assert t1.lines[..|t.lines| - 1] == t1.lines[..|t1.lines| - 1][..|t.lines| - 1];
    }
  }

  /** The number of events in a run that open a new line. */
  function Boundaries(t: Transcript, events: seq<Recognition>, phraseTimeout: real): nat
    requires |t.lines| > 0
    decreases |events|
  {
    if events == [] then 0
    else
      var e := events[0];
      (if e.text != "" && PhraseComplete(t.lastPhraseTime, e.at, phraseTimeout) then 1 else 0)
      + Boundaries(Feed(t, e.text, e.at, phraseTimeout), events[1..], phraseTimeout)
  }

  /** Lines are added exactly at phrase boundaries, starting from the initial empty line. */
  lemma {:induction false} LineCountIsBoundaries(t: Transcript, events: seq<Recognition>, phraseTimeout: real)
    requires |t.lines| > 0
    ensures |Replay(t, events, phraseTimeout).lines| == |t.lines| + Boundaries(t, events, phraseTimeout)
    decreases |events|
  {
    if events != [] {
      LineCountIsBoundaries(Feed(t, events[0].text, events[0].at, phraseTimeout), events[1..], phraseTimeout);
    }
  }

  /**
   * With a three-second timeout, a recognition 2.9 s or exactly 3.0 s after
   * the previous one replaces the line; one 3.1 s after starts a new line.
   * The first recognition replaces the initial empty line.
   */
  lemma PhraseTimeoutBoundary()
    ensures Update(Initial, "a", 0.0, 3.0).lines == ["a"]
    ensures Update(Update(Initial, "a", 0.0, 3.0), "b", 2.9, 3.0).lines == ["b"]
    ensures Update(Update(Initial, "a", 0.0, 3.0), "b", 3.0, 3.0).lines == ["b"]
    ensures Update(Update(Initial, "a", 0.0, 3.0), "b", 3.1, 3.0).lines == ["a", "b"]
  {
  }

  /** "hello" at 0 s, a failed recognition, then "hello world" at 1 s: one line. */
  lemma GrowingPhraseStaysOnOneLine()
    ensures Replay(Initial, [Recognition("hello", 0.0), Recognition("", 0.5),
                             Recognition("hello world", 1.0)], 3.0)
            == Transcript(["hello world"], Some(1.0))
  {

  }
}
