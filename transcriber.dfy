/**
 * `TranscriberService._format_response`: the aligned, diarised WhisperX
 * segments become one dialogue turn and one UI segment each. A word whose
 * confidence, rounded to two decimals, is below the threshold is tagged
 * `(unclear: word)` in the text the language model reads; the UI keeps every
 * word with its rounded confidence.
 *
 * Confidences are integer hundredths. The recogniser itself (loading,
 * alignment, diarisation, GPU memory) is not part of this model.
 */
module Transcriber {
  import opened Common
  import opened Schemas

  /** One word of a WhisperX segment; each key may be missing. */
  datatype RawWord = RawWord(word: Option<string>, score: Option<real>, start: Option<real>, end: Option<real>)

  /** One WhisperX segment; each key may be missing. */
  datatype RawSegment = RawSegment(speaker: Option<string>, words: Option<seq<RawWord>>,
                                   start: Option<real>, end: Option<real>)

  const UnknownSpeaker: string := "UNKNOWN"

  function GetOr<T>(o: Option<T>, default: T): T
  {
    if o.Some? then o.value else default
  }

  /**
   * `round(score, 2)` in hundredths: the nearest integer to `100 * score`,
   * a tie going to the even neighbour.
   */
  function Hundredths(score: real): int
  {
    RoundHalfEven(score * 100.0)
  }

  /** The rounded value is the nearest number of hundredths. */
  lemma HundredthsNearest(score: real)
    ensures -0.5 <= Hundredths(score) as real - score * 100.0 <= 0.5
  {
    RoundNearest(score * 100.0);
  }

  /** Rounding keeps the order of scores. */
  lemma HundredthsMonotone(a: real, b: real)
    requires a <= b
    ensures Hundredths(a) <= Hundredths(b)
  {
    RoundMonotone(a * 100.0, b * 100.0);
  }

  /** A score between 0 and 1 rounds to between 0 and 100 hundredths. */
  lemma HundredthsRange(score: real)
    requires 0.0 <= score <= 1.0
    ensures 0 <= Hundredths(score) <= 100
  {
    HundredthsMonotone(0.0, score);
    HundredthsMonotone(score, 1.0);
  }

  /** `conf < threshold`, with the rounded confidence in hundredths. */
  predicate Unclear(confidence: int, threshold: real)
  {
    confidence as real / 100.0 < threshold
  }

  /** A word unclear at some confidence is unclear at every lower one, and at every higher threshold. */
  lemma UnclearMonotone(c1: int, c2: int, t1: real, t2: real)
    requires c2 <= c1 && t1 <= t2 && Unclear(c1, t1)
    ensures Unclear(c2, t2)
  {
  }

  function Confidence(w: RawWord): int
  {
    Hundredths(GetOr(w.score, 0.0))
  }

  /** The entry the UI receives for a word. */
  function UiWord(w: RawWord): WordInfo
  {
    WordInfo(GetOr(w.word, ""), GetOr(w.start, 0.0), GetOr(w.end, 0.0), Confidence(w))
  }

  function UnclearTag(clean: string): string
  {
    "(unclear: " + clean + ")"
  }

  /** What the language model reads for a word: the stripped word, tagged when unclear. */
  function LlmWord(w: RawWord, threshold: real): string
  {
    var clean := Strip(GetOr(w.word, ""));
    if Unclear(Confidence(w), threshold) then UnclearTag(clean) else clean
  }

  function WordsOf(s: RawSegment): seq<RawWord>
  {
    GetOr(s.words, [])
  }

  function SpeakerOf(s: RawSegment): string
  {
    GetOr(s.speaker, UnknownSpeaker)
  }

  /** `f` applied to each element, in order. */
  function MapEach<A, B>(xs: seq<A>, f: A -> B): seq<B>
  {
    if xs == [] then [] else MapEach(xs[..|xs| - 1], f) + [f(xs[|xs| - 1])]
  }

  /** One more element maps to one more image. */
  lemma MapEachStep<A, B>(xs: seq<A>, i: nat, f: A -> B)
    requires i < |xs|
    ensures MapEach(xs[..i + 1], f) == MapEach(xs[..i], f) + [f(xs[i])]
  {
    assert xs[..i + 1][..i] == xs[..i];
  }

  lemma {:induction false} MapEachAt<A, B>(xs: seq<A>, f: A -> B)
    ensures |MapEach(xs, f)| == |xs| && forall j :: 0 <= j < |xs| ==> MapEach(xs, f)[j] == f(xs[j])
  {
    if xs != [] {
      MapEachAt(xs[..|xs| - 1], f);
    }
  }

  /** The UI entries of a run of words, in order. */
  function UiWords(ws: seq<RawWord>): seq<WordInfo>
  {
    MapEach(ws, UiWord)
  }

  /** `LlmWord` at a fixed confidence threshold. */
  function LlmWordFor(threshold: real): RawWord -> string
  {
    w => LlmWord(w, threshold)
  }

  /** The LLM pieces of a run of words, in order. */
  function LlmWords(ws: seq<RawWord>, threshold: real): seq<string>
  {
    MapEach(ws, LlmWordFor(threshold))
  }

  /** Each word gives exactly one UI entry and one LLM piece, at its own position. */
  lemma WordsAt(ws: seq<RawWord>, threshold: real)
    ensures |UiWords(ws)| == |LlmWords(ws, threshold)| == |ws|
    ensures forall j :: 0 <= j < |ws| ==> UiWords(ws)[j] == UiWord(ws[j])
    ensures forall j :: 0 <= j < |ws| ==> LlmWords(ws, threshold)[j] == LlmWord(ws[j], threshold)
  {
    MapEachAt(ws, UiWord);
    MapEachAt(ws, LlmWordFor(threshold));
  }

  /** The segment's sentence: its LLM words joined by single spaces. */
  function Sentence(s: RawSegment, threshold: real): string
  {
    Join(" ", LlmWords(WordsOf(s), threshold))
  }

  function TurnOf(s: RawSegment, threshold: real): DialogueTurn
  {
    DialogueTurn(SpeakerOf(s), Sentence(s, threshold))
  }

  /** The UI segment: a placeholder id 0 and average confidence 0, and every word. */
  function UiSegmentOf(s: RawSegment, threshold: real): SegmentInfo
  {
    var ws := WordsOf(s);
    SegmentInfo(0, GetOr(s.start, 0.0), GetOr(s.end, 0.0), Sentence(s, threshold), SpeakerOf(s), 0, UiWords(ws))
  }

  function Turns(segments: seq<RawSegment>, threshold: real): seq<DialogueTurn>
  {
    seq(|segments|, i requires 0 <= i < |segments| => TurnOf(segments[i], threshold))
  }

  function UiSegments(segments: seq<RawSegment>, threshold: real): seq<SegmentInfo>
  {
    seq(|segments|, i requires 0 <= i < |segments| => UiSegmentOf(segments[i], threshold))
  }

  /** One iteration of the word loop: the word as the UI and as the language model see it. */
  method FormatWord(w: RawWord, threshold: real) returns (uiWord: WordInfo, llmWord: string)
    ensures uiWord == UiWord(w) && llmWord == LlmWord(w, threshold)
  {
    var wordText := GetOr(w.word, "");
    var conf := Hundredths(GetOr(w.score, 0.0));
    uiWord := WordInfo(wordText, GetOr(w.start, 0.0), GetOr(w.end, 0.0), conf);
    var cleanWord := Strip(wordText);
    if Unclear(conf, threshold) {
      llmWord := "(unclear: " + cleanWord + ")";
    } else {
      llmWord := cleanWord;
    }
  }

  /**
   * The word loop of `_format_response`: the UI words and the LLM words of
   * one segment, built side by side.
   */
  method SegmentWords(segment: RawSegment, threshold: real)
    returns (uiWords: seq<WordInfo>, llmWords: seq<string>)
    ensures uiWords == UiSegmentOf(segment, threshold).words
    ensures Join(" ", llmWords) == Sentence(segment, threshold)
  {
    uiWords, llmWords := [], [];
    if segment.words.Some? {
      var ws := segment.words.value;
      var j := 0;
      while j < |ws|
        invariant 0 <= j <= |ws|
        invariant uiWords == UiWords(ws[..j])
        invariant llmWords == LlmWords(ws[..j], threshold)
      {
        var uiWord, llmWord := FormatWord(ws[j], threshold);
        uiWords := uiWords + [uiWord];
        llmWords := llmWords + [llmWord];
        assert uiWords == UiWords(ws[..j + 1]) by {
          MapEachStep(ws, j, UiWord);
        }
        assert llmWords == LlmWords(ws[..j + 1], threshold) by {
          MapEachStep(ws, j, LlmWordFor(threshold));
        }
        j := j + 1;
      }
      assert ws[..j] == ws;
    }
  }

  /**
   * `_format_response`: one turn and one UI segment per WhisperX segment, in
   * order.
   */
  method FormatResponse(segments: seq<RawSegment>, threshold: real)
    returns (conversation: seq<DialogueTurn>, rawSegments: seq<SegmentInfo>)
    ensures conversation == Turns(segments, threshold)
    ensures rawSegments == UiSegments(segments, threshold)
  {
    conversation, rawSegments := [], [];
    var i := 0;
    while i < |segments|
      invariant 0 <= i <= |segments|
      invariant conversation == Turns(segments[..i], threshold)
      invariant rawSegments == UiSegments(segments[..i], threshold)
    {
      var segment := segments[i];
      var speaker := GetOr(segment.speaker, UnknownSpeaker);
      var uiWords, llmWords := SegmentWords(segment, threshold);
      var formatted := Join(" ", llmWords);
      conversation := conversation + [DialogueTurn(speaker, formatted)];
      rawSegments := rawSegments + [SegmentInfo(0, GetOr(segment.start, 0.0), GetOr(segment.end, 0.0), formatted, speaker, 0, uiWords)];
      assert segments[..i + 1] == segments[..i] + [segment];
      i := i + 1;
    }
    assert segments[..i] == segments;
  }

  /**
   * The two outputs line up: as many turns as UI segments as WhisperX
   * segments; each turn's text is its segment's text and its role the
   * segment's speaker, `UNKNOWN` when diarisation gave none.
   */
  lemma OutputsAligned(segments: seq<RawSegment>, threshold: real)
    ensures |Turns(segments, threshold)| == |UiSegments(segments, threshold)| == |segments|
    ensures forall i :: 0 <= i < |segments| ==>
              Turns(segments, threshold)[i].content == UiSegments(segments, threshold)[i].text
              && Turns(segments, threshold)[i].role == UiSegments(segments, threshold)[i].speaker
              && (segments[i].speaker.None? ==> Turns(segments, threshold)[i].role == UnknownSpeaker)
  {
  }

  /**
   * Every word reaches both outputs: the UI segment lists each word with its
   * rounded confidence, and the sentence has one piece per word, tagged
   * exactly when that confidence is below the threshold.
   */
  lemma EveryWordKept(s: RawSegment, threshold: real, j: int)
    requires 0 <= j < |WordsOf(s)|
    ensures |LlmWords(WordsOf(s), threshold)| == |WordsOf(s)|
    ensures |UiSegmentOf(s, threshold).words| == |WordsOf(s)|
    ensures UiSegmentOf(s, threshold).words[j].confidence == Hundredths(GetOr(WordsOf(s)[j].score, 0.0))
    ensures Unclear(UiSegmentOf(s, threshold).words[j].confidence, threshold) ==>
              LlmWord(WordsOf(s)[j], threshold) == UnclearTag(Strip(GetOr(WordsOf(s)[j].word, "")))
    ensures !Unclear(UiSegmentOf(s, threshold).words[j].confidence, threshold) ==>
              LlmWord(WordsOf(s)[j], threshold) == Strip(GetOr(WordsOf(s)[j].word, ""))
  {
    WordsAt(WordsOf(s), threshold);
  }

  /**
   * When every word is clear and holds no inner space, the sentence splits
   * on spaces back into the stripped words, one per word.
   */
  lemma SentenceSplitsIntoWords(s: RawSegment, threshold: real)
    requires |WordsOf(s)| >= 1
    requires forall j :: 0 <= j < |WordsOf(s)| ==>
               !Unclear(Confidence(WordsOf(s)[j]), threshold) && ' ' !in Strip(GetOr(WordsOf(s)[j].word, ""))
    ensures |Split(Sentence(s, threshold), ' ')| == |WordsOf(s)|
    ensures forall j :: 0 <= j < |WordsOf(s)| ==>
              Split(Sentence(s, threshold), ' ')[j] == Strip(GetOr(WordsOf(s)[j].word, ""))
  {
    var ws := WordsOf(s);
    var pieces := LlmWords(ws, threshold);
    WordsAt(ws, threshold);
    forall j | 0 <= j < |pieces|
      ensures pieces[j] == Strip(GetOr(ws[j].word, ""))
    {
      assert pieces[j] == LlmWord(ws[j], threshold);
    }
    JoinedPiecesSplit(pieces);
  }

  /** Joining pieces without spaces by single spaces and splitting again gives the pieces. */
  lemma {:induction false} JoinedPiecesSplit(parts: seq<string>)
    requires |parts| >= 1
    requires forall k :: 0 <= k < |parts| ==> ' ' !in parts[k]
    ensures Split(Join(" ", parts), ' ') == parts
  {
    if |parts| > 1 {
      JoinedPiecesSplit(parts[1..]);
      SplitAppend(parts[0], Join(" ", parts[1..]));
    } else {
      SplitWithout(parts[0], ' ');
    }
  }

  /** Splitting `a + " " + b` for a separator-free `a` puts `a` in front of the pieces of `b`. */
  lemma {:induction false} SplitAppend(a: string, b: string)
    requires ' ' !in a
    ensures Split(a + " " + b, ' ') == [a] + Split(b, ' ')
  {
    var s := a + " " + b;
    if a == [] {
      assert s[0] == ' ' && s[1..] == b;
    } else {
      assert s[0] == a[0] != ' ' && s[1..] == a[1..] + " " + b;
      SplitAppend(a[1..], b);
      assert [a[0]] + a[1..] == a;
    }
  }
}
