/** Review records and review questions (backend/models/review.py). */
module ReviewModels {

  /**
   * The feedback text attached to a verdict, as a tagged value instead of a
   * formatted string: the two score messages carry the score they would print.
   */
  datatype Feedback =
    | NoFeedback                        // ""
    | TypoCheck                         // the fixed "check for typos" message
    | LowWordSimilarity(score: real)    // "similarity {score} differs from the answer"
    | LowConceptSimilarity(score: real) // "similarity {score}: the core differs substantially"
    | Coaching(text: string)            // text produced by the feedback generator

  /** One entry of a card's review history. */
  datatype ReviewRecord = ReviewRecord(
    stage: int,
    userAnswer: string,
    isCorrect: bool,
    feedback: Feedback,
    timestamp: int)

  /** A record built without a feedback argument gets the default, empty feedback. */
  function NewReviewRecord(stage: int, userAnswer: string, isCorrect: bool, timestamp: int): (r: ReviewRecord)
    ensures r.feedback == NoFeedback
    ensures r.stage == stage && r.userAnswer == userAnswer && r.isCorrect == isCorrect && r.timestamp == timestamp
  {
    ReviewRecord(stage, userAnswer, isCorrect, NoFeedback, timestamp)
  }

  /** The verdict word that `__str__` prints: "정답" (correct) or "오답" (wrong). */
  function ResultLabel(r: ReviewRecord): (s: string)
    ensures s == "정답" <==> r.isCorrect
    ensures s == "오답" <==> !r.isCorrect
  {
    if r.isCorrect then "정답" else "오답"
  }

  /** A question shown during review, with an optional hint. */
  datatype ReviewQuestion = ReviewQuestion(concept: string, stage: int, hint: string)

  /** The characters Python's `str.isspace` accepts, which `str.strip` removes. */
  predicate IsSpace(c: char)
  {
    || '\t' <= c <= '\r'                 // tab, line feed, vertical tab, form feed, carriage return
    || '\U{1C}' <= c <= ' '               // the four separators and the space
    || c == '\U{85}' || c == '\U{A0}' || c == '\U{1680}'
    || '\U{2000}' <= c <= '\U{200A}'
    || c == '\U{2028}' || c == '\U{2029}' || c == '\U{202F}' || c == '\U{205F}' || c == '\U{3000}'
  }

  /** `s.lstrip()`. */
  function StripLeading(s: string): (r: string)
    ensures |r| <= |s| && r == s[|s| - |r|..]
    ensures r != [] ==> !IsSpace(r[0])
    ensures forall i :: 0 <= i < |s| - |r| ==> IsSpace(s[i])
  {
    if s != [] && IsSpace(s[0]) then StripLeading(s[1..]) else s
  }

  /** `s.rstrip()`. */
  function StripTrailing(s: string): (r: string)
    ensures |r| <= |s| && r == s[..|r|]
    ensures r != [] ==> !IsSpace(r[|r| - 1])
    ensures forall i :: |r| <= i < |s| ==> IsSpace(s[i])
  {
    if s != [] && IsSpace(s[|s| - 1]) then StripTrailing(s[..|s| - 1]) else s
  }

  /** `s.strip()`. */
  function Strip(s: string): string
  {
    StripTrailing(StripLeading(s))
  }

  /** `has_hint`: the hint holds a character that is not whitespace. */
  predicate HasHint(q: ReviewQuestion)
    ensures HasHint(q) <==> exists i :: 0 <= i < |q.hint| && !IsSpace(q.hint[i])
  {
    StripKeepsVisible(q.hint);
    Strip(q.hint) != ""
  }

  /** Stripping leaves something exactly when some character is not whitespace. */
  lemma {:induction false} StripKeepsVisible(s: string)
    ensures Strip(s) != "" <==> exists i :: 0 <= i < |s| && !IsSpace(s[i])
  {
    var l := StripLeading(s);
    var off := |s| - |l|;
    if Strip(s) != "" {
      assert !IsSpace(l[0]) && s[off] == l[0];
    }
  }
}
