/** The sentence the camera view speaks for one detector result
    (src/components/ImageRecognition.tsx, detectObjects): a fixed phrase when
    nothing was found, a confidence summary in quick mode, and a
    left/center/right description in detailed mode. */
module Narration {
  import opened Text

  /** The detector's box `[x, y, width, height]`, in frame pixels. */
  datatype BBox = BBox(x: real, y: real, width: real, height: real)

  /** One prediction: `objectClass` is the detector's `class` field. */
  datatype Detection = Detection(objectClass: string, score: real, bbox: BBox)

  datatype Position = Left | Center | Right

  const NoObjectsPhrase := "No objects detected in view"
  const QuickLeadIn := "I see "
  const DetailedLeadIn := "Detailed view: "
  const Separator := ", "

  /** `Math.round` over exact reals: the nearest integer, halves rounded up. */
  function Round(x: real): (r: int)
    ensures r as real - 0.5 <= x < r as real + 0.5
  {
    (x + 0.5).Floor
  }

  /** A confidence score in [0, 1] as a whole percentage. */
  function Percent(score: real): (r: int)
    ensures 0.0 <= score <= 1.0 ==> 0 <= r <= 100
  {
    Round(score * 100.0)
  }

  /** "<class> with <percent>% confidence" */
  function ConfidenceClause(d: Detection): (r: string)
    ensures StartsWith(r, d.objectClass + " with ")
    ensures EndsWith(r, "% confidence")
    ensures |r| == |d.objectClass + " with "| + |IntToString(Percent(d.score))| + |"% confidence"|
    ensures r[|d.objectClass + " with "|..|r| - |"% confidence"|] == IntToString(Percent(d.score))
  {
    d.objectClass + " with " + IntToString(Percent(d.score)) + "% confidence"
  }

  /** `predictions.map(...)` for the quick summary: one clause per prediction,
      in the detector's order. */
  function ConfidenceClauses(ds: seq<Detection>): (r: seq<string>)
    ensures |r| == |ds|
    ensures forall i :: 0 <= i < |ds| ==> r[i] == ConfidenceClause(ds[i])
  {
    if ds == [] then [] else [ConfidenceClause(ds[0])] + ConfidenceClauses(ds[1..])
  }

  /** "I see " and the clauses joined by ", ". */
  function QuickDescription(ds: seq<Detection>): (r: string)
    ensures StartsWith(r, QuickLeadIn)
    ensures ds != [] ==> StartsWith(r, QuickLeadIn + ConfidenceClause(ds[0]))
    ensures |ds| == 1 ==> r == QuickLeadIn + ConfidenceClause(ds[0])
  {
    var cs := ConfidenceClauses(ds);
    var joined := Join(cs, Separator);
    if ds == [] then QuickLeadIn + joined
    else
      PrefixUnderLeadIn(QuickLeadIn, joined, cs[0]);
      QuickLeadIn + joined
  }

  /** Horizontal position of a box whose left edge is at x in a frame of the
      given width: compared against one third and two thirds of the width. */
  function PositionOf(x: real, frameWidth: real): (p: Position)
    ensures 0.0 <= frameWidth ==> (p == Center <==> frameWidth / 3.0 <= x <= frameWidth * 2.0 / 3.0)
  {
    if x < frameWidth / 3.0 then Left
    else if x > frameWidth * 2.0 / 3.0 then Right
    else Center
  }

  function PositionPhrase(p: Position): string
  {
    match p
    case Left => "on the left"
    case Center => "in the center"
    case Right => "on the right"
  }

  /** Order of the positions from left to right. */
  function Rank(p: Position): nat
  {
    match p
    case Left => 0
    case Center => 1
    case Right => 2
  }

  /** "<class> <position>" */
  function SpatialClause(d: Detection, frameWidth: real): (r: string)
    ensures StartsWith(r, d.objectClass + " ")
    ensures EndsWith(r, PositionPhrase(PositionOf(d.bbox.x, frameWidth)))
    ensures |r| == |d.objectClass| + 1 + |PositionPhrase(PositionOf(d.bbox.x, frameWidth))|
  {
    d.objectClass + " " + PositionPhrase(PositionOf(d.bbox.x, frameWidth))
  }

  function SpatialClauses(ds: seq<Detection>, frameWidth: real): (r: seq<string>)
    ensures |r| == |ds|
    ensures forall i :: 0 <= i < |ds| ==> r[i] == SpatialClause(ds[i], frameWidth)
  {
    if ds == [] then [] else [SpatialClause(ds[0], frameWidth)] + SpatialClauses(ds[1..], frameWidth)
  }

  /** "Detailed view: " and the clauses joined by ", ". */
  function DetailedDescription(ds: seq<Detection>, frameWidth: real): (r: string)
    ensures StartsWith(r, DetailedLeadIn)
    ensures ds != [] ==> StartsWith(r, DetailedLeadIn + SpatialClause(ds[0], frameWidth))
    ensures |ds| == 1 ==> r == DetailedLeadIn + SpatialClause(ds[0], frameWidth)
  {
    var cs := SpatialClauses(ds, frameWidth);
    var joined := Join(cs, Separator);
    if ds == [] then DetailedLeadIn + joined
    else
      PrefixUnderLeadIn(DetailedLeadIn, joined, cs[0]);
      DetailedLeadIn + joined
  }

  /** The sentence spoken after a successful detector call. */
  function Narrate(ds: seq<Detection>, detailed: bool, frameWidth: real): (r: string)
    ensures |r| > 0
    ensures r == NoObjectsPhrase <==> ds == []
  {
    if |ds| == 0 then NoObjectsPhrase
    else if detailed then
      var r := DetailedDescription(ds, frameWidth);
      assert r[0] == 'D' != NoObjectsPhrase[0];
      r
    else
      var r := QuickDescription(ds);
      assert r[0] == 'I' != NoObjectsPhrase[0];
      r
  }

  /** The position rule for a frame of non-negative width: exactly one label,
      with both thresholds themselves falling in the center. */
  lemma PositionThresholds(x: real, frameWidth: real)
    requires 0.0 <= frameWidth
    ensures PositionOf(x, frameWidth) == Left <==> x < frameWidth / 3.0
    ensures PositionOf(x, frameWidth) == Right <==> x > frameWidth * 2.0 / 3.0
    ensures PositionOf(x, frameWidth) == Center <==> frameWidth / 3.0 <= x <= frameWidth * 2.0 / 3.0
    ensures PositionOf(frameWidth / 3.0, frameWidth) == Center
    ensures PositionOf(frameWidth * 2.0 / 3.0, frameWidth) == Center
  {
  }

  /** Moving a box to the right never moves its label to the left. */
  lemma PositionMonotone(x1: real, x2: real, frameWidth: real)
    requires x1 <= x2
    ensures Rank(PositionOf(x1, frameWidth)) <= Rank(PositionOf(x2, frameWidth))
  {
  }

  /** Empty result: the same fixed phrase in both modes. */
  lemma NarrateEmpty(detailed: bool, frameWidth: real)
    ensures Narrate([], detailed, frameWidth) == "No objects detected in view"
  {
  }

  /** Quick mode: the lead-in, then the clauses joined by ", " in the
      detector's order; each clause can be found in the sentence. */
  lemma NarrateQuick(ds: seq<Detection>, frameWidth: real)
    requires ds != []
    ensures var r := Narrate(ds, false, frameWidth);
      && StartsWith(r, "I see ")
      && r == "I see " + Join(ConfidenceClauses(ds), ", ")
      && forall i :: 0 <= i < |ds| ==> Contains(r, ConfidenceClause(ds[i]))
  {
    var cs := ConfidenceClauses(ds);
    var r := Narrate(ds, false, frameWidth);
    assert r == QuickLeadIn + Join(cs, Separator);
    forall i | 0 <= i < |ds|
      ensures Contains(r, ConfidenceClause(ds[i]))
    {
      JoinContainsPart(cs, Separator, i);
      ContainsInContext(QuickLeadIn, Join(cs, Separator), "", cs[i]);
      assert QuickLeadIn + Join(cs, Separator) + "" == r;
    }
  }

  /** Detailed mode: the lead-in, then "<class> <position>" per prediction. */
  lemma NarrateDetailed(ds: seq<Detection>, frameWidth: real)
    requires ds != []
    ensures var r := Narrate(ds, true, frameWidth);
      && StartsWith(r, "Detailed view: ")
      && r == "Detailed view: " + Join(SpatialClauses(ds, frameWidth), ", ")
      && forall i :: 0 <= i < |ds| ==> Contains(r, SpatialClause(ds[i], frameWidth))
  {
    var cs := SpatialClauses(ds, frameWidth);
    var r := Narrate(ds, true, frameWidth);
    assert r == DetailedLeadIn + Join(cs, Separator);
    forall i | 0 <= i < |ds|
      ensures Contains(r, SpatialClause(ds[i], frameWidth))
    {
      JoinContainsPart(cs, Separator, i);
      ContainsInContext(DetailedLeadIn, Join(cs, Separator), "", cs[i]);
      assert DetailedLeadIn + Join(cs, Separator) + "" == r;
    }
  }

  /** Two results that agree on every class and box x-origin. */
  predicate SameLabelsAndX(a: seq<Detection>, b: seq<Detection>)
  {
    |a| == |b| && forall i :: 0 <= i < |a| ==> a[i].objectClass == b[i].objectClass && a[i].bbox.x == b[i].bbox.x
  }

  /** The detailed sentence ignores scores and the box's y, width and height. */
  lemma {:induction false} DetailedIgnoresScoreAndSize(a: seq<Detection>, b: seq<Detection>, frameWidth: real)
    requires SameLabelsAndX(a, b)
    ensures Narrate(a, true, frameWidth) == Narrate(b, true, frameWidth)
  {
    var ca, cb := SpatialClauses(a, frameWidth), SpatialClauses(b, frameWidth);
    forall i | 0 <= i < |a|
      ensures ca[i] == cb[i]
    {
      assert SpatialClause(a[i], frameWidth) == SpatialClause(b[i], frameWidth);
    }
    assert ca == cb;
  }

  /** A single prediction: the lead-in and its one clause. */
  lemma NarrateSingle(d: Detection, frameWidth: real)
    ensures Narrate([d], false, frameWidth) == QuickLeadIn + ConfidenceClause(d)
    ensures Narrate([d], true, frameWidth) == DetailedLeadIn + SpatialClause(d, frameWidth)
  {
  }

  /** The two literal pieces of the detailed sentence, put together. */
  lemma DetailedPersonText()
    ensures DetailedLeadIn + "person on the left" == "Detailed view: person on the left"
  {
  }

  /** The two literal pieces of the quick sentence, put together. */
  lemma QuickPersonText()
    ensures QuickLeadIn + "person with 92% confidence" == "I see person with 92% confidence"
  {
  }

  /** One person whose box starts 10 pixels from the left edge of a
      300-pixel frame, detailed mode, whatever its score and box size. */
  lemma PersonOnTheLeft(d: Detection)
    requires d.objectClass == "person" && d.bbox.x == 10.0
    ensures Narrate([d], true, 300.0) == "Detailed view: person on the left"
  {
    NarrateSingle(d, 300.0);
    PersonLeftClauseText(d);
    DetailedPersonText();
  }

  /** The position clause of a person at x = 10 in a 300-pixel frame. */
  lemma PersonLeftClauseText(d: Detection)
    requires d.objectClass == "person" && d.bbox.x == 10.0
    ensures SpatialClause(d, 300.0) == "person on the left"
  {
    assert PositionOf(10.0, 300.0) == Left;
    assert SpatialClause(d, 300.0) == "person" + " " + "on the left";
  }

  /** A score of 0.92 is spoken as "92". */
  lemma PercentText()
    ensures IntToString(Percent(0.92)) == "92"
  {
    assert Percent(0.92) == 92 by {
      assert 0.92 * 100.0 == 92.0;
      var r := Round(92.0);
      assert 91.5 <= r as real + 0.5 && (r as real) - 0.5 <= 92.0;
    }
    assert NatToString(92) == "92" by {
      assert NatToString(9) == ['9'];
      assert DigitChar(2) == '2';
    }
  }

  /** The confidence clause of a person scored 0.92. */
  lemma PersonClauseText(d: Detection)
    requires d.objectClass == "person" && d.score == 0.92
    ensures ConfidenceClause(d) == "person with 92% confidence"
  {
    PercentText();
    assert ConfidenceClause(d) == "person" + " with " + "92" + "% confidence";
  }

  /** A person detected with score 0.92, quick mode, wherever its box is. */
  lemma PersonWithConfidence(d: Detection, frameWidth: real)
    requires d.objectClass == "person" && d.score == 0.92
    ensures Narrate([d], false, frameWidth) == "I see person with 92% confidence"
  {
    NarrateSingle(d, frameWidth);
    PersonClauseText(d);
    QuickPersonText();
  }
}
