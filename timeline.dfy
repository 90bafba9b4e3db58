/**
 * The timeline footer: the status line for the current fix, one marker per
 * significant fix along the slider, the hover index under the mouse, and
 * the slider itself. Everything here is a pure function of the props; the
 * component's only state, the hover index, is an `Option<int>` that the two
 * mouse handlers overwrite.
 */
module Timeline {
  import opened Types
  import opened Text
  import opened Constants

  datatype Colour = Red | Yellow | Slate

  /** The marker colour: `Severe` is red, else `Deep Depression` yellow,
      else slate. */
  function MarkerColour(category: string): (r: Colour)
    ensures r == Red <==> Contains(category, "Severe")
    ensures r == Yellow <==> !Contains(category, "Severe") && Contains(category, "Deep Depression")
  {
    if Contains(category, "Severe") then Red
    else if Contains(category, "Deep Depression") then Yellow
    else Slate
  }

  /** The status badge colour: `Severe` is red, else `Depression` yellow,
      else slate. */
  function BadgeColour(category: string): (r: Colour)
    ensures r == Red <==> Contains(category, "Severe")
    ensures r == Yellow <==> !Contains(category, "Severe") && Contains(category, "Depression")
  {
    if Contains(category, "Severe") then Red
    else if Contains(category, "Depression") then Yellow
    else Slate
  }

  /** A marker is drawn at the first and the last fix and wherever the
      category differs from the one before. */
  predicate ShowMarker(track: seq<CycloneTrackPoint>, i: nat)
    requires i < |track|
    ensures i == 0 || i == |track| - 1 ==> ShowMarker(track, i)
    ensures 0 < i < |track| - 1 ==> (ShowMarker(track, i) <==> track[i].category != track[i - 1].category)
  {
    i == 0 || i == |track| - 1 || track[i].category != track[i - 1].category
  }

  /** `track.map(...)`: the colour of the marker at each fix, or none. */
  function Markers(track: seq<CycloneTrackPoint>): (r: seq<Option<Colour>>)
    ensures |r| == |track|
    ensures forall i :: 0 <= i < |track| ==> (r[i].Some? <==> ShowMarker(track, i))
    ensures forall i :: 0 <= i < |track| && r[i].Some? ==> r[i].value == MarkerColour(track[i].category)
  {
    seq(|track|, i requires 0 <= i < |track| =>
      if ShowMarker(track, i) then Some(MarkerColour(track[i].category)) else None)
  }

  /** The two colour rules agree on red, and a yellow marker always sits
      under a yellow badge, but not the other way round: a category with
      `Depression` and without `Deep Depression` or `Severe` gets a yellow
      badge and a slate marker. */
  lemma {:induction false} MarkerAndBadgeColours(category: string)
    ensures MarkerColour(category) == Red <==> BadgeColour(category) == Red
    ensures MarkerColour(category) == Yellow ==> BadgeColour(category) == Yellow
    ensures BadgeColour(category) == Slate ==> MarkerColour(category) == Slate
    ensures BadgeColour(category) == Yellow && !Contains(category, "Deep Depression") ==> MarkerColour(category) == Slate
  {
    if Contains(category, "Deep Depression") {
      assert "Deep Depression"[5..15] == "Depression";
      ContainsPiece(category, "Deep Depression", 5, 15);
    }
  }

  /** The plain category `Depression` is the case where the two disagree. */
  lemma PlainDepressionColours(category: string)
    requires category == "Depression"
    ensures BadgeColour(category) == Yellow && MarkerColour(category) == Slate
  {
    PlainDepressionWords(category);
  }

  lemma PlainDepressionWords(category: string)
    requires category == "Depression"
    ensures Contains(category, "Depression")
    ensures !Contains(category, "Severe") && !Contains(category, "Deep Depression")
  {
    ContainsItself(category);
    MissingCharNotContained(category, "Severe", 0);
    NotDeepDepression(category);
  }

  lemma ContainsItself(s: string)
    ensures Contains(s, s)
  {
    assert OccursAt(s, s, 0);
  }

  lemma NotDeepDepression(category: string)
    requires category == "Depression"
    ensures !Contains(category, "Deep Depression")
  {
    MissingCharNotContained(category, "Deep Depression", 4);
  }

  // ---------------------------------------------------------------------
  // The status line
  // ---------------------------------------------------------------------

  /** What the status line shows for the current fix. */
  datatype Status = Status(timestamp: string, category: string, badge: Colour, windSpeedKmph: int, pressureHpa: int)

  /** The status line as written: `track[currentIndex]` is read without a
      check, so an index off the track (always the case for an empty track)
      throws a type error while rendering. */
  datatype Render = Shown(status: Status) | RenderThrew(message: string)

  const UNDEFINED_TIMESTAMP_ERROR := "Cannot read properties of undefined (reading 'timestamp')"

  function StatusOf(point: CycloneTrackPoint): Status
  {
    Status(point.timestamp, point.category, BadgeColour(point.category), point.windSpeedKmph, point.pressureHpa)
  }

  function StatusAsWritten(track: seq<CycloneTrackPoint>, currentIndex: int): (r: Render)
    ensures r.RenderThrew? <==> !(0 <= currentIndex < |track|)
    ensures r.Shown? ==> r.status == StatusOf(track[currentIndex])
  {
    if 0 <= currentIndex < |track| then Shown(StatusOf(track[currentIndex]))
    else RenderThrew(UNDEFINED_TIMESTAMP_ERROR)
  }

  /** Every basin of the registry but North Indian and North Atlantic has an
      empty track, so showing its data (with the timeline visible) throws
      while rendering the status line, at the reset index 0. */
  lemma EmptyBasinStatusThrows(basinId: string, loadNoise: Noise, callNoise: Noise)
    requires basinId != "ni" && basinId != "na"
    ensures StatusAsWritten(GetSimulationData(basinId, loadNoise, callNoise).track, 0).RenderThrew?
  {
    OtherBasinsAreEmpty(basinId, loadNoise, callNoise);
  }

  /** The status line with the check the render needs: nothing is shown
      when there is no current fix, and a fix on the track is always
      shown. */
  function CurrentStatus(track: seq<CycloneTrackPoint>, currentIndex: int): (r: Option<Status>)
    ensures r.None? <==> !(0 <= currentIndex < |track|)
    ensures r.Some? ==> r.value == StatusOf(track[currentIndex]) && r.value.badge == BadgeColour(track[currentIndex].category)
  {
    if 0 <= currentIndex < |track| then Some(StatusOf(track[currentIndex])) else None
  }

  /** Where the written status line renders, the checked one shows the same
      status; it differs only where the written one throws. */
  lemma CurrentStatusAgrees(track: seq<CycloneTrackPoint>, currentIndex: int)
    ensures StatusAsWritten(track, currentIndex).Shown? <==> CurrentStatus(track, currentIndex).Some?
    ensures StatusAsWritten(track, currentIndex).Shown? ==>
      StatusAsWritten(track, currentIndex).status == CurrentStatus(track, currentIndex).value
  {
  }

  // ---------------------------------------------------------------------
  // Hover and slider
  // ---------------------------------------------------------------------

  function Clamp(lo: real, hi: real, v: real): real
  {
    if v < lo then lo else if v > hi then hi else v
  }

  /** `Math.round`: the nearest integer, halves rounded up. */
  function Round(v: real): int
  {
    (v + 0.5).Floor
  }

  /** `handleMouseMove`: the pointer's position across the slider as a
      percentage clamped to [0, 100], scaled to the track and rounded. On a
      non-empty track the index is always a fix of the track: the first fix
      at or left of the slider's start, the last at or right of its end. */
  function HoverIndex(x: real, width: real, len: nat): (r: int)
    requires width > 0.0
    ensures len >= 1 ==> 0 <= r <= len - 1
    ensures len >= 1 && x <= 0.0 ==> r == 0
    ensures len >= 1 && x >= width ==> r == len - 1
  {
    var percentage := Clamp(0.0, 100.0, x / width * 100.0);
    PercentageEnds(x, width);
    var scaled := percentage / 100.0 * (len - 1) as real;
    assert len >= 1 ==> 0.0 <= scaled <= (len - 1) as real by {
      if len >= 1 {
        assert 0.0 <= percentage / 100.0 <= 1.0;
        MulBounds(percentage / 100.0, (len - 1) as real);
      }
    }
    assert percentage == 100.0 ==> scaled == (len - 1) as real;
    Round(scaled)
  }

  /** The pointer at or before the start is 0 percent, at or past the end
      100 percent. */
  lemma PercentageEnds(x: real, width: real)
    requires width > 0.0
    ensures x <= 0.0 ==> Clamp(0.0, 100.0, x / width * 100.0) == 0.0
    ensures x >= width ==> Clamp(0.0, 100.0, x / width * 100.0) == 100.0
  {
    if x <= 0.0 {
      assert x / width <= 0.0;
    }
    if x >= width {
      assert x / width >= 1.0;
    }
  }

  /** On a non-empty track, moving the pointer to the right never moves
      the hovered fix left. */
  lemma HoverMonotone(x1: real, x2: real, width: real, len: nat)
    requires width > 0.0 && x1 <= x2 && len >= 1
    ensures HoverIndex(x1, width, len) <= HoverIndex(x2, width, len)
  {
    assert x1 / width <= x2 / width;
    var p1 := Clamp(0.0, 100.0, x1 / width * 100.0);
    var p2 := Clamp(0.0, 100.0, x2 / width * 100.0);
    assert p1 <= p2;
    var n := (len - 1) as real;
    var s1, s2 := p1 / 100.0 * n, p2 / 100.0 * n;
    assert s1 <= s2;
    RoundMonotone(s1, s2);
  }

  lemma RoundMonotone(a: real, b: real)
    requires a <= b
    ensures Round(a) <= Round(b)
  {
    var i, j := Round(a), Round(b);
    assert i as real <= a + 0.5 && b + 0.5 < j as real + 1.0;
  }

  lemma MulBounds(f: real, n: real)
    requires 0.0 <= f <= 1.0 && 0.0 <= n
    ensures 0.0 <= f * n <= n
  {
  }

  /** The hover state after the pointer moves and after it leaves. */
  function MouseMove(x: real, width: real, len: nat): (r: Option<int>)
    requires width > 0.0
    ensures r.Some? && (len >= 1 ==> 0 <= r.value <= len - 1)
  {
    Some(HoverIndex(x, width, len))
  }

  /** `handleMouseLeave`: no fix is hovered, so no tooltip is shown. */
  function MouseLeave(): (r: Option<int>)
    ensures r.None?
  {
    None
  }

  /** The range input's bounds. */
  function SliderRange(len: nat): (r: (int, int))
    ensures r.0 == 0 && r.1 == len - 1
  {
    (0, len - 1)
  }

  /** `onSeek(parseInt(e.target.value))`: the value of a range input is the
      decimal text of a whole number in its bounds. */
  function SeekIndex(value: string): (r: nat)
    requires forall i :: 0 <= i < |value| ==> IsDigit(value[i])
    ensures forall k: nat {:trigger NatText(k)} :: value == NatText(k) ==> r == k
  {
    forall k: nat | value == NatText(k)
      ensures ParseNat(value) == k
    {
      ParseNatText(k);
    }
    ParseNat(value)
  }

  /** Every position the slider can take seeks to that very fix. */
  lemma SeekRoundTrip(len: nat, k: nat)
    requires k <= SliderRange(len).1
    ensures SeekIndex(NatText(k)) == k && k < len
  {
    ParseNatText(k);
  }
}
