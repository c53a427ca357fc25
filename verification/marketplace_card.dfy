/** The display helpers of the marketplace card: the score badge, its colour tier,
    the shortened owner address and the id label. Scores are integers or `NaN`;
    `Math.round` is the identity on them. */
module MarketplaceCard {
  import opened Wrappers
  import opened JsValues
  import opened JsStrings

  const MinScore := 0
  const MaxScore := 100

  /** `clampScore`: `NaN` shows as 0, anything else is forced into [0, 100]. */
  function ClampScore(score: JsNumber): (r: int)
    ensures MinScore <= r <= MaxScore
    ensures score.NaN? ==> r == 0
    ensures score.Num? && MinScore <= score.v <= MaxScore ==> r == score.v
    ensures score.Num? && score.v < MinScore ==> r == MinScore
    ensures score.Num? && score.v > MaxScore ==> r == MaxScore
  {
    match score
    case NaN => 0
    case Num(v) =>
      var upper := if v < MaxScore then v else MaxScore;
      if upper > MinScore then upper else MinScore
  }

  /** Clamping twice is clamping once, and clamping never reverses the order of two
      scores. */
  lemma ClampScoreIdempotentMonotone(a: int, b: int)
    ensures ClampScore(Num(ClampScore(Num(a)))) == ClampScore(Num(a))
    ensures a <= b ==> ClampScore(Num(a)) <= ClampScore(Num(b))
  {
  }

  datatype Tier = Low | Mid | High

  const HighFrom := 90
  const MidFrom := 80

  /** `scoreTier`. */
  function ScoreTier(score: int): (t: Tier)
    ensures t == High <==> score >= HighFrom
    ensures t == Mid <==> MidFrom <= score < HighFrom
    ensures t == Low <==> score < MidFrom
  {
    if score >= HighFrom then High
    else if score >= MidFrom then Mid
    else Low
  }

  function TierRank(t: Tier): int {
    match t
    case Low => 0
    case Mid => 1
    case High => 2
  }

  /** A higher score never gets a lower tier. */
  lemma ScoreTierMonotone(a: int, b: int)
    requires a <= b
    ensures TierRank(ScoreTier(a)) <= TierRank(ScoreTier(b))
  {
  }

  /** The number of characters kept at each end of a long address. */
  const HeadLength := 6
  const TailLength := 4
  const MaxShownLength := 12
  const Ellipsis := "..."

  /** `truncateAddress`: the trimmed address (the empty string for `null` or
      `undefined`), cut to its first six and last four characters around `...`
      when longer than twelve. */
  function TruncateAddress(addr: Option<string>): (r: string)
    ensures var s := Trim(addr.GetOr(""));
            && (|s| <= MaxShownLength ==> r == s)
            && (|s| > MaxShownLength ==>
                  && r == s[..HeadLength] + Ellipsis + s[|s| - TailLength..]
                  && |r| == HeadLength + |Ellipsis| + TailLength)
    ensures |r| <= MaxShownLength + 1
  {
    var s := Trim(addr.GetOr(""));
    if |s| <= MaxShownLength then s
    else Shorten(s)
  }

  /** Shortening a long string keeps its first and last characters. */
  function Shorten(s: string): (r: string)
    requires |s| > MaxShownLength
    ensures |r| == HeadLength + |Ellipsis| + TailLength
    ensures r[0] == s[0] && r[|r| - 1] == s[|s| - 1]
  {
    s[..HeadLength] + Ellipsis + s[|s| - TailLength..]
  }

  lemma ShortenFixed(s: string)
    requires |s| > MaxShownLength
    ensures Shorten(Shorten(s)) == Shorten(s)
  {
    var r := Shorten(s);
    assert r[..HeadLength] == s[..HeadLength];
    assert r[|r| - TailLength..] == s[|s| - TailLength..];
  }

  /** A shortened address is left alone when shortened again. */
  lemma {:induction false} TruncateAddressIdempotent(addr: Option<string>)
    ensures TruncateAddress(Some(TruncateAddress(addr))) == TruncateAddress(addr)
  {
    var s := Trim(addr.GetOr(""));
    var r := TruncateAddress(addr);
    if |s| <= MaxShownLength {
      TrimIdempotent(addr.GetOr(""));
    } else {
      assert r == Shorten(s);
      TrimEnds(addr.GetOr(""));
      TrimUntrimmed(r);
      ShortenFixed(s);
    }
  }

  const IdLabelPrefix := "#CMT-"
  const IdLabelWidth := 3

  /** The label `#CMT-{id.padStart(3, '0')}`. */
  function IdLabel(id: string): (tag: string)
    ensures |id| >= IdLabelWidth ==> tag == IdLabelPrefix + id
    ensures |id| < IdLabelWidth ==> |tag| == |IdLabelPrefix| + IdLabelWidth
    ensures tag == IdLabelPrefix + Repeat('0', |tag| - |IdLabelPrefix| - |id|) + id
  {
    IdLabelPrefix + PadStart(id, IdLabelWidth, '0')
  }

  /** Two ids of the same length get the same label only if they are equal, so the
      label tells ids of one length apart. */
  lemma IdLabelInjective(a: string, b: string)
    requires |a| == |b|
    requires IdLabel(a) == IdLabel(b)
    ensures a == b
  {
    var la := IdLabel(a);
    assert a == la[|la| - |a|..];
  }
}
