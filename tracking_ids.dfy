/** Tracking identifiers: `"TRK"` followed by eight characters drawn from
    `string.digits`. The draws are a parameter; the earlier UUID-based
    generator of the same name is shadowed and never used. */
module TrackingIds {
  import opened Text

  const PREFIX: string := "TRK"
  const DIGIT_COUNT: nat := 8
  const LENGTH: nat := 11

  /** The shape every tracking identifier has. */
  predicate IsTrackingId(id: string) {
    |id| == LENGTH && id[..3] == PREFIX && forall k :: 3 <= k < |id| ==> IsDigitChar(id[k])
  }

  /** `"TRK" + ''.join(random.choices(string.digits, k=8))` for the draws `picks`. */
  function TrackingId(picks: seq<Digit>): (id: string)
    requires |picks| == DIGIT_COUNT
    ensures IsTrackingId(id)
  {
    PREFIX + seq(DIGIT_COUNT, k requires 0 <= k < DIGIT_COUNT => DigitChar(picks[k]))
  }

  /** Recover the draws from an identifier, or None when it is not one. */
  function ParseTrackingId(id: string): (r: Option<seq<Digit>>)
    ensures r.Some? <==> IsTrackingId(id)
    ensures r.Some? ==> |r.value| == DIGIT_COUNT
  {
    if IsTrackingId(id) then Some(seq(DIGIT_COUNT, k requires 0 <= k < DIGIT_COUNT => CharDigit(id[3 + k])))
    else None
  }

  /** Parsing recovers the draws, so distinct draws give distinct identifiers. */
  lemma ParseTrackingIdRoundTrip(picks: seq<Digit>)
    requires |picks| == DIGIT_COUNT
    ensures ParseTrackingId(TrackingId(picks)) == Some(picks)
  {
    var id := TrackingId(picks);
    assert forall k :: 0 <= k < DIGIT_COUNT ==> id[3 + k] == DigitChar(picks[k]);
    var parsed := ParseTrackingId(id).value;
    assert forall k :: 0 <= k < DIGIT_COUNT ==> parsed[k] == CharDigit(DigitChar(picks[k])) == picks[k];
    assert parsed == picks;
  }

  /** Every well-formed identifier is produced by exactly the draws parsing finds. */
  lemma TrackingIdOfParse(id: string)
    requires IsTrackingId(id)
    ensures TrackingId(ParseTrackingId(id).value) == id
  {
    var picks := ParseTrackingId(id).value;
    var t := TrackingId(picks);
    assert forall k :: 0 <= k < 3 ==> t[k] == id[k] by {
      assert t[..3] == id[..3];
    }
    assert forall k :: 3 <= k < LENGTH ==> t[k] == id[k];
  }

  lemma TrackingIdInjective(p: seq<Digit>, q: seq<Digit>)
    requires |p| == DIGIT_COUNT && |q| == DIGIT_COUNT
    requires TrackingId(p) == TrackingId(q)
    ensures p == q
  {
    ParseTrackingIdRoundTrip(p);
    ParseTrackingIdRoundTrip(q);
  }
}
