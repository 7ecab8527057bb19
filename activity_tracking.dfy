/**
 * frontend/src/lib/utils/activity-tracking.ts: participant counts, the
 * participation rate and its badge variant, and the view-count label.
 * Counts are whole numbers; an absent or zero `maxParticipants` is falsy.
 */
module ActivityTracking {
  import opened Common

  /** `maxParticipants` is present and non-zero. */
  predicate HasLimit(maxParticipants: Option<nat>) {
    maxParticipants.Some? && maxParticipants.value != 0
  }

  /** `formatParticipantCount`: "count/max" with a limit, else just the count. */
  function FormatParticipantCount(count: nat, maxParticipants: Option<nat>): (s: string)
    ensures HasLimit(maxParticipants) ==> s == NatToString(count) + "/" + NatToString(maxParticipants.value)
    ensures !HasLimit(maxParticipants) ==> s == NatToString(count)
  {
    if HasLimit(maxParticipants) then NatToString(count) + "/" + NatToString(maxParticipants.value)
    else NatToString(count)
  }

  /** Reads a participant label back: the count, and the limit when there is one. */
  function ParseParticipantCount(s: string): Option<(nat, Option<nat>)> {
    var parts := Split(s, '/');
    if |parts| == 1 && AllDigits(parts[0]) then Some((DigitsValue(parts[0]), None))
    else if |parts| == 2 && AllDigits(parts[0]) && AllDigits(parts[1]) then
      Some((DigitsValue(parts[0]), Some(DigitsValue(parts[1]))))
    else None
  }

  lemma DigitsHaveNoSlash(n: nat)
    ensures '/' !in NatToString(n)
  {
  }

  /** The label gives back the count, and the limit exactly when there is one. */
  lemma ParticipantCountRoundTrip(count: nat, maxParticipants: Option<nat>)
    ensures ParseParticipantCount(FormatParticipantCount(count, maxParticipants)) ==
      Some((count, if HasLimit(maxParticipants) then maxParticipants else None))
  {
    NatToStringValue(count);
    DigitsHaveNoSlash(count);
    if HasLimit(maxParticipants) {
      var m := maxParticipants.value;
      NatToStringValue(m);
      DigitsHaveNoSlash(m);
      SplitJoin([NatToString(count), NatToString(m)], '/');
      assert Join([NatToString(count), NatToString(m)], "/") == NatToString(count) + "/" + NatToString(m);
    } else {
      SplitJoin([NatToString(count)], '/');
    }
  }

  /** `calculateParticipationRate`: `Math.round(count / max * 100)`, 0 without a limit. */
  function CalculateParticipationRate(count: nat, maxParticipants: Option<nat>): (rate: nat)
    ensures !HasLimit(maxParticipants) ==> rate == 0
    ensures HasLimit(maxParticipants) ==>
      var m := maxParticipants.value;
      2 * m * rate <= 200 * count + m < 2 * m * (rate + 1)
  {
    if !HasLimit(maxParticipants) then 0
    else (200 * count + maxParticipants.value) / (2 * maxParticipants.value)
  }

  /** A larger count never gives a smaller rate for the same limit. */
  lemma RateMonotone(c1: nat, c2: nat, maxParticipants: Option<nat>)
    requires c1 <= c2
    ensures CalculateParticipationRate(c1, maxParticipants) <= CalculateParticipationRate(c2, maxParticipants)
  {
    if HasLimit(maxParticipants) {
      var d := 2 * maxParticipants.value;
      var a := 200 * c1 + maxParticipants.value;
      var b := 200 * c2 + maxParticipants.value;
      DivMonotone(a, b, d);
    }
  }

  lemma DivMonotone(a: nat, b: nat, d: nat)
    requires a <= b && d > 0
    ensures a / d <= b / d
  {
    assert d * (a / d) <= a;
    assert b < d * (b / d + 1);
    MulCancel(d, b / d + 1, a / d);
  }

  datatype BadgeVariant = Default | Secondary | Destructive | Outline

  /** `getParticipationVariant` */
  function GetParticipationVariant(count: nat, maxParticipants: Option<nat>): (v: BadgeVariant)
    ensures !HasLimit(maxParticipants) ==> v == Outline
    ensures HasLimit(maxParticipants) ==>
      var rate := CalculateParticipationRate(count, maxParticipants);
      && (v == Default <==> rate >= 90)
      && (v == Secondary <==> 70 <= rate < 90)
      && (v == Outline <==> 50 <= rate < 70)
      && (v == Destructive <==> rate < 50)
  {
    if !HasLimit(maxParticipants) then Outline
    else
      var rate := CalculateParticipationRate(count, maxParticipants);
      if rate >= 90 then Default
      else if rate >= 70 then Secondary
      else if rate >= 50 then Outline
      else Destructive
  }

  /** The badge order from very low to high participation. */
  function VariantRank(v: BadgeVariant): nat {
    match v
    case Destructive => 0
    case Outline => 1
    case Secondary => 2
    case Default => 3
  }

  /** For a fixed limit, more participants never give a lower badge. */
  lemma VariantMonotone(c1: nat, c2: nat, maxParticipants: Option<nat>)
    requires c1 <= c2
    ensures VariantRank(GetParticipationVariant(c1, maxParticipants)) <= VariantRank(GetParticipationVariant(c2, maxParticipants))
  {
    RateMonotone(c1, c2, maxParticipants);
  }

  /** `formatViewCount`; `toFixed1` stands for `toFixed(1)` on the scaled value. */
  function FormatViewCount(count: nat, toFixed1: real -> string): (s: string)
    ensures count >= 1000000 ==> s == toFixed1(count as real / 1000000.0) + "M"
    ensures 1000 <= count < 1000000 ==> s == toFixed1(count as real / 1000.0) + "K"
    ensures count < 1000 ==> s == NatToString(count)
  {
    if count >= 1000000 then toFixed1(count as real / 1000000.0) + "M"
    else if count >= 1000 then toFixed1(count as real / 1000.0) + "K"
    else NatToString(count)
  }

  /** Below a thousand the label is the plain count and reads back as it. */
  lemma SmallViewCountRoundTrip(count: nat, toFixed1: real -> string)
    requires count < 1000
    ensures AllDigits(FormatViewCount(count, toFixed1)) && DigitsValue(FormatViewCount(count, toFixed1)) == count
  {
    NatToStringValue(count);
  }
}
