/**
  The no_price marker: written by internal/proxy/forward.go when a price lookup
  fails, decoded by internal/billing/reprice.go when the row is recovered.
 */
module Marker {
  import opened Arithmetic
  import opened Text

  const NO_PRICE := "no_price"
  const PREFIX := "no_price:"

  predicate IsNoPrice(tier: string) { HasPrefix(tier, NO_PRICE) }

  /** internal/billing/cost.go NormalizeTier followed by String. */
  function NormalizeTier(raw: string): string {
    var t := Lower(Trim(raw));
    if Named(t) then t else "auto"
  }

  predicate Named(tier: string) { tier == "fast" || tier == "priority" || tier == "flex" }

  /** markNoPrice: the new billing_tier of a row, given the request-time multiplier. */
  function MarkNoPrice(raw: string, multiplier: Option<int64>): string {
    var tier := Lower(Trim(raw));
    if HasPrefix(tier, PREFIX) then raw
    else
      var mark := if multiplier.Some? && 0 <= multiplier.value <= 100_000
                  then ":m" + Decimal(multiplier.value) else "";
      if tier == "" || tier == "auto" || tier == NO_PRICE then NO_PRICE + mark
      else if Named(tier) then PREFIX + tier + mark
      else NO_PRICE + mark
  }

  function RecoveryTier(raw: string): string {
    if HasPrefix(raw, PREFIX) then DecodePayload(Trim(raw[|PREFIX|..])) else "auto"
  }

  function DecodePayload(value: string): string {
    var marker := IndexOfMark(value);
    var bare := if marker >= 0 then value[..marker] else value;
    if HasPrefix(bare, "m") || bare == "" then "auto" else bare
  }

  function RecoveryMultiplier(raw: string, fallback: int64): int64 {
    var t := Trim(raw);
    var marker := LastIndexOfMark(t);
    if marker < 0 then fallback
    else
      var value := Trim(t[marker + 2..]);
      if value == "" then fallback
      else
        var parsed := ScanInt(value);
        if parsed.None? || parsed.value < 0 || parsed.value > 100_000 then fallback else parsed.value
  }

  // ----- Round trip -----

  /** A decimal numeral is trimmed, has no colon and scans back to its value. */
  lemma DecimalScans(n: nat)
    requires n <= 100_000
    ensures Trimmed(Decimal(n)) && ':' !in Decimal(n) && ScanInt(Decimal(n)) == Some(n)
  {
    assert IsDigit(Decimal(n)[0]);
    DigitPrefixAll(Decimal(n));
    DecimalRoundTrip(n);
  }

  lemma AnyDecimalScans(n: nat)
    ensures Trimmed(Decimal(n)) && ':' !in Decimal(n)
    ensures ScanInt(Decimal(n)) == if n <= INT64_MAX then Some(n) else None
  {
    assert IsDigit(Decimal(n)[0]);
    DigitPrefixAll(Decimal(n));
    DecimalRoundTrip(n);
  }

  /** The last mark of head + ":m" + d is the one just written. */
  lemma {:induction false} LastMarkIsWritten(head: string, d: string)
    requires ':' !in d
    ensures LastIndexOfMark(head + ":m" + d) == |head|
  {
    var s := head + ":m" + d;
    if d != "" {
      var shorter := d[..|d| - 1];
      LastMarkIsWritten(head, shorter);
      assert s[..|s| - 1] == head + ":m" + shorter;
      assert |d| > 1 ==> s[|s| - 2] == d[|d| - 2];
    }
  }

  lemma RecoverWrittenMultiplier(head: string, d: string, fallback: int64)
    requires head != "" && !IsSpace(head[0]) && d != "" && Trimmed(d) && ':' !in d
    ensures ScanInt(d).Some? && 0 <= ScanInt(d).value <= 100_000
        ==> RecoveryMultiplier(head + ":m" + d, fallback) == ScanInt(d).value
  {
    var s := head + ":m" + d;
    assert s[|s| - 1] == d[|d| - 1];
    TrimIsTrimmed(s);
    TrimIsTrimmed(d);
    LastMarkIsWritten(head, d);
    assert s[|head| + 2..] == d;
  }

  /** A recorded multiplier counts if and only if it is at most 100000; otherwise the current one does. */
  lemma MultiplierReadBackIff(head: string, n: nat, fallback: int64)
    requires head != "" && !IsSpace(head[0])
    ensures RecoveryMultiplier(head + ":m" + Decimal(n), fallback) == if n <= 100_000 then n else fallback
  {
    var d := Decimal(n);
    var s := head + ":m" + d;
    AnyDecimalScans(n);
    assert s[|s| - 1] == d[|d| - 1];
    TrimIsTrimmed(s);
    TrimIsTrimmed(d);
    LastMarkIsWritten(head, d);
    assert s[|head| + 2..] == d;
  }

  lemma NoWrittenMultiplier(head: string, fallback: int64)
    requires Trimmed(head) && forall j :: 0 <= j < |head| - 1 ==> !(head[j] == ':' && head[j + 1] == 'm')
    ensures RecoveryMultiplier(head, fallback) == fallback
  {
    TrimIsTrimmed(head);
  }

  /** Nothing, or ":m" and a trimmed rest with no further colon. */
  predicate WellFormedTail(tail: string) {
    tail == "" || (|tail| > 2 && tail[0] == ':' && tail[1] == 'm' && Trimmed(tail[2..]) && ':' !in tail[1..])
  }

  /** The payload "tier" or "tier:m123" is trimmed, and its first mark ends the tier. */
  lemma PayloadShape(tier: string, tail: string)
    requires tier != "" && Trimmed(tier) && ':' !in tier
    requires WellFormedTail(tail)
    ensures Trimmed(tier + tail)
    ensures tier[0] != 'm' ==> DecodePayload(tier + tail) == tier
  {
    var value := tier + tail;
    if tail != "" {
      assert value[|value| - 1] == tail[2..][|tail| - 3];
      assert value[|tier|] == tail[0] && value[|tier| + 1] == tail[1];
    }
    assert forall j :: 0 <= j < |tier| ==> value[j] == tier[j] != ':';
    assert IndexOfMark(value) == if tail == "" then -1 else |tier|;
    assert value[..|tier|] == tier;
  }

  lemma RecoverWrittenTier(tier: string, tail: string)
    requires tier != "" && tier[0] != 'm' && Trimmed(tier) && ':' !in tier
    requires WellFormedTail(tail)
    ensures RecoveryTier(PREFIX + tier + tail) == tier
  {
    var raw, value := PREFIX + tier + tail, tier + tail;
    PayloadShape(tier, tail);
    TrimIsTrimmed(value);
    assert raw[..|PREFIX|] == PREFIX && raw[|PREFIX|..] == value;
  }

  lemma RecoverWrittenDefault(tail: string)
    requires WellFormedTail(tail)
    ensures RecoveryTier(NO_PRICE + tail) == "auto"
  {
    if tail != "" {
      var s := NO_PRICE + tail;
      assert s[..|PREFIX|] == PREFIX;
      var value := s[|PREFIX|..];
      assert value == tail[1..] && value[|value| - 1] == tail[2..][|tail| - 3];
      TrimIsTrimmed(value);
      assert ':' !in value;
    }
  }

  function Head(tier: string): string { if Named(tier) then PREFIX + tier else NO_PRICE }

  function Tail(multiplier: int64): string {
    if 0 <= multiplier <= 100_000 then ":m" + Decimal(multiplier) else ""
  }

  /** A fresh marker is the tier's head, then the recorded multiplier if it is in range. */
  lemma MarkerShape(raw: string, multiplier: int64)
    requires !HasPrefix(Lower(Trim(raw)), PREFIX)
    ensures MarkNoPrice(raw, Some(multiplier)) == Head(Lower(Trim(raw))) + Tail(multiplier)
  {
  }

  lemma RecoverHead(tier: string, tail: string)
    requires WellFormedTail(tail)
    ensures RecoveryTier(Head(tier) + tail) == if Named(tier) then tier else "auto"
  {
    if Named(tier) { RecoverWrittenTier(tier, tail); } else { RecoverWrittenDefault(tail); }
  }

  lemma TailShape(multiplier: int64)
    ensures WellFormedTail(Tail(multiplier))
  {
    if 0 <= multiplier <= 100_000 {
      DecimalScans(multiplier);
      assert Tail(multiplier)[2..] == Decimal(multiplier);
      assert Tail(multiplier)[1..] == "m" + Decimal(multiplier);
    }
  }

  lemma TierRoundTrip(raw: string, multiplier: int64)
    requires !HasPrefix(Lower(Trim(raw)), PREFIX)
    ensures RecoveryTier(MarkNoPrice(raw, Some(multiplier))) == NormalizeTier(raw)
  {
    MarkerShape(raw, multiplier);
    TailShape(multiplier);
    RecoverHead(Lower(Trim(raw)), Tail(multiplier));
  }

  lemma HeadShape(tier: string)
    ensures var h := Head(tier);
            h != "" && Trimmed(h) && forall j :: 0 <= j < |h| - 1 ==> !(h[j] == ':' && h[j + 1] == 'm')
  {
    if Named(tier) {
      assert forall j :: |PREFIX| <= j < |Head(tier)| ==> Head(tier)[j] == tier[j - |PREFIX|];
    }
  }

  lemma RecoverHeadMultiplier(tier: string, multiplier: int64, fallback: int64)
    ensures RecoveryMultiplier(Head(tier) + Tail(multiplier), fallback)
         == if 0 <= multiplier <= 100_000 then multiplier else fallback
  {
    HeadShape(tier);
    var head := Head(tier);
    if 0 <= multiplier <= 100_000 {
      var d := Decimal(multiplier);
      DecimalScans(multiplier);
      RecoverWrittenMultiplier(head, d, fallback);
      assert head + (":m" + d) == head + ":m" + d;
    } else {
      assert head + "" == head;
      NoWrittenMultiplier(head, fallback);
    }
  }

  /** What the proxy writes is what recovery reads: same tier, same request-time multiplier. */
  lemma MarkerRoundTrip(raw: string, multiplier: int64, fallback: int64)
    requires !HasPrefix(Lower(Trim(raw)), PREFIX)
    ensures var mark := MarkNoPrice(raw, Some(multiplier));
            && IsNoPrice(mark)
            && RecoveryTier(mark) == NormalizeTier(raw)
            && RecoveryMultiplier(mark, fallback) == if 0 <= multiplier <= 100_000 then multiplier else fallback
  {
    MarkerShape(raw, multiplier);
    TierRoundTrip(raw, multiplier);
    RecoverHeadMultiplier(Lower(Trim(raw)), multiplier, fallback);
  }

  lemma WrittenMarkerIsPrefixed(tier: string, m: int64)
    requires 0 <= m <= 100_000 || Named(tier)
    ensures HasPrefix(Head(tier) + Tail(m), PREFIX) && Trimmed(Head(tier) + Tail(m))
  {
    var s := Head(tier) + Tail(m);
    HeadShape(tier);
    if 0 <= m <= 100_000 {
      var d := Decimal(m);
      DecimalScans(m);
      assert s[0] == Head(tier)[0] && s[|s| - 1] == d[|d| - 1];
    }
    assert s[..|PREFIX|] == PREFIX;
  }

  /** The first mark names neither a tier nor a multiplier, so it reads like an unmarked default tier. */
  predicate Bare(raw: string, m: int64) {
    var tier := Lower(Trim(raw));
    !HasPrefix(tier, PREFIX) && !Named(tier) && !(0 <= m <= 100_000)
  }

  /**
    Marking twice keeps the first recorded tier and multiplier, except that a bare mark
    takes the second multiplier; so the two differ exactly for a bare mark and a usable m'.
   */
  lemma MarkingTwice(raw: string, m: int64, m': int64)
    ensures var once, twice := MarkNoPrice(raw, Some(m)), MarkNoPrice(MarkNoPrice(raw, Some(m)), Some(m'));
            && twice == MarkNoPrice(raw, Some(if Bare(raw, m) then m' else m))
            && (twice == once <==> !(Bare(raw, m) && 0 <= m' <= 100_000))
  {
    if !HasPrefix(Lower(Trim(raw)), PREFIX) {
      if Bare(raw, m) {
        BareIsRemarked(raw, m, m');
      } else {
        MarkedStays(raw, m, m');
      }
    }
  }

  lemma BareIsRemarked(raw: string, m: int64, m': int64)
    requires !HasPrefix(Lower(Trim(raw)), PREFIX) && Bare(raw, m)
    ensures MarkNoPrice(raw, Some(m)) == NO_PRICE
    ensures MarkNoPrice(NO_PRICE, Some(m')) == MarkNoPrice(raw, Some(m')) == NO_PRICE + Tail(m')
  {
    MarkerShape(raw, m);
    MarkerShape(raw, m');
    BareMarkIsUnmarked();
    assert Head(Lower(Trim(raw))) + Tail(m) == NO_PRICE;
    MarkerShape(NO_PRICE, m');
  }

  lemma MarkedStays(raw: string, m: int64, m': int64)
    requires !HasPrefix(Lower(Trim(raw)), PREFIX) && !Bare(raw, m)
    ensures MarkNoPrice(MarkNoPrice(raw, Some(m)), Some(m')) == MarkNoPrice(raw, Some(m))
  {
    var tier := Lower(Trim(raw));
    MarkerShape(raw, m);
    WrittenMarkerIsPrefixed(tier, m);
    TrimIsTrimmed(Head(tier) + Tail(m));
    LowerKeeps(Head(tier) + Tail(m), PREFIX);
  }

  lemma BareMarkIsUnmarked()
    ensures Lower(Trim(NO_PRICE)) == NO_PRICE && !HasPrefix(NO_PRICE, PREFIX) && !Named(NO_PRICE)
  {
    TrimIsTrimmed(NO_PRICE);
    LowerKeeps(NO_PRICE, NO_PRICE);
  }

  lemma {:induction false} LowerKeeps(s: string, p: string)
    requires HasPrefix(s, p) && forall i :: 0 <= i < |p| ==> LowerChar(p[i]) == p[i]
    ensures HasPrefix(Lower(s), p)
  {
    if p != "" {
      assert s[0] == p[0] && LowerChar(p[0]) == p[0];
      LowerKeeps(s[1..], p[1..]);
    }
  }

  /**
    Recovery clears the marker except when the recorded tier itself starts with
    "no_price": exactly then the recovered row is picked up again.
   */
  lemma RecoveredStillMarkedIff(raw: string)
    ensures IsNoPrice(RecoveryTier(raw))
       <==> HasPrefix(raw, PREFIX) && HasPrefix(Trim(raw[|PREFIX|..]), NO_PRICE)
  {
    if HasPrefix(raw, PREFIX) {
      var value := Trim(raw[|PREFIX|..]);
      var marker := IndexOfMark(value);
      if HasPrefix(value, NO_PRICE) {
        assert forall j :: 0 <= j < |NO_PRICE| ==> value[j] == NO_PRICE[j] != ':';
        var bare := if marker >= 0 then value[..marker] else value;
        assert bare[..|NO_PRICE|] == value[..|NO_PRICE|];
      }
    }
  }

  lemma RecoveredStillMarkedExample()
    ensures IsNoPrice(RecoveryTier("no_price:no_price"))
  {
    RecoveredStillMarkedIff("no_price:no_price");
    assert "no_price:no_price"[..|PREFIX|] == PREFIX && "no_price:no_price"[|PREFIX|..] == NO_PRICE;
    TrimIsTrimmed(NO_PRICE);
    assert HasPrefix(Trim(NO_PRICE), NO_PRICE);
  }
}
