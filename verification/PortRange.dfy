/**
 The relay port range: from the configuration string, through parsing and checking, to
 the port a TURN allocation listens on.  Ports are 16-bit words, so sums and differences
 wrap around.
 */
module PortRange {

  datatype Result<+T> = Ok(value: T) | Err(error: string)

  const WORD := 0x1_0000

  // ---- Strings ----

  predicate HasColon(s: string) { exists i :: 0 <= i < |s| && s[i] == ':' }

  /** The parts between the colons. */
  function Split(s: string): (parts: seq<string>)
    ensures |parts| >= 1
  {
    if s == "" then [""]
    else
      var rest := Split(s[1..]);
      if s[0] == ':' then [""] + rest else [[s[0]] + rest[0]] + rest[1..]
  }

  lemma {:induction false} SplitWithoutColon(s: string)
    requires !HasColon(s)
    ensures Split(s) == [s]
  {
    if s != "" {
      assert !HasColon(s[1..]) by {
        forall i | 0 <= i < |s[1..]|
          ensures s[1..][i] != ':'
        {
          assert s[1..][i] == s[i + 1];
        }
      }
      SplitWithoutColon(s[1..]);
      assert s[0] != ':';
      assert [s[0]] + s[1..] == s;
    }
  }

  /** Splitting undoes joining with a colon. */
  lemma {:induction false} SplitAroundColon(a: string, b: string)
    requires !HasColon(a) && !HasColon(b)
    ensures Split(a + ":" + b) == [a, b]
  {
    var s := a + ":" + b;
    if a == "" {
      assert s[1..] == b && s[0] == ':';
      SplitWithoutColon(b);
    } else {
      assert s[1..] == a[1..] + ":" + b;
      assert s[0] == a[0] && a[0] != ':';
      assert !HasColon(a[1..]) by {
        forall i | 0 <= i < |a[1..]|
          ensures a[1..][i] != ':'
        {
          assert a[1..][i] == a[i + 1];
        }
      }
      SplitAroundColon(a[1..], b);
      assert [a[0]] + a[1..] == a;
    }
  }

  lemma {:induction false} PartsHaveNoColon(s: string)
    ensures forall p :: p in Split(s) ==> !HasColon(p)
    ensures |Split(s)| == 1 ==> Split(s)[0] == s
    ensures |Split(s)| == 2 ==> s == Split(s)[0] + ":" + Split(s)[1]
  {
    if s != "" {
      var rest := Split(s[1..]);
      PartsHaveNoColon(s[1..]);
      assert s == [s[0]] + s[1..];
      assert rest[0] in rest;
      if s[0] == ':' {
        assert [s[0]] == ":";
      } else {
        assert forall p :: p in rest[1..] ==> p in rest;
      }
    }
  }

  /** There are two parts exactly if there is one colon, and they are what stands around it. */
  lemma SplitsInTwo(s: string)
    ensures |Split(s)| == 2 <==> exists a, b :: AroundColon(s, a, b)
    ensures forall a, b :: AroundColon(s, a, b) ==> Split(s) == [a, b]
  {
    PartsHaveNoColon(s);
    forall a, b | AroundColon(s, a, b)
      ensures Split(s) == [a, b]
    {
      SplitAroundColon(a, b);
    }
    if |Split(s)| == 2 {
      assert AroundColon(s, Split(s)[0], Split(s)[1]);
    }
  }

  predicate AroundColon(s: string, a: string, b: string) {
    !HasColon(a) && !HasColon(b) && s == a + ":" + b
  }

  predicate IsDigit(c: char) { '0' <= c <= '9' }

  function DigitValue(c: char): nat
    requires IsDigit(c)
  {
    c as nat - '0' as nat
  }

  predicate AllDigits(s: string) { forall i :: 0 <= i < |s| ==> IsDigit(s[i]) }

  function DecimalValue(s: string): nat
    requires AllDigits(s)
  {
    if s == "" then 0 else 10 * DecimalValue(s[..|s| - 1]) + DigitValue(s[|s| - 1])
  }

  /** An unsigned decimal number of 16 bits: digits only, at least one, in range. */
  function ParseUint16(s: string): Result<nat> {
    if s == "" || !AllDigits(s) then Err("invalid syntax")
    else if DecimalValue(s) >= WORD then Err("value out of range")
    else Ok(DecimalValue(s))
  }

  /** The usual decimal notation. */
  function Decimal(n: nat): (s: string)
    ensures s != "" && AllDigits(s)
  {
    var last := [('0' as nat + n % 10) as char];
    if n < 10 then last else Decimal(n / 10) + last
  }

  lemma {:induction false} DecimalRoundTrip(n: nat)
    ensures DecimalValue(Decimal(n)) == n
    ensures ParseUint16(Decimal(n)) == if n < WORD then Ok(n) else Err("value out of range")
  {
    var s := Decimal(n);
    if n < 10 {
      assert s[..0] == "";
    } else {
      DecimalRoundTrip(n / 10);
      assert s[..|s| - 1] == Decimal(n / 10);
    }
  }

  lemma DigitsAreNoColon(s: string)
    requires AllDigits(s)
    ensures !HasColon(s)
  {}

  // ---- Configuration ----

  function ParsePortRange(range: string): Result<(nat, nat)> {
    if range == "" then Ok((0, 0))
    else
      var parts := Split(range);
      if |parts| != 2 then Err("must include one colon")
      else
        var min := ParseUint16(parts[0]);
        var max := ParseUint16(parts[1]);
        if min.Err? then Err("invalid min: " + min.error)
        else if max.Err? then Err("invalid max: " + max.error)
        else Ok((min.value, max.value))
  }

  /** Minimum, maximum, and whether there is a range at all; an unparsable range counts as none. */
  function ConfiguredRange(range: string): (nat, nat, bool) {
    var parsed := ParsePortRange(range);
    var (min, max) := if parsed.Ok? then parsed.value else (0, 0);
    (min, max, min != 0 && max != 0)
  }

  /** What start-up says about the setting; after a fatal one the program exits. */
  datatype Finding = Fine | FewPorts | Fatal(reason: string)

  function CheckPortRange(range: string): Finding {
    match ParsePortRange(range)
    case Err(e) => Fatal("invalid SCREEGO_TURN_PORT_RANGE: " + e)
    case Ok((min, max)) =>
      if min == 0 && max == 0 then Fine
      else if min == 0 || max == 0 then Fatal("invalid SCREEGO_TURN_PORT_RANGE: min or max port is 0")
      else if min > max then
        Fatal("invalid SCREEGO_TURN_PORT_RANGE: min port (" + Decimal(min) + ") is higher than max port (" + Decimal(max) + ")")
      else if (max - min) % WORD < 40 then FewPorts
      else Fine
  }

  /** A range is in use after start-up exactly if the setting is two decimal 16-bit numbers, in order and not zero. */
  lemma RangesInUse(range: string)
    ensures !CheckPortRange(range).Fatal? && ConfiguredRange(range).2
            <==> exists a, b :: IsRangeText(range, a, b)
    ensures forall a, b :: IsRangeText(range, a, b) ==>
              ConfiguredRange(range) == (DecimalValue(a), DecimalValue(b), true)
  {
    if !CheckPortRange(range).Fatal? && ConfiguredRange(range).2 {
      PartsHaveNoColon(range);
      assert IsRangeText(range, Split(range)[0], Split(range)[1]);
    }
    forall a, b | IsRangeText(range, a, b)
      ensures ConfiguredRange(range) == (DecimalValue(a), DecimalValue(b), true)
      ensures !CheckPortRange(range).Fatal?
    {
      TextSplits(range, a, b);
    }
  }

  /** Start-up refuses exactly what is neither a range nor a way to say that there is none, and warns of fewer than 40 ports. */
  lemma FindingsExact(range: string)
    ensures CheckPortRange(range).Fatal?
            <==> range != "" && forall a, b :: !IsZerosText(range, a, b) && !IsRangeText(range, a, b)
    ensures CheckPortRange(range).FewPorts?
            <==> exists a, b :: IsRangeText(range, a, b) && DecimalValue(b) - DecimalValue(a) < 40
  {
    hide Split, DecimalValue, HasColon, Decimal;
    if range != "" && |Split(range)| == 2 {
      PartsHaveNoColon(range);
      var parts := Split(range);
      assert range == parts[0] + ":" + parts[1];
      forall a, b | IsZerosText(range, a, b) || IsRangeText(range, a, b)
        ensures parts == [a, b]
      {
        TextSplits(range, a, b);
      }
      assert CheckPortRange(range) == Fine ==>
               IsZerosText(range, parts[0], parts[1]) || IsRangeText(range, parts[0], parts[1]);
      assert CheckPortRange(range) == FewPorts ==> IsRangeText(range, parts[0], parts[1]);
    } else {
      forall a, b
        ensures !IsZerosText(range, a, b) && !IsRangeText(range, a, b)
      {
        if IsZerosText(range, a, b) || IsRangeText(range, a, b) {
          TextSplits(range, a, b);
          assert false;
        }
      }
    }
  }

  lemma TextSplits(range: string, a: string, b: string)
    requires range == a + ":" + b && AllDigits(a) && AllDigits(b)
    ensures range != "" && Split(range) == [a, b]
  {
    DigitsAreNoColon(a);
    DigitsAreNoColon(b);
    SplitAroundColon(a, b);
  }

  /** Two decimal numbers that are zero. */
  predicate IsZerosText(range: string, a: string, b: string) {
    && range == a + ":" + b
    && a != "" && AllDigits(a) && b != "" && AllDigits(b)
    && DecimalValue(a) == 0 && DecimalValue(b) == 0
  }

  predicate IsRangeText(range: string, a: string, b: string) {
    && range == a + ":" + b
    && a != "" && AllDigits(a) && b != "" && AllDigits(b)
    && 0 < DecimalValue(a) <= DecimalValue(b) < WORD
  }

  // ---- Drawing a port ----

  /** How many numbers are drawn from: the 16-bit value of `(max + 1) - min`. */
  function Span(min: nat, max: nat): nat {
    ((max + 1) % WORD - min) % WORD
  }

  function Port(min: nat, draw: nat): nat { (min + draw) % WORD }

  predicate CanDraw(min: nat, max: nat, p: nat) { exists d :: 0 <= d < Span(min, max) && Port(min, d) == p }

  /** The draw is possible and hits exactly the ports from `min` to `max`. */
  ghost predicate DrawsExactly(min: nat, max: nat) {
    && Span(min, max) > 0
    && (forall d: nat :: d < Span(min, max) ==> min <= Port(min, d) <= max)
    && (forall p: nat :: min <= p <= max ==> CanDraw(min, max, p))
  }

  /** Over all 16-bit pairs: exactly for ordered pairs other than the whole range of 16 bits, whose span wraps to 0. */
  lemma DrawsExactlyIff(min: nat, max: nat)
    requires min < WORD && max < WORD
    ensures DrawsExactly(min, max) <==> min <= max && !(min == 0 && max == WORD - 1)
  {
    if min <= max && !(min == 0 && max == WORD - 1) {
      assert Span(min, max) == max + 1 - min;
      forall p: nat | min <= p <= max
        ensures CanDraw(min, max, p)
      {
        assert Port(min, p - min) == p;
      }
      forall d: nat | d < Span(min, max)
        ensures min <= Port(min, d) <= max
      {
        assert Port(min, d) == min + d;
      }
    } else if min > max && Span(min, max) > 0 {
      assert !(min <= Port(min, 0) <= max);
    }
  }

  /** Every range in use is drawn from exactly, also when its maximum is 65535 and `max + 1` wraps to 0. */
  lemma RangesInUseDrawExactly(range: string)
    requires !CheckPortRange(range).Fatal? && ConfiguredRange(range).2
    ensures var (min, max, _) := ConfiguredRange(range);
            DrawsExactly(min, max) && Span(min, max) == max - min + 1
  {
    hide Split, ParseUint16, DrawsExactly;
    RangesInUse(range);
    var (min, max, _) := ConfiguredRange(range);
    DrawsExactlyIff(min, max);
  }

  /** Two decimal 16-bit numbers that are not zero, the larger first. */
  predicate IsReversedText(range: string, a: string, b: string) {
    && range == a + ":" + b
    && a != "" && AllDigits(a) && b != "" && AllDigits(b)
    && 0 < DecimalValue(b) < DecimalValue(a) < WORD
  }

  /**
   Only the start-up check keeps a reversed range from being used.  With it ports would be
   drawn from both ends of the 16-bit numbers, exactly those not between the two --- or, if
   nothing lies between, a number out of none would be drawn.
   */
  lemma ReversedRangeDrawsOutside(range: string, a: string, b: string)
    requires IsReversedText(range, a, b)
    ensures CheckPortRange(range).Fatal? && ConfiguredRange(range) == (DecimalValue(a), DecimalValue(b), true)
    ensures var min, max := DecimalValue(a), DecimalValue(b);
            if min == max + 1 then Span(min, max) == 0
            else forall p: nat :: CanDraw(min, max, p) <==> p <= max || min <= p < WORD
  {
    TextSplits(range, a, b);
    ReversedDraws(DecimalValue(a), DecimalValue(b));
  }

  lemma ReversedDraws(min: nat, max: nat)
    requires 0 < max < min < WORD
    ensures if min == max + 1 then Span(min, max) == 0
            else forall p: nat :: CanDraw(min, max, p) <==> p <= max || min <= p < WORD
  {
    assert Span(min, max) == (max + 1 - min + WORD) % WORD;
    if min > max + 1 {
      assert Span(min, max) == WORD + max + 1 - min;
      forall p: nat
        ensures CanDraw(min, max, p) <==> p <= max || min <= p < WORD
      {
        if p <= max {
          assert Port(min, WORD - min + p) == p;
        } else if min <= p < WORD {
          assert Port(min, p - min) == p;
        }
      }
    }
  }

  // ---- Allocating ----

  /** The port tried `i`-th. */
  function Tried(min: nat, draws: seq<nat>, i: nat): nat
    requires i < |draws|
  {
    Port(min, draws[i])
  }

  /**
   Allocates a relay port.  `draws` are the random numbers in the order they are drawn,
   `opens(i, p)` says whether the `i`-th attempt to listen, on port `p`, succeeds.
   */
  method AllocatePacketConn(min: nat, max: nat, requestedPort: nat, draws: seq<nat>, opens: (nat, nat) -> bool)
    returns (r: Result<nat>)
    requires min < WORD && max < WORD && Span(min, max) > 0
    requires |draws| == 10 && forall i :: 0 <= i < 10 ==> draws[i] < Span(min, max)
    ensures requestedPort != 0 ==> (r.Ok? <==> opens(0, requestedPort)) && (r.Ok? ==> r.value == requestedPort)
    ensures requestedPort == 0 ==>
              (r.Err? <==> forall i :: 0 <= i < 10 ==> !opens(i, Tried(min, draws, i)))
    ensures requestedPort == 0 && r.Ok? ==>
              exists k :: 0 <= k < 10 && r.value == Tried(min, draws, k) && opens(k, r.value)
                          && forall i :: 0 <= i < k ==> !opens(i, Tried(min, draws, i))
    ensures requestedPort == 0 && r.Ok? && DrawsExactly(min, max) ==> min <= r.value <= max
  {
    if requestedPort != 0 {
      if !opens(0, requestedPort) {
        return Err("listen failed");
      }
      return Ok(requestedPort);
    }
    var attempt := 0;
    while attempt < 10
      invariant 0 <= attempt <= 10
      invariant forall i :: 0 <= i < attempt ==> !opens(i, Tried(min, draws, i))
    {
      var port := (min + draws[attempt]) % WORD;
      assert port == Tried(min, draws, attempt);
      if opens(attempt, port) {
        return Ok(port);
      }
      attempt := attempt + 1;
    }
    return Err("could not find free port: max retries exceeded");
  }
}
