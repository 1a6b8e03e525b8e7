/**
 The money input field: cleaning what was typed, its canonical value, its formatted text, and the
 caret's place in it. Strings are sequences of characters; `trim` removes JavaScript white space.
 */
module MoneyText {
  import opened Options

  predicate IsDigit(c: char) { '0' <= c <= '9' }

  /** The hyphen, the minus sign, and the two dashes. */
  predicate IsMinus(c: char) { c == '-' || c == '\U{2212}' || c == '\U{2013}' || c == '\U{2014}' }

  predicate IsLineEnd(c: char) { c == '\n' || c == '\r' || c == '\U{2028}' || c == '\U{2029}' }

  predicate IsSpace(c: char) {
    || IsLineEnd(c) || c == ' ' || c == '\t' || c == '\U{0B}' || c == '\U{0C}' || c == '\U{A0}' || c == '\U{1680}'
    || '\U{2000}' <= c <= '\U{200A}' || c == '\U{202F}' || c == '\U{205F}' || c == '\U{3000}' || c == '\U{FEFF}'
  }

  predicate AllDigits(s: string) {
    forall i :: 0 <= i < |s| ==> IsDigit(s[i])
  }

  // ----- Pieces of the sanitizer -----

  function TrimLeft(s: string): string
    decreases |s|
  {
    if s != "" && IsSpace(s[0]) then TrimLeft(s[1..]) else s
  }

  function TrimRight(s: string): string
    decreases |s|
  {
    if s != "" && IsSpace(s[|s| - 1]) then TrimRight(s[..|s| - 1]) else s
  }

  function Trimmed(s: string): string {
    TrimRight(TrimLeft(s))
  }

  predicate HasMinus(s: string) {
    exists i :: 0 <= i < |s| && IsMinus(s[i])
  }

  predicate HasDigit(s: string) {
    exists i :: 0 <= i < |s| && IsDigit(s[i])
  }

  predicate Parenthesized(s: string) {
    |s| >= 2 && s[0] == '(' && s[|s| - 1] == ')' && forall i :: 0 < i < |s| - 1 ==> !IsLineEnd(s[i])
  }

  /** The digits and dots alone. */
  function Kept(s: string): string
    decreases |s|
  {
    if s == "" then ""
    else (if IsDigit(s[0]) || s[0] == '.' then [s[0]] else "") + Kept(s[1..])
  }

  function DigitsOf(s: string): (r: string)
    ensures AllDigits(r)
    decreases |s|
  {
    if s == "" then "" else (if IsDigit(s[0]) then [s[0]] else "") + DigitsOf(s[1..])
  }

  function DotAt(s: string): (r: Option<nat>)
    ensures r.Some? ==> r.value < |s| && s[r.value] == '.' && forall j :: 0 <= j < r.value ==> s[j] != '.'
    ensures r.None? ==> forall j :: 0 <= j < |s| ==> s[j] != '.'
    decreases |s|
  {
    if s == "" then None
    else if s[0] == '.' then Some(0)
    else
      var rest := DotAt(s[1..]);
      if rest.Some? then Some(rest.value + 1) else None
  }

  function First(s: string, n: nat): string {
    if |s| <= n then s else s[..n]
  }

  /** Leading zeros go, as long as a digit follows them. */
  function StripZeros(s: string): string
    decreases |s|
  {
    if |s| >= 2 && s[0] == '0' && IsDigit(s[1]) then StripZeros(s[1..]) else s
  }

  function StripTrailingZeros(s: string): string
    decreases |s|
  {
    if s != "" && s[|s| - 1] == '0' then StripTrailingZeros(s[..|s| - 1]) else s
  }

  function Sign(negative: bool): string {
    if negative then "-" else ""
  }

  // ----- The three public functions -----

  /** The part before the first dot, without leading zeros; a bare dot gets a zero before it. */
  function CleanWhole(cleaned: string): string {
    var dot := DotAt(cleaned);
    var normalized := StripZeros(if dot.Some? then cleaned[..dot.value] else cleaned);
    if normalized == "" && dot.Some? then "0" else normalized
  }

  /** The first dot and at most two of the digits after it; later dots are dropped. */
  function CleanTail(cleaned: string): string {
    var dot := DotAt(cleaned);
    if dot.Some? then "." + First(DigitsOf(cleaned[dot.value + 1..]), 2) else ""
  }

  predicate ReadsNegative(source: string) {
    HasMinus(source) || (Parenthesized(source) && HasDigit(source))
  }

  function Sanitize(value: string, allowNegative: bool): string {
    var source := Trimmed(value);
    var negative := allowNegative && ReadsNegative(source);
    var cleaned := Kept(source);
    if source == "" then ""
    else if cleaned == "" then Sign(negative)
    else Sign(negative) + CleanWhole(cleaned) + CleanTail(cleaned)
  }

  /** The parts of a sanitized text: its sign, whole digits and decimals. */
  function Split(raw: string): (bool, string, string) {
    var negative := raw != "" && raw[0] == '-';
    var unsigned := if negative then raw[1..] else raw;
    var dot := DotAt(unsigned);
    if dot.Some? then (negative, unsigned[..dot.value], unsigned[dot.value + 1..]) else (negative, unsigned, "")
  }

  function OrZero(whole: string): string {
    if whole == "" then "0" else whole
  }

  function Canonical(value: string, allowNegative: bool): string {
    var raw := Sanitize(value, allowNegative);
    if raw == "" || raw == "-" then raw
    else
      var (negative, whole, decimal) := Split(raw);
      var significant := StripTrailingZeros(decimal);
      Sign(negative) + OrZero(whole) + (if significant != "" then "." + significant else "")
  }

  /** A comma goes wherever a multiple of three digits is left. */
  function Grouped(digits: string): string
    decreases |digits|
  {
    if digits == "" then ""
    else [digits[0]] + (if |digits| > 1 && (|digits| - 1) % 3 == 0 then "," else "") + Grouped(digits[1..])
  }

  function Padded(decimal: string): string {
    if |decimal| == 0 then "00" else if |decimal| == 1 then decimal + "0" else decimal[..2]
  }

  function Format(value: string): string {
    var raw := Sanitize(value, true);
    if raw == "" || raw == "-" then raw
    else
      var (negative, whole, decimal) := Split(raw);
      Sign(negative) + Grouped(OrZero(whole)) + "." + Padded(decimal)
  }

  // ----- The shape of a number's text -----

  /** Digits and commas, starting with a digit. */
  predicate IsWhole(w: string) {
    w != "" && IsDigit(w[0]) && forall i :: 0 <= i < |w| ==> IsDigit(w[i]) || w[i] == ','
  }

  /** Nothing, or a dot and at most two digits. */
  predicate IsTail(t: string) {
    t == "" || (|t| <= 3 && t[0] == '.' && forall i :: 1 <= i < |t| ==> IsDigit(t[i]))
  }

  function Number(negative: bool, whole: string, tail: string): string {
    Sign(negative) + whole + tail
  }

  lemma Associates(a: string, b: string, c: string)
    ensures a + (b + c) == (a + b) + c
  {
  }

  lemma {:induction false} KeptOfAppend(a: string, b: string)
    ensures Kept(a + b) == Kept(a) + Kept(b)
    decreases |a|
  {
    if a == "" {
      assert "" + b == b;
    } else {
      assert (a + b)[1..] == a[1..] + b;
      KeptOfAppend(a[1..], b);
      Associates(if IsDigit(a[0]) || a[0] == '.' then [a[0]] else "", Kept(a[1..]), Kept(b));
    }
  }

  lemma {:induction false} KeptOfDigits(s: string)
    requires AllDigits(s)
    ensures Kept(s) == s && DigitsOf(s) == s
    decreases |s|
  {
    if s != "" {
      KeptOfDigits(s[1..]);
    }
  }

  lemma {:induction false} KeptOfWhole(w: string)
    requires forall i :: 0 <= i < |w| ==> IsDigit(w[i]) || w[i] == ','
    ensures AllDigits(Kept(w)) && Kept(w) == DigitsOf(w)
    decreases |w|
  {
    if w != "" {
      KeptOfWhole(w[1..]);
    }
  }

  lemma KeptOfTail(t: string)
    requires IsTail(t)
    ensures Kept(t) == t
  {
    if t != "" {
      assert t == "." + t[1..];
      KeptOfDigits(t[1..]);
    }
  }

  lemma {:induction false} KeptOfNumber(negative: bool, w: string, t: string)
    requires IsWhole(w) && IsTail(t)
    ensures Kept(Number(negative, w, t)) == Kept(w) + t
  {
    KeptOfAppend(Sign(negative) + w, t);
    KeptOfAppend(Sign(negative), w);
    KeptOfTail(t);
    KeptOfSign(negative);
  }

  lemma KeptOfSign(negative: bool)
    ensures Kept(Sign(negative)) == ""
  {
    assert "-"[1..] == "";
  }

  /** A number's text is tight, and its minus is its sign. */
  lemma NumberIsTight(negative: bool, w: string, t: string)
    requires IsWhole(w) && IsTail(t)
    ensures var s := Number(negative, w, t);
            && Trimmed(s) == s
            && (HasMinus(s) <==> negative)
            && !Parenthesized(s)
  {
  }

  lemma {:induction false} StripZerosKeepsDigits(s: string)
    requires AllDigits(s)
    ensures AllDigits(StripZeros(s)) && (s != "" ==> StripZeros(s) != "") && StripZeros(StripZeros(s)) == StripZeros(s)
    decreases |s|
  {
    if |s| >= 2 && s[0] == '0' {
      StripZerosKeepsDigits(s[1..]);
    }
  }

  lemma DotOfNumber(digits: string, t: string)
    requires AllDigits(digits) && IsTail(t)
    ensures DotAt(digits + t) == if t == "" then None else Some(|digits|)
  {
    var at := DotAt(digits + t);
    assert forall j :: 0 <= j < |digits| ==> (digits + t)[j] == digits[j];
    if t != "" {
      assert (digits + t)[|digits|] == '.';
    }
  }

  lemma CleanParts(digits: string, t: string)
    requires AllDigits(digits) && digits != "" && IsTail(t)
    ensures CleanWhole(digits + t) == StripZeros(digits) && CleanTail(digits + t) == t
  {
    DotOfNumber(digits, t);
    StripZerosKeepsDigits(digits);
    if t == "" {
      assert digits + t == digits;
    } else {
      assert (digits + t)[..|digits|] == digits && (digits + t)[|digits| + 1..] == t[1..];
      KeptOfDigits(t[1..]);
      assert t == "." + t[1..];
    }
  }

  /** Sanitizing a number's text drops its commas and leading zeros, and its sign if that is not allowed. */
  lemma SanitizeNumber(negative: bool, w: string, t: string, allow: bool)
    requires IsWhole(w) && IsTail(t)
    ensures Sanitize(Number(negative, w, t), allow) == Number(negative && allow, StripZeros(DigitsOf(w)), t)
    ensures IsWhole(StripZeros(DigitsOf(w)))
  {
    var s := Number(negative, w, t);
    var digits := DigitsOf(w);
    NumberIsTight(negative, w, t);
    KeptOfNumber(negative, w, t);
    KeptOfWhole(w);
    assert digits != "";
    StripZerosKeepsDigits(digits);
    CleanParts(digits, t);
  }

  /** What sanitizing yields: nothing, a lone sign, or a number without commas or leading zeros. */
  ghost predicate IsSanitized(raw: string, allow: bool) {
    || raw == ""
    || (raw == "-" && allow)
    || exists negative: bool, w: string, t: string ::
         raw == Number(negative, w, t) && (negative ==> allow) && IsWhole(w) && AllDigits(w) && StripZeros(w) == w && IsTail(t)
  }

  lemma {:induction false} KeptIsNumeric(s: string)
    ensures forall i :: 0 <= i < |Kept(s)| ==> IsDigit(Kept(s)[i]) || Kept(s)[i] == '.'
    decreases |s|
  {
    if s != "" {
      KeptIsNumeric(s[1..]);
    }
  }

  lemma CleanedHasShape(cleaned: string)
    requires cleaned != "" && forall i :: 0 <= i < |cleaned| ==> IsDigit(cleaned[i]) || cleaned[i] == '.'
    ensures var w := CleanWhole(cleaned);
            IsWhole(w) && AllDigits(w) && StripZeros(w) == w && IsTail(CleanTail(cleaned))
  {
    var dot := DotAt(cleaned);
    StripZerosKeepsDigits(if dot.Some? then cleaned[..dot.value] else cleaned);
  }

  // ----- The number in a typed text -----

  /** The text holds a digit or a dot; otherwise sanitizing leaves at most a sign of it. */
  predicate HoldsNumber(value: string) {
    Kept(Trimmed(value)) != ""
  }

  predicate IsNegative(value: string) {
    Trimmed(value) != "" && ReadsNegative(Trimmed(value))
  }

  function WholeOf(value: string): string {
    CleanWhole(Kept(Trimmed(value)))
  }

  function TailOf(value: string): string {
    CleanTail(Kept(Trimmed(value)))
  }

  lemma SanitizeIsNumber(value: string, allow: bool)
    ensures Sanitize(value, allow) ==
            if HoldsNumber(value) then Number(allow && IsNegative(value), WholeOf(value), TailOf(value))
            else Sign(allow && IsNegative(value))
  {
  }

  lemma PartsAreClean(value: string)
    requires HoldsNumber(value)
    ensures IsWhole(WholeOf(value)) && AllDigits(WholeOf(value)) && StripZeros(WholeOf(value)) == WholeOf(value)
    ensures IsTail(TailOf(value))
  {
    KeptIsNumeric(Trimmed(value));
    CleanedHasShape(Kept(Trimmed(value)));
  }

  lemma SanitizedHasShape(value: string, allow: bool)
    ensures IsSanitized(Sanitize(value, allow), allow)
  {
    SanitizeIsNumber(value, allow);
    if HoldsNumber(value) {
      PartsAreClean(value);
    }
  }

  lemma SignIsTight(negative: bool)
    ensures Trimmed(Sign(negative)) == Sign(negative)
  {
  }

  lemma SignReadsNegative(negative: bool)
    ensures ReadsNegative(Sign(negative)) <==> negative
  {
    if negative {
      assert IsMinus(Sign(true)[0]);
    }
  }

  lemma SanitizeSign(negative: bool, allow: bool)
    ensures Sanitize(Sign(negative), allow) == Sign(negative && allow)
  {
    SignIsTight(negative);
    SignReadsNegative(negative);
    KeptOfSign(negative);
  }

  /** Sanitizing twice is sanitizing once. */
  lemma SanitizeIsIdempotent(value: string, allow: bool)
    ensures Sanitize(Sanitize(value, allow), allow) == Sanitize(value, allow)
  {
    var negative := allow && IsNegative(value);
    SanitizeIsNumber(value, allow);
    if HoldsNumber(value) {
      PartsAreClean(value);
      SanitizeNumber(negative, WholeOf(value), TailOf(value), allow);
      KeptOfDigits(WholeOf(value));
    } else {
      SanitizeSign(negative, allow);
    }
  }

  // ----- Formatting -----

  lemma SplitNumber(negative: bool, w: string, t: string)
    requires IsWhole(w) && AllDigits(w) && IsTail(t)
    ensures Split(Number(negative, w, t)) == (negative, w, if t == "" then "" else t[1..])
    ensures Number(negative, w, t) != "" && Number(negative, w, t) != "-"
  {
    var raw := Number(negative, w, t);
    var unsigned := if negative then raw[1..] else raw;
    assert unsigned == w + t;
    assert negative <==> raw[0] == '-';
    DotOfNumber(w, t);
    if t == "" {
      assert w + t == w;
    } else {
      assert unsigned[..|w|] == w && unsigned[|w| + 1..] == t[1..];
    }
  }

  lemma {:induction false} GroupingKeepsDigits(digits: string)
    requires AllDigits(digits)
    ensures DigitsOf(Grouped(digits)) == digits
    ensures digits != "" ==> IsWhole(Grouped(digits))
    decreases |digits|
  {
    if digits != "" {
      var rest := digits[1..];
      GroupingKeepsDigits(rest);
      var comma := if |digits| > 1 && (|digits| - 1) % 3 == 0 then "," else "";
      var g := Grouped(digits);
      assert g == [digits[0]] + (comma + Grouped(rest));
      assert g[1..] == comma + Grouped(rest);
      if comma != "" {
        assert (comma + Grouped(rest))[1..] == Grouped(rest);
      }
      assert DigitsOf(g) == [digits[0]] + DigitsOf(comma + Grouped(rest));
      assert forall i :: 0 < i < |g| ==> g[i] == (comma + Grouped(rest))[i - 1];
    }
  }

  lemma {:induction false} PaddingIsInsignificant(decimal: string)
    requires AllDigits(decimal) && |decimal| <= 2
    ensures IsTail("." + Padded(decimal))
    ensures StripTrailingZeros(Padded(decimal)) == StripTrailingZeros(decimal)
  {
    if |decimal| == 0 {
      assert "00"[..1] == "0" && "0"[..0] == "";
    } else if |decimal| == 1 {
      assert (decimal + "0")[..1] == decimal;
    }
  }

  /** The decimals of a tail, without its dot. */
  function DecimalsIn(t: string): string {
    if t == "" then "" else t[1..]
  }

  function PaddedTail(t: string): string {
    "." + Padded(DecimalsIn(t))
  }

  lemma PaddedTailIsTail(t: string)
    requires IsTail(t)
    ensures IsTail(PaddedTail(t)) && DecimalsIn(PaddedTail(t)) == Padded(DecimalsIn(t))
    ensures StripTrailingZeros(Padded(DecimalsIn(t))) == StripTrailingZeros(DecimalsIn(t))
  {
    PaddingIsInsignificant(DecimalsIn(t));
  }

  /** What formatting gives: the grouped whole and two decimals, or what sanitizing leaves. */
  lemma FormatIsNumber(value: string)
    ensures Format(value) ==
            if HoldsNumber(value) then Number(IsNegative(value), Grouped(WholeOf(value)), PaddedTail(TailOf(value)))
            else Sign(IsNegative(value))
  {
    SanitizeIsNumber(value, true);
    if HoldsNumber(value) {
      PartsAreClean(value);
      SplitNumber(IsNegative(value), WholeOf(value), TailOf(value));
      Associates(Sign(IsNegative(value)) + Grouped(WholeOf(value)), ".", Padded(DecimalsIn(TailOf(value))));
    }
  }

  lemma CanonicalOfNumber(text: string, negative: bool, w: string, t: string, allow: bool)
    requires Sanitize(text, allow) == Number(negative, w, t) && IsWhole(w) && AllDigits(w) && IsTail(t)
    ensures var significant := StripTrailingZeros(DecimalsIn(t));
            Canonical(text, allow) == Sign(negative) + w + (if significant != "" then "." + significant else "")
  {
    SplitNumber(negative, w, t);
  }

  lemma CanonicalOfSign(text: string, negative: bool, allow: bool)
    requires Sanitize(text, allow) == Sign(negative)
    ensures Canonical(text, allow) == Sign(negative)
  {
  }

  /** Formatting never changes the canonical value, with or without a sign allowed. */
  lemma FormatKeepsCanonical(value: string, allow: bool)
    ensures Canonical(Format(value), allow) == Canonical(value, allow)
  {
    FormatIsNumber(value);
    SanitizeIsNumber(value, allow);
    if HoldsNumber(value) {
      PartsAreClean(value);
      FormattedCanonical(value, IsNegative(value), WholeOf(value), TailOf(value), allow);
      CanonicalOfNumber(value, allow && IsNegative(value), WholeOf(value), TailOf(value), allow);
    } else {
      SanitizeSign(IsNegative(value), allow);
      CanonicalOfSign(Format(value), IsNegative(value) && allow, allow);
      CanonicalOfSign(value, IsNegative(value) && allow, allow);
    }
  }

  lemma FormattedCanonical(value: string, negative: bool, w: string, t: string, allow: bool)
    requires Format(value) == Number(negative, Grouped(w), PaddedTail(t))
    requires IsWhole(w) && AllDigits(w) && StripZeros(w) == w && IsTail(t)
    ensures var significant := StripTrailingZeros(DecimalsIn(t));
            Canonical(Format(value), allow) == Sign(allow && negative) + w + (if significant != "" then "." + significant else "")
  {
    PaddedTailIsTail(t);
    GroupingKeepsDigits(w);
    SanitizeNumber(negative, Grouped(w), PaddedTail(t), allow);
    CanonicalOfNumber(Format(value), negative && allow, w, PaddedTail(t), allow);
  }

  // ----- The caret -----

  datatype Anchor = InDecimal(digits: nat) | InWhole(digits: nat, afterSign: bool)

  function CountDigits(s: string): nat
    decreases |s|
  {
    if s == "" then 0 else CountDigits(s[..|s| - 1]) + if IsDigit(s[|s| - 1]) then 1 else 0
  }

  function Clamped(value: string, position: int): (r: nat)
    ensures r <= |value|
  {
    if position < 0 then 0 else if position > |value| then |value| else position
  }

  function SelectionAnchor(value: string, position: int): Anchor {
    var at := Clamped(value, position);
    var dot := DotAt(value);
    if dot.Some? && at > dot.value then InDecimal(CountDigits(value[dot.value + 1..at]))
    else InWhole(CountDigits(value[..at]), HasMinus(value[..at]))
  }

  /** The position just behind the digit number `k` of `value[..end]`, or `end` when there are fewer. */
  function BehindDigit(value: string, k: nat, end: nat, from: nat): (r: nat)
    requires from <= end <= |value| && CountDigits(value[..from]) < k
    ensures from <= r <= end
    ensures CountDigits(value[..r]) == k || (r == end && CountDigits(value[..end]) < k)
    decreases end - from
  {
    if from == end then end
    else
      assert value[..from + 1][..from] == value[..from];
      if CountDigits(value[..from + 1]) == k then from + 1
      else BehindDigit(value, k, end, from + 1)
  }

  function PositionFor(value: string, anchor: Anchor): nat {
    var dot := DotAt(value);
    var wholeEnd := if dot.Some? then dot.value else |value|;
    if anchor.InDecimal? && dot.Some? then Clamped(value, dot.value + 1 + anchor.digits)
    else if anchor.digits == 0 then (if anchor.InWhole? && anchor.afterSign && "-" <= value then 1 else 0)
    else BehindDigit(value, anchor.digits, wholeEnd, 0)
  }

  lemma CountStep(value: string, index: nat)
    requires index < |value|
    ensures CountDigits(value[..index + 1]) == CountDigits(value[..index]) + if IsDigit(value[index]) then 1 else 0
  {
    assert value[..index + 1][..index] == value[..index];
  }

  /** The same, as the loop that counts digits. */
  method PositionForAnchor(value: string, anchor: Anchor) returns (position: nat)
    ensures position == PositionFor(value, anchor)
  {
    var dot := DotAt(value);
    if anchor.InDecimal? && dot.Some? {
      return Clamped(value, dot.value + 1 + anchor.digits);
    }
    if anchor.digits == 0 {
      return if anchor.InWhole? && anchor.afterSign && "-" <= value then 1 else 0;
    }
    var wholeEnd := if dot.Some? then dot.value else |value|;
    var digits := 0;
    var index := 0;
    ghost var goal := BehindDigit(value, anchor.digits, wholeEnd, 0);
    while index < wholeEnd
      invariant 0 <= index <= wholeEnd <= |value|
      invariant digits == CountDigits(value[..index]) < anchor.digits
      invariant BehindDigit(value, anchor.digits, wholeEnd, index) == goal
    {
      CountStep(value, index);
      if IsDigit(value[index]) {
        digits := digits + 1;
      }
      if digits == anchor.digits {
        return index + 1;
      }
      index := index + 1;
    }
    return wholeEnd;
  }

  lemma {:induction false} CountOfAppend(a: string, b: string)
    ensures CountDigits(a + b) == CountDigits(a) + CountDigits(b)
    decreases |b|
  {
    if b == "" {
      assert a + b == a;
    } else {
      assert (a + b)[..|a + b| - 1] == a + b[..|b| - 1];
      CountOfAppend(a, b[..|b| - 1]);
    }
  }

  lemma {:induction false} CountOfDigits(s: string)
    requires AllDigits(s)
    ensures CountDigits(s) == |s|
    decreases |s|
  {
    if s != "" {
      CountOfDigits(s[..|s| - 1]);
    }
  }

  lemma CountGrows(value: string, i: nat, j: nat)
    requires i <= j <= |value|
    ensures CountDigits(value[..i]) <= CountDigits(value[..j])
  {
    assert value[..j] == value[..i] + value[i..j];
    CountOfAppend(value[..i], value[i..j]);
  }

  /** Text whose decimals, if any, are digits only. */
  predicate CleanDecimals(value: string) {
    DotAt(value).Some? ==> AllDigits(value[DotAt(value).value + 1..])
  }

  /** On such text, a caret put back from its anchor has the same digits to its left. */
  lemma AnchorKeepsDigits(value: string, position: int)
    requires CleanDecimals(value)
    ensures var back := PositionFor(value, SelectionAnchor(value, position));
            back <= |value| && CountDigits(value[..back]) == CountDigits(value[..Clamped(value, position)])
  {
    var at, dot := Clamped(value, position), DotAt(value);
    var anchor := SelectionAnchor(value, position);
    var back := PositionFor(value, anchor);
    if anchor.InDecimal? {
      var decimals := value[dot.value + 1..];
      assert value[dot.value + 1..at] == decimals[..at - dot.value - 1];
      CountOfDigits(value[dot.value + 1..at]);
      assert back == at;
    } else if anchor.digits == 0 {
      if back == 1 {
        assert value[..1] == "-";
        assert "-"[..0] == "";
        assert CountDigits(value[..1]) == 0;
      }
    } else {
      var wholeEnd := if dot.Some? then dot.value else |value|;
      CountGrows(value, at, wholeEnd);
      assert value[..0] == "";
    }
  }

  lemma FormattedDot(negative: bool, w: string, t: string)
    requires IsWhole(w) && IsTail(t) && t != ""
    ensures CleanDecimals(Number(negative, w, t))
  {
  }

  lemma FormattedIsClean(value: string)
    ensures CleanDecimals(Format(value))
  {
    FormatIsNumber(value);
    if HoldsNumber(value) {
      PartsAreClean(value);
      GroupingKeepsDigits(WholeOf(value));
      PaddedTailIsTail(TailOf(value));
      FormattedDot(IsNegative(value), Grouped(WholeOf(value)), PaddedTail(TailOf(value)));
    }
  }

  /** Formatted text qualifies, so the caret keeps its digits in it wherever it stands. */
  lemma CaretKeepsDigits(value: string, position: int)
    ensures var text := Format(value);
            var back := PositionFor(text, SelectionAnchor(text, position));
            back <= |text| && CountDigits(text[..back]) == CountDigits(text[..Clamped(text, position)])
  {
    FormattedIsClean(value);
    AnchorKeepsDigits(Format(value), position);
  }
}
