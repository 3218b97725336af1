/**
 * The pieces a comment counter is made of (`ChannelCommentsRenderData.Text`):
 * their identity (the `index` alone is hashed), their numeric ordering and the
 * slide direction chosen when a piece changes.
 */
module CounterText {
  import opened Options

  /** How a piece is animated when it appears or disappears. */
  datatype Animation = CrossFade | Numeric

  /**
   * One piece of the counter. `text` stands for the characters of the attributed
   * string; equality compares all three fields, as Swift's synthesised `==` does.
   */
  datatype Text = Text(text: string, animation: Animation, index: int)

  /** The direction a numeric piece slides in when its value changes. */
  datatype Direction = Forward | Backward

  /** The range of Swift's 64-bit `Int`. */
  const MinInt: int := -0x8000_0000_0000_0000
  const MaxInt: int := 0x7FFF_FFFF_FFFF_FFFF

  predicate IsDigit(c: char) { '0' <= c <= '9' }

  predicate AllDigits(s: string) { forall i :: 0 <= i < |s| ==> IsDigit(s[i]) }

  function DigitValue(c: char): nat
    requires IsDigit(c)
  {
    (c as int) - ('0' as int)
  }

  /** The value of a string of decimal digits, most significant digit first. */
  function DigitsValue(s: string): nat
    requires AllDigits(s)
  {
    if s == [] then 0 else 10 * DigitsValue(s[..|s| - 1]) + DigitValue(s[|s| - 1])
  }

  function InRange(v: int): Option<int> {
    if MinInt <= v <= MaxInt then Some(v) else None
  }

  /**
   * Swift's `Int(String)`: an optional `+` or `-`, then one or more ASCII digits
   * and nothing else; a value outside the 64-bit range gives nil.
   */
  function ParseInt(s: string): (r: Option<int>)
    ensures r.Some? ==> MinInt <= r.value <= MaxInt
    ensures r.Some? ==> |s| > 0 && (IsDigit(s[0]) || s[0] == '+' || s[0] == '-')
    ensures r.Some? ==> exists d :: 0 <= d < |s| && IsDigit(s[d])
    ensures r.Some? ==> forall i :: 0 < i < |s| ==> IsDigit(s[i])
  {
    if |s| > 0 && (s[0] == '+' || s[0] == '-') then
      var digits := s[1..];
      if digits != [] && AllDigits(digits) then
        assert IsDigit(s[1]);
        InRange(if s[0] == '-' then 0 - (DigitsValue(digits) as int) else DigitsValue(digits) as int)
      else None
    else if s != [] && AllDigits(s) then
      assert IsDigit(s[0]);
      InRange(DigitsValue(s))
    else None
  }

  /**
   * `Text.<`: true only when both pieces read as integers and the left one is the
   * smaller; any piece that is not a number compares false both ways.
   */
  predicate Less(lhs: Text, rhs: Text)
    ensures Less(lhs, rhs) ==> ParseInt(lhs.text).Some? && ParseInt(rhs.text).Some?
    ensures Less(lhs, rhs) ==> ParseInt(lhs.text).value < ParseInt(rhs.text).value
  {
    match (ParseInt(lhs.text), ParseInt(rhs.text))
    case (Some(l), Some(r)) => l < r
    case _ => false
  }

  /** `title.first(where: { $0.hashValue == key.hashValue })`: the first piece in the slot `index`. */
  function FirstInSlot(title: seq<Text>, index: int): (r: Option<Text>)
    ensures r.Some? ==> r.value in title && r.value.index == index
  {
    if title == [] then None
    else if title[0].index == index then Some(title[0])
    else FirstInSlot(title[1..], index)
  }

  /**
   * `FirstInSlot` finds the earliest piece of the slot, and finds nothing exactly when
   * no piece has that index.
   */
  lemma {:induction false} FirstInSlotIsFirst(title: seq<Text>, index: int)
    ensures var r := FirstInSlot(title, index);
      r.Some? ==> exists j :: 0 <= j < |title| && title[j] == r.value &&
                              forall i :: 0 <= i < j ==> title[i].index != index
    ensures FirstInSlot(title, index).None? <==> forall j :: 0 <= j < |title| ==> title[j].index != index
  {
    if title != [] && title[0].index != index {
      var rest := FirstInSlot(title[1..], index);
      FirstInSlotIsFirst(title[1..], index);
      if rest.Some? {
        var j :| 0 <= j < |title[1..]| && title[1..][j] == rest.value &&
                 forall i :: 0 <= i < j ==> title[1..][i].index != index;
        assert title[j + 1] == rest.value;
        forall i | 0 <= i < j + 1 ensures title[i].index != index {
          if i > 0 { assert title[i] == title[1..][i - 1]; }
        }
      } else {
        forall j | 0 <= j < |title| ensures title[j].index != index {
          if j > 0 { assert title[j] == title[1..][j - 1]; }
        }
      }
    } else if title != [] {
      assert title[0] == FirstInSlot(title, index).value;
    }
  }

  /**
   * The direction of a changed piece: backward when the new piece is numerically
   * smaller than the old one, forward otherwise (`title < key ? .backward : .forward`).
   */
  function Slide(updated: Text, previous: Text): (d: Direction)
    ensures d == Backward <==> Less(updated, previous)
  {
    if Less(updated, previous) then Backward else Forward
  }

  lemma LessIrreflexive(t: Text)
    ensures !Less(t, t)
  {
  }

  lemma LessAsymmetric(a: Text, b: Text)
    ensures Less(a, b) ==> !Less(b, a)
  {
  }

  lemma LessTransitive(a: Text, b: Text, c: Text)
    ensures Less(a, b) && Less(b, c) ==> Less(a, c)
  {
  }

  /** A piece that does not read as an integer never compares less, on either side. */
  lemma NonNumeralsAreUnordered(a: Text, b: Text)
    requires ParseInt(a.text).None? || ParseInt(b.text).None?
    ensures !Less(a, b) && !Less(b, a)
  {
  }

  // ---------------------------------------------------------------------------
  // Decimal rendering. For a counter piece that is a number written out in decimal,
  // the ordering above agrees with the order of the numbers (`LessOnNumerals`).

  function DigitChar(d: nat): (c: char)
    requires d < 10
    ensures IsDigit(c) && DigitValue(c) == d
  {
    ('0' as int + d) as char
  }

  /** `n` written in decimal without leading zeros. */
  function ShowNat(n: nat): (s: string)
    ensures |s| > 0 && AllDigits(s)
  {
    if n < 10 then [DigitChar(n)] else ShowNat(n / 10) + [DigitChar(n % 10)]
  }

  /** `n` written the way Swift's `String(n)` writes it: a minus sign for negatives. */
  function Show(n: int): string {
    if n < 0 then "-" + ShowNat(-n) else ShowNat(n)
  }

  lemma {:induction false} DigitsOfShowNat(n: nat)
    ensures DigitsValue(ShowNat(n)) == n
  {
    if n >= 10 {
      var s := ShowNat(n);
      DigitsOfShowNat(n / 10);
      assert s[..|s| - 1] == ShowNat(n / 10);
    }
  }

  /** Reading back a number written in decimal gives the number itself. */
  lemma {:induction false} ParseShow(n: int)
    requires MinInt <= n <= MaxInt
    ensures ParseInt(Show(n)) == Some(n)
  {
    if n < 0 {
      var s := Show(n);
      DigitsOfShowNat(-n);
      assert s[0] == '-' && s[1..] == ShowNat(-n);
    } else {
      DigitsOfShowNat(n);
      var s := ShowNat(n);
      assert IsDigit(s[0]);
    }
  }

  /** On counters written in decimal, `<` is exactly the order of the numbers. */
  lemma {:induction false} LessOnNumerals(m: int, n: int, a: Animation, b: Animation, i: int, j: int)
    requires MinInt <= m <= MaxInt && MinInt <= n <= MaxInt
    ensures Less(Text(Show(m), a, i), Text(Show(n), b, j)) <==> m < n
  {
    ParseShow(m);
    ParseShow(n);
  }

  /** A counter going from `old` to `new` slides backward exactly when it went down. */
  lemma {:induction false} SlideOnNumerals(updated: int, previous: int, a: Animation, b: Animation, i: int, j: int)
    requires MinInt <= updated <= MaxInt && MinInt <= previous <= MaxInt
    ensures Slide(Text(Show(updated), a, i), Text(Show(previous), b, j)) == Backward <==> updated < previous
  {
    LessOnNumerals(updated, previous, a, b, i, j);
  }
}
