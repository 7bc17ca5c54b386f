/** Printing and reading amounts: _parseBrlToCents and _formatCents of settlement_screen.dart, and
    BrlCurrency.parseToCents of currency_formatter.dart. */
module MoneyText {
  import opened Outcomes
  import opened Text
  import Paths

  predicate IsDigit(c: char) {
    '0' <= c <= '9'
  }

  predicate AllDigits(s: string) {
    forall i :: 0 <= i < |s| ==> IsDigit(s[i])
  }

  function Value(s: string): nat
    requires AllDigits(s)
  {
    if s == "" then 0 else 10 * Value(s[..|s| - 1]) + (s[|s| - 1] - '0') as nat
  }

  /** int.tryParse, on text without signs and spaces. */
  function TryParse(s: string): Option<nat> {
    if s != "" && AllDigits(s) then Some(Value(s)) else None
  }

  // ----- printing -----

  function Digit(n: nat): char
    requires n < 10
  {
    '0' + n as char
  }

  function Digits(n: nat): string {
    if n < 10 then [Digit(n)] else Digits(n / 10) + [Digit(n % 10)]
  }

  /** Groups of three, from the right. */
  function Grouped(s: string): string {
    if |s| <= 3 then s else Grouped(s[..|s| - 3]) + "." + s[|s| - 3..]
  }

  function TwoDigits(n: nat): string
    requires n < 100
  {
    [Digit(n / 10), Digit(n % 10)]
  }

  /** The pt_BR pattern '#,##0.00'. */
  function FormatCents(cents: nat): string {
    Grouped(Digits(cents / 100)) + "," + TwoDigits(cents % 100)
  }

  /** The form in which the catalogue shows a price: two decimals after a comma, no groups. */
  function PlainCents(cents: nat): string {
    Digits(cents / 100) + "," + TwoDigits(cents % 100)
  }

  // ----- reading at settlement -----

  function Only(s: string, keep: char -> bool): string {
    if s == "" then "" else (if keep(s[0]) then [s[0]] else "") + Only(s[1..], keep)
  }

  predicate NotDot(c: char) {
    c != '.'
  }

  predicate IsAmountChar(c: char) {
    IsDigit(c) || c == ',' || c == '.'
  }

  /** padRight(2, '0').substring(0, 2) */
  function TwoDecimals(s: string): string {
    if |s| == 0 then "00" else if |s| == 1 then s + "0" else s[..2]
  }

  function Concat(parts: seq<string>): string {
    if parts == [] then "" else parts[0] + Concat(parts[1..])
  }

  function ParseBrlToCents(text: string): nat {
    var cleaned := Trim(Only(text, IsAmountChar));
    if cleaned == "" then
      0
    else if ',' in cleaned then
      var parts := Paths.Split(ReplaceAll(cleaned, ".", ""), ',');
      100 * TryParse(parts[0]).GetOr(0) + TryParse(TwoDecimals(if |parts| > 1 then parts[1] else "")).GetOr(0)
    else if '.' in cleaned then
      var parts := Paths.Split(cleaned, '.');
      if |parts| == 2 && |parts[1]| <= 2 then
        100 * TryParse(parts[0]).GetOr(0) + TryParse(TwoDecimals(parts[1])).GetOr(0)
      else
        100 * TryParse(Concat(parts)).GetOr(0)
    else
      100 * TryParse(cleaned).GetOr(0)
  }

  // ----- reading in the catalogue -----

  function LeadingDigits(s: string): (k: nat)
    ensures k <= |s| && AllDigits(s[..k])
    ensures k < |s| ==> !IsDigit(s[k])
  {
    if s == "" || !IsDigit(s[0]) then 0 else 1 + LeadingDigits(s[1..])
  }

  /** The integer digits and the decimals of a text that matches the pattern ^(\d+)([,.](\d{1,2}))?$. */
  function MatchAmount(s: string): Option<(string, string)> {
    var k := LeadingDigits(s);
    if k == 0 then None
    else if k == |s| then Some((s, ""))
    else if (s[k] == ',' || s[k] == '.') && 1 <= |s[k + 1..]| <= 2 && AllDigits(s[k + 1..]) then
      Some((s[..k], s[k + 1..]))
    else None
  }

  function ParseToCents(value: string): Result<nat> {
    var normalized := Trim(value);
    if normalized == "" || normalized[0] == '-' then
      Fail(BadRequest)
    else
      match MatchAmount(normalized)
      case None => Fail(BadRequest)
      case Some((whole, decimals)) =>
        var total := 100 * TryParse(whole).GetOr(0) +
                     (if decimals == "" then 0
                      else TryParse(if |decimals| == 1 then decimals + "0" else decimals).GetOr(0));
        if total <= 0 then Fail(BadRequest) else Ok(total)
  }

  // ----- digits -----

  lemma {:induction false} DigitsRead(n: nat)
    ensures Digits(n) != "" && AllDigits(Digits(n)) && Value(Digits(n)) == n
  {
    if n >= 10 {
      DigitsRead(n / 10);
      var s := Digits(n);
      assert s[..|s| - 1] == Digits(n / 10);
    }
  }

  lemma TwoDigitsRead(n: nat)
    requires n < 100
    ensures AllDigits(TwoDigits(n)) && Value(TwoDigits(n)) == n
  {
    var s := TwoDigits(n);
    assert s[..1] == [s[0]] && s[..1][..0] == "";
    assert Value(s[..1]) == 10 * Value(s[..1][..0]) + (s[0] - '0') as nat;
  }

  // ----- filtering -----

  lemma {:induction false} OnlyConcat(a: string, b: string, keep: char -> bool)
    ensures Only(a + b, keep) == Only(a, keep) + Only(b, keep)
  {
    if a == "" {
      assert a + b == b;
    } else {
      OnlyConcat(a[1..], b, keep);
      var head := if keep(a[0]) then [a[0]] else "";
      assert (a + b)[0] == a[0] && (a + b)[1..] == a[1..] + b;
      assert Only(a + b, keep) == head + (Only(a[1..], keep) + Only(b, keep))
                               == (head + Only(a[1..], keep)) + Only(b, keep);
    }
  }

  lemma {:induction false} OnlyAll(s: string, keep: char -> bool)
    requires forall i :: 0 <= i < |s| ==> keep(s[i])
    ensures Only(s, keep) == s
  {
    if s != "" {
      OnlyAll(s[1..], keep);
      assert [s[0]] + s[1..] == s;
    }
  }

  lemma {:induction false} OnlyNone(s: string, keep: char -> bool)
    requires forall i :: 0 <= i < |s| ==> !keep(s[i])
    ensures Only(s, keep) == ""
  {
    if s != "" {
      OnlyNone(s[1..], keep);
    }
  }

  lemma {:induction false} DroppingDots(s: string)
    ensures ReplaceAll(s, ".", "") == Only(s, NotDot)
  {
    if s != "" {
      assert "." <= s <==> s[0] == '.';
      DroppingDots(s[1..]);
    }
  }

  lemma {:induction false} TrimmedWhole(s: string)
    requires forall i :: 0 <= i < |s| ==> !IsSpace(s[i])
    ensures Trim(s) == s
  {
  }

  lemma SpacesAreDropped(s: string)
    requires forall i :: 0 <= i < |s| ==> IsSpace(s[i])
    ensures Only(s, IsAmountChar) == ""
  {
    OnlyNone(s, IsAmountChar);
  }

  /** Trimming does not change what the filter keeps. */
  lemma TrimIsFilteredAnyway(s: string)
    ensures Only(Trim(s), IsAmountChar) == Only(s, IsAmountChar)
  {
    hide Only;
    var k := TrimLeftParts(s);
    var t := s[k..];
    var l := TrimRightParts(t);
    assert s == s[..k] + t && t == t[..l] + t[l..];
    OnlyConcat(s[..k], t, IsAmountChar);
    OnlyConcat(t[..l], t[l..], IsAmountChar);
    SpacesAreDropped(s[..k]);
    SpacesAreDropped(t[l..]);
  }

  // ----- the round trips -----

  predicate IsGroupedText(s: string) {
    forall i :: 0 <= i < |s| ==> IsDigit(s[i]) || s[i] == '.'
  }

  lemma {:induction false} GroupedIsText(s: string)
    requires AllDigits(s)
    ensures IsGroupedText(Grouped(s))
  {
    if |s| > 3 {
      GroupedIsText(s[..|s| - 3]);
    }
  }

  lemma {:induction false} GroupsAreOnlyDots(s: string)
    requires AllDigits(s)
    ensures Only(Grouped(s), NotDot) == s
  {
    if |s| <= 3 {
      OnlyAll(s, NotDot);
    } else {
      hide Only;
      var a, b := s[..|s| - 3], s[|s| - 3..];
      GroupsAreOnlyDots(a);
      OnlyConcat(Grouped(a) + ".", b, NotDot);
      OnlyConcat(Grouped(a), ".", NotDot);
      OnlyNone(".", NotDot);
      OnlyAll(b, NotDot);
      assert s == a + "" + b;
    }
  }

  lemma CommaSplits(grouped: string, whole: string, decimals: string)
    requires AllDigits(whole) && AllDigits(decimals) && Only(grouped, NotDot) == whole
    ensures Paths.Split(ReplaceAll(grouped + "," + decimals, ".", ""), ',') == [whole, decimals]
  {
    var s := grouped + "," + decimals;
    DroppingDots(s);
    OnlyConcat(grouped + ",", decimals, NotDot);
    OnlyConcat(grouped, ",", NotDot);
    OnlyAll(decimals, NotDot);
    OnlyAll(",", NotDot);
    assert ReplaceAll(s, ".", "") == whole + [','] + decimals;
    Paths.SplitAtSeparator(whole, decimals, ',');
    Paths.SplitWithoutSeparator(decimals, ',');
  }

  /** The comma form is read back whatever groups its integer part has. */
  lemma CommaFormReads(grouped: string, whole: string, decimals: string)
    requires AllDigits(whole) && whole != "" && AllDigits(decimals) && |decimals| <= 2
    requires IsGroupedText(grouped) && Only(grouped, NotDot) == whole
    ensures ParseBrlToCents(grouped + "," + decimals) == 100 * Value(whole) + TryParse(TwoDecimals(decimals)).GetOr(0)
  {
    var s := grouped + "," + decimals;
    OnlyAll(s, IsAmountChar);
    TrimmedWhole(s);
    assert s[|grouped|] == ',';
    CommaSplits(grouped, whole, decimals);
  }

  /** Reading the pt_BR form of any amount gives it back. */
  lemma SettlementRoundTrip(cents: nat)
    ensures ParseBrlToCents(FormatCents(cents)) == cents
  {
    DigitsRead(cents / 100);
    TwoDigitsRead(cents % 100);
    GroupedIsText(Digits(cents / 100));
    GroupsAreOnlyDots(Digits(cents / 100));
    CommaFormReads(Grouped(Digits(cents / 100)), Digits(cents / 100), TwoDigits(cents % 100));
    assert TwoDecimals(TwoDigits(cents % 100)) == TwoDigits(cents % 100);
  }

  /** A character that is no digit, comma or dot changes nothing, wherever it stands. */
  lemma OthersAreIgnored(before: string, c: char, after: string)
    requires !('0' <= c <= '9') && c != ',' && c != '.'
    ensures ParseBrlToCents(before + [c] + after) == ParseBrlToCents(before + after)
  {
    OnlyConcat(before + [c], after, IsAmountChar);
    OnlyConcat(before, [c], IsAmountChar);
    OnlyNone([c], IsAmountChar);
    OnlyConcat(before, after, IsAmountChar);
    assert Only(before, IsAmountChar) + "" == Only(before, IsAmountChar);
  }

  lemma {:induction false} LeadingRun(whole: string, rest: string)
    requires AllDigits(whole) && (rest != "" ==> !IsDigit(rest[0]))
    ensures LeadingDigits(whole + rest) == |whole|
  {
    if whole != "" {
      assert (whole + rest)[1..] == whole[1..] + rest;
      LeadingRun(whole[1..], rest);
    } else {
      assert whole + rest == rest;
    }
  }

  /** The catalogue reads back every price it shows, and refuses exactly the zero price. */
  lemma CatalogueRoundTrip(cents: nat)
    ensures ParseToCents(PlainCents(cents)) == if cents > 0 then Ok(cents) else Fail(BadRequest)
  {
    var whole, decimals := Digits(cents / 100), TwoDigits(cents % 100);
    var s := whole + "," + decimals;
    DigitsRead(cents / 100);
    TwoDigitsRead(cents % 100);
    TrimmedWhole(s);
    assert s == whole + ("," + decimals);
    LeadingRun(whole, "," + decimals);
    assert s[..|whole|] == whole && s[|whole|] == ',' && s[|whole| + 1..] == decimals;
    assert s[0] == whole[0];
  }

  lemma TrimmingIsIdle(text: string)
    ensures ParseBrlToCents(Trim(text)) == ParseBrlToCents(text)
  {
    TrimIsFilteredAnyway(text);
  }

  lemma DotFormReads(whole: string, decimals: string)
    requires AllDigits(whole) && whole != "" && AllDigits(decimals) && |decimals| <= 2
    ensures ParseBrlToCents(whole + "." + decimals) == 100 * Value(whole) + TryParse(TwoDecimals(decimals)).GetOr(0)
  {
    hide Only, Trim, ReplaceAll, Value, TwoDecimals, Concat, Paths.Split;
    var s := whole + "." + decimals;
    OnlyAll(s, IsAmountChar);
    TrimmedWhole(s);
    assert s[|whole|] == '.' && ',' !in s;
    assert s == whole + ['.'] + decimals;
    Paths.SplitAtSeparator(whole, decimals, '.');
    Paths.SplitWithoutSeparator(decimals, '.');
  }

  lemma WholeFormReads(whole: string)
    requires AllDigits(whole) && whole != ""
    ensures ParseBrlToCents(whole) == 100 * Value(whole)
  {
    OnlyAll(whole, IsAmountChar);
    TrimmedWhole(whole);
  }

  /** Wherever the catalogue accepts a text, the settlement screen reads the same amount from it. */
  lemma ParsersAgree(text: string)
    requires ParseToCents(text).Ok?
    ensures ParseBrlToCents(text) == ParseToCents(text).value
  {
    hide ParseBrlToCents, Only, Trim, Value, LeadingDigits;
    var s := Trim(text);
    var k := LeadingDigits(s);
    TrimmingIsIdle(text);
    if k == |s| {
      assert s[..k] == s;
      WholeFormReads(s);
    } else {
      var whole, decimals := s[..k], s[k + 1..];
      assert decimals != "" && (|decimals| == 2 ==> decimals[..2] == decimals);
      if s[k] == ',' {
        assert s == whole + "," + decimals;
        OnlyAll(whole, NotDot);
        CommaFormReads(whole, whole, decimals);
      } else {
        assert s == whole + "." + decimals;
        DotFormReads(whole, decimals);
      }
    }
  }

  // ----- the forms themselves -----

  /** The integer part has a dot before every third digit from the right, and its digits in between. */
  lemma {:induction false} DotsEveryThreeDigits(s: string, i: nat)
    requires AllDigits(s) && i < |Grouped(s)|
    ensures Grouped(s)[|Grouped(s)| - 1 - i] == '.' <==> i % 4 == 3
  {
    if |s| > 3 {
      var a, b := s[..|s| - 3], s[|s| - 3..];
      if i >= 4 {
        DotsEveryThreeDigits(a, i - 4);
        assert Grouped(s)[|Grouped(s)| - 1 - i] == Grouped(a)[|Grouped(a)| - 1 - (i - 4)];
      }
    }
  }

  lemma GroupedIsNotEmpty(s: string)
    requires s != ""
    ensures Grouped(s) != ""
  {
  }

  lemma FromTheRight(a: string, b: string, i: nat)
    requires |b| == 2 && i < |a| + 3
    ensures (a + "," + b)[|a| + 2 - i] == if i < 2 then b[1 - i] else if i == 2 then ',' else a[|a| + 2 - i]
  {
  }

  lemma AroundTheComma(cents: nat)
    ensures var a, b := Grouped(Digits(cents / 100)), TwoDigits(cents % 100);
      && FormatCents(cents) == a + "," + b
      && a != "" && (forall i :: 0 <= i < |a| ==> IsDigit(a[i]) || a[i] == '.')
      && |b| == 2 && IsDigit(b[0]) && IsDigit(b[1])
  {
    hide Digits, AllDigits;
    DigitsRead(cents / 100);
    GroupedIsText(Digits(cents / 100));
    GroupedIsNotEmpty(Digits(cents / 100));
  }

  /** An amount as shown: two decimals after a comma, a dot before every third digit of the integer part, and
      digits everywhere else. */
  lemma FormIsExact(cents: nat, i: nat)
    requires i < |FormatCents(cents)|
    ensures |FormatCents(cents)| >= 4
    ensures var c := FormatCents(cents)[|FormatCents(cents)| - 1 - i];
      && (c == ',' <==> i == 2)
      && (c == '.' <==> i > 2 && i % 4 == 2)
      && (c != ',' && c != '.' ==> '0' <= c <= '9')
  {
    hide Grouped, Digits, TwoDigits, AllDigits, FormatCents;
    var a, b := Grouped(Digits(cents / 100)), TwoDigits(cents % 100);
    AroundTheComma(cents);
    FromTheRight(a, b, i);
    DigitsRead(cents / 100);
    if i > 2 {
      DotsEveryThreeDigits(Digits(cents / 100), i - 3);
    }
  }

  /** A whole amount in groups of three, without decimals, is read as a whole amount. */
  lemma WholeRoundTrip(amount: nat)
    ensures ParseBrlToCents(Grouped(Digits(amount))) == 100 * amount
  {
    DigitsRead(amount);
    var digits := Digits(amount);
    if |digits| <= 3 {
      WholeFormReads(digits);
    } else {
      GroupedIsText(digits);
      GroupsAreOnlyDots(digits);
      GroupedReads(digits);
    }
  }

  lemma {:induction false} ConcatSplit(s: string)
    ensures Concat(Paths.Split(s, '.')) == Only(s, NotDot)
  {
    if s != "" {
      ConcatSplit(s[1..]);
      var rest := Paths.Split(s[1..], '.');
      if s[0] != '.' {
        assert Concat([[s[0]] + rest[0]] + rest[1..]) == ([s[0]] + rest[0]) + Concat(rest[1..]);
        assert Concat(rest) == rest[0] + Concat(rest[1..]);
      } else {
        assert Concat([""] + rest) == "" + Concat(rest);
      }
    }
  }

  lemma GroupedReads(digits: string)
    requires AllDigits(digits) && |digits| > 3
    requires IsGroupedText(Grouped(digits)) && Only(Grouped(digits), NotDot) == digits
    ensures ParseBrlToCents(Grouped(digits)) == 100 * Value(digits)
  {
    var s := Grouped(digits);
    var a, b := digits[..|digits| - 3], digits[|digits| - 3..];
    OnlyAll(s, IsAmountChar);
    TrimmedWhole(s);
    assert s == Grouped(a) + "." + b && s[|Grouped(a)|] == '.' && ',' !in s;
    ConcatSplit(s);
    LastGroup(Grouped(a), b);
  }

  /** The last part after splitting is what follows the last dot. */
  lemma {:induction false} LastGroup(a: string, b: string)
    requires '.' !in b
    ensures var parts := Paths.Split(a + "." + b, '.'); |parts| >= 2 && parts[|parts| - 1] == b
  {
    var s := a + "." + b;
    if a == "" {
      assert s == "" + ['.'] + b;
      Paths.SplitAtSeparator("", b, '.');
      Paths.SplitWithoutSeparator(b, '.');
    } else {
      assert s[1..] == a[1..] + "." + b;
      LastGroup(a[1..], b);
    }
  }

  /** What the catalogue accepts: digits, then at most a comma or a dot with one or two decimals, worth more
      than nothing. */
  predicate IsPrice(s: string, whole: string, decimals: string) {
    && whole != "" && AllDigits(whole) && AllDigits(decimals) && |decimals| <= 2
    && (if decimals == "" then s == whole else s == whole + "," + decimals || s == whole + "." + decimals)
  }

  function Worth(whole: string, decimals: string): nat
    requires AllDigits(whole) && AllDigits(decimals) && |decimals| <= 2
  {
    100 * Value(whole) + (if |decimals| == 1 then 10 * Value(decimals) else Value(decimals))
  }

  lemma PriceIsMatched(s: string, whole: string, decimals: string)
    requires IsPrice(s, whole, decimals)
    ensures MatchAmount(s) == Some((whole, decimals)) && s[0] != '-'
  {
    var rest := if decimals == "" then "" else s[|whole|..];
    assert s == whole + rest;
    LeadingRun(whole, rest);
    if decimals != "" {
      assert s[|whole| + 1..] == decimals && s[..|whole|] == whole;
    }
  }

  lemma TenTimes(decimals: string)
    requires AllDigits(decimals) && |decimals| == 1
    ensures AllDigits(decimals + "0") && Value(decimals + "0") == 10 * Value(decimals)
  {
    assert (decimals + "0")[..1] == decimals;
  }

  /** The catalogue accepts exactly the prices above zero, whatever spaces surround them. */
  lemma CatalogueAcceptsExactly(text: string, cents: nat)
    ensures ParseToCents(text) == Ok(cents) <==>
            cents > 0 &&
            exists whole, decimals :: IsPrice(Trim(text), whole, decimals) && Worth(whole, decimals) == cents
  {
    hide Trim, LeadingDigits;
    var s := Trim(text);
    if whole, decimals :| IsPrice(s, whole, decimals) && Worth(whole, decimals) == cents {
      PriceIsMatched(s, whole, decimals);
      if |decimals| == 1 {
        TenTimes(decimals);
      }
    }
    if ParseToCents(text) == Ok(cents) {
      var k := LeadingDigits(s);
      var whole, decimals := s[..k], if k == |s| then "" else s[k + 1..];
      if k < |s| {
        assert s == whole + [s[k]] + decimals;
      } else {
        assert s == whole;
      }
      assert IsPrice(s, whole, decimals);
      if |decimals| == 1 {
        TenTimes(decimals);
      }
    }
  }
}
