/**
 * Rupee price strings: the `en-IN` rendering of non-negative whole numbers
 * (lakh/crore digit grouping), the formatters built on it, the parser that
 * recovers a `{min, max}` pair from a range string, and the dollar-to-rupee
 * conversion.
 */
module PriceUtils {
  import opened Wrappers

  const Rupee: char := '\U{20B9}'

  // ---------------------------------------------------------------------
  // Decimal digits
  // ---------------------------------------------------------------------

  predicate IsDigit(c: char) { '0' <= c <= '9' }

  predicate AllDigits(s: string) {
    forall i :: 0 <= i < |s| ==> IsDigit(s[i])
  }

  function DigitChar(d: nat): (c: char)
    requires d < 10
    ensures IsDigit(c)
  {
    ('0' as int + d) as char
  }

  /** The decimal digits of `n`, most significant first, without leading zeros. */
  function Decimal(n: nat): (s: string)
    ensures |s| > 0 && AllDigits(s)
  {
    if n < 10 then [DigitChar(n)] else Decimal(n / 10) + [DigitChar(n % 10)]
  }

  /** `Number.parseInt(s, 10)` on a string of digits. */
  function DigitsValue(s: string): nat
    requires AllDigits(s)
  {
    if s == [] then 0 else 10 * DigitsValue(s[..|s| - 1]) + (s[|s| - 1] as int - '0' as int)
  }

  /** Reading back the digits of `n` gives `n`. */
  lemma {:induction false} DecimalValue(n: nat)
    ensures DigitsValue(Decimal(n)) == n
  {
    if n >= 10 {
      DecimalValue(n / 10);
      var s := Decimal(n);
      assert s[..|s| - 1] == Decimal(n / 10);
    }
  }

  // ---------------------------------------------------------------------
  // en-IN grouping
  // ---------------------------------------------------------------------

  /** Commas between pairs of digits, counted from the right. */
  function GroupPairs(d: string): (r: string)
    requires AllDigits(d)
  {
    if |d| <= 2 then d else GroupPairs(d[..|d| - 2]) + "," + d[|d| - 2..]
  }

  /** The last three digits form a group; the digits before them are grouped in pairs. */
  function GroupIndian(d: string): (r: string)
    requires AllDigits(d)
  {
    if |d| <= 3 then d else GroupPairs(d[..|d| - 3]) + "," + d[|d| - 3..]
  }

  /** `n.toLocaleString("en-IN")` for a non-negative whole number. */
  function LocaleIN(n: nat): string {
    GroupIndian(Decimal(n))
  }

  /** One lakh is written `1,00,000`. */
  lemma OneLakh()
    ensures LocaleIN(100000) == "1,00,000"
  {
    assert Decimal(1) == "1";
    assert Decimal(10) == "10";
    assert Decimal(100) == "100";
    assert Decimal(1000) == "1000";
    assert Decimal(10000) == "10000";
    assert Decimal(100000) == "100000";
    var d := "100000";
    assert d[..3] == "100" && d[3..] == "000";
    assert "100"[..1] == "1" && "100"[1..] == "00";
    assert GroupPairs("100") == "1,00";
    assert GroupIndian(d) == GroupPairs("100") + "," + "000";
  }

  /** `formatIndianPrice`. */
  function FormatIndianPrice(price: nat): (r: string)
    ensures |r| > 0 && r[0] == Rupee
    ensures r[1..] == LocaleIN(price)
  {
    [Rupee] + LocaleIN(price)
  }

  /** `formatIndianPriceRange`: the two amounts joined by a dash without spaces. */
  function FormatIndianPriceRange(min: nat, max: nat): string {
    [Rupee] + LocaleIN(min) + "-" + LocaleIN(max)
  }

  /** `formatPriceWithFrom`. */
  function FormatPriceWithFrom(price: nat): (r: string)
    ensures |r| > 5 && r[..5] == "From " && r[5..] == FormatIndianPrice(price)
  {
    "From " + FormatIndianPrice(price)
  }

  /** `formatPriceRangeWithFrom`. */
  function FormatPriceRangeWithFrom(min: nat, max: nat): (r: string)
    ensures |r| > 5 && r[..5] == "From " && r[5..] == FormatIndianPriceRange(min, max)
  {
    "From " + FormatIndianPriceRange(min, max)
  }

  /** `formatFormPrice`: the two amounts, each with its own sign, around a spaced dash. */
  function FormatFormPrice(min: nat, max: nat): string {
    [Rupee] + LocaleIN(min) + " - " + [Rupee] + LocaleIN(max)
  }

  /** `convertDollarToRupee` at the fixed rate of 83, for whole-dollar amounts. */
  function ConvertDollarToRupee(dollars: int): (r: int)
    ensures r % 83 == 0 && r / 83 == dollars
  {
    dollars * 83
  }

  // ---------------------------------------------------------------------
  // Parsing
  // ---------------------------------------------------------------------

  /** `s.replace(/₹|,/g, "")`. */
  function Clean(s: string): string {
    if s == [] then []
    else (if s[0] == Rupee || s[0] == ',' then [] else [s[0]]) + Clean(s[1..])
  }

  /** One step of `Clean`: the first character is dropped or kept, then the rest is cleaned. */
  lemma CleanHead(s: string)
    requires s != []
    ensures Clean(s) == (if s[0] == Rupee || s[0] == ',' then [] else [s[0]]) + Clean(s[1..])
  {
  }

  lemma {:induction false} CleanAppend(a: string, b: string)
    ensures Clean(a + b) == Clean(a) + Clean(b)
  {
    if a == [] {
      assert a + b == b;
    } else {
      var head := if a[0] == Rupee || a[0] == ',' then [] else [a[0]];
      calc {
        Clean(a + b);
        { assert (a + b)[0] == a[0]; assert (a + b)[1..] == a[1..] + b; CleanHead(a + b); }
        head + Clean(a[1..] + b);
        { CleanAppend(a[1..], b); }
        head + (Clean(a[1..]) + Clean(b));
        (head + Clean(a[1..])) + Clean(b);
        { CleanHead(a); }
        Clean(a) + Clean(b);
      }
    }
  }


  /** Text without a rupee sign or a comma is left as it is. */
  lemma {:induction false} CleanKeeps(s: string)
    requires Rupee !in s && ',' !in s
    ensures Clean(s) == s
  {
    if s != [] {
      CleanKeeps(s[1..]);
    }
  }

  lemma CleanComma()
    ensures Clean(",") == []
  {
    assert ","[1..] == [];
  }

  /** A separating comma disappears. */
  lemma CleanJoin(x: string, y: string)
    ensures Clean(x + "," + y) == Clean(x) + Clean(y)
  {
    CleanComma();
    CleanAppend(x + ",", y);
    CleanAppend(x, ",");
  }

  lemma CleanDigits(d: string)
    requires AllDigits(d)
    ensures Clean(d) == d
  {
    CleanKeeps(d);
  }

  /** Removing the commas from grouped digits gives back the digits. */
  lemma {:induction false} CleanGroupPairs(d: string)
    requires AllDigits(d)
    ensures Clean(GroupPairs(d)) == d
  {
    if |d| <= 2 {
      CleanDigits(d);
    } else {
      var front, back := d[..|d| - 2], d[|d| - 2..];
      CleanGroupPairs(front);
      CleanJoin(GroupPairs(front), back);
      CleanDigits(back);
      assert front + back == d;
    }
  }

  lemma CleanLocale(n: nat)
    ensures Clean(LocaleIN(n)) == Decimal(n)
  {
    var d := Decimal(n);
    if |d| <= 3 {
      CleanDigits(d);
    } else {
      var front, back := d[..|d| - 3], d[|d| - 3..];
      CleanGroupPairs(front);
      CleanJoin(GroupPairs(front), back);
      CleanDigits(back);
      assert front + back == d;
    }
  }

  /** The end of the maximal run of digits starting at `i`. */
  function DigitRunEnd(s: string, i: nat): (j: nat)
    requires i <= |s|
    ensures i <= j <= |s|
    ensures forall k :: i <= k < j ==> IsDigit(s[k])
    ensures j == |s| || !IsDigit(s[j])
    decreases |s| - i
  {
    if i == |s| || !IsDigit(s[i]) then i else DigitRunEnd(s, i + 1)
  }

  /** The run end is the one index with digits before it and a non-digit (or the end) at it. */
  lemma DigitRunEndIs(s: string, i: nat, j: nat)
    requires i <= j <= |s|
    requires forall k :: i <= k < j ==> IsDigit(s[k])
    requires j == |s| || !IsDigit(s[j])
    ensures DigitRunEnd(s, i) == j
  {
    var e := DigitRunEnd(s, i);
  }

  /**
   * `/(\d+)-(\d+)/` matches starting at `i`: a digit run, a dash, a digit.
   * A shorter first group would be followed by a digit rather than the dash,
   * so backtracking never finds another match from the same start.
   */
  predicate MatchAt(s: string, i: nat) {
    i < |s| && IsDigit(s[i]) &&
    var j := DigitRunEnd(s, i);
    j + 1 < |s| && s[j] == '-' && IsDigit(s[j + 1])
  }

  /** The leftmost start at or after `from` where the pattern matches. */
  function FindMatch(s: string, from: nat): (r: Option<nat>)
    requires from <= |s|
    ensures r.None? <==> forall i :: from <= i < |s| ==> !MatchAt(s, i)
    ensures r.Some? ==> from <= r.value < |s| && MatchAt(s, r.value)
                        && forall i :: from <= i < r.value ==> !MatchAt(s, i)
    decreases |s| - from
  {
    if from == |s| then None
    else if MatchAt(s, from) then Some(from)
    else FindMatch(s, from + 1)
  }

  datatype PriceRange = PriceRange(min: int, max: int)

  /** Some position of the cleaned text starts a match. */
  predicate HasMatch(c: string) {
    exists i | 0 <= i < |c| :: MatchAt(c, i)
  }

  /** The regex engine reports the match at `i`: it matches there and at no earlier position. */
  predicate LeftmostMatch(c: string, i: nat) {
    MatchAt(c, i) && forall k :: 0 <= k < i ==> !MatchAt(c, k)
  }

  /** The two capture groups of a match starting at `i`, read by `parseInt`. */
  function Groups(c: string, i: nat): PriceRange
    requires MatchAt(c, i)
  {
    var j := DigitRunEnd(c, i);
    PriceRange(DigitsValue(c[i..j]), DigitsValue(c[j + 1..DigitRunEnd(c, j + 1)]))
  }

  function ParseCleaned(c: string): (r: Option<PriceRange>)
    ensures r.None? <==> !HasMatch(c)
    ensures r.Some? ==> exists i | 0 <= i < |c| :: LeftmostMatch(c, i) && r.value == Groups(c, i)
  {
    match FindMatch(c, 0)
    case None => None
    case Some(i) => Some(Groups(c, i))
  }

  /** `parsePriceRange`; no order between the two numbers is enforced. */
  function ParsePriceRange(s: string): (r: Option<PriceRange>)
    ensures r.None? <==> !HasMatch(Clean(s))
    ensures r.Some? ==> exists i | 0 <= i < |Clean(s)| :: LeftmostMatch(Clean(s), i) && r.value == Groups(Clean(s), i)
  {
    ParseCleaned(Clean(s))
  }

  predicate NoDigits(s: string) {
    forall i :: 0 <= i < |s| ==> !IsDigit(s[i])
  }

  /** A match with no match before it is the leftmost one. */
  lemma FindMatchIs(s: string, i: nat)
    requires i < |s| && MatchAt(s, i)
    requires forall k :: 0 <= k < i ==> !MatchAt(s, k)
    ensures FindMatch(s, 0) == Some(i)
  {
  }

  /** The run of digits in `c` from `i` ends at `j` when `c[i..j]` is all digits and `c[j]` is not. */
  lemma RunOf(c: string, i: nat, j: nat, d: string)
    requires i <= j <= |c| && c[i..j] == d && AllDigits(d)
    requires j == |c| || !IsDigit(c[j])
    ensures DigitRunEnd(c, i) == j
  {
    forall k | i <= k < j ensures IsDigit(c[k]) {
      assert c[k] == d[k - i];
    }
    DigitRunEndIs(c, i, j);
  }

  /** The runs around the dash of `da-db` at `i`, and the match there is the leftmost one. */
  lemma MatchShape(c: string, i: nat, da: string, db: string)
    requires da != [] && db != [] && AllDigits(da) && AllDigits(db)
    requires i + |da| + 1 + |db| <= |c|
    requires c[i..i + |da|] == da && c[i + |da|] == '-' && c[i + |da| + 1..i + |da| + 1 + |db|] == db
    requires i + |da| + 1 + |db| == |c| || !IsDigit(c[i + |da| + 1 + |db|])
    requires forall k :: 0 <= k < i ==> !IsDigit(c[k])
    ensures DigitRunEnd(c, i) == i + |da|
    ensures DigitRunEnd(c, i + |da| + 1) == i + |da| + 1 + |db|
    ensures FindMatch(c, 0) == Some(i)
  {
    var j := i + |da|;
    var e := j + 1 + |db|;
    RunOf(c, i, j, da);
    RunOf(c, j + 1, e, db);
    assert MatchAt(c, i) by {
      assert c[i] == da[0];
      assert c[j + 1] == db[0];
    }
    FindMatchIs(c, i);
  }

  /** A string with no digit before `i` and `da-db` at `i`, not followed by a digit, parses as `da`, `db`. */
  lemma ParseAt(c: string, i: nat, da: string, db: string)
    requires da != [] && db != [] && AllDigits(da) && AllDigits(db)
    requires i + |da| + 1 + |db| <= |c|
    requires c[i..i + |da|] == da && c[i + |da|] == '-' && c[i + |da| + 1..i + |da| + 1 + |db|] == db
    requires i + |da| + 1 + |db| == |c| || !IsDigit(c[i + |da| + 1 + |db|])
    requires forall k :: 0 <= k < i ==> !IsDigit(c[k])
    ensures ParseCleaned(c) == Some(PriceRange(DigitsValue(da), DigitsValue(db)))
  {
    MatchShape(c, i, da, db);
    GroupsAt(c, i, da, db);
  }

  /** The groups of a match whose runs end where `da` and `db` end are their values. */
  lemma GroupsAt(c: string, i: nat, da: string, db: string)
    requires AllDigits(da) && AllDigits(db) && MatchAt(c, i)
    requires i + |da| + 1 + |db| <= |c|
    requires c[i..i + |da|] == da && c[i + |da| + 1..i + |da| + 1 + |db|] == db
    requires DigitRunEnd(c, i) == i + |da|
    requires DigitRunEnd(c, i + |da| + 1) == i + |da| + 1 + |db|
    ensures Groups(c, i) == PriceRange(DigitsValue(da), DigitsValue(db))
  {
    var j := i + |da|;
    SameDigits(c[i..j], da);
    SameDigits(c[j + 1..j + 1 + |db|], db);
  }

  /** Equal digit strings have equal values. */
  lemma SameDigits(x: string, y: string)
    requires AllDigits(x) && x == y
    ensures AllDigits(y) && DigitsValue(x) == DigitsValue(y)
  {
  }

  /**
   * After digit-free text, `digits-digits` is the first match and both groups
   * are read back, whatever follows as long as it does not extend the second
   * digit run.
   */
  lemma ParseShape(prefix: string, da: string, db: string, suffix: string)
    requires NoDigits(prefix) && da != [] && db != [] && AllDigits(da) && AllDigits(db)
    requires suffix == [] || !IsDigit(suffix[0])
    ensures ParseCleaned(prefix + da + "-" + db + suffix) == Some(PriceRange(DigitsValue(da), DigitsValue(db)))
  {
    var c := prefix + da + "-" + db + suffix;
    var i := |prefix|;
    var e := i + |da| + 1 + |db|;
    assert c[i..i + |da|] == da && c[i + |da|] == '-' && c[i + |da| + 1..e] == db;
    assert e == |c| || c[e] == suffix[0];
    forall k | 0 <= k < i ensures !IsDigit(c[k]) {
      assert c[k] == prefix[k];
    }
    ParseAt(c, i, da, db);
  }

  /** After digit-free text, the first match is the first number, and both numbers are read back. */
  lemma ParseDigitsDashDigits(prefix: string, a: nat, b: nat, suffix: string)
    requires NoDigits(prefix)
    requires suffix == [] || !IsDigit(suffix[0])
    ensures ParseCleaned(prefix + Decimal(a) + "-" + Decimal(b) + suffix) == Some(PriceRange(a, b))
  {
    ParseShape(prefix, Decimal(a), Decimal(b), suffix);
    DecimalValue(a);
    DecimalValue(b);
  }

  /** Round trip: parsing a formatted range gives back the two amounts. */
  lemma RangeRoundTrip(a: nat, b: nat)
    ensures ParsePriceRange(FormatIndianPriceRange(a, b)) == Some(PriceRange(a, b))
  {
    PrefixedRangeRoundTrip("", a, b);
    assert "" + FormatIndianPriceRange(a, b) == FormatIndianPriceRange(a, b);
  }

  lemma CleanSign()
    ensures Clean([Rupee]) == []
  {
    assert [Rupee][1..] == [];
  }

  lemma CleanDash()
    ensures Clean("-") == "-"
  {
    assert "-"[1..] == [];
  }

  /** Cleaning `prefix₹a-b` cleans each part and drops the sign. */
  lemma CleanRangeParts(prefix: string, la: string, lb: string)
    requires Rupee !in prefix && ',' !in prefix
    ensures Clean(prefix + [Rupee] + la + "-" + lb) == prefix + Clean(la) + "-" + Clean(lb)
  {
    var x := prefix + [Rupee];
    var y := x + la;
    var z := y + "-";
    calc {
      Clean(x);
      { CleanAppend(prefix, [Rupee]); }
      Clean(prefix) + Clean([Rupee]);
      { CleanKeeps(prefix); CleanSign(); }
      prefix;
    }
    calc {
      Clean(z + lb);
      { CleanAppend(z, lb); }
      Clean(z) + Clean(lb);
      { CleanAppend(y, "-"); CleanDash(); }
      Clean(y) + "-" + Clean(lb);
      { CleanAppend(x, la); }
      prefix + Clean(la) + "-" + Clean(lb);
    }
  }

  /** Cleaning a formatted range leaves the two digit strings around the dash. */
  lemma CleanRangeText(prefix: string, a: nat, b: nat)
    requires Rupee !in prefix && ',' !in prefix
    ensures Clean(prefix + FormatIndianPriceRange(a, b)) == prefix + Decimal(a) + "-" + Decimal(b)
  {
    var la, lb := LocaleIN(a), LocaleIN(b);
    calc {
      Clean(prefix + FormatIndianPriceRange(a, b));
      { assert prefix + FormatIndianPriceRange(a, b) == prefix + [Rupee] + la + "-" + lb; }
      Clean(prefix + [Rupee] + la + "-" + lb);
      { CleanRangeParts(prefix, la, lb); }
      prefix + Clean(la) + "-" + Clean(lb);
      { CleanLocale(a); CleanLocale(b); }
      prefix + Decimal(a) + "-" + Decimal(b);
    }
  }

  /** Text without a rupee sign or comma survives cleaning after anything. */
  lemma CleanKeepsSuffix(x: string, suffix: string)
    requires Rupee !in suffix && ',' !in suffix
    ensures Clean(x + suffix) == Clean(x) + suffix
  {
    CleanAppend(x, suffix);
    CleanKeeps(suffix);
  }

  /**
   * A formatted range inside other text is still read back: the text before it
   * has no digits, and the text after it does not start with one.
   */
  lemma EmbeddedRangeParses(prefix: string, a: nat, b: nat, suffix: string)
    requires NoDigits(prefix) && Rupee !in prefix && ',' !in prefix
    requires Rupee !in suffix && ',' !in suffix && (suffix == [] || !IsDigit(suffix[0]))
    ensures ParsePriceRange(prefix + FormatIndianPriceRange(a, b) + suffix) == Some(PriceRange(a, b))
  {
    var x := prefix + FormatIndianPriceRange(a, b);
    CleanKeepsSuffix(x, suffix);
    CleanRangeText(prefix, a, b);
    ParseDigitsDashDigits(prefix, a, b, suffix);
  }

  /** The same round trip through the "From " variant, or any other digit-free prefix. */
  lemma PrefixedRangeRoundTrip(prefix: string, a: nat, b: nat)
    requires NoDigits(prefix) && Rupee !in prefix && ',' !in prefix
    ensures ParsePriceRange(prefix + FormatIndianPriceRange(a, b)) == Some(PriceRange(a, b))
  {
    EmbeddedRangeParses(prefix, a, b, "");
    assert prefix + FormatIndianPriceRange(a, b) + "" == prefix + FormatIndianPriceRange(a, b);
  }

  lemma FromRangeRoundTrip(a: nat, b: nat)
    ensures ParsePriceRange(FormatPriceRangeWithFrom(a, b)) == Some(PriceRange(a, b))
  {
    assert NoDigits("From ");
    PrefixedRangeRoundTrip("From ", a, b);
  }

  /** The minimum may exceed the maximum: `"9-1"` parses as 9 to 1. */
  lemma ReversedRangeParses()
    ensures ParsePriceRange("9-1") == Some(PriceRange(9, 1))
  {
    CleanKeeps("9-1");
    assert "9-1" == "" + Decimal(9) + "-" + Decimal(1) + "";
    ParseDigitsDashDigits("", 9, 1, "");
  }

  /** Cleaning only deletes characters. */
  lemma {:induction false} CleanKeepsAbsent(s: string, ch: char)
    requires ch !in s
    ensures ch !in Clean(s)
  {
    if s != [] {
      CleanKeepsAbsent(s[1..], ch);
    }
  }

  /** Without a dash there is nothing to match: `"₹1,00,000+"` gives no range. */
  lemma NoDashNoRange(s: string)
    requires '-' !in s
    ensures ParsePriceRange(s) == None
  {
    var c := Clean(s);
    CleanKeepsAbsent(s, '-');
    forall i | 0 <= i < |c| ensures !MatchAt(c, i) {
      if i < |c| && IsDigit(c[i]) {
        var j := DigitRunEnd(c, i);
        if j < |c| {
          assert c[j] in c;
        }
      }
    }
  }

  lemma OpenEndedPriceHasNoRange()
    ensures ParsePriceRange("\U{20B9}1,00,000+") == None
  {
    NoDashNoRange("\U{20B9}1,00,000+");
  }

  /** Cleaning `₹x` drops the sign. */
  lemma CleanSigned(x: string)
    ensures Clean([Rupee] + x) == Clean(x)
  {
    CleanSign();
    CleanAppend([Rupee], x);
  }

  /** Cleaning `₹a - ₹b` cleans each part and drops both signs. */
  lemma CleanFormParts(la: string, lb: string)
    ensures Clean([Rupee] + la + " - " + [Rupee] + lb) == Clean(la) + " - " + Clean(lb)
  {
    var left := [Rupee] + la + " - ";
    assert [Rupee] + la + " - " + [Rupee] + lb == left + ([Rupee] + lb);
    CleanAppend(left, [Rupee] + lb);
    CleanSigned(lb);
    CleanAppend([Rupee] + la, " - ");
    CleanKeeps(" - ");
    CleanSigned(la);
  }

  /** Digits, a spaced dash, digits: no position starts a match. */
  lemma SpacedDashNoMatch(da: string, db: string)
    requires AllDigits(da) && AllDigits(db)
    ensures !HasMatch(da + " - " + db)
  {
    var c := da + " - " + db;
    forall i | 0 <= i < |c| ensures !MatchAt(c, i) {
      if i < |da| {
        DigitRunEndIs(c, i, |da|);
      } else if i < |da| + 3 {
        assert !IsDigit(c[i]);
      } else {
        DigitRunEndIs(c, i, |c|);
      }
    }
  }

  /** The form's own range format, with spaces around the dash, never parses. */
  lemma FormPriceDoesNotParse(a: nat, b: nat)
    ensures ParsePriceRange(FormatFormPrice(a, b)) == None
  {
    CleanFormParts(LocaleIN(a), LocaleIN(b));
    CleanLocale(a);
    CleanLocale(b);
    SpacedDashNoMatch(Decimal(a), Decimal(b));
  }
}
