/** The release-tag to package-version conversion of `semVerRelease`: every
    match of the one-digit pattern `[0-9]` is collected in order, the matches
    are joined with no separator, and ".0.0" is appended. */
module Release {
  import Strings

  /** The characters the pattern `[0-9]` matches. */
  predicate IsDigit(c: char)
  {
    '0' <= c <= '9'
  }

  /** The subsequence of the decimal digits of `s`, in their original order. */
  function Digits(s: string): (d: string)
  {
    if s == [] then []
    else (if IsDigit(s[0]) then [s[0]] else []) + Digits(s[1..])
  }

  /** The filter keeps only digits and never lengthens the string. */
  lemma {:induction false} DigitsAreDigits(s: string)
    ensures |Digits(s)| <= |s|
    ensures forall i :: 0 <= i < |Digits(s)| ==> IsDigit(Digits(s)[i])
  {
    if s != [] {
      DigitsAreDigits(s[1..]);
    }
  }

  /** `FindAllString(s, -1)` for the pattern `[0-9]`: one single-character
      match per digit of `s`, left to right (nil, here the empty list, when
      there is none). */
  function DigitMatches(s: string): (ms: seq<string>)
    ensures |ms| <= |s|
    ensures forall i :: 0 <= i < |ms| ==> |ms[i]| == 1 && IsDigit(ms[i][0])
  {
    if s == [] then []
    else (if IsDigit(s[0]) then [[s[0]]] else []) + DigitMatches(s[1..])
  }

  /** Joining the matches with "" gives exactly the digit subsequence. */
  lemma {:induction false} JoinDigitMatches(s: string)
    ensures Strings.Join(DigitMatches(s), "") == Digits(s)
  {
    if s != [] {
      JoinDigitMatches(s[1..]);
      var rest := DigitMatches(s[1..]);
      if IsDigit(s[0]) {
        assert DigitMatches(s) == [[s[0]]] + rest;
        if |rest| == 0 {
          assert Digits(s[1..]) == "";
        } else {
          assert ([[s[0]]] + rest)[1..] == rest;
        }
      } else {
        assert DigitMatches(s) == rest;
      }
    }
  }

  /** `semVerRelease(release)`: the digits of the tag followed by ".0.0".
      Total: a tag without digits gives ".0.0". */
  function SemVerRelease(release: string): (v: string)
    ensures v == Digits(release) + ".0.0"
  {
    JoinDigitMatches(release);
    Strings.Join(DigitMatches(release), "") + ".0.0"
  }

  /** Everything in front of the final ".0.0" is a digit, and the version
      is never shorter than ".0.0". */
  lemma SemVerShape(release: string)
    ensures |SemVerRelease(release)| >= 4
    ensures SemVerRelease(release)[|SemVerRelease(release)| - 4..] == ".0.0"
    ensures forall i :: 0 <= i < |SemVerRelease(release)| - 4 ==> IsDigit(SemVerRelease(release)[i])
  {
    DigitsAreDigits(release);
    var v := SemVerRelease(release);
    assert forall i :: 0 <= i < |v| - 4 ==> v[i] == Digits(release)[i];
  }

  /** The digit filter distributes over concatenation: order is kept and
      nothing moves across the boundary. */
  lemma {:induction false} DigitsAppend(a: string, b: string)
    ensures Digits(a + b) == Digits(a) + Digits(b)
  {
    if a == [] {
      assert a + b == b;
    } else {
      var ab := a + b;
      assert ab[0] == a[0];
      assert ab[1..] == a[1..] + b;
      DigitsAppend(a[1..], b);
      var first := if IsDigit(a[0]) then [a[0]] else [];
      assert Digits(ab) == first + (Digits(a[1..]) + Digits(b));
      assert Digits(a) == first + Digits(a[1..]);
      assert first + (Digits(a[1..]) + Digits(b)) == first + Digits(a[1..]) + Digits(b);
    }
  }

  /** The digit filter keeps a string unchanged exactly when every character
      of it is a digit. */
  lemma {:induction false} DigitsFixedPoint(s: string)
    ensures Digits(s) == s <==> forall i :: 0 <= i < |s| ==> IsDigit(s[i])
  {
    if s != [] {
      DigitsFixedPoint(s[1..]);
      if !IsDigit(s[0]) {
        DigitsAreDigits(s[1..]);
        assert |Digits(s)| <= |s[1..]| < |s|;
      } else {
        assert Digits(s) == [s[0]] + Digits(s[1..]);
        assert s == [s[0]] + s[1..];
        assert forall i :: 1 <= i < |s| ==> s[i] == s[1..][i - 1];
      }
    }
  }

  /** Each digit occurs in the filtered string exactly as often as in the
      tag; no other character occurs in it. */
  lemma {:induction false} DigitsCount(s: string, c: char)
    ensures multiset(Digits(s))[c] == if IsDigit(c) then multiset(s)[c] else 0
  {
    if s != [] {
      DigitsCount(s[1..], c);
      assert s == [s[0]] + s[1..];
      assert multiset(s) == multiset([s[0]]) + multiset(s[1..]);
    }
  }

  /** The version has three dot-separated fields: the digits of the tag,
      "0" and "0". */
  lemma SemVerFields(release: string)
    ensures Strings.Split(SemVerRelease(release), '.') == [Digits(release), "0", "0"]
  {
    var d := Digits(release);
    var v := SemVerRelease(release);
    assert v == d + ".0.0";
    assert [d, "0", "0"][1..] == ["0", "0"];
    assert ["0", "0"][1..] == ["0"];
    assert Strings.Join([d, "0", "0"], ".") == d + ".0.0";
    DigitsAreDigits(release);
    assert '.' !in d;
    Strings.SplitJoin([d, "0", "0"], '.');
  }

  /** The digit filter yields the empty string exactly when the string has
      no digit. */
  lemma {:induction false} DigitsEmpty(s: string)
    ensures Digits(s) == "" <==> forall i :: 0 <= i < |s| ==> !IsDigit(s[i])
  {
    if s != [] {
      DigitsEmpty(s[1..]);
      assert forall i :: 1 <= i < |s| ==> s[i] == s[1..][i - 1];
    }
  }

  /** Appending a non-digit separator and then a field adds exactly the
      field's digits. */
  lemma DigitsAfterSeparator(a: string, sep: char, field: string)
    requires !IsDigit(sep)
    ensures Digits(a + [sep] + field) == Digits(a) + Digits(field)
  {
    DigitsAppend(a, [sep]);
    DigitsAppend(a + [sep], field);
  }

  /** Appending a non-digit character adds nothing. */
  lemma DigitsAfterNonDigit(a: string, c: char)
    requires !IsDigit(c)
    ensures Digits(a + [c]) == Digits(a)
  {
    DigitsAppend(a, [c]);
  }

  /** A release tag of the form `PREFIX.YYYY-MM-DDTHH-MM-SSZ`, as in
      "RELEASE.2025-03-12T00-00-00Z". */
  function TimestampTag(prefix: string, year: string, month: string, day: string,
                        hour: string, minute: string, second: string): (tag: string)
  {
    prefix + "." + year + "-" + month + "-" + day + "T" + hour + "-" + minute + "-" + second + "Z"
  }

  /** The digits of a timestamp tag are the digits of its parts in order:
      the separators contribute nothing. */
  lemma TimestampTagDigits(prefix: string, year: string, month: string, day: string,
                           hour: string, minute: string, second: string)
    ensures Digits(TimestampTag(prefix, year, month, day, hour, minute, second))
         == Digits(prefix) + Digits(year) + Digits(month) + Digits(day) + Digits(hour) + Digits(minute) + Digits(second)
  {
    DigitsAfterSeparator(prefix, '.', year);
    DigitsAfterSeparator(prefix + "." + year, '-', month);
    DigitsAfterSeparator(prefix + "." + year + "-" + month, '-', day);
    DigitsAfterSeparator(prefix + "." + year + "-" + month + "-" + day, 'T', hour);
    DigitsAfterSeparator(prefix + "." + year + "-" + month + "-" + day + "T" + hour, '-', minute);
    DigitsAfterSeparator(prefix + "." + year + "-" + month + "-" + day + "T" + hour + "-" + minute, '-', second);
    DigitsAfterNonDigit(prefix + "." + year + "-" + month + "-" + day + "T" + hour + "-" + minute + "-" + second, 'Z');
  }

  /** For a prefix without digits ("RELEASE", "EDGE") and all-digit date and
      time fields, the version is the concatenated timestamp followed by
      ".0.0" (so "RELEASE.2025-03-12T00-00-00Z" gives "20250312000000.0.0"). */
  lemma TimestampTagVersion(prefix: string, year: string, month: string, day: string,
                            hour: string, minute: string, second: string)
    requires forall i :: 0 <= i < |prefix| ==> !IsDigit(prefix[i])
    requires forall i :: 0 <= i < |year| ==> IsDigit(year[i])
    requires forall i :: 0 <= i < |month| ==> IsDigit(month[i])
    requires forall i :: 0 <= i < |day| ==> IsDigit(day[i])
    requires forall i :: 0 <= i < |hour| ==> IsDigit(hour[i])
    requires forall i :: 0 <= i < |minute| ==> IsDigit(minute[i])
    requires forall i :: 0 <= i < |second| ==> IsDigit(second[i])
    ensures SemVerRelease(TimestampTag(prefix, year, month, day, hour, minute, second))
         == year + month + day + hour + minute + second + ".0.0"
  {
    TimestampTagDigits(prefix, year, month, day, hour, minute, second);
    DigitsEmpty(prefix);
    DigitsFixedPoint(year);
    DigitsFixedPoint(month);
    DigitsFixedPoint(day);
    DigitsFixedPoint(hour);
    DigitsFixedPoint(minute);
    DigitsFixedPoint(second);
    var d := Digits(TimestampTag(prefix, year, month, day, hour, minute, second));
    assert d == "" + year + month + day + hour + minute + second;
    assert "" + year == year;
  }

  /** A hotfix suffix ".hotfix.N" is not kept as such: its digits are
      appended to the tag's digits in front of ".0.0". */
  lemma HotfixSuffixVersion(tag: string, n: string)
    ensures SemVerRelease(tag + ".hotfix." + n) == Digits(tag) + Digits(n) + ".0.0"
  {
    DigitsAppend(tag + ".hotfix.", n);
    DigitsAppend(tag, ".hotfix.");
    DigitsEmpty(".hotfix.");
  }

  /** A tag with no digits at all still gives a version. */
  lemma NoDigitsVersion(tag: string)
    requires forall i :: 0 <= i < |tag| ==> !IsDigit(tag[i])
    ensures SemVerRelease(tag) == ".0.0"
  {
    DigitsEmpty(tag);
  }

  /** The version of a stable release tag. */
  lemma ReleaseTagExample(release: string)
    requires release == "RELEASE.2025-03-12T00-00-00Z"
    ensures SemVerRelease(release) == "20250312000000.0.0"
  {
    var prefix, year, month, day, hour, minute, second := "RELEASE", "2025", "03", "12", "00", "00", "00";
    assert release == TimestampTag(prefix, year, month, day, hour, minute, second);
    TimestampTagVersion(prefix, year, month, day, hour, minute, second);
  }

  /** The version of an edge release tag. */
  lemma EdgeTagExample(release: string)
    requires release == "EDGE.2025-10-10T05-28-23Z"
    ensures SemVerRelease(release) == "20251010052823.0.0"
  {
    var prefix, year, month, day, hour, minute, second := "EDGE", "2025", "10", "10", "05", "28", "23";
    assert release == TimestampTag(prefix, year, month, day, hour, minute, second);
    TimestampTagVersion(prefix, year, month, day, hour, minute, second);
  }
}
