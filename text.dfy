/** The string operations the deployment scripts rely on: Python's substring test `pat in s`,
    `s.split(sep)` and its second field, `str(n)` for a natural number, and the two
    `strftime` formats used to name endpoint configurations. */
module Text {

  /** `prefix` is an initial segment of `s`. */
  predicate StartsWith(s: string, prefix: string) {
    |prefix| <= |s| && s[..|prefix|] == prefix
  }

  /** `pat` occurs in `s` at index `i`. */
  predicate OccursAt(s: string, pat: string, i: nat) {
    i + |pat| <= |s| && s[i..i + |pat|] == pat
  }

  /** Python's `pat in s` for two strings, scanning `s` from the left. */
  predicate Contains(s: string, pat: string)
    decreases |s|
  {
    StartsWith(s, pat) || (|s| > 0 && Contains(s[1..], pat))
  }

  /** The scan agrees with the positional definition of a substring. */
  lemma {:induction false} ContainsIffOccurs(s: string, pat: string)
    ensures Contains(s, pat) <==> exists i: nat :: OccursAt(s, pat, i)
    decreases |s|
  {
    if |s| == 0 {
      if pat == [] {
        assert OccursAt(s, pat, 0);
      }
    } else {
      ContainsIffOccurs(s[1..], pat);
      if StartsWith(s, pat) {
        assert OccursAt(s, pat, 0);
      }
      if Contains(s[1..], pat) {
        var i: nat :| OccursAt(s[1..], pat, i);
        assert s[1..][i..i + |pat|] == s[i + 1..i + 1 + |pat|];
        assert OccursAt(s, pat, i + 1);
      }
      if exists i: nat :: OccursAt(s, pat, i) {
        var i: nat :| OccursAt(s, pat, i);
        if i == 0 {
          assert StartsWith(s, pat);
        } else {
          assert s[1..][i - 1..i - 1 + |pat|] == s[i..i + |pat|];
          assert OccursAt(s[1..], pat, i - 1);
        }
      }
    }
  }

  /** A string built around `pat` contains it. */
  lemma ContainsSplice(a: string, pat: string, b: string)
    ensures Contains(a + pat + b, pat)
  {
    var s := a + pat + b;
    assert s[|a|..|a| + |pat|] == pat;
    assert OccursAt(s, pat, |a|);
    ContainsIffOccurs(s, pat);
  }

  /** A string that contains `pat` contains its first character. */
  lemma ContainsHead(s: string, pat: string)
    requires |pat| > 0 && Contains(s, pat)
    ensures pat[0] in s
  {
    ContainsIffOccurs(s, pat);
    var i: nat :| OccursAt(s, pat, i);
    assert s[i] == s[i..i + |pat|][0];
  }

  /** Python's `s.split(sep)`: the maximal runs of `s` free of `sep`, in order. */
  function Split(s: string, sep: char): (parts: seq<string>)
    ensures |parts| >= 1
    ensures sep in s <==> |parts| >= 2
    decreases |s|
  {
    if |s| == 0 then [""]
    else
      var rest := Split(s[1..], sep);
      assert sep in s <==> s[0] == sep || sep in s[1..] by {
        assert s == [s[0]] + s[1..];
      }
      if s[0] == sep then [""] + rest
      else [[s[0]] + rest[0]] + rest[1..]
  }

  /** Python's `sep.join(parts)`. */
  function Join(parts: seq<string>, sep: char): string
    requires |parts| >= 1
    decreases |parts|
  {
    if |parts| == 1 then parts[0] else parts[0] + [sep] + Join(parts[1..], sep)
  }

  /** Joining the fields of a split gives the string back. */
  lemma {:induction false} JoinSplit(s: string, sep: char)
    ensures Join(Split(s, sep), sep) == s
    decreases |s|
  {
    if |s| > 0 {
      JoinSplit(s[1..], sep);
      var rest := Split(s[1..], sep);
      if s[0] != sep && |rest| > 1 {
        assert ([[s[0]] + rest[0]] + rest[1..])[1..] == rest[1..];
      }
    }
  }

  /** Splitting a string whose head `a` is free of `sep` extends the first field. */
  lemma {:induction false} SplitPrefix(a: string, rest: string, sep: char)
    requires sep !in a
    ensures var parts := Split(rest, sep);
            Split(a + rest, sep) == [a + parts[0]] + parts[1..]
    decreases |a|
  {
    var parts := Split(rest, sep);
    var s := a + rest;
    if |a| == 0 {
      assert s == rest && a + parts[0] == parts[0];
      assert parts == [parts[0]] + parts[1..];
    } else {
      SplitPrefix(a[1..], rest, sep);
      assert s[0] == a[0] && a[0] != sep;
      assert s[1..] == a[1..] + rest;
      var r := Split(s[1..], sep);
      assert r == [a[1..] + parts[0]] + parts[1..];
      assert Split(s, sep) == [[s[0]] + r[0]] + r[1..];
      assert r[1..] == parts[1..];
      assert [a[0]] + (a[1..] + parts[0]) == a + parts[0];
    }
  }

  /** Splitting a join of `sep`-free fields gives the fields back. */
  lemma {:induction false} SplitJoin(parts: seq<string>, sep: char)
    requires |parts| >= 1
    requires forall i :: 0 <= i < |parts| ==> sep !in parts[i]
    ensures Split(Join(parts, sep), sep) == parts
    decreases |parts|
  {
    if |parts| == 1 {
      SplitPrefix(parts[0], "", sep);
      assert parts[0] + "" == parts[0];
    } else {
      SplitJoin(parts[1..], sep);
      var tail := [sep] + Join(parts[1..], sep);
      assert Join(parts, sep) == parts[0] + tail;
      SplitPrefix(parts[0], tail, sep);
      assert tail[0] == sep && tail[1..] == Join(parts[1..], sep);
      assert Split(tail, sep) == [""] + parts[1..];
      assert parts[0] + Split(tail, sep)[0] == parts[0];
      assert Split(tail, sep)[1..] == parts[1..];
      assert parts == [parts[0]] + parts[1..];
    }
  }

  /** Python's `s.split(sep)[1]`: the text after the first `sep`, up to the next one. */
  function SecondField(s: string, sep: char): string
    requires sep in s
  {
    Split(s, sep)[1]
  }

  /** The second field of `a + sep + b` is `b` when neither part holds `sep`. */
  lemma SecondFieldOf(a: string, b: string, sep: char)
    requires sep !in a && sep !in b
    ensures sep in a + [sep] + b
    ensures SecondField(a + [sep] + b, sep) == b
  {
    assert (a + [sep] + b)[|a|] == sep;
    SplitJoin([a, b], sep);
    assert Join([a, b], sep) == a + [sep] + b;
  }

  /** An image reference pinned by content digest: Python's `'@sha256:' in image`. */
  predicate IsDigestReference(image: string) {
    Contains(image, "@sha256:")
  }

  /** The digest of a digest-pinned reference, taken as `image.split('@')[1]`. */
  function DigestOf(image: string): string
    requires IsDigestReference(image)
  {
    ContainsHead(image, "@sha256:");
    SecondField(image, '@')
  }

  /** `location@digest` is digest-pinned and gives its digest back when neither part holds `@`. */
  lemma DigestReferenceOf(location: string, digest: string)
    requires '@' !in location && '@' !in digest
    requires StartsWith(digest, "sha256:")
    ensures IsDigestReference(location + "@" + digest)
    ensures DigestOf(location + "@" + digest) == digest
  {
    var image := location + "@" + digest;
    assert image == location + "@sha256:" + digest[7..] by {
      assert digest == "sha256:" + digest[7..];
    }
    ContainsSplice(location, "@sha256:", digest[7..]);
    SecondFieldOf(location, digest, '@');
    assert location + ['@'] + digest == image;
  }

  /** A reference without `@` (such as `registry/repo:latest`) is not digest-pinned. */
  lemma TagReferenceIsNotDigest(image: string)
    requires '@' !in image
    ensures !IsDigestReference(image)
  {
    if IsDigestReference(image) {
      ContainsHead(image, "@sha256:");
    }
  }

  function DigitChar(d: nat): (c: char)
    requires d < 10
    ensures '0' <= c <= '9'
  {
    (48 + d) as char
  }

  function DigitValue(c: char): nat {
    if '0' <= c <= '9' then (c as int - 48) as nat else 0
  }

  predicate AllDigits(s: string) {
    forall i :: 0 <= i < |s| ==> '0' <= s[i] <= '9'
  }

  /** The number a string of decimal digits denotes. */
  function DecimalValue(s: string): nat
    decreases |s|
  {
    if s == [] then 0 else 10 * DecimalValue(s[..|s| - 1]) + DigitValue(s[|s| - 1])
  }

  /** Python's `str(n)` for a natural number. */
  function Decimal(n: nat): (s: string)
    ensures |s| >= 1 && AllDigits(s)
    ensures DecimalValue(s) == n
    ensures s[0] == '0' <==> n == 0
    ensures |s| > 1 ==> s[0] != '0'
    decreases n
  {
    if n < 10 then [DigitChar(n)]
    else
      var s := Decimal(n / 10) + [DigitChar(n % 10)];
      assert s[..|s| - 1] == Decimal(n / 10);
      assert DigitValue(s[|s| - 1]) == n % 10;
      assert 10 * (n / 10) + n % 10 == n;
      s
  }

  /** `n` as two zero-padded digits (`%m`, `%d`, `%H`, `%M`, `%S`). */
  function Pad2(n: nat): (s: string)
    requires n < 100
    ensures |s| == 2 && AllDigits(s)
    ensures DecimalValue(s) == n
  {
    var s := [DigitChar(n / 10), DigitChar(n % 10)];
    assert s[..1] == [DigitChar(n / 10)] && s[..1][..0] == [];
    assert DecimalValue(s[..1]) == n / 10;
    assert DecimalValue(s) == 10 * (n / 10) + n % 10;
    s
  }

  lemma DecimalValueAppend2(x: string, y: string)
    requires |y| == 2
    ensures DecimalValue(x + y) == 100 * DecimalValue(x) + DecimalValue(y)
  {
    var z := x + y;
    var x0 := x + [y[0]];
    assert z[..|z| - 1] == x0 && z[|z| - 1] == y[1];
    assert DecimalValue(z) == 10 * DecimalValue(x0) + DigitValue(y[1]);
    assert x0[..|x0| - 1] == x && x0[|x0| - 1] == y[0];
    assert DecimalValue(x0) == 10 * DecimalValue(x) + DigitValue(y[0]);
    assert y[..1] == [y[0]] && [y[0]][..0] == [];
    assert DecimalValue([y[0]]) == DigitValue(y[0]);
    assert DecimalValue(y) == 10 * DigitValue(y[0]) + DigitValue(y[1]);
  }

  /** `n` as four zero-padded digits (`%Y` for the years 1000 to 9999). */
  function Pad4(n: nat): (s: string)
    requires n < 10000
    ensures |s| == 4 && AllDigits(s)
    ensures DecimalValue(s) == n
  {
    var s := Pad2(n / 100) + Pad2(n % 100);
    DecimalValueAppend2(Pad2(n / 100), Pad2(n % 100));
    s
  }

  /** A local wall-clock reading, as `datetime.now()` returns it. */
  datatype DateTime = DateTime(year: nat, month: nat, day: nat, hour: nat, minute: nat, second: nat)
  {
    predicate Valid() {
      1000 <= year <= 9999 && 1 <= month <= 12 && 1 <= day <= 31 &&
      hour < 24 && minute < 60 && second < 60
    }
  }

  /** `strftime('%Y%m%d-%H%M%S')`. */
  function SecondsStamp(t: DateTime): (s: string)
    requires t.Valid()
    ensures |s| == 15
  {
    Pad4(t.year) + Pad2(t.month) + Pad2(t.day) + "-" + Pad2(t.hour) + Pad2(t.minute) + Pad2(t.second)
  }

  /** `strftime('%Y%m%d-%H%M')`. */
  function MinutesStamp(t: DateTime): (s: string)
    requires t.Valid()
    ensures |s| == 13
  {
    Pad4(t.year) + Pad2(t.month) + Pad2(t.day) + "-" + Pad2(t.hour) + Pad2(t.minute)
  }

  /** Two readings with the same seconds-precision stamp are the same reading. */
  lemma SecondsStampInjective(t1: DateTime, t2: DateTime)
    requires t1.Valid() && t2.Valid()
    requires SecondsStamp(t1) == SecondsStamp(t2)
    ensures t1 == t2
  {
    var s1, s2 := SecondsStamp(t1), SecondsStamp(t2);
    assert s1[0..4] == Pad4(t1.year) && s2[0..4] == Pad4(t2.year);
    assert s1[4..6] == Pad2(t1.month) && s2[4..6] == Pad2(t2.month);
    assert s1[6..8] == Pad2(t1.day) && s2[6..8] == Pad2(t2.day);
    assert s1[9..11] == Pad2(t1.hour) && s2[9..11] == Pad2(t2.hour);
    assert s1[11..13] == Pad2(t1.minute) && s2[11..13] == Pad2(t2.minute);
    assert s1[13..15] == Pad2(t1.second) && s2[13..15] == Pad2(t2.second);
  }

  /** The minute-precision stamp ignores the seconds. */
  lemma MinutesStampIgnoresSeconds(t1: DateTime, t2: DateTime)
    requires t1.Valid() && t2.Valid()
    requires t1.(second := 0) == t2.(second := 0)
    ensures MinutesStamp(t1) == MinutesStamp(t2)
  {
  }
}
