/** The string operations the repository takes from Go's standard library. */
module Text {

  // ----- replacing -----

  predicate StartsWith(s: string, t: string) {
    |t| <= |s| && s[..|t|] == t
  }

  /** `t` occurs in `s` at position k. */
  predicate At(s: string, t: string, k: int) {
    0 <= k <= |s| && StartsWith(s[k..], t)
  }

  predicate Contains(s: string, t: string) {
    exists k :: 0 <= k <= |s| && At(s, t, k)
  }

  /** strings.ReplaceAll: the non-overlapping occurrences, from the left. */
  function ReplaceAll(s: string, old_: string, new_: string): string
    requires old_ != []
  {
    if |s| < |old_| then s
    else if s[..|old_|] == old_ then new_ + ReplaceAll(s[|old_|..], old_, new_)
    else [s[0]] + ReplaceAll(s[1..], old_, new_)
  }

  /** The number of occurrences ReplaceAll replaces. */
  function Occurrences(s: string, old_: string): nat
    requires old_ != []
  {
    if |s| < |old_| then 0
    else if s[..|old_|] == old_ then 1 + Occurrences(s[|old_|..], old_)
    else Occurrences(s[1..], old_)
  }

  /** Text without the pattern stays as it is. */
  lemma {:induction false} ReplaceAllNone(s: string, old_: string, new_: string)
    requires old_ != [] && !Contains(s, old_)
    ensures ReplaceAll(s, old_, new_) == s && Occurrences(s, old_) == 0
  {
    assert !At(s, old_, 0);
    assert s[0..] == s;
    if |s| >= |old_| {
      forall k | 0 <= k <= |s[1..]| ensures !At(s[1..], old_, k) {
        assert !At(s, old_, k + 1);
        assert s[1..][k..] == s[k + 1..];
      }
      ReplaceAllNone(s[1..], old_, new_);
      assert s == [s[0]] + s[1..];
    }
  }

  /** `old_` occurs in `a + old_ + b` nowhere before position |a|. */
  predicate FirstAfter(a: string, old_: string, b: string) {
    forall k :: 0 <= k < |a| ==> !At(a + old_ + b, old_, k)
  }

  /** The text before the first occurrence stays as it is, and the rest is replaced on its own. */
  lemma {:induction false} ReplaceAllFirst(a: string, old_: string, b: string, new_: string)
    requires old_ != [] && FirstAfter(a, old_, b)
    ensures ReplaceAll(a + old_ + b, old_, new_) == a + new_ + ReplaceAll(b, old_, new_)
    ensures Occurrences(a + old_ + b, old_) == 1 + Occurrences(b, old_)
  {
    var s := a + old_ + b;
    if a == [] {
      assert s[..|old_|] == old_ && s[|old_|..] == b;
      assert a + new_ + ReplaceAll(b, old_, new_) == new_ + ReplaceAll(b, old_, new_);
    } else {
      assert s[1..] == a[1..] + old_ + b;
      assert !At(s, old_, 0) && s[0..] == s;
      forall k | 0 <= k < |a[1..]| ensures !At(a[1..] + old_ + b, old_, k) {
        assert !At(s, old_, k + 1);
        assert s[1..][k..] == s[k + 1..];
      }
      ReplaceAllFirst(a[1..], old_, b, new_);
      assert [s[0]] + (a[1..] + new_ + ReplaceAll(b, old_, new_)) == a + new_ + ReplaceAll(b, old_, new_);
    }
  }

  lemma OneMoreTimes(k: nat, d: int)
    ensures (1 + k) * d == d + k * d
  {
  }

  lemma {:induction false} ReplaceAllLength(s: string, old_: string, new_: string)
    requires old_ != []
    ensures |ReplaceAll(s, old_, new_)| == |s| + Occurrences(s, old_) * (|new_| - |old_|)
  {
    if |s| < |old_| {
    } else if s[..|old_|] == old_ {
      ReplaceAllLength(s[|old_|..], old_, new_);
      OneMoreTimes(Occurrences(s[|old_|..], old_), |new_| - |old_|);
    } else {
      ReplaceAllLength(s[1..], old_, new_);
    }
  }

  lemma {:induction false} ReplaceByItself(s: string, old_: string)
    requires old_ != []
    ensures ReplaceAll(s, old_, old_) == s
  {
    if |s| < |old_| {
    } else if s[..|old_|] == old_ {
      ReplaceByItself(s[|old_|..], old_);
      assert s == s[..|old_|] + s[|old_|..];
    } else {
      ReplaceByItself(s[1..], old_);
      assert s == [s[0]] + s[1..];
    }
  }

  // ----- splitting -----

  /** strings.Split on a one-character separator: always at least one part. */
  function Split(s: string, sep: char): (parts: seq<string>)
    ensures |parts| >= 1
    ensures forall i :: 0 <= i < |parts| ==> sep !in parts[i]
  {
    if s == [] then [[]]
    else
      var rest := Split(s[1..], sep);
      if s[0] == sep then [[]] + rest else [[s[0]] + rest[0]] + rest[1..]
  }

  /** strings.Join. */
  function Joined(parts: seq<string>, sep: char): string {
    if parts == [] then []
    else if |parts| == 1 then parts[0]
    else parts[0] + [sep] + Joined(parts[1..], sep)
  }

  lemma {:induction false} SplitOne(s: string, sep: char)
    requires sep !in s
    ensures Split(s, sep) == [s]
  {
    if s != [] {
      SplitOne(s[1..], sep);
      assert [s[0]] + s[1..] == s;
    }
  }

  lemma {:induction false} SplitAt(a: string, b: string, sep: char)
    requires sep !in a
    ensures Split(a + [sep] + b, sep) == [a] + Split(b, sep)
  {
    var s := a + [sep] + b;
    if a == [] {
      assert s[1..] == b;
    } else {
      SplitAt(a[1..], b, sep);
      assert s[1..] == a[1..] + [sep] + b;
      assert [a[0]] + a[1..] == a;
    }
  }

  lemma {:induction false} SplitJoined(parts: seq<string>, sep: char)
    requires parts != [] && forall i :: 0 <= i < |parts| ==> sep !in parts[i]
    ensures Split(Joined(parts, sep), sep) == parts
  {
    if |parts| == 1 {
      SplitOne(parts[0], sep);
    } else {
      SplitJoined(parts[1..], sep);
      SplitAt(parts[0], Joined(parts[1..], sep), sep);
    }
  }

  lemma {:induction false} JoinedSplit(s: string, sep: char)
    ensures Joined(Split(s, sep), sep) == s
  {
    if s != [] {
      JoinedSplit(s[1..], sep);
      JoinedPrepended(s[0], sep, Split(s[1..], sep));
      SplitPrepend(s[0], s[1..], sep, s);
    }
  }

  lemma JoinedPrepended(c: char, sep: char, parts: seq<string>)
    requires parts != []
    ensures Joined(Prepended(c, sep, parts), sep) == [c] + Joined(parts, sep)
  {
    if c == sep {
      assert ([[]] + parts)[1..] == parts;
    } else {
      var front := [[c] + parts[0]] + parts[1..];
      assert front[1..] == parts[1..];
    }
  }

  /** One more character in front, before a first part and the others. */
  function Prepended(c: char, sep: char, parts: seq<string>): seq<string>
    requires parts != []
  {
    if c == sep then [[]] + parts else [[c] + parts[0]] + parts[1..]
  }

  lemma SplitPrepend(c: char, rest: string, sep: char, s: string)
    requires s != [] && s[0] == c && s[1..] == rest
    ensures Split(s, sep) == Prepended(c, sep, Split(rest, sep))
  {
  }

  lemma PrependedConcat(c: char, sep: char, front: seq<string>, back: seq<string>)
    requires front != []
    ensures Prepended(c, sep, front + back) == Prepended(c, sep, front) + back
  {
    assert (front + back)[0] == front[0] && (front + back)[1..] == front[1..] + back;
  }

  lemma {:induction false} SplitConcat(a: string, b: string, sep: char)
    ensures Split(a + [sep] + b, sep) == Split(a, sep) + Split(b, sep)
  {
    if a == [] {
      SplitAt(a, b, sep);
    } else {
      SplitConcat(a[1..], b, sep);
      assert a[1..] + [sep] + b == (a + [sep] + b)[1..];
      SplitPrepend(a[0], a[1..], sep, a);
      SplitPrepend(a[0], a[1..] + [sep] + b, sep, a + [sep] + b);
      PrependedConcat(a[0], sep, Split(a[1..], sep), Split(b, sep));
    }
  }

  // ----- decimal numbers -----

  predicate IsDigit(c: char) {
    '0' <= c <= '9'
  }

  function DigitValue(c: char): nat
    requires IsDigit(c)
  {
    (c as int) - ('0' as int)
  }

  function DigitChar(d: nat): char
    requires d < 10
  {
    (('0' as int) + d) as char
  }

  predicate AllDigits(s: string) {
    forall i :: 0 <= i < |s| ==> IsDigit(s[i])
  }

  function Value(s: string): nat
    requires AllDigits(s)
  {
    if s == [] then 0 else 10 * Value(s[..|s| - 1]) + DigitValue(s[|s| - 1])
  }

  /** The `%d` of a non-negative number. */
  function Decimal(n: nat): (s: string)
    ensures s != [] && AllDigits(s)
  {
    if n < 10 then [DigitChar(n)] else Decimal(n / 10) + [DigitChar(n % 10)]
  }

  /** A number without superfluous zeros in front. */
  predicate Canonical(s: string) {
    s != [] && AllDigits(s) && (|s| > 1 ==> s[0] != '0')
  }

  lemma {:induction false} DecimalCanonical(n: nat)
    ensures Canonical(Decimal(n)) && (Decimal(n)[0] == '0' ==> n == 0)
  {
    if n >= 10 { DecimalCanonical(n / 10); }
  }

  lemma {:induction false} PositiveValue(s: string)
    requires AllDigits(s) && s != [] && s[0] != '0'
    ensures Value(s) > 0
  {
    if |s| > 1 { PositiveValue(s[..|s| - 1]); }
  }

  /** The value determines the digits. */
  lemma {:induction false} CanonicalUnique(a: string, b: string)
    requires Canonical(a) && Canonical(b) && Value(a) == Value(b)
    ensures a == b
    decreases |a| + |b|
  {
    var m, n := |a| - 1, |b| - 1;
    assert Value(a) % 10 == DigitValue(a[m]) && Value(b) % 10 == DigitValue(b[n]);
    assert Value(a[..m]) == Value(a) / 10 && Value(b[..n]) == Value(b) / 10;
    if m > 0 && n > 0 {
      CanonicalUnique(a[..m], b[..n]);
      assert a == a[..m] + [a[m]] && b == b[..n] + [b[n]];
    } else if m > 0 {
      PositiveValue(a[..m]);
    } else if n > 0 {
      PositiveValue(b[..n]);
    }
  }

  lemma {:induction false} ValueOfDecimal(n: nat)
    ensures Value(Decimal(n)) == n
  {
    if n < 10 {
      assert [DigitChar(n)][..0] == [];
    } else {
      ValueOfDecimal(n / 10);
      assert (Decimal(n / 10) + [DigitChar(n % 10)])[..|Decimal(n / 10)|] == Decimal(n / 10);
    }
  }
}
