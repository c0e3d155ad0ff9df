// String helpers shared by the pages: Arduino String's ASCII-only
// toLowerCase, indexOf(..) >= 0 as substring containment, and the decimal
// rendering of String(n).
//
// Throughout the model a string is the firmware's C string one byte per
// character: text outside ASCII (the memo bullets, the degree sign, the
// Chinese weather and city names) is spelled as its UTF-8 bytes, so lengths
// count bytes as strlen and strncpy do.

module Text {

  datatype Option<T> = None | Some(value: T)

  /** Arduino `toLowerCase` on one character: only 'A'..'Z' change. */
  function LowerChar(c: char): (r: char)
    ensures 'A' <= c <= 'Z' ==> 'a' <= r <= 'z' && r as int == c as int + 32
    ensures !('A' <= c <= 'Z') ==> r == c
  {
    if 'A' <= c <= 'Z' then (c as int + 32) as char else c
  }

  function Lower(s: string): (r: string)
    ensures |r| == |s|
    ensures forall i :: 0 <= i < |s| ==> r[i] == LowerChar(s[i])
  {
    seq(|s|, i requires 0 <= i < |s| => LowerChar(s[i]))
  }

  /** Lowering twice is lowering once. */
  lemma LowerIdempotent(s: string)
    ensures Lower(Lower(s)) == Lower(s)
  {
  }

  /** `s.indexOf(t) >= 0`: `t` occurs in `s` at some position. */
  predicate Contains(s: string, t: string)
  {
    exists i | 0 <= i <= |s| - |t| :: OccursAt(s, t, i)
  }

  /** `t` starts at position `i` of `s`. */
  predicate OccursAt(s: string, t: string, i: int)
  {
    0 <= i <= |s| - |t| && s[i..i + |t|] == t
  }

  /** A witness position proves containment. */
  lemma {:induction false} ContainsAt(s: string, t: string, i: nat)
    requires i + |t| <= |s| && s[i..i + |t|] == t
    ensures Contains(s, t)
  {
    assert OccursAt(s, t, i);
  }

  /** `t` occurs at `i` in the lowered `s`. */
  lemma {:induction false} LoweredAt(s: string, t: string, i: nat)
    requires i + |t| <= |s|
    requires forall k :: 0 <= k < |t| ==> LowerChar(s[i + k]) == t[k]
    ensures Contains(Lower(s), t)
  {
    assert Lower(s)[i..i + |t|] == t;
    ContainsAt(Lower(s), t, i);
  }

  /** A lowercase letter that occurs in `s` in neither case does not occur
    * in its lowered form. */
  lemma {:induction false} LowerMissing(s: string, c: char)
    requires 'a' <= c <= 'z' && c !in s && (c as int - 32) as char !in s
    ensures c !in Lower(s)
  {
    forall i | 0 <= i < |s|
      ensures Lower(s)[i] != c
    {
      assert s[i] in s;
    }
  }

  /** A text without one of `t`'s characters does not contain `t`. */
  lemma {:induction false} NotContainsMissing(s: string, t: string, j: nat)
    requires j < |t| && t[j] !in s
    ensures !Contains(s, t)
  {
    forall i | 0 <= i <= |s| - |t|
      ensures !OccursAt(s, t, i)
    {
      assert s[i..i + |t|][j] == s[i + j];
      assert s[i + j] in s;
    }
  }

  /** A text that has the lowercase letter `t[j]` in neither case does not
    * contain `t` once lowered. */
  lemma {:induction false} LacksLetter(s: string, t: string, j: nat)
    requires j < |t| && 'a' <= t[j] <= 'z'
    requires t[j] !in s && (t[j] as int - 32) as char !in s
    ensures !Contains(Lower(s), t)
  {
    LowerMissing(s, t[j]);
    NotContainsMissing(Lower(s), t, j);
  }

  /** Whatever contains `t + u` contains `t`. */
  lemma {:induction false} ContainsPrefix(s: string, t: string, u: string)
    requires Contains(s, t + u)
    ensures Contains(s, t)
  {
    var i :| 0 <= i <= |s| - |t + u| && OccursAt(s, t + u, i);
    assert s[i..i + |t|] == (t + u)[..|t|];
    ContainsAt(s, t, i);
  }

  /** A string shorter than `t` does not contain `t`. */
  lemma {:induction false} NotContainsLonger(s: string, t: string)
    requires |t| > |s|
    ensures !Contains(s, t)
  {
  }

  function DigitChar(d: nat): (c: char)
    requires d < 10
    ensures '0' <= c <= '9' && c as int - '0' as int == d
  {
    ('0' as int + d) as char
  }

  /** `String(n)` for a non-negative int: its decimal digits, no leading zero. */
  function Dec(n: nat): (s: string)
    ensures |s| >= 1
    ensures forall i :: 0 <= i < |s| ==> '0' <= s[i] <= '9'
    ensures n < 10 <==> |s| == 1
    ensures |s| > 1 ==> s[0] != '0'
  {
    if n < 10 then [DigitChar(n)] else Dec(n / 10) + [DigitChar(n % 10)]
  }

  /** The value of a string of decimal digits. */
  function DecValue(s: string): nat
    requires forall i :: 0 <= i < |s| ==> '0' <= s[i] <= '9'
  {
    if s == [] then 0 else 10 * DecValue(s[..|s| - 1]) + (s[|s| - 1] as int - '0' as int)
  }

  /** Reading back what `Dec` wrote gives the number. */
  lemma {:induction false} DecRoundTrip(n: nat)
    ensures DecValue(Dec(n)) == n
  {
    if n >= 10 {
      var s := Dec(n);
      assert s[..|s| - 1] == Dec(n / 10);
      DecRoundTrip(n / 10);
    }
  }

  /** Two numbers with the same rendering are equal. */
  lemma {:induction false} DecInjective(m: nat, n: nat)
    requires Dec(m) == Dec(n)
    ensures m == n
  {
    DecRoundTrip(m);
    DecRoundTrip(n);
  }

  /** A leading zero does not change the value of a digit string. */
  lemma {:induction false} DecValueLeadingZero(s: string)
    requires forall i :: 0 <= i < |s| ==> '0' <= s[i] <= '9'
    ensures DecValue("0" + s) == DecValue(s)
  {
    if s != [] {
      assert ("0" + s)[..|s|] == "0" + s[..|s| - 1];
      DecValueLeadingZero(s[..|s| - 1]);
    }
  }

  /** `%02d`, and `(m < 10 ? "0" : "") + String(m)`: the decimal digits of
    * `n`, padded with a zero to at least two. */
  function ZeroPad2(n: nat): (s: string)
    ensures |s| >= 2 && (n < 100 ==> |s| == 2)
    ensures forall i :: 0 <= i < |s| ==> '0' <= s[i] <= '9'
    ensures DecValue(s) == n
  {
    DecRoundTrip(n);
    if n < 10 then
      DecValueLeadingZero(Dec(n));
      "0" + Dec(n)
    else
      Dec(n)
  }

  /** Two digit fields joined by ':', the second two digits wide, split back
    * at the colon into the same fields. */
  lemma {:induction false} ColonJoin(a: string, b: string)
    requires forall i :: 0 <= i < |a| ==> '0' <= a[i] <= '9'
    requires |b| == 2 && '0' <= b[0] <= '9' && '0' <= b[1] <= '9'
    ensures var s := a + ":" + b;
      && |s| == |a| + 3 && s[|s| - 3] == ':'
      && s[..|s| - 3] == a && s[|s| - 2..] == b
      && (forall i :: 0 <= i < |s| - 3 ==> '0' <= s[i] <= '9')
      && (forall i :: |s| - 2 <= i < |s| ==> '0' <= s[i] <= '9')
  {
    var s := a + ":" + b;
    assert s[..|s| - 3] == a;
    assert s[|s| - 2..] == b;
    forall i | 0 <= i < |s| - 3
      ensures '0' <= s[i] <= '9'
    {
      assert s[i] == a[i];
    }
  }

  /** `String(hours % 24) + ":" + (minutes % 60 < 10 ? "0" : "") +
    * String(minutes % 60)` for `t` milliseconds, with the minutes and hours
    * obtained by dividing down through seconds. What the two fields read
    * back as is HourMinuteFields. */
  function HourMinute(t: nat): (s: string)
    ensures |s| >= 4
  {
    var seconds := t / 1000;
    var minutes := seconds / 60;
    var hours := minutes / 60;
    Dec(hours % 24) + ":" + ZeroPad2(minutes % 60)
  }

  /** The two fields of HourMinute read back as the hour of the day and the
    * minute of the hour of `t`. */
  lemma {:induction false} HourMinuteFields(t: nat)
    ensures var s := HourMinute(t);
      && s[|s| - 3] == ':'
      && (forall i :: 0 <= i < |s| - 3 ==> '0' <= s[i] <= '9')
      && (forall i :: |s| - 2 <= i < |s| ==> '0' <= s[i] <= '9')
      && DecValue(s[..|s| - 3]) == (t / 3600000) % 24
      && DecValue(s[|s| - 2..]) == (t / 60000) % 60
  {
    HourMinuteShape(t);
    DecRoundTrip((t / 3600000) % 24);
    ColonJoin(Dec((t / 3600000) % 24), ZeroPad2((t / 60000) % 60));
  }

  /** Dividing down through seconds and minutes is dividing by the length
    * of a minute or an hour. */
  lemma {:induction false} HourMinuteShape(t: nat)
    ensures HourMinute(t) == Dec((t / 3600000) % 24) + ":" + ZeroPad2((t / 60000) % 60)
  {
    var minutes := t / 1000 / 60;
    assert minutes == t / 60000;
    assert minutes / 60 == t / 3600000;
  }
}
