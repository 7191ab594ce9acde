/** The `formatTime` helper of the richer component: a count of seconds shown as `m:ss`,
    and a reader for that form against which it is checked. */
module TimeFormat {
  import opened Domain
  import opened Text

  predicate IsDigit(c: char)
  {
    '0' <= c <= '9'
  }

  predicate AllDigits(s: string)
  {
    forall i :: 0 <= i < |s| ==> IsDigit(s[i])
  }

  function DigitValue(c: char): nat
    requires IsDigit(c)
  {
    c as int - '0' as int
  }

  function DigitChar(d: nat): (c: char)
    requires d < 10
    ensures IsDigit(c) && DigitValue(c) == d
  {
    ('0' as int + d) as char
  }

  /** `n.toString()` for a non-negative integer: decimal digits, with a leading zero
      only for zero itself, one digit below 10 and at most two below 100. */
  function NatToString(n: nat): (s: string)
    ensures 1 <= |s| && AllDigits(s)
    ensures s[0] == '0' <==> n == 0
    ensures |s| == 1 <==> n < 10
    ensures n < 100 ==> |s| <= 2
  {
    if n < 10 then [DigitChar(n)] else NatToString(n / 10) + [DigitChar(n % 10)]
  }

  /** The value of a string of decimal digits, most significant first. */
  function ParseDigits(s: string): nat
    requires AllDigits(s)
  {
    if s == [] then 0 else ParseDigits(s[..|s| - 1]) * 10 + DigitValue(s[|s| - 1])
  }

  lemma {:induction false} ParseNatToString(n: nat)
    ensures ParseDigits(NatToString(n)) == n
  {
    if n >= 10 {
      var s := NatToString(n);
      assert s[..|s| - 1] == NatToString(n / 10);
      ParseNatToString(n / 10);
    }
  }

  /** `formatTime(seconds)`: whole minutes, a colon, and the remaining seconds
      left-padded with '0' to two characters; reading the clock back gives the seconds. */
  function FormatTime(seconds: nat): (r: string)
    ensures ParseClock(r) == Some(seconds)
  {
    Clock(seconds / 60, seconds % 60)
  }

  /** The clock for `q` minutes and `k` seconds, which reads back as `q * 60 + k`. */
  function Clock(q: nat, k: nat): (r: string)
    requires k < 60
    ensures ParseClock(r) == Some(q * 60 + k)
  {
    ParseNatToString(q);
    SecondsPart(k);
    ParseClockParts(NatToString(q), PadStart(NatToString(k), 2, '0'), q, k);
    NatToString(q) + ":" + PadStart(NatToString(k), 2, '0')
  }

  /** The first position of `c` in `s`, if any. */
  function IndexOf(s: string, c: char): (r: Option<nat>)
    ensures r.Some? ==> r.value < |s| && s[r.value] == c
    ensures r.Some? ==> forall i :: 0 <= i < r.value ==> s[i] != c
    ensures r.None? ==> forall i :: 0 <= i < |s| ==> s[i] != c
  {
    if s == [] then None
    else if s[0] == c then Some(0)
    else match IndexOf(s[1..], c)
      case None => None
      case Some(k) => Some(k + 1)
  }

  /** Reads a clock string back: minutes, a colon, then exactly two digits below 60. */
  function ParseClock(t: string): Option<nat>
  {
    match IndexOf(t, ':')
    case None => None
    case Some(i) =>
      var minutes, secs := t[..i], t[i + 1..];
      if minutes != [] && AllDigits(minutes) && |secs| == 2 && AllDigits(secs) && ParseDigits(secs) < 60
      then Some(ParseDigits(minutes) * 60 + ParseDigits(secs))
      else None
  }

  /** The seconds part is always exactly two digits and holds `seconds % 60`; what stands
      before the colon is the minute count as `toString` writes it, so it starts with '0'
      only when there are no whole minutes. */
  lemma FormatTimeShape(seconds: nat)
    ensures var r := FormatTime(seconds);
      |r| >= 4 && r[|r| - 3] == ':' && AllDigits(r[|r| - 2..]) &&
      ParseDigits(r[|r| - 2..]) == seconds % 60 &&
      AllDigits(r[..|r| - 3]) && ParseDigits(r[..|r| - 3]) == seconds / 60
    ensures var r := FormatTime(seconds);
      |r| >= 4 && r[..|r| - 3] == NatToString(seconds / 60) && (r[0] == '0' ==> |r| == 4)
  {
    var m, p := NatToString(seconds / 60), PadStart(NatToString(seconds % 60), 2, '0');
    var r := FormatTime(seconds);
    assert r == m + ":" + p;
    assert |p| == 2;
    assert r[|r| - 2..] == p;
    assert r[..|r| - 3] == m;
    ParseNatToString(seconds / 60);
    ParseNatToString(seconds % 60);
    SecondsPart(seconds % 60);
    assert r[0] == m[0];
  }

  /** Two padded digits read back as the number they pad. */
  lemma SecondsPart(k: nat)
    requires k < 60
    ensures var p := PadStart(NatToString(k), 2, '0');
      |p| == 2 && AllDigits(p) && ParseDigits(p) == k
  {
    var s := NatToString(k);
    var p := PadStart(s, 2, '0');
    ParseNatToString(k);
    if |s| == 1 {
      assert p == ['0'] + s;
      assert p[..1] == ['0'];
      assert ParseDigits(['0']) == 0;
    } else {
      assert p == s;
    }
  }

  /** In digits, a colon and anything after, the first colon is the one after the digits. */
  lemma ColonAfterDigits(m: string, p: string)
    requires AllDigits(m)
    ensures IndexOf(m + ":" + p, ':') == Some(|m|)
  {
    var r := m + ":" + p;
    assert r[|m|] == ':';
    assert forall i :: 0 <= i < |m| ==> r[i] == m[i];
  }

  /** A clock string assembled from its parts reads back as those parts. */
  lemma ParseClockParts(m: string, p: string, q: nat, k: nat)
    requires m != [] && AllDigits(m) && ParseDigits(m) == q
    requires |p| == 2 && AllDigits(p) && ParseDigits(p) == k && k < 60
    ensures ParseClock(m + ":" + p) == Some(q * 60 + k)
  {
    var r := m + ":" + p;
    ColonAfterDigits(m, p);
    var minutes, secs := r[..|m|], r[|m| + 1..];
    assert minutes == m;
    assert secs == p;
    assert ParseClock(r) == Some(ParseDigits(minutes) * 60 + ParseDigits(secs));
  }

  /** Reading back is what makes the clock unambiguous: no two durations share one. */
  lemma FormatTimeInjective(a: nat, b: nat)
    requires FormatTime(a) == FormatTime(b)
    ensures a == b
  {
  }
}
