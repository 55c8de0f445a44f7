/** What the voice call and the video call share: the one-way call status
    and `formatDuration`, which both components define identically
    (components/voice-call.tsx:43-47, components/video-call.tsx:77-81).

    `formatDuration(seconds)` is
    `pad(Math.floor(seconds / 60)) + ":" + pad(seconds % 60)` where `pad`
    is `toString().padStart(2, "0")`. The duration counter is a
    non-negative integer, where `Math.floor(x / 60)` and `x % 60` agree
    with Dafny's `/` and `%`. */
module CallTimer {
  import opened Records

  datatype CallStatus = Connecting | Connected

  /** The text shown while a call is connecting. */
  const ConnectingText := "Connecting..."

  predicate IsDigit(c: char)
  {
    '0' <= c <= '9'
  }

  predicate AllDigits(s: string)
  {
    forall i :: 0 <= i < |s| ==> IsDigit(s[i])
  }

  function DigitChar(d: nat): (c: char)
    requires d < 10
    ensures IsDigit(c)
  {
    ('0' as int + d) as char
  }

  /** The value of a digit character; other characters count as 0. */
  function DigitValue(c: char): nat
  {
    if IsDigit(c) then c as int - '0' as int else 0
  }

  /** `n.toString()` for a non-negative integer: its decimal digits, with
      no leading zero. */
  function Digits(n: nat): (r: string)
    ensures |r| >= 1 && AllDigits(r)
    ensures n < 10 <==> |r| == 1
    ensures n < 100 ==> |r| <= 2
    ensures |r| > 1 ==> r[0] != '0'
  {
    if n < 10 then [DigitChar(n)] else Digits(n / 10) + [DigitChar(n % 10)]
  }

  /** `s.padStart(width, fill)` with a one-character fill. */
  function PadStart(s: string, width: nat, fill: char): (r: string)
    ensures |r| == if |s| >= width then |s| else width
    ensures r[|r| - |s|..] == s
    ensures forall i :: 0 <= i < |r| - |s| ==> r[i] == fill
  {
    if |s| >= width then s else seq(width - |s|, _ => fill) + s
  }

  /** `n.toString().padStart(2, "0")`. */
  function Pad2(n: nat): (r: string)
    ensures |r| >= 2 && AllDigits(r)
    ensures n < 100 ==> |r| == 2
  {
    PadStart(Digits(n), 2, '0')
  }

  /** The text of a call duration of `seconds` seconds: minutes and seconds,
      each at least two digits, joined by a colon. */
  function FormatDuration(seconds: nat): (r: string)
    ensures |r| >= 5 && r[|r| - 3] == ':'
  {
    Pad2(seconds / 60) + ":" + Pad2(seconds % 60)
  }

  /** The value of a string of decimal digits; leading zeros add nothing. */
  function DecimalValue(s: string): nat
  {
    if s == [] then 0 else 10 * DecimalValue(s[..|s| - 1]) + DigitValue(s[|s| - 1])
  }

  /** Reads a duration text back: everything before the third-last
      character is minutes, the last two characters are seconds below 60. */
  function ParseDuration(t: string): (r: Option<nat>)
    ensures r.Some? ==> |t| >= 3 && t[|t| - 3] == ':'
  {
    if |t| >= 3 && t[|t| - 3] == ':' && AllDigits(t[..|t| - 3]) && AllDigits(t[|t| - 2..])
      && DecimalValue(t[|t| - 2..]) < 60
    then Some(60 * DecimalValue(t[..|t| - 3]) + DecimalValue(t[|t| - 2..]))
    else None
  }

  lemma {:induction false} DigitsValue(n: nat)
    ensures DecimalValue(Digits(n)) == n
    decreases n
  {
    if n >= 10 {
      var d := Digits(n);
      assert d[..|d| - 1] == Digits(n / 10);
      DigitsValue(n / 10);
    }
  }

  lemma {:induction false} ZerosValue(k: nat)
    ensures DecimalValue(seq(k, _ => '0')) == 0
  {
    if k > 0 {
      var z := seq(k, _ => '0');
      assert z[..k - 1] == seq(k - 1, _ => '0');
      ZerosValue(k - 1);
    }
  }

  lemma {:induction false} ZeroPrefixValue(k: nat, s: string)
    ensures DecimalValue(seq(k, _ => '0') + s) == DecimalValue(s)
    decreases |s|
  {
    var z := seq(k, _ => '0');
    if s == [] {
      assert z + s == z;
      ZerosValue(k);
    } else {
      var t := z + s;
      assert t[..|t| - 1] == z + s[..|s| - 1];
      ZeroPrefixValue(k, s[..|s| - 1]);
    }
  }

  /** Padding a number to two digits does not change the number it denotes. */
  lemma Pad2Value(n: nat)
    ensures DecimalValue(Pad2(n)) == n
  {
    var d := Digits(n);
    DigitsValue(n);
    if |d| < 2 {
      ZeroPrefixValue(2 - |d|, d);
    }
  }

  /** A text joined from two padded fields reads back as the duration they
      denote. */
  lemma ParseJoined(mins: nat, secs: nat) returns (t: string)
    requires secs < 60
    ensures t == Pad2(mins) + ":" + Pad2(secs)
    ensures ParseDuration(t) == Some(60 * mins + secs)
  {
    Pad2Value(mins);
    Pad2Value(secs);
    t := ParseJoinedDigits(Pad2(mins), Pad2(secs), mins, secs);
  }

  lemma ParseJoinedDigits(m: string, s: string, mv: nat, sv: nat) returns (t: string)
    requires AllDigits(m) && AllDigits(s) && |s| == 2
    requires DecimalValue(m) == mv && DecimalValue(s) == sv && sv < 60
    ensures t == m + ":" + s
    ensures ParseDuration(t) == Some(60 * mv + sv)
  {
    t := m + ":" + s;
    assert t[..|t| - 3] == m;
    assert t[|t| - 2..] == s;
  }

  lemma DivMod60(seconds: nat, mins: nat, secs: nat)
    requires mins == seconds / 60 && secs == seconds % 60
    ensures 60 * mins + secs == seconds && secs < 60
  {
  }

  /** The formatted text, named, together with its reading. */
  lemma FormattedText(seconds: nat) returns (t: string)
    ensures FormatDuration(seconds) == t && ParseDuration(t) == Some(seconds)
  {
    var mins, secs := seconds / 60, seconds % 60;
    DivMod60(seconds, mins, secs);
    t := ParseJoined(mins, secs);
  }

  /** Reading the text back gives the duration it was made from. */
  lemma ParseFormatDuration(seconds: nat)
    ensures ParseDuration(FormatDuration(seconds)) == Some(seconds)
  {
    var t := FormattedText(seconds);
  }

  /** The two fields of the text: both are digit strings, the seconds field
      denotes a value in 0..59, and sixty times the minutes plus the seconds
      is the duration. */
  lemma FormatDurationFields(seconds: nat, r: string)
    requires r == FormatDuration(seconds)
    ensures |r| >= 3 && AllDigits(r[..|r| - 3]) && AllDigits(r[|r| - 2..])
    ensures DecimalValue(r[|r| - 2..]) < 60
    ensures 60 * DecimalValue(r[..|r| - 3]) + DecimalValue(r[|r| - 2..]) == seconds
  {
    ParseFormatDuration(seconds);
    ParsedFields(r, seconds);
  }

  /** What a successful reading says about the two fields of the text. */
  lemma ParsedFields(t: string, v: nat)
    requires ParseDuration(t) == Some(v)
    ensures |t| >= 3 && AllDigits(t[..|t| - 3]) && AllDigits(t[|t| - 2..])
    ensures DecimalValue(t[|t| - 2..]) < 60
    ensures 60 * DecimalValue(t[..|t| - 3]) + DecimalValue(t[|t| - 2..]) == v
  {
  }

  /** Under 100 minutes the text is exactly "mm:ss". */
  lemma FormatDurationShort(seconds: nat)
    requires seconds < 6000
    ensures |FormatDuration(seconds)| == 5 && FormatDuration(seconds)[2] == ':'
  {
    var mins, secs := seconds / 60, seconds % 60;
    DivMod60(seconds, mins, secs);
    assert mins < 100;
  }

  /** Different durations are shown as different texts. */
  lemma FormatDurationInjective(a: nat, b: nat)
    requires FormatDuration(a) == FormatDuration(b)
    ensures a == b
  {
    ParseFormatDuration(a);
    ParseFormatDuration(b);
  }

  /** "Connecting..." is never a duration text, so the status line tells
      the two states apart. */
  lemma ConnectingIsNoDuration(seconds: nat)
    ensures FormatDuration(seconds) != ConnectingText
  {
    var r := FormatDuration(seconds);
    assert !IsDigit(ConnectingText[0]);
    if |r| > 3 {
      assert r[0] == r[..|r| - 3][0];
    }
  }

  /** The status line of either call: "Connecting..." while connecting,
      the formatted duration once connected. */
  function StatusLine(status: CallStatus, duration: nat): (t: string)
    ensures t == ConnectingText <==> status == Connecting
    ensures status == Connected ==> t == FormatDuration(duration) && ParseDuration(t) == Some(duration)
  {
    ConnectingIsNoDuration(duration);
    ParseFormatDuration(duration);
    if status == Connecting then ConnectingText else FormatDuration(duration)
  }
}
