/**
  * The message view of the vendor codec: a decoded message is the ordered list of
  * its (field id, raw text) parameters. The helpers here are the three things the
  * stage executor asks of a message or a value: find a parameter by id, write an
  * integer the way `"%ld"` does, read it back the way `sscanf("%ld")` does, and
  * compare text the way `strcasecmp` does.
  */
module Messages {
  import opened Wrappers

  type Message = seq<(int, string)>

  /** The value of the first parameter with the given id, if there is one. */
  function Find(m: Message, id: int): (r: Option<string>)
    ensures r.None? <==> forall k :: 0 <= k < |m| ==> m[k].0 != id
    ensures r.Some? ==> exists k :: 0 <= k < |m| && m[k] == (id, r.value) &&
                                    forall j :: 0 <= j < k ==> m[j].0 != id
  {
    if m == [] then None
    else if m[0].0 == id then Some(m[0].1)
    else
      var r := Find(m[1..], id);
      assert forall k :: 1 <= k < |m| ==> m[k] == m[1..][k - 1];
      if r.Some? then
        ghost var k :| 0 <= k < |m[1..]| && m[1..][k] == (id, r.value) &&
                       forall j :: 0 <= j < k ==> m[1..][j].0 != id;
        assert m[k + 1] == (id, r.value);
        r
      else r
  }

  /** The first parameter with a given id is the one found. */
  lemma FindFirst(m: Message, k: nat)
    requires k < |m| && forall j :: 0 <= j < k ==> m[j].0 != m[k].0
    ensures Find(m, m[k].0) == Some(m[k].1)
  {
    var r := Find(m, m[k].0);
    var i :| 0 <= i < |m| && m[i] == (m[k].0, r.value) && forall j :: 0 <= j < i ==> m[j].0 != m[k].0;
    assert i == k;
  }

  // ---- decimal text, as printed by "%ld" and read by "%ld" ----

  predicate IsDigit(c: char) {
    '0' <= c <= '9'
  }

  predicate AllDigits(s: string) {
    forall i :: 0 <= i < |s| ==> IsDigit(s[i])
  }

  function DigitChar(d: nat): (c: char)
    requires d < 10
    ensures IsDigit(c) && (c as int) - ('0' as int) == d
  {
    (('0' as int) + d) as char
  }

  /** The shortest decimal numeral of `n` (no sign, no leading zeros). */
  function Digits(n: nat): (s: string)
    ensures |s| > 0 && AllDigits(s)
    ensures |s| > 1 ==> s[0] != '0'
    decreases n
  {
    if n < 10 then [DigitChar(n)] else Digits(n / 10) + [DigitChar(n % 10)]
  }

  /** The value of a numeral, most significant digit first. */
  function DigitsValue(s: string): nat
    requires AllDigits(s)
    decreases |s|
  {
    if s == [] then 0
    else DigitsValue(s[..|s| - 1]) * 10 + ((s[|s| - 1] as int) - ('0' as int))
  }

  /** `snprintf(buf, n, "%ld", v)`: an optional minus sign followed by the numeral of |v|. */
  function FormatDec(v: int): (s: string)
    ensures |s| > 0
    ensures v < 0 <==> s[0] == '-'
    ensures v >= 0 ==> AllDigits(s)
    ensures v < 0 ==> AllDigits(s[1..])
  {
    if v < 0 then "-" + Digits(-v) else Digits(v)
  }

  /** `sscanf(s, "%ld", &v) == 1`, read strictly: an optional sign and at least one digit, nothing else. */
  function ParseDec(s: string): (r: Option<int>)
    ensures r.Some? <==> (|s| > 0 && AllDigits(s)) ||
                         (|s| > 1 && (s[0] == '-' || s[0] == '+') && AllDigits(s[1..]))
    ensures r.Some? && s[0] == '-' ==> r.value <= 0
    ensures r.Some? && s[0] != '-' ==> r.value >= 0
  {
    if |s| > 1 && s[0] == '-' && AllDigits(s[1..]) then Some(-(DigitsValue(s[1..]) as int))
    else if |s| > 1 && s[0] == '+' && AllDigits(s[1..]) then Some(DigitsValue(s[1..]))
    else if |s| > 0 && AllDigits(s) then Some(DigitsValue(s))
    else None
  }

  lemma {:induction false} DigitsRoundTrip(n: nat)
    ensures DigitsValue(Digits(n)) == n
    decreases n
  {
    if n >= 10 {
      var s := Digits(n);
      assert s[..|s| - 1] == Digits(n / 10);
      DigitsRoundTrip(n / 10);
    }
  }

  /** What `"%ld"` prints, `"%ld"` reads back as the same integer. */
  lemma ParseFormat(v: int)
    ensures ParseDec(FormatDec(v)) == Some(v)
  {
    if v < 0 {
      var s := FormatDec(v);
      assert s[1..] == Digits(-v);
      DigitsRoundTrip(-v);
    } else {
      DigitsRoundTrip(v);
    }
  }

  // ---- strcasecmp in the C locale ----

  function Lower(c: char): char {
    if 'A' <= c <= 'Z' then ((c as int) + 32) as char else c
  }

  /** `strcasecmp(a, b) == 0`: same length and the same characters after ASCII lower-casing. */
  function EqualsIgnoreCase(a: string, b: string): (r: bool)
    ensures r <==> |a| == |b| && forall i :: 0 <= i < |a| ==> Lower(a[i]) == Lower(b[i])
  {
    if a == [] || b == [] then a == b
    else
      assert forall i :: 1 <= i < |a| && i < |b| ==> a[i] == a[1..][i - 1] && b[i] == b[1..][i - 1];
      Lower(a[0]) == Lower(b[0]) && EqualsIgnoreCase(a[1..], b[1..])
  }

  lemma EqualsIgnoreCaseReflexive(a: string)
    ensures EqualsIgnoreCase(a, a)
  {
  }
}
