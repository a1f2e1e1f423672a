/**
 * The string operations the bot applies to ids and channel mentions:
 * Python's `str.replace(pattern, '')`, `int(text)` on a decimal string and
 * `str(n)` on a non-negative integer.
 */
module Text {
  import opened Wrappers

  /** `s.replace(pat, '')`: one left-to-right pass that deletes every
      non-overlapping occurrence of `pat`. */
  function DeleteAll(s: string, pat: string): (r: string)
    requires |pat| > 0
    ensures forall c :: c in r ==> c in s                 // nothing is added
    ensures |pat| == 1 ==> pat[0] !in r                   // a one-character pattern is gone
    decreases |s|
  {
    if |s| < |pat| then s
    else if s[..|pat|] == pat then DeleteAll(s[|pat|..], pat)
    else [s[0]] + DeleteAll(s[1..], pat)
  }

  /** One step of the scan when the input does not start with the pattern. */
  lemma DeleteAllStep(s: string, pat: string)
    requires 0 < |pat| <= |s| && s[0] != pat[0]
    ensures DeleteAll(s, pat) == [s[0]] + DeleteAll(s[1..], pat)
  {
    assert s[..|pat|][0] != pat[0];
  }

  /** A prefix that never contains the pattern's first character is copied unchanged. */
  lemma {:induction false} DeleteAllSkipsPrefix(a: string, b: string, pat: string)
    requires |pat| > 0
    requires forall i :: 0 <= i < |a| ==> a[i] != pat[0]
    ensures DeleteAll(a + b, pat) == a + DeleteAll(b, pat)
    decreases |a|
  {
    if a == [] {
      assert a + b == b;
    } else if |a + b| < |pat| {
      assert DeleteAll(b, pat) == b;
    } else {
      DeleteAllStep(a + b, pat);
      assert (a + b)[1..] == a[1..] + b;
      DeleteAllSkipsPrefix(a[1..], b, pat);
      assert [a[0]] + (a[1..] + DeleteAll(b, pat)) == a + DeleteAll(b, pat);
    }
  }

  /** A longer pattern is NOT gone after one pass: deleting "<#" from
      "<<##" joins the two halves into a new "<#". */
  lemma ReplaceIsSinglePass()
    ensures DeleteAll("<<##", "<#") == "<#"
  {
  }

  predicate IsDigit(c: char) {
    '0' <= c <= '9'
  }

  predicate AllDigits(s: string) {
    forall i :: 0 <= i < |s| ==> IsDigit(s[i])
  }

  function DigitValue(c: char): (d: nat)
    requires IsDigit(c)
    ensures d < 10
  {
    c as int - '0' as int
  }

  function DigitChar(d: nat): (c: char)
    requires d < 10
    ensures IsDigit(c) && DigitValue(c) == d
  {
    ('0' as int + d) as char
  }

  /** The number written by a string of decimal digits, most significant first. */
  function DecimalValue(s: string): nat
    requires AllDigits(s)
  {
    if s == [] then 0 else DecimalValue(s[..|s| - 1]) * 10 + DigitValue(s[|s| - 1])
  }

  /** `int(text)`: plain decimal digit strings parse; anything else raises (None). */
  function ParseDecimal(s: string): (r: Option<nat>)
    ensures r.Some? <==> s != [] && AllDigits(s)
  {
    if s != [] && AllDigits(s) then Some(DecimalValue(s)) else None
  }

  /** `str(n)` for a non-negative integer: its shortest decimal form. */
  function NatToDecimal(n: nat): (r: string)
    ensures r != [] && AllDigits(r)
    ensures r[0] == '0' ==> n == 0
  {
    if n < 10 then [DigitChar(n)] else NatToDecimal(n / 10) + [DigitChar(n % 10)]
  }

  /** `int(str(n)) == n`. */
  lemma {:induction false} DecimalRoundTrip(n: nat)
    ensures ParseDecimal(NatToDecimal(n)) == Some(n)
  {
    var s := NatToDecimal(n);
    if n < 10 {
      assert s[..|s| - 1] == [];
    } else {
      DecimalRoundTrip(n / 10);
      assert s[..|s| - 1] == NatToDecimal(n / 10);
      assert DecimalValue(s) == (n / 10) * 10 + n % 10;
    }
  }

  /** Distinct ids are stored under distinct text keys. */
  lemma NatToDecimalInjective(a: nat, b: nat)
    ensures NatToDecimal(a) == NatToDecimal(b) <==> a == b
  {
    DecimalRoundTrip(a);
    DecimalRoundTrip(b);
  }

  /** The text `target.replace('<#', '').replace('>', '')` that a channel setting keeps. */
  function ChannelIdText(target: string): (r: string)
    ensures '>' !in r
    ensures forall c :: c in r ==> c in target
  {
    DeleteAll(DeleteAll(target, "<#"), ">")
  }

  /** How the chat client writes a mention of channel `id`. */
  function ChannelMention(id: nat): string {
    "<#" + NatToDecimal(id) + ">"
  }

  /** Stripping a mention gives back the channel's decimal id, and `int()` of it the id. */
  lemma MentionRoundTrip(id: nat)
    ensures ChannelIdText(ChannelMention(id)) == NatToDecimal(id)
    ensures ParseDecimal(ChannelIdText(ChannelMention(id))) == Some(id)
  {
    var d := NatToDecimal(id);
    var m := ChannelMention(id);
    assert m[..2] == "<#";
    assert m[2..] == d + ">";
    assert DeleteAll(m, "<#") == DeleteAll(d + ">", "<#");
    DeleteAllSkipsPrefix(d, ">", "<#");
    DeleteAllSkipsPrefix(d, ">", ">");
    assert DeleteAll(">", ">") == DeleteAll("", ">");
    assert d + "" == d;
    DecimalRoundTrip(id);
  }
}
