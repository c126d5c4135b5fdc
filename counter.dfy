/** The selection counter line, `"Selected: {count} of {total}"`, and a reader
    that recovers both numbers from it, so that the text is shown to carry
    exactly the count and the total and nothing else. */
module Counter {
  import opened Decimal

  datatype Option<T> = None | Some(value: T)

  const Prefix: string := "Selected: "
  const Separator: string := " of "

  /** The counter text for `count` selected items out of `total`. */
  function CounterText(count: nat, total: nat): (t: string)
    ensures Read(t) == Some((count, total))
  {
    var t := Prefix + NatToString(count) + Separator + NatToString(total);
    ReadCounterText(count, total, t);
    t
  }

  /** Index of the first space in `s`, or `|s|` when there is none. */
  function FirstSpace(s: string): (k: nat)
    ensures k <= |s|
    ensures forall j :: 0 <= j < k ==> s[j] != ' '
    ensures k < |s| ==> s[k] == ' '
    decreases |s|
  {
    if |s| == 0 then 0
    else if s[0] == ' ' then 0
    else 1 + FirstSpace(s[1..])
  }

  /** Reads a counter line: the prefix, a non-empty run of digits, the
      separator, a non-empty run of digits, and nothing else. */
  function Read(t: string): (r: Option<(nat, nat)>)
    ensures r.Some? ==> |t| > |Prefix| + |Separator| + 1 && t[..|Prefix|] == Prefix
  {
    if |t| < |Prefix| || t[..|Prefix|] != Prefix then None
    else
      var rest := t[|Prefix|..];
      var k := FirstSpace(rest);
      if k == 0 || |rest| < k + |Separator| || rest[k..k + |Separator|] != Separator then None
      else
        var count, total := rest[..k], rest[k + |Separator|..];
        if !AllDigits(count) || |total| == 0 || !AllDigits(total) then None
        else Some((ParseNat(count), ParseNat(total)))
  }

  lemma ReadCounterText(count: nat, total: nat, t: string)
    requires t == Prefix + NatToString(count) + Separator + NatToString(total)
    ensures Read(t) == Some((count, total))
  {
    var c, n := NatToString(count), NatToString(total);
    var rest := t[|Prefix|..];
    assert t[..|Prefix|] == Prefix;
    assert rest == c + (Separator + n);
    FirstSpaceAfterDigits(c, Separator + n);
    var k := |c|;
    assert rest[k..k + |Separator|] == Separator;
    assert rest[..k] == c;
    assert rest[k + |Separator|..] == n;
    ParseNatToString(count);
    ParseNatToString(total);
  }

  /** A run of digits followed by a space ends at that space. */
  lemma {:induction false} FirstSpaceAfterDigits(d: string, s: string)
    requires AllDigits(d)
    requires |s| > 0 && s[0] == ' '
    ensures FirstSpace(d + s) == |d|
    decreases |d|
  {
    if |d| > 0 {
      assert (d + s)[1..] == d[1..] + s;
      FirstSpaceAfterDigits(d[1..], s);
    }
  }

  /** The line the 24-tile screen shows while fewer than ten tiles are selected,
      spelled out character by character. */
  lemma CounterTextOfDigit(count: nat)
    requires count < 10
    ensures CounterText(count, 24) == "Selected: " + [DigitChar(count)] + " of 24"
  {
  }
}
