/** The text `job_id:priority` under which a delayed retry is stored, and the
    `rpartition(":")` plus `int(...)` that reads it back. */
module DelayedEntry {
  import opened Options

  predicate IsDigit(c: char) {
    '0' <= c <= '9'
  }

  function DigitValue(c: char): (d: nat)
    requires IsDigit(c)
    ensures d < 10
  {
    c as int - '0' as int
  }

  function PrintNat(n: nat): string {
    var last := [('0' as int + n % 10) as char];
    if n < 10 then last else PrintNat(n / 10) + last
  }

  function PrintInt(n: int): string {
    if n < 0 then "-" + PrintNat(-n) else PrintNat(n)
  }

  /** Digits, with single underscores between them. */
  function ParseNat(s: string): Option<nat> {
    if s == [] || !IsDigit(s[|s| - 1]) then None
    else
      var d := DigitValue(s[|s| - 1]);
      if |s| == 1 then Some(d)
      else
        match ParseNat(if s[|s| - 2] == '_' then s[..|s| - 2] else s[..|s| - 1])
        case None => None
        case Some(front) => Some(10 * front + d)
  }

  /** The blanks of ASCII, as `str.strip` knows them. */
  predicate IsBlank(c: char) {
    c == ' ' || '\t' <= c <= '\r' || '\U{1C}' <= c <= '\U{1F}'
  }

  function Strip(s: string): string {
    if s != [] && IsBlank(s[0]) then Strip(s[1..])
    else if s != [] && IsBlank(s[|s| - 1]) then Strip(s[..|s| - 1])
    else s
  }

  /** Python's `int` on ASCII text: surrounding blanks, an optional sign, digits
      and underscores; None is ValueError. */
  function ParseInt(text: string): Option<int> {
    var s := Strip(text);
    if s == [] then None
    else if s[0] == '-' || s[0] == '+' then
      match ParseNat(s[1..])
      case None => None
      case Some(v) => var n: int := v; Some(if s[0] == '-' then -n else n)
    else
      match ParseNat(s)
      case None => None
      case Some(v) => var n: int := v; Some(n)
  }

  /** The position of the last colon, or -1. */
  function LastColon(s: string): (i: int)
    ensures -1 <= i < |s|
  {
    if s == [] then -1
    else if s[|s| - 1] == ':' then |s| - 1
    else LastColon(s[..|s| - 1])
  }

  function FormatEntry(job: string, priority: int): string {
    job + ":" + PrintInt(priority)
  }

  /** `job_id, _, priority = entry.rpartition(":")`, then `int(priority)`. */
  function ParseEntry(entry: string): Option<(string, int)> {
    var i := LastColon(entry);
    var job := if i < 0 then "" else entry[..i];
    match ParseInt(entry[i + 1..])
    case None => None
    case Some(priority) => Some((job, priority))
  }

  predicate WellFormed(entry: string) {
    ParseEntry(entry).Some?
  }

  lemma {:induction false} NatRoundTrip(n: nat)
    ensures ParseNat(PrintNat(n)) == Some(n)
    ensures PrintNat(n) != [] && forall k :: 0 <= k < |PrintNat(n)| ==> IsDigit(PrintNat(n)[k])
  {
    var s := PrintNat(n);
    if n >= 10 {
      NatRoundTrip(n / 10);
      assert s[..|s| - 1] == PrintNat(n / 10);
    }
  }

  lemma NothingToStrip(s: string)
    requires s != [] && !IsBlank(s[0]) && !IsBlank(s[|s| - 1])
    ensures Strip(s) == s
  {
  }

  lemma IntRoundTrip(n: int)
    ensures ParseInt(PrintInt(n)) == Some(n)
    ensures forall k :: 0 <= k < |PrintInt(n)| ==> PrintInt(n)[k] != ':'
  {
    var m: nat := if n < 0 then -n else n;
    NatRoundTrip(m);
    hide PrintNat, ParseNat, Strip;
    var s, digits := PrintInt(n), PrintNat(m);
    assert IsDigit(digits[0]) && IsDigit(digits[|digits| - 1]) && s[|s| - 1] == digits[|digits| - 1];
    assert n < 0 ==> s[1..] == digits;
    NothingToStrip(s);
  }

  function WithoutSign(s: string): string {
    if s != [] && s[0] == '-' then s[1..] else s
  }

  /** Decimal text without a plus sign, a leading zero or a negative zero. */
  predicate Canonical(s: string) {
    var digits := WithoutSign(s);
    && digits != [] && (forall k :: 0 <= k < |digits| ==> IsDigit(digits[k]))
    && (digits[0] == '0' ==> s == "0")
  }

  lemma {:induction false} PrintNatCanonical(n: nat)
    ensures PrintNat(n) != [] && (PrintNat(n)[0] == '0' <==> n == 0) && (n == 0 ==> PrintNat(n) == "0")
    ensures forall k :: 0 <= k < |PrintNat(n)| ==> IsDigit(PrintNat(n)[k])
  {
    if n >= 10 {
      PrintNatCanonical(n / 10);
    }
  }

  lemma {:induction false} CanonicalNat(s: string)
    requires s != [] && (forall k :: 0 <= k < |s| ==> IsDigit(s[k])) && (s[0] == '0' ==> s == "0")
    ensures ParseNat(s).Some? && PrintNat(ParseNat(s).value) == s
    ensures ParseNat(s).value == 0 <==> s == "0"
  {
    var n := |s| - 1;
    var d := DigitValue(s[n]);
    assert s == s[..n] + [s[n]] && s[n] == ('0' as int + d) as char;
    if n > 0 {
      assert s[..n][0] == s[0] && s != "0";
      CanonicalNat(s[..n]);
      var front := ParseNat(s[..n]).value;
      assert s[n - 1] != '_' && ParseNat(s) == Some(10 * front + d);
      assert front > 0 && (10 * front + d) / 10 == front && (10 * front + d) % 10 == d;
    }
  }

  /** The printed form of an integer is the one canonical text that reads back. */
  lemma PrintedIff(s: string, n: int)
    ensures s == PrintInt(n) <==> Canonical(s) && ParseInt(s) == Some(n)
  {
    IntRoundTrip(n);
    if n < 0 {
      PrintNatCanonical(-n);
      assert PrintInt(n)[1..] == PrintNat(-n);
    } else {
      PrintNatCanonical(n);
    }
    if Canonical(s) {
      var digits := WithoutSign(s);
      assert IsDigit(digits[0]) && IsDigit(digits[|digits| - 1]) && digits[|digits| - 1] == s[|s| - 1];
      NothingToStrip(s);
      CanonicalNat(digits);
      hide PrintNat, ParseNat, Strip;
      assert s[0] == '-' ==> s == "-" + digits;
    }
  }

  /** Blanks around a number do not matter. */
  lemma {:induction false} StripIff(before: string, core: string, after: string)
    requires forall k :: 0 <= k < |before| ==> IsBlank(before[k])
    requires forall k :: 0 <= k < |after| ==> IsBlank(after[k])
    requires core != [] && !IsBlank(core[0]) && !IsBlank(core[|core| - 1])
    ensures Strip(before + core + after) == core
    decreases |before| + |after|
  {
    var s := before + core + after;
    if before != [] {
      assert s[1..] == before[1..] + core + after;
      StripIff(before[1..], core, after);
    } else if after != [] {
      assert s[..|s| - 1] == before + core + after[..|after| - 1];
      StripIff(before, core, after[..|after| - 1]);
    } else {
      assert s == core;
    }
  }

  /** Digits throughout, but for single underscores between two of them. */
  predicate Grouped(s: string) {
    && s != [] && IsDigit(s[0]) && IsDigit(s[|s| - 1])
    && (forall k :: 0 <= k < |s| ==> IsDigit(s[k]) || s[k] == '_')
    && forall k :: 0 < k < |s| ==> IsDigit(s[k - 1]) || IsDigit(s[k])
  }

  lemma {:induction false} ParseNatIff(s: string)
    ensures ParseNat(s).Some? <==> Grouped(s)
  {
    if s != [] && IsDigit(s[|s| - 1]) && |s| > 1 {
      var front := if s[|s| - 2] == '_' then s[..|s| - 2] else s[..|s| - 1];
      ParseNatIff(front);
      assert forall k :: 0 <= k < |front| ==> front[k] == s[k];
      if Grouped(front) {
        assert forall k :: 0 <= k < |s| ==> k < |front| || k == |s| - 1 || s[k] == '_';
      }
      if Grouped(s) {
        assert |s| == 2 || IsDigit(s[|s| - 3]) || IsDigit(s[|s| - 2]);
      }
    }
  }

  lemma {:induction false} LastColonSplits(job: string, tail: string)
    requires forall k :: 0 <= k < |tail| ==> tail[k] != ':'
    ensures LastColon(job + ":" + tail) == |job|
  {
    var s := job + ":" + tail;
    if tail != [] {
      LastColonSplits(job, tail[..|tail| - 1]);
      assert s[|s| - 1] == tail[|tail| - 1];
      assert s[..|s| - 1] == job + ":" + tail[..|tail| - 1];
    }
  }

  /** Every job id, colons included, and every priority, negative included,
      survive being printed and parsed. */
  lemma EntryRoundTrip(job: string, priority: int)
    ensures ParseEntry(FormatEntry(job, priority)) == Some((job, priority))
  {
    var entry := FormatEntry(job, priority);
    IntRoundTrip(priority);
    LastColonSplits(job, PrintInt(priority));
    assert entry[..|job|] == job && entry[|job| + 1..] == PrintInt(priority);
  }

  lemma EntryInjective(job: string, priority: int, job': string, priority': int)
    requires FormatEntry(job, priority) == FormatEntry(job', priority')
    ensures job == job' && priority == priority'
  {
    EntryRoundTrip(job, priority);
    EntryRoundTrip(job', priority');
  }

  lemma AllEntriesRoundTrip()
    ensures forall job, priority {:trigger FormatEntry(job, priority)} ::
              ParseEntry(FormatEntry(job, priority)) == Some((job, priority))
  {
    forall job, priority
      ensures ParseEntry(FormatEntry(job, priority)) == Some((job, priority))
    {
      EntryRoundTrip(job, priority);
    }
  }
}
