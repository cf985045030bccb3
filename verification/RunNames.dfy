/**
 Run names and run directories (backend/submission.py): a sanitized label, a
 dash, and the fifteen-character run timestamp.
 */
module RunNames {
  import opened Ledger
  import opened LedgerTheorems

  // ---------------------------------------------------------------- labels

  // White space, as `str.strip` and `\s` count it.
  predicate IsSpace(c: char) {
    || '\t' <= c <= '\r' || '\U{001C}' <= c <= ' ' || c == '\U{0085}' || c == '\U{00A0}'
    || c == '\U{1680}' || '\U{2000}' <= c <= '\U{200A}' || c == '\U{2028}' || c == '\U{2029}'
    || c == '\U{202F}' || c == '\U{205F}' || c == '\U{3000}'
  }

  predicate IsAllowed(c: char) {
    'A' <= c <= 'Z' || 'a' <= c <= 'z' || '0' <= c <= '9' || IsTrimmed(c)
  }

  // What may not end a label.
  predicate IsTrimmed(c: char) {
    c == '-' || c == '_' || c == '.'
  }

  function DropLeft(s: string): string {
    if s != "" && IsSpace(s[0]) then DropLeft(s[1..]) else s
  }

  function DropRight(s: string, drop: char -> bool): (r: string)
    ensures r <= s && (r != "" ==> !drop(r[|r| - 1]))
  {
    if s != "" && drop(s[|s| - 1]) then DropRight(s[..|s| - 1], drop) else s
  }

  function Dashed(s: string): string
    decreases |s|
  {
    if s == "" then ""
    else if !IsSpace(s[0]) then [s[0]] + Dashed(s[1..])
    else if |s| > 1 && IsSpace(s[1]) then Dashed(s[1..])
    else "-" + Dashed(s[1..])
  }

  function OnlyAllowed(s: string): (r: string)
    ensures forall i :: 0 <= i < |r| ==> IsAllowed(r[i])
  {
    if s == "" then ""
    else if IsAllowed(s[0]) then [s[0]] + OnlyAllowed(s[1..])
    else OnlyAllowed(s[1..])
  }

  function OrDefault(s: string): string {
    if s == "" then "vasp_run" else s
  }

  function Shortened(kept: string): string {
    OrDefault(DropRight(if |kept| > 60 then kept[..60] else kept, IsTrimmed))
  }

  function SanitizeLabel(text: string): string {
    Shortened(OrDefault(OnlyAllowed(Dashed(DropRight(DropLeft(text), IsSpace)))))
  }

  predicate Sanitized(s: string) {
    && 0 < |s| <= 60
    && (forall i :: 0 <= i < |s| ==> IsAllowed(s[i]))
    && !IsTrimmed(s[|s| - 1])
  }

  lemma {:induction false} AllowedIsKept(s: string)
    requires forall i :: 0 <= i < |s| ==> IsAllowed(s[i])
    ensures Dashed(s) == s && OnlyAllowed(s) == s
  {
    if s != "" {
      AllowedIsNotBlank(s[0]);
      assert forall i :: 0 <= i < |s[1..]| ==> s[1..][i] == s[i + 1];
      AllowedIsKept(s[1..]);
      assert s == [s[0]] + s[1..];
    }
  }

  predicate AllAllowed(s: string) {
    forall i :: 0 <= i < |s| ==> IsAllowed(s[i])
  }

  lemma AllowedIsNotBlank(c: char)
    requires IsAllowed(c)
    ensures !IsSpace(c)
  {
  }

  lemma ShortenedIsSanitized(kept: string)
    requires AllAllowed(kept)
    ensures Sanitized(Shortened(kept))
  {
    var cut := if |kept| > 60 then kept[..60] else kept;
    var r := DropRight(cut, IsTrimmed);
    assert AllAllowed(r);
  }

  lemma SanitizedIsFixed(name: string)
    requires Sanitized(name)
    ensures SanitizeLabel(name) == name
  {
    assert IsAllowed(name[0]) && IsAllowed(name[|name| - 1]);
    assert DropLeft(name) == name;
    assert DropRight(name, IsSpace) == name;
    AllowedIsKept(name);
    assert DropRight(name, IsTrimmed) == name;
  }

  // Every label becomes a safe, non-empty name of at most 60 characters, and
  // sanitizing again changes nothing.
  lemma SanitizeIsIdempotent(text: string)
    ensures Sanitized(SanitizeLabel(text))
    ensures SanitizeLabel(SanitizeLabel(text)) == SanitizeLabel(text)
  {
    ShortenedIsSanitized(OrDefault(OnlyAllowed(Dashed(DropRight(DropLeft(text), IsSpace)))));
    SanitizedIsFixed(SanitizeLabel(text));
  }

  predicate AllBlank(s: string) {
    forall i :: 0 <= i < |s| ==> IsSpace(s[i])
  }

  lemma {:induction false} DashedAfterWord(word: string, rest: string)
    requires AllAllowed(word)
    ensures Dashed(word + rest) == word + Dashed(rest)
  {
    if word == "" {
      assert word + rest == rest;
    } else {
      AllowedIsNotBlank(word[0]);
      assert (word + rest)[1..] == word[1..] + rest;
      DashedAfterWord(word[1..], rest);
    }
  }

  lemma {:induction false} DashedGap(gap: string, word: string)
    requires gap != "" && AllBlank(gap) && word != "" && AllAllowed(word)
    ensures Dashed(gap + word) == "-" + word
  {
    var s := gap + word;
    assert s[1..] == gap[1..] + word;
    if |gap| == 1 {
      AllowedIsNotBlank(word[0]);
      assert s[1..] == word && s[1] == word[0];
      AllowedIsKept(word);
    } else {
      assert s[1] == gap[1];
      DashedGap(gap[1..], word);
    }
  }

  // Two safe words keep their spelling, and any run of blanks between them becomes one dash.
  lemma WordsAreJoinedByADash(one: string, gap: string, other: string)
    requires Sanitized(one) && Sanitized(other) && gap != "" && AllBlank(gap)
    requires |one| + 1 + |other| <= 60
    ensures SanitizeLabel(one + gap + other) == one + "-" + other
  {
    var text, name := one + gap + other, one + "-" + other;
    EndsOf(one, gap, other);
    NothingToTrim(text);
    WordsDashed(one, gap, other);
    JoinedIsSanitized(one, other);
    ShortNameStays(name);
  }

  lemma EndsOf(one: string, gap: string, other: string)
    requires Sanitized(one) && Sanitized(other)
    ensures var text := one + gap + other;
      text != "" && !IsSpace(text[0]) && !IsSpace(text[|text| - 1])
  {
    var text := one + gap + other;
    assert IsAllowed(one[0]) && IsAllowed(other[|other| - 1]);
    assert text[0] == one[0] && text[|text| - 1] == other[|other| - 1];
  }

  lemma NothingToTrim(text: string)
    requires text != "" && !IsSpace(text[0]) && !IsSpace(text[|text| - 1])
    ensures DropRight(DropLeft(text), IsSpace) == text
  {
  }

  lemma JoinedIsSanitized(one: string, other: string)
    requires Sanitized(one) && Sanitized(other) && |one| + 1 + |other| <= 60
    ensures Sanitized(one + "-" + other)
  {
    var name := one + "-" + other;
    assert name[|name| - 1] == other[|other| - 1];
  }

  lemma WordsDashed(one: string, gap: string, other: string)
    requires AllAllowed(one) && gap != "" && AllBlank(gap) && other != "" && AllAllowed(other)
    ensures Dashed(one + gap + other) == one + "-" + other
  {
    assert one + gap + other == one + (gap + other);
    DashedAfterWord(one, gap + other);
    DashedGap(gap, other);
    assert one + ("-" + other) == one + "-" + other;
  }

  lemma ShortNameStays(name: string)
    requires Sanitized(name)
    ensures OnlyAllowed(name) == name && Shortened(name) == name
  {
    AllowedIsKept(name);
    assert DropRight(name, IsTrimmed) == name;
  }

  // The characters of a name and the white space of Python, by their code points.
  lemma CharactersExactly(c: char)
    ensures var n := c as int;
      && (IsAllowed(c) <==> 48 <= n <= 57 || 65 <= n <= 90 || 97 <= n <= 122 || n == 45 || n == 46 || n == 95)
      && (IsSpace(c) <==>
            || 9 <= n <= 13 || 28 <= n <= 32 || n == 133 || n == 160 || n == 5760 || 8192 <= n <= 8202
            || n == 8232 || n == 8233 || n == 8239 || n == 8287 || n == 12288)
  {
  }

  lemma {:induction false} BlanksBefore(gap: string, text: string)
    requires AllBlank(gap)
    ensures DropLeft(gap + text) == DropLeft(text)
  {
    if gap == "" {
      assert gap + text == text;
    } else {
      assert (gap + text)[1..] == gap[1..] + text;
      BlanksBefore(gap[1..], text);
    }
  }

  lemma {:induction false} BlanksBehind(text: string, gap: string)
    requires AllBlank(gap)
    ensures DropRight(text + gap, IsSpace) == DropRight(text, IsSpace)
    decreases |gap|
  {
    if gap == "" {
      assert text + gap == text;
    } else {
      assert (text + gap)[..|text + gap| - 1] == text + gap[..|gap| - 1];
      BlanksBehind(text, gap[..|gap| - 1]);
    }
  }

  lemma {:induction false} BothSides(text: string, gap: string)
    requires AllBlank(gap)
    ensures DropRight(DropLeft(text + gap), IsSpace) == DropRight(DropLeft(text), IsSpace)
  {
    if text == "" {
      assert text + gap == gap + "";
      BlanksBefore(gap, "");
    } else if IsSpace(text[0]) {
      assert (text + gap)[1..] == text[1..] + gap;
      BothSides(text[1..], gap);
    } else {
      BlanksBehind(text, gap);
    }
  }

  // Blanks around a label do not matter.
  lemma BlanksAroundDoNotMatter(before: string, text: string, behind: string)
    requires AllBlank(before) && AllBlank(behind)
    ensures SanitizeLabel(before + text + behind) == SanitizeLabel(text)
  {
    assert before + text + behind == before + (text + behind);
    BlanksBefore(before, text + behind);
    BothSides(text, behind);
  }

  // ----------------------------------------------------------- directories

  function Digit(d: nat): char
    requires d < 10
  {
    '0' + d as char
  }

  function Digits(n: nat, width: nat): (r: string)
    ensures |r| == width
  {
    if width == 0 then "" else Digits(n / 10, width - 1) + [Digit(n % 10)]
  }

  function Power10(k: nat): nat { if k == 0 then 1 else 10 * Power10(k - 1) }

  lemma {:induction false} DigitsInjective(a: nat, b: nat, width: nat)
    requires a < Power10(width) && b < Power10(width) && Digits(a, width) == Digits(b, width)
    ensures a == b
  {
    if width > 0 {
      var x, y := Digits(a, width), Digits(b, width);
      assert x[..width - 1] == Digits(a / 10, width - 1) && y[..width - 1] == Digits(b / 10, width - 1);
      assert x[width - 1] == Digit(a % 10) && y[width - 1] == Digit(b % 10);
      DigitsInjective(a / 10, b / 10, width - 1);
    }
  }

  // YYYYMMDD-HHMMSS
  function TimestampText(ts: RunTimestamp): (r: string)
    ensures |r| == 15
  {
    Digits(ts / 1_000_000, 8) + "-" + Digits(ts % 1_000_000, 6)
  }

  predicate IsTimestamp(ts: RunTimestamp) { ts < 100_000_000_000_000 }

  function RunName(text: string, ts: RunTimestamp): string {
    SanitizeLabel(text) + "-" + TimestampText(ts)
  }

  function PosixJoin(a: string, b: string): string {
    if b != "" && b[0] == '/' then b
    else if a == "" || a[|a| - 1] == '/' then a + b
    else a + "/" + b
  }

  function RunDirectory(flowsDir: string, text: string, ts: RunTimestamp): string {
    PosixJoin(flowsDir, RunName(text, ts))
  }

  lemma TimestampTextInjective(a: RunTimestamp, b: RunTimestamp)
    requires IsTimestamp(a) && IsTimestamp(b) && TimestampText(a) == TimestampText(b)
    ensures a == b
  {
    var x, y := TimestampText(a), TimestampText(b);
    assert x[..8] == Digits(a / 1_000_000, 8) && y[..8] == Digits(b / 1_000_000, 8);
    assert x[9..] == Digits(a % 1_000_000, 6) && y[9..] == Digits(b % 1_000_000, 6);
    assert Power10(8) == 100_000_000 by { assert Power10(4) == 10_000; }
    assert Power10(6) == 1_000_000 by { assert Power10(4) == 10_000; }
    DigitsInjective(a / 1_000_000, b / 1_000_000, 8);
    DigitsInjective(a % 1_000_000, b % 1_000_000, 6);
  }

  // A run directory lies in the directory of all flows, whatever the label.
  lemma RunDirectoryIsBelow(flows: string, text: string, ts: RunTimestamp)
    ensures var name := SanitizeLabel(text) + "-" + TimestampText(ts);
      && (flows != "" && flows[|flows| - 1] != '/' ==> RunDirectory(flows, text, ts) == flows + "/" + name)
      && (flows == "" || flows[|flows| - 1] == '/' ==> RunDirectory(flows, text, ts) == flows + name)
  {
    SanitizeIsIdempotent(text);
    var name := SanitizeLabel(text) + "-" + TimestampText(ts);
    assert name[0] == SanitizeLabel(text)[0] && IsAllowed(SanitizeLabel(text)[0]);
  }

  lemma EndsWithTimestamp(flows: string, text: string, ts: RunTimestamp)
    ensures var r := RunDirectory(flows, text, ts); |r| >= 15 && r[|r| - 15..] == TimestampText(ts)
  {
    var name, r := RunName(text, ts), RunDirectory(flows, text, ts);
    assert name[|name| - 15..] == TimestampText(ts);
    assert r[|r| - |name|..] == name;
    assert r[|r| - 15..] == name[|name| - 15..];
  }

  // The timestamp is a suffix of fixed length, so it alone keeps runs apart,
  // whatever the labels and the parent directories are.
  lemma DifferentTimestampsDifferentDirectories(
    flows: string, text: string, a: RunTimestamp, flows': string, text': string, b: RunTimestamp)
    requires IsTimestamp(a) && IsTimestamp(b) && a != b
    ensures RunDirectory(flows, text, a) != RunDirectory(flows', text', b)
  {
    EndsWithTimestamp(flows, text, a);
    EndsWithTimestamp(flows', text', b);
    if RunDirectory(flows, text, a) == RunDirectory(flows', text', b) { TimestampTextInjective(a, b); }
  }

  // Any two attempts of the ledger, created by any principals in any run, use
  // different run directories.
  lemma AttemptsNeverShareADirectory(
    p: Policy, es: seq<LedgerEvent>, one: AttemptId, other: AttemptId,
    flows: string, text: string, flows': string, text': string)
    requires var records := Steps(EMPTY, p, es).records;
      && one in records && other in records && one != other
      && IsTimestamp(records[one].binding.runTimestamp) && IsTimestamp(records[other].binding.runTimestamp)
    ensures var records := Steps(EMPTY, p, es).records;
      RunDirectory(flows, text, records[one].binding.runTimestamp)
      != RunDirectory(flows', text', records[other].binding.runTimestamp)
  {
    StepsInv(EMPTY, p, es);
    var records := Steps(EMPTY, p, es).records;
    DifferentTimestampsDifferentDirectories(
      flows, text, records[one].binding.runTimestamp, flows', text', records[other].binding.runTimestamp);
  }
}
