/** The human-readable label of one scan run (utils/scan_name.py). The
    clock and the random uuid are parameters. */
module ScanName {
  import opened Common

  /** A UTC wall-clock time as `datetime.utcnow()` yields it, to the second. */
  datatype UtcTime = UtcTime(year: nat, month: nat, day: nat, hour: nat, minute: nat, second: nat) {
    predicate Valid() {
      1 <= year <= 9999 && 1 <= month <= 12 && 1 <= day <= 31 && hour < 24 && minute < 60 && second < 60
    }
  }

  function Pow10(w: nat): (p: nat)
    ensures p >= 1
  {
    if w == 0 then 1 else 10 * Pow10(w - 1)
  }

  predicate IsDigit(c: char) {
    '0' <= c <= '9'
  }

  /** n in decimal, zero-padded to exactly w digits (strftime's %Y, %m, ...). */
  function Digits(n: nat, w: nat): (s: string)
    ensures |s| == w
    ensures forall i :: 0 <= i < w ==> IsDigit(s[i])
  {
    if w == 0 then "" else Digits(n / 10, w - 1) + [('0' as int + n % 10) as char]
  }

  /** The number a string of decimal digits denotes. */
  function DigitsValue(s: string): int {
    if s == [] then 0 else 10 * DigitsValue(s[..|s| - 1]) + (s[|s| - 1] as int - '0' as int)
  }

  /** Padding loses nothing: reading the digits back gives the number. */
  lemma {:induction false} DigitsRoundTrip(n: nat, w: nat)
    requires n < Pow10(w)
    ensures DigitsValue(Digits(n, w)) == n
  {
    if w > 0 {
      var s := Digits(n, w);
      assert s[..|s| - 1] == Digits(n / 10, w - 1);
      DigitsRoundTrip(n / 10, w - 1);
    }
  }

  /** `strftime("%Y-%m-%d %H:%M:%S UTC")`. */
  function FormatUtc(t: UtcTime): string {
    Digits(t.year, 4) + "-" + Digits(t.month, 2) + "-" + Digits(t.day, 2) + " " +
    Digits(t.hour, 2) + ":" + Digits(t.minute, 2) + ":" + Digits(t.second, 2) + " UTC"
  }

  /** The stamp is always 23 characters, with its separators at fixed
      places, and every field can be read back from its slot. */
  lemma FormatUtcLayout(t: UtcTime)
    requires t.Valid()
    ensures var s := FormatUtc(t);
      |s| == 23 && s[4] == '-' && s[7] == '-' && s[10] == ' ' && s[13] == ':' && s[16] == ':' && s[19..] == " UTC" &&
      DigitsValue(s[0..4]) == t.year && DigitsValue(s[5..7]) == t.month && DigitsValue(s[8..10]) == t.day &&
      DigitsValue(s[11..13]) == t.hour && DigitsValue(s[14..16]) == t.minute && DigitsValue(s[17..19]) == t.second
  {
    var s := FormatUtc(t);
    assert s[0..4] == Digits(t.year, 4);
    assert s[5..7] == Digits(t.month, 2);
    assert s[8..10] == Digits(t.day, 2);
    assert s[11..13] == Digits(t.hour, 2);
    assert s[14..16] == Digits(t.minute, 2);
    assert s[17..19] == Digits(t.second, 2);
    DigitsRoundTrip(t.year, 4);
    DigitsRoundTrip(t.month, 2);
    DigitsRoundTrip(t.day, 2);
    DigitsRoundTrip(t.hour, 2);
    DigitsRoundTrip(t.minute, 2);
    DigitsRoundTrip(t.second, 2);
  }

  predicate IsLowerHex(c: char) {
    IsDigit(c) || 'a' <= c <= 'f'
  }

  predicate IsUpperHex(c: char) {
    IsDigit(c) || 'A' <= c <= 'F'
  }

  /** `uuid.uuid4().hex`: 32 lower-case hexadecimal digits. */
  predicate IsUuidHex(h: string) {
    |h| == 32 && forall i :: 0 <= i < |h| ==> IsLowerHex(h[i])
  }

  /** `uuid4().hex[:6].upper()`. */
  function ShortId(uuidHex: string): (id: string)
    requires IsUuidHex(uuidHex)
    ensures |id| == 6 && forall i :: 0 <= i < 6 ==> IsUpperHex(id[i])
  {
    Upper(uuidHex[..6])
  }

  /** build_scan_name: `SCAN | folder | email | stamp | #ID`. */
  function BuildScanName(userEmail: string, folderName: string, now: UtcTime, uuidHex: string): (name: string)
    requires IsUuidHex(uuidHex)
  {
    "SCAN | " + folderName + " | " + userEmail + " | " + FormatUtc(now) + " | #" + ShortId(uuidHex)
  }

  /** Folder comes first and e-mail second, both embedded unchanged, then
      the stamp, each part set off by " | "; the label ends with '#' and the
      six-character upper-case short id, and its length is fixed by the two
      names. */
  lemma ScanNameLayout(userEmail: string, folderName: string, now: UtcTime, uuidHex: string)
    requires IsUuidHex(uuidHex) && now.Valid()
    ensures var name := BuildScanName(userEmail, folderName, now, uuidHex);
      var f := |folderName|;
      var e := |userEmail|;
      |name| == 46 + f + e &&
      name[..7] == "SCAN | " && name[7..7 + f] == folderName &&
      name[7 + f..10 + f] == " | " && name[10 + f..10 + f + e] == userEmail &&
      name[10 + f + e..13 + f + e] == " | " &&
      name[13 + f + e..36 + f + e] == FormatUtc(now) &&
      name[36 + f + e..39 + f + e] == " | " &&
      name[|name| - 7] == '#' &&
      name[|name| - 6..] == ShortId(uuidHex) &&
      forall i :: |name| - 6 <= i < |name| ==> IsUpperHex(name[i])
  {
    FormatUtcLayout(now);
    var name := BuildScanName(userEmail, folderName, now, uuidHex);
    var f := |folderName|;
    var e := |userEmail|;
    assert name == "SCAN | " + folderName + " | " + userEmail + " | " + FormatUtc(now) + " | #" + ShortId(uuidHex);
    assert name[7..7 + f] == folderName;
    assert name[10 + f..10 + f + e] == userEmail;
    assert name[10 + f + e..13 + f + e] == " | ";
    assert name[13 + f + e..36 + f + e] == FormatUtc(now);
    assert name[36 + f + e..39 + f + e] == " | ";
    assert name[|name| - 6..] == ShortId(uuidHex);
  }
}
