/** JetStream storage sizes: one size string becomes both the volume claim's request (binary units)
    and the file-store limit printed into server.conf (decimal units). */
module NatsStorage {
  import opened Wrappers
  import opened GoStrings
  import opened Decimal

  const DEFAULT_STORAGE_SIZE := "10G"
  const DEFAULT_STORAGE_SIZE_PVC := "10Gi"

  function ToNatsSize(size: string): string {
    var s := TrimSpace(size);
    if s == "" then s else WithNatsUnit(s)
  }

  function WithNatsUnit(s: string): (t: string)
    requires s != ""
    ensures t == s || (|s| >= 2 && exists unit :: unit in {'G', 'M', 'T', 'K'} && t == s[..|s| - 2] + [unit])
  {
    var lower := ToLower(s);
    if HasSuffix(lower, "gi") then s[..|s| - 2] + ['G']
    else if HasSuffix(lower, "mi") then s[..|s| - 2] + ['M']
    else if HasSuffix(lower, "ti") then s[..|s| - 2] + ['T']
    else if HasSuffix(lower, "ki") then s[..|s| - 2] + ['K']
    else s
  }

  // Converting twice is converting once, for every string.
  lemma ToNatsSizeIdempotent(size: string)
    ensures ToNatsSize(ToNatsSize(size)) == ToNatsSize(size)
  {
    hide WHITESPACE, Trim, WithNatsUnit, NoEdge;
    var s, t := TrimSpace(size), ToNatsSize(size);
    TrimFixedPoint(size, WHITESPACE);
    TrimFixedPoint(s, WHITESPACE);
    if s != "" && t != s {
      var unit :| unit in {'G', 'M', 'T', 'K'} && t == s[..|s| - 2] + [unit];
      UnitIsNotSpace(s, unit);
      TrimFixedPoint(t, WHITESPACE);
      NotBinary(t);
    }
  }

  // What a size turns into, in any letter case: the trimmed text, with a binary suffix replaced by its decimal letter.
  lemma ToNatsSizeMeaning(size: string)
    ensures var s, t := TrimSpace(size), ToNatsSize(size);
      if |s| >= 2 && s[|s| - 1] in {'i', 'I'} && s[|s| - 2] in {'g', 'G'} then t == s[..|s| - 2] + "G"
      else if |s| >= 2 && s[|s| - 1] in {'i', 'I'} && s[|s| - 2] in {'m', 'M'} then t == s[..|s| - 2] + "M"
      else if |s| >= 2 && s[|s| - 1] in {'i', 'I'} && s[|s| - 2] in {'t', 'T'} then t == s[..|s| - 2] + "T"
      else if |s| >= 2 && s[|s| - 1] in {'i', 'I'} && s[|s| - 2] in {'k', 'K'} then t == s[..|s| - 2] + "K"
      else t == s
  {
    hide TrimSpace, ToLower, HasSuffix;
    var s := TrimSpace(size);
    if |s| >= 2 {
      LowerSuffix(s, 'g', 'i');
      LowerSuffix(s, 'm', 'i');
      LowerSuffix(s, 't', 'i');
      LowerSuffix(s, 'k', 'i');
    } else if |s| == 1 {
      ShortHasNoSuffix(s, "gi");
      ShortHasNoSuffix(s, "mi");
      ShortHasNoSuffix(s, "ti");
      ShortHasNoSuffix(s, "ki");
    }
  }

  lemma UnitIsNotSpace(s: string, unit: char)
    requires |s| >= 2 && NoEdge(s, WHITESPACE) && unit in {'G', 'M', 'T', 'K'}
    ensures NoEdge(s[..|s| - 2] + [unit], WHITESPACE)
  {
    assert unit !in WHITESPACE;
    hide WHITESPACE;
    if |s| > 2 {
      assert (s[..|s| - 2] + [unit])[0] == s[0];
    }
  }

  lemma NotBinary(t: string)
    requires t != "" && t[|t| - 1] in {'G', 'M', 'T', 'K'}
    ensures WithNatsUnit(t) == t
  {
    hide ToLower, HasSuffix;
    if |t| >= 2 {
      LowerSuffix(t, 'g', 'i');
      LowerSuffix(t, 'm', 'i');
      LowerSuffix(t, 't', 'i');
      LowerSuffix(t, 'k', 'i');
    } else {
      assert !HasSuffix(ToLower(t), "gi") && !HasSuffix(ToLower(t), "mi") by { ShortHasNoSuffix(t, "gi"); ShortHasNoSuffix(t, "mi"); }
      assert !HasSuffix(ToLower(t), "ti") && !HasSuffix(ToLower(t), "ki") by { ShortHasNoSuffix(t, "ti"); ShortHasNoSuffix(t, "ki"); }
    }
  }

  lemma ShortHasNoSuffix(t: string, suffix: string)
    requires |t| < |suffix|
    ensures !HasSuffix(ToLower(t), suffix)
  {
  }

  /* ----- what the two sides make of a size ----- */

  function UnitLetter(suffix: string): char { if suffix == "" then ' ' else suffix[0] }

  function BinaryUnit(suffix: string): int {
    match UnitLetter(suffix)
    case 'K' => 0x400
    case 'M' => 0x10_0000
    case 'G' => 0x4000_0000
    case 'T' => 0x100_0000_0000
    case _ => 1
  }

  function DecimalUnit(letter: char): int {
    match letter case 'K' => 1_000 case 'M' => 1_000_000 case 'G' => 1_000_000_000 case 'T' => 1_000_000_000_000 case _ => 1
  }

  function WholeNumber(s: string): Option<int> {
    if s != "" && AllDigits(s) then Some(DigitsValue(s)) else None
  }

  // resource.ParseQuantity on a whole number with a binary suffix.
  function PvcBytes(size: string): Option<int> {
    if |size| >= 2 && size[|size| - 2..] in ["Ki", "Mi", "Gi", "Ti"] then
      match WholeNumber(size[..|size| - 2])
      case None => None
      case Some(n) => Some(n * BinaryUnit(size[|size| - 2..]))
    else WholeNumber(size)
  }

  // The claim asks for the default size when the given one is zero.
  function PvcRequest(size: string): Option<int> {
    if PvcBytes(size) == Some(0) then PvcBytes(DEFAULT_STORAGE_SIZE_PVC) else PvcBytes(size)
  }

  // max_file_store as NATS reads it: a whole number with one decimal-unit letter.
  function NatsBytes(size: string): Option<int> {
    if |size| >= 1 && size[|size| - 1] in {'K', 'M', 'G', 'T'} then
      match WholeNumber(size[..|size| - 1])
      case None => None
      case Some(n) => Some(n * DecimalUnit(size[|size| - 1]))
    else WholeNumber(size)
  }

  lemma ConvertedText(digits: string, suffix: string)
    requires suffix in ["Ki", "Mi", "Gi", "Ti"] && digits != "" && AllDigits(digits)
    ensures ToNatsSize(digits + suffix) == digits + [suffix[0]]
  {
    hide Trim;
    var s := digits + suffix;
    DigitsAreNotSpace(digits, suffix);
    TrimFixedPoint(s, WHITESPACE);
    hide WHITESPACE;
    UnitConverted(digits, suffix);
  }

  lemma DigitsAreNotSpace(digits: string, suffix: string)
    requires suffix in ["Ki", "Mi", "Gi", "Ti"] && digits != "" && AllDigits(digits)
    ensures NoEdge(digits + suffix, WHITESPACE)
  {
    assert 'i' !in WHITESPACE && (IsDigit(digits[0]) ==> digits[0] !in WHITESPACE);
  }

  lemma UnitConverted(digits: string, suffix: string)
    requires suffix in ["Ki", "Mi", "Gi", "Ti"] && digits != ""
    ensures WithNatsUnit(digits + suffix) == digits + [suffix[0]]
  {
    hide ToLower, HasSuffix;
    var s := digits + suffix;
    assert s[..|s| - 2] == digits;
    assert s[|s| - 2] == suffix[0] && s[|s| - 1] == suffix[1];
    LowerSuffix(s, 'g', 'i');
    LowerSuffix(s, 'm', 'i');
    LowerSuffix(s, 't', 'i');
    LowerSuffix(s, 'k', 'i');
  }

  lemma LowerSuffix(s: string, x: char, y: char)
    requires |s| >= 2
    ensures HasSuffix(ToLower(s), [x, y]) <==> LowerChar(s[|s| - 2]) == x && LowerChar(s[|s| - 1]) == y
  {
    var lower := ToLower(s);
    assert lower[|lower| - 2..] == [lower[|lower| - 2], lower[|lower| - 1]];
  }

  lemma PrintedNumber(n: nat)
    ensures WholeNumber(Itoa(n)) == Some(n)
  {
    DigitsRoundTrip(n);
  }

  predicate FitsClaim(size: string) {
    && NatsBytes(ToNatsSize(size)).Some? && PvcRequest(size).Some?
    && NatsBytes(ToNatsSize(size)).value <= PvcRequest(size).value
  }

  // The limit that server.conf prints never exceeds what the claim of the same size string requests.
  lemma FileStoreFitsClaim(n: nat, suffix: string)
    requires suffix in ["Ki", "Mi", "Gi", "Ti"]
    ensures PvcBytes(Itoa(n) + suffix) == Some(n * BinaryUnit(suffix))
    ensures NatsBytes(ToNatsSize(Itoa(n) + suffix)) == Some(n * DecimalUnit(UnitLetter(suffix)))
    ensures FitsClaim(Itoa(n) + suffix)
  {
    hide ToNatsSize, WholeNumber, Itoa;
    var digits := Itoa(n);
    ConvertedText(digits, suffix);
    PrintedNumber(n);
    var size := digits + suffix;
    assert size[|size| - 2..] == suffix && size[..|size| - 2] == digits;
    assert (digits + [suffix[0]])[..|digits|] == digits;
    UnitsOrdered(n, suffix);
    DefaultClaim();
  }

  lemma UnitsOrdered(n: nat, suffix: string)
    requires suffix in ["Ki", "Mi", "Gi", "Ti"]
    ensures n * DecimalUnit(UnitLetter(suffix)) <= n * BinaryUnit(suffix)
  {
    assert DecimalUnit(UnitLetter(suffix)) <= BinaryUnit(suffix);
  }

  // The defaults obey the same bound.
  lemma DefaultClaim()
    ensures PvcBytes(DEFAULT_STORAGE_SIZE_PVC).Some? && PvcBytes(DEFAULT_STORAGE_SIZE_PVC).value > 0
    ensures ToNatsSize(DEFAULT_STORAGE_SIZE_PVC) == DEFAULT_STORAGE_SIZE
  {
    hide ToNatsSize;
    assert Digits(1) == "1" && Digits(10) == "10";
    assert Itoa(10) == "10" && "10" + "Gi" == DEFAULT_STORAGE_SIZE_PVC && "10" + ['G'] == DEFAULT_STORAGE_SIZE;
    assert WholeNumber("10") == Some(10) by { DigitsRoundTrip(10); }
    ConvertedText("10", "Gi");
    var size := DEFAULT_STORAGE_SIZE_PVC;
    assert size[|size| - 2..] == "Gi" && size[..|size| - 2] == "10";
  }
}
