/** contracts/shared-types/src/lib.rs: the four-tier level and the version check of the
    wiring handshake. */
module SharedTypes {
  import opened Prelude

  datatype ProgressLevel =
    | Unverified
    | VerifiedIdentity
    | PerformanceMilestones
    | EliteTier
  {
    function Rank(): nat {
      match this
      case Unverified => 0
      case VerifiedIdentity => 1
      case PerformanceMilestones => 2
      case EliteTier => 3
    }

    function Next(): Option<ProgressLevel> {
      match this
      case Unverified => Some(VerifiedIdentity)
      case VerifiedIdentity => Some(PerformanceMilestones)
      case PerformanceMilestones => Some(EliteTier)
      case EliteTier => None
    }
  }

  /** `Next` is the successor in rank and is absent only at the top, and ranks tell levels
      apart: the level order is the order 0 < 1 < 2 < 3. */
  lemma NextRaisesRankByOne(level: ProgressLevel, other: ProgressLevel)
    ensures level.Next() == Some(other) <==> other.Rank() == level.Rank() + 1
    ensures level.Next() == None <==> forall l: ProgressLevel :: l.Rank() <= level.Rank()
    ensures level.Rank() == other.Rank() <==> level == other
    ensures Unverified.Rank() == 0 && VerifiedIdentity.Rank() == 1
    ensures PerformanceMilestones.Rank() == 2 && EliteTier.Rank() == 3
  {
    assert EliteTier.Rank() == 3;
    match level
    case Unverified =>
    case VerifiedIdentity =>
    case PerformanceMilestones =>
    case EliteTier =>
  }

  /** An account or contract address, identified with its canonical XDR bytes. */
  datatype Address = Address(xdr: seq<byte>)

  // ----- the version handshake of verify_peer ------------------------------------------

  predicate IsDigit(b: byte) {
    48 <= b <= 57
  }

  lemma DigitsAreCharacters(b: byte)
    ensures IsDigit(b) <==> '0' <= b as char <= '9'
  {
  }

  /** Length of the longest prefix of decimal digits. */
  function DigitPrefix(s: seq<byte>): (n: nat)
    ensures n <= |s|
    ensures forall i :: 0 <= i < n ==> IsDigit(s[i])
    ensures n < |s| ==> !IsDigit(s[n])
  {
    if s != [] && IsDigit(s[0]) then 1 + DigitPrefix(s[1..]) else 0
  }

  /** The number the decimal digits write, without any bound. */
  function DecimalValue(digits: seq<byte>): (n: nat)
    requires forall i :: 0 <= i < |digits| ==> IsDigit(digits[i])
  {
    if digits == [] then 0
    else
      assert IsDigit(digits[|digits| - 1]);
      var last: int := digits[|digits| - 1];
      10 * DecimalValue(digits[..|digits| - 1]) + (last - 48)
  }

  lemma {:induction false} DecimalGrows(digits: seq<byte>, k: nat)
    requires forall i :: 0 <= i < |digits| ==> IsDigit(digits[i])
    requires k <= |digits|
    ensures DecimalValue(digits[..k]) <= DecimalValue(digits)
  {
    var n := |digits|;
    if k < n {
      DecimalGrows(digits[..n - 1], k);
      assert digits[..n - 1][..k] == digits[..k];
    } else {
      assert digits[..k] == digits;
    }
  }

  /** A version of 1 to 32 bytes that starts with a decimal number that fits a u32 and is at
      least `minMajor`. */
  predicate VersionOk(version: seq<byte>, minMajor: u32) {
    && 1 <= |version| <= 32
    && DigitPrefix(version) >= 1
    && minMajor <= DecimalValue(version[..DigitPrefix(version)]) <= U32_MAX
  }

  /** The version half of `verify_peer`: the early overflow exits reject no number that fits. */
  method VersionAccepted(version: seq<byte>, minMajor: u32) returns (accepted: bool)
    ensures accepted <==> VersionOk(version, minMajor)
    ensures accepted <==>
            && 1 <= |version| <= 32 && DigitPrefix(version) >= 1
            && minMajor <= DecimalValue(version[..DigitPrefix(version)]) <= 0xFFFF_FFFF
  {
    if |version| == 0 || |version| > 32 {
      return false;
    }
    var major: u32 := 0;
    var seenDigit := false;
    ghost var d := DigitPrefix(version);
    var i := 0;
    while i < |version|
      invariant 0 <= i <= d
      invariant major == DecimalValue(version[..i])
      invariant seenDigit <==> i > 0
      decreases |version| - i
    {
      if !IsDigit(version[i]) {
        break;
      }
      seenDigit := true;
      var more := version[..i + 1];
      assert more[..i] == version[..i];
      DecimalGrows(version[..d], i + 1);
      assert version[..d][..i + 1] == more;
      var digit: int := version[i] - 48;
      if 10 * major > U32_MAX || 10 * major + digit > U32_MAX {
        return false;
      }
      major := 10 * major + digit;
      i := i + 1;
    }
    assert i == d;
    return seenDigit && major >= minMajor;
  }

  /** `verify_peer`.  `kind` and `version` are what the two calls answered, None when a call failed
      or answered something else; any failure is a refusal. */
  method VerifyPeer(kind: Option<string>, version: Option<seq<byte>>, expectedKind: string, minMajor: u32)
    returns (accepted: bool)
    ensures accepted <==> kind == Some(expectedKind) && version.Some? && VersionOk(version.value, minMajor)
  {
    if kind != Some(expectedKind) || version.None? {
      return false;
    }
    accepted := VersionAccepted(version.value, minMajor);
  }
}
