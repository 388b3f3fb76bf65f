/** Canonical spellings of regions, positions and nationalities
    (contracts/registration/src/lib.rs).  Strings are byte sequences. */
module Canonical {
  import opened Prelude

  type Text = seq<byte>

  const MAX_STRING_LEN: nat := 64

  /** `u8::is_ascii_whitespace`: tab, line feed, form feed, carriage return, space. */
  predicate IsSpace(b: byte) {
    b == 9 || b == 10 || b == 12 || b == 13 || b == 32
  }

  predicate IsUpper(b: byte) {
    65 <= b <= 90
  }

  predicate IsLower(b: byte) {
    97 <= b <= 122
  }

  predicate IsAlphanumeric(b: byte) {
    IsUpper(b) || IsLower(b) || 48 <= b <= 57
  }

  function ToUpper(b: byte): byte {
    if IsLower(b) then b - 32 else b
  }

  function Upper(s: Text): (u: Text)
    ensures |u| == |s|
    ensures forall i :: 0 <= i < |s| ==> u[i] == ToUpper(s[i])
  {
    seq(|s|, i requires 0 <= i < |s| => ToUpper(s[i]))
  }

  /** The character classes: white space is tab, line feed, form feed, carriage return and space;
      letters and digits are those of ASCII, and a lower-case letter becomes its capital. */
  lemma CharacterClasses(b: byte)
    ensures IsSpace(b) <==> b as char in ['\t', '\n', '\U{0c}', '\r', ' ']
    ensures IsUpper(b) <==> 'A' <= b as char <= 'Z'
    ensures IsAlphanumeric(b) <==>
      'A' <= b as char <= 'Z' || 'a' <= b as char <= 'z' || '0' <= b as char <= '9'
    ensures ToUpper(b) as char ==
      if 'a' <= b as char <= 'z' then b as char - 'a' + 'A' else b as char
  {
  }

  /** Number of leading bytes that are white space. */
  function Leading(s: Text): (n: nat)
    ensures n <= |s|
    ensures forall i :: 0 <= i < n ==> IsSpace(s[i])
    ensures n < |s| ==> !IsSpace(s[n])
  {
    if s != [] && IsSpace(s[0]) then 1 + Leading(s[1..]) else 0
  }

  /** Length of `s` without its trailing white space. */
  function Kept(s: Text): (n: nat)
    ensures n <= |s|
    ensures forall i :: n <= i < |s| ==> IsSpace(s[i])
    ensures n > 0 ==> !IsSpace(s[n - 1])
  {
    if s != [] && IsSpace(s[|s| - 1]) then Kept(s[..|s| - 1]) else |s|
  }

  function Trim(s: Text): Text {
    var rest := s[Leading(s)..];
    rest[..Kept(rest)]
  }

  function TrimUpper(s: Text): Text {
    Upper(Trim(s))
  }

  lemma LeadingUnique(s: Text, n: nat)
    requires n <= |s|
    requires forall i :: 0 <= i < n ==> IsSpace(s[i])
    requires n < |s| ==> !IsSpace(s[n])
    ensures Leading(s) == n
  {
  }

  lemma KeptUnique(s: Text, n: nat)
    requires n <= |s|
    requires forall i :: n <= i < |s| ==> IsSpace(s[i])
    requires n > 0 ==> !IsSpace(s[n - 1])
    ensures Kept(s) == n
  {
  }

  /** `trim_upper_into`: copies into a fixed buffer, narrows the window from both ends and
      upper-cases the window in place.  None is the rejection of an input that does not fit. */
  method TrimUpperInto(input: Text, buf: array<byte>) returns (window: Option<(nat, nat)>)
    modifies buf
    ensures window.None? <==> |input| > buf.Length
    ensures window.None? ==> buf[..] == old(buf[..])
    ensures window.Some? ==>
      && window.value.0 <= window.value.1 <= buf.Length
      && buf[window.value.0..window.value.1] == TrimUpper(input)
  {
    hide TrimUpper, IsSpace, ToUpper;
    var len := |input|;
    if len > buf.Length {
      return None;
    }
    forall i | 0 <= i < len {
      buf[i] := input[i];
    }
    var start, end := 0, len;
    while start < end && IsSpace(buf[start])
      invariant 0 <= start <= end == len
      invariant forall i :: 0 <= i < start ==> IsSpace(input[i])
    {
      start := start + 1;
    }
    while end > start && IsSpace(buf[end - 1])
      invariant start <= end <= len
      invariant forall i :: end <= i < len ==> IsSpace(input[i])
      decreases end
    {
      end := end - 1;
    }
    forall i | start <= i < end {
      buf[i] := ToUpper(buf[i]);
    }
    TrimWindow(input, start, end);
    assert forall i :: start <= i < end ==> buf[i] == ToUpper(input[i]);
    assert buf[start..end] == Upper(input[start..end]);
    return Some((start, end));
  }

  /** The window between the blanks at both ends is what trimming keeps. */
  lemma TrimWindow(input: Text, start: nat, end: nat)
    requires start <= end <= |input|
    requires forall i :: 0 <= i < start ==> IsSpace(input[i])
    requires forall i :: end <= i < |input| ==> IsSpace(input[i])
    requires start < end ==> !IsSpace(input[start]) && !IsSpace(input[end - 1])
    ensures TrimUpper(input) == Upper(input[start..end])
  {
    if start < end {
      LeadingUnique(input, start);
      KeptUnique(input[start..], end - start);
    } else {
      LeadingUnique(input, |input|);
      KeptUnique(input[|input|..], 0);
    }
  }

  // ----- the three formats -------------------------------------------------------------

  predicate RegionFormat(s: Text) {
    && 2 <= |s| <= 6
    && IsUpper(s[0]) && IsUpper(s[1])
    && (|s| > 2 ==> s[2] == 45 && |s| >= 4 && forall i :: 3 <= i < |s| ==> IsAlphanumeric(s[i]))
  }

  const POSITIONS: seq<string> :=
    ["GK", "CB", "LB", "RB", "FB", "DM", "CM", "AM", "LM", "RM", "LW", "RW", "W",
     "ST", "CF", "SS", "WB", "SW"]

  function Ascii(s: string): Text {
    seq(|s|, i requires 0 <= i < |s| => (s[i] as int) % 256)
  }

  predicate PositionFormat(s: Text) {
    exists i :: 0 <= i < |POSITIONS| && s == Ascii(POSITIONS[i])
  }

  predicate NationalityFormat(s: Text) {
    |s| == 2 && IsUpper(s[0]) && IsUpper(s[1])
  }

  /** The canonical spelling of a region, or None where the contract answers InvalidInput. */
  function CanonRegion(s: Text): Option<Text> {
    if |s| <= MAX_STRING_LEN && RegionFormat(TrimUpper(s)) then Some(TrimUpper(s)) else None
  }

  function CanonPosition(s: Text): Option<Text> {
    if |s| <= MAX_STRING_LEN && PositionFormat(TrimUpper(s)) then Some(TrimUpper(s)) else None
  }

  function CanonNationality(s: Text): Option<Text> {
    if |s| <= MAX_STRING_LEN && NationalityFormat(TrimUpper(s)) then Some(TrimUpper(s)) else None
  }

  /** `normalize_filter_region`: the empty string means "no filter". */
  function FilterRegion(s: Text): Option<Text> {
    if s == [] then Some([]) else CanonRegion(s)
  }

  function FilterPosition(s: Text): Option<Text> {
    if s == [] then Some([]) else CanonPosition(s)
  }

  /** `canonicalize_region`, on a 64-byte buffer. */
  method CanonicalizeRegion(region: Text) returns (canon: Option<Text>)
    ensures canon == CanonRegion(region)
  {
    var buf := new byte[MAX_STRING_LEN](_ => 0);
    var window := TrimUpperInto(region, buf);
    if window.None? {
      return None;
    }
    var bytes := buf[window.value.0..window.value.1];
    if |bytes| < 2 || |bytes| > 6 {
      return None;
    }
    if !IsUpper(bytes[0]) || !IsUpper(bytes[1]) {
      return None;
    }
    if |bytes| > 2 {
      if bytes[2] != 45 {
        return None;
      }
      if |bytes| < 4 {
        return None;
      }
      for i := 3 to |bytes|
        invariant forall j :: 3 <= j < i ==> IsAlphanumeric(bytes[j])
      {
        if !IsAlphanumeric(bytes[i]) {
          return None;
        }
      }
    }
    return Some(bytes);
  }

  /** The 18 position codes, byte by byte. */
  lemma PositionCode(i: nat)
    requires i < |POSITIONS|
    ensures |POSITIONS| == 18
    ensures Ascii(POSITIONS[i]) == [
      [71, 75], [67, 66], [76, 66], [82, 66], [70, 66], [68, 77], [67, 77], [65, 77], [76, 77], [82, 77],
      [76, 87], [82, 87], [87], [83, 84], [67, 70], [83, 83], [87, 66], [83, 87]][i]
  {
  }

  /** `canonicalize_position`. */
  method CanonicalizePosition(position: Text) returns (canon: Option<Text>)
    ensures canon == CanonPosition(position)
    ensures canon.Some? ==> canon.value in [
      [71, 75], [67, 66], [76, 66], [82, 66], [70, 66], [68, 77], [67, 77], [65, 77], [76, 77], [82, 77],
      [76, 87], [82, 87], [87], [83, 84], [67, 70], [83, 83], [87, 66], [83, 87]]
  {
    hide TrimUpper;
    var buf := new byte[MAX_STRING_LEN](_ => 0);
    var window := TrimUpperInto(position, buf);
    if window.None? {
      return None;
    }
    var bytes := buf[window.value.0..window.value.1];
    for i := 0 to |POSITIONS|
      invariant forall j :: 0 <= j < i ==> bytes != Ascii(POSITIONS[j])
    {
      if bytes == Ascii(POSITIONS[i]) {
        PositionCode(i);
        return Some(bytes);
      }
    }
    return None;
  }

  /** `canonicalize_nationality`. */
  method CanonicalizeNationality(nationality: Text) returns (canon: Option<Text>)
    ensures canon == CanonNationality(nationality)
  {
    hide TrimUpper;
    var buf := new byte[MAX_STRING_LEN](_ => 0);
    var window := TrimUpperInto(nationality, buf);
    if window.None? {
      return None;
    }
    var bytes := buf[window.value.0..window.value.1];
    if |bytes| != 2 {
      return None;
    }
    if !IsUpper(bytes[0]) || !IsUpper(bytes[1]) {
      return None;
    }
    return Some(bytes);
  }

  // ----- what canonical means ----------------------------------------------------------

  /** White space and lower-case letters are what canonicalization removes. */
  ghost predicate Tight(s: Text) {
    && (forall i :: 0 <= i < |s| ==> !IsLower(s[i]))
    && (|s| > 0 ==> !IsSpace(s[0]) && !IsSpace(s[|s| - 1]))
  }

  lemma TightIsFixed(s: Text)
    requires Tight(s)
    ensures TrimUpper(s) == s
  {
  }

  lemma TrimUpperIsTight(s: Text)
    ensures Tight(TrimUpper(s))
    ensures |TrimUpper(s)| <= |s|
  {
  }

  /** Canonicalization is idempotent: a canonical spelling is its own canonical spelling. */
  lemma CanonIdempotent(s: Text)
    ensures CanonRegion(s).Some? ==> CanonRegion(CanonRegion(s).value) == CanonRegion(s)
    ensures CanonPosition(s).Some? ==> CanonPosition(CanonPosition(s).value) == CanonPosition(s)
    ensures CanonNationality(s).Some? ==>
              CanonNationality(CanonNationality(s).value) == CanonNationality(s)
  {
    TrimUpperIsTight(s);
    TightIsFixed(TrimUpper(s));
  }

  ghost predicate AllSpace(s: Text) {
    forall i :: 0 <= i < |s| ==> IsSpace(s[i])
  }

  lemma {:induction false} LeadingPastSpace(pad: Text, s: Text)
    requires AllSpace(pad)
    ensures Leading(pad + s) == |pad| + Leading(s)
  {
    var all := pad + s;
    var n := |pad| + Leading(s);
    forall i | 0 <= i < n ensures IsSpace(all[i]) {
      if i >= |pad| {
        assert all[i] == s[i - |pad|];
      }
    }
    if n < |all| {
      assert all[n] == s[Leading(s)];
    }
    LeadingUnique(all, n);
  }

  /** Padding with white space changes nothing once trimmed. */
  lemma TrimPadded(pad: Text, s: Text, tail: Text)
    requires AllSpace(pad) && AllSpace(tail)
    ensures Trim(pad + s + tail) == Trim(s)
  {
    hide Leading, Kept;
    var all := pad + s + tail;
    assert all == pad + (s + tail);
    LeadingPastSpace(pad, s + tail);
    var m := Leading(s);
    if m < |s| {
      LeadingUnique(s + tail, m);
      var rest := s[m..];
      assert all[Leading(all)..] == rest + tail;
      KeptUnique(rest + tail, Kept(rest));
      assert (rest + tail)[..Kept(rest)] == rest[..Kept(rest)];
    } else {
      assert AllSpace(s);
      forall i | 0 <= i < |s + tail| ensures IsSpace((s + tail)[i]) {
        if i >= |s| {
          assert (s + tail)[i] == tail[i - |s|];
        }
      }
      LeadingUnique(s + tail, |s + tail|);
      assert all[Leading(all)..] == [];
      assert s[m..] == [];
    }
  }

  lemma UpperKeepsSpace(s: Text)
    ensures Leading(Upper(s)) == Leading(s)
    ensures Kept(Upper(s)) == Kept(s)
  {
    hide Leading, Kept;
    var u := Upper(s);
    assert forall i :: 0 <= i < |s| ==> (IsSpace(u[i]) <==> IsSpace(s[i]));
    LeadingUnique(u, Leading(s));
    KeptUnique(u, Kept(s));
  }

  lemma UpperOfTrim(s: Text)
    ensures Upper(Trim(s)) == Trim(Upper(s))
  {
    hide Leading, Kept, ToUpper;
    var rest := s[Leading(s)..];
    UpperKeepsSpace(s);
    UpperKeepsSpace(rest);
    assert Upper(s)[Leading(s)..] == Upper(rest);
  }

  /** Any spelling of a region reaches the same bucket: two inputs that agree up to letter case,
      with any white space around them, have the same canonical spelling or are both refused,
      unless white space takes exactly one of them past 64 bytes and the region is well-formed. */
  lemma SpellingsAgreeIff(a: Text, b: Text, padA: Text, tailA: Text, padB: Text, tailB: Text)
    requires Upper(a) == Upper(b)
    requires AllSpace(padA) && AllSpace(tailA) && AllSpace(padB) && AllSpace(tailB)
    ensures CanonRegion(padA + a + tailA) == CanonRegion(padB + b + tailB)
            <==> (|padA + a + tailA| <= MAX_STRING_LEN <==> |padB + b + tailB| <= MAX_STRING_LEN)
                 || !RegionFormat(TrimUpper(a))
  {
    hide RegionFormat, Trim, Upper;
    TrimPadded(padA, a, tailA);
    TrimPadded(padB, b, tailB);
    UpperOfTrim(a);
    UpperOfTrim(b);
  }

  /** "NG" with 62 leading blanks is accepted and with 63 refused. */
  lemma PaddedSpellingRefused(pad: Text)
    requires AllSpace(pad)
    ensures CanonRegion([78, 71]) == Some([78, 71])
    ensures |pad| == 62 ==> CanonRegion(pad + [78, 71]) == Some([78, 71])
    ensures |pad| == 63 ==> CanonRegion(pad + [78, 71]) == None
  {
    TrimPadded(pad, [78, 71], []);
    assert pad + [78, 71] + [] == pad + [78, 71];
    TightIsFixed([78, 71]);
  }
}
