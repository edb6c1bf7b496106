/** Trace ids: the W3C traceparent printer and parser, and the way of one id from an
    HTTP request to the gRPC server. */
module TraceContext {
  import opened Base
  import opened Strings

  type byte = x: int | 0 <= x < 256

  const ZERO_TRACE_ID: string := "00000000000000000000000000000000"
  const ZERO_SPAN_ID: string := "0000000000000000"
  const MAX_EXTERNAL_ID_LEN: nat := 64

  predicate IsHexLowerChar(c: char) {
    '0' <= c <= '9' || 'a' <= c <= 'f'
  }

  predicate IsHexLower(s: string) {
    forall i :: 0 <= i < |s| ==> IsHexLowerChar(s[i])
  }

  predicate IsValidId(id: string) {
    |id| == 32 && id != ZERO_TRACE_ID && IsHexLower(id)
  }

  predicate IsSafeChar(c: char) {
    '0' <= c <= '9' || 'a' <= c <= 'z' || 'A' <= c <= 'Z' || c == '-' || c == '_' || c == '.'
  }

  predicate IsSafeExternalId(s: string) {
    s != "" && |s| <= MAX_EXTERNAL_ID_LEN && forall i :: 0 <= i < |s| ==> IsSafeChar(s[i])
  }

  /** An id from outside is kept exactly if it has one to 64 of these characters. */
  lemma SafeIdsAre(s: string)
    ensures IsSafeExternalId(s) <==>
            1 <= |s| <= 64 && forall c :: c in s ==> c in DIGITS || c in SMALL_LETTERS || c in CAPITALS || c in "-_."
  {
    hide SMALL_LETTERS, CAPITALS;
    forall c ensures IsSafeChar(c) <==> c in DIGITS || c in SMALL_LETTERS || c in CAPITALS || c in "-_." {
      LettersAre(c);
      CapitalsAre(c);
    }
  }

  function LowerChar(c: char): char {
    if 'A' <= c <= 'Z' then (c as int + 32) as char else c
  }

  function Lower(s: string): (r: string)
    ensures |r| == |s| && forall i :: 0 <= i < |s| ==> r[i] == LowerChar(s[i])
  {
    seq(|s|, i requires 0 <= i < |s| => LowerChar(s[i]))
  }

  predicate IsSpace(c: char) {
    || c == ' ' || '\t' <= c <= '\r' || c == '\U{85}' || c == '\U{A0}' || c == '\U{1680}'
    || '\U{2000}' <= c <= '\U{200A}' || '\U{2028}' <= c <= '\U{2029}'
    || c == '\U{202F}' || c == '\U{205F}' || c == '\U{3000}'
  }

  function TrimSpace(s: string): (r: string)
    ensures r != "" ==> !IsSpace(r[0]) && !IsSpace(r[|r| - 1])
  {
    if s == "" then ""
    else if IsSpace(s[0]) then TrimSpace(s[1..])
    else if IsSpace(s[|s| - 1]) then TrimSpace(s[..|s| - 1])
    else s
  }

  ghost predicate AllSpaces(s: string) {
    forall i :: 0 <= i < |s| ==> IsSpace(s[i])
  }

  /** Spaces around a text are cut off, and nothing else is. */
  lemma {:induction false} PaddingIsTrimmed(left: string, s: string, right: string)
    requires AllSpaces(left) && AllSpaces(right) && (s != "" ==> !IsSpace(s[0]) && !IsSpace(s[|s| - 1]))
    ensures TrimSpace(left + s + right) == s
    decreases |left| + |right|
  {
    hide IsSpace;
    var all := left + s + right;
    if left != "" {
      assert all[0] == left[0] && all[1..] == left[1..] + s + right;
      PaddingIsTrimmed(left[1..], s, right);
    } else if right != "" {
      RightPaddingIsTrimmed(s, right);
      assert all == s + right;
    } else {
      assert all == s;
    }
  }

  lemma {:induction false} RightPaddingIsTrimmed(s: string, right: string)
    requires AllSpaces(right) && (s != "" ==> !IsSpace(s[0]) && !IsSpace(s[|s| - 1]))
    ensures TrimSpace(s + right) == s
  {
    hide IsSpace;
    var all := s + right;
    if right == "" {
      assert all == s;
    } else if s == "" {
      assert all[0] == right[0] && all[1..] == s + right[1..];
      RightPaddingIsTrimmed(s, right[1..]);
    } else {
      var last := |right| - 1;
      assert all[0] == s[0] && all[|all| - 1] == right[last] && all[..|all| - 1] == s + right[..last];
      RightPaddingIsTrimmed(s, right[..last]);
    }
  }

  // ---------------------------------------------------------------------------
  // Hexadecimal

  function HexDigit(n: int): (c: char)
    requires 0 <= n < 16
    ensures IsHexLowerChar(c) && (c == '0' <==> n == 0)
  {
    if n < 10 then (n + '0' as int) as char else (n - 10 + 'a' as int) as char
  }

  function Hex(bytes: seq<byte>): (r: string)
    ensures |r| == 2 * |bytes| && IsHexLower(r)
  {
    if bytes == [] then ""
    else [HexDigit(bytes[0] / 16), HexDigit(bytes[0] % 16)] + Hex(bytes[1..])
  }

  predicate AllZero(bytes: seq<byte>) {
    forall i :: 0 <= i < |bytes| ==> bytes[i] == 0
  }

  lemma {:induction false} HexOfNonZero(bytes: seq<byte>)
    ensures AllZero(bytes) <==> forall i :: 0 <= i < |Hex(bytes)| ==> Hex(bytes)[i] == '0'
  {
    if bytes != [] {
      var rest := bytes[1..];
      HexOfNonZero(rest);
      var h := Hex(bytes);
      assert h == [HexDigit(bytes[0] / 16), HexDigit(bytes[0] % 16)] + Hex(rest);
      assert forall i :: 0 <= i < |Hex(rest)| ==> h[i + 2] == Hex(rest)[i];
      assert h[0] == HexDigit(bytes[0] / 16) && h[1] == HexDigit(bytes[0] % 16);
      assert AllZero(bytes) <==> bytes[0] == 0 && AllZero(rest) by {
        assert forall i :: 0 < i < |bytes| ==> bytes[i] == rest[i - 1];
      }
    }
  }

  // ---------------------------------------------------------------------------
  // Printer and parser

  /** The traceparent of a valid id, with the parent id that was drawn. */
  function Traceparent(id: string, span: seq<byte>): Option<string> {
    if IsValidId(id) then Some(Print(id, Hex(span))) else None
  }

  function Print(id: string, span: string): string {
    FourParts("00", id, span, "01")
  }

  function ParseTraceparent(header: string): Option<string> {
    var trimmed := TrimSpace(header);
    if trimmed == "" then None
    else
      var parts := Split(trimmed, '-');
      if |parts| != 4 then None
      else if |parts[0]| != 2 || !IsHexLower(Lower(parts[0])) then None
      else if |parts[2]| != 16 || !IsHexLower(Lower(parts[2])) || Lower(parts[2]) == ZERO_SPAN_ID then None
      else if |parts[3]| != 2 || !IsHexLower(Lower(parts[3])) then None
      else if !IsValidId(Lower(parts[1])) then None
      else Some(Lower(parts[1]))
  }

  predicate IsHexChar(c: char) {
    IsHexLowerChar(c) || 'A' <= c <= 'F'
  }

  ghost predicate IsHexAt(t: string, from: nat, to: nat)
    requires to <= |t|
  {
    forall i :: from <= i < to ==> IsHexChar(t[i])
  }

  /** The form the parser accepts, by position: two hexadecimal digits in either case,
      32, 16 and two, with hyphens between, and neither id all zero. */
  ghost predicate WellFormed(t: string) {
    && |t| == 55 && t[2] == '-' && t[35] == '-' && t[52] == '-'
    && IsHexAt(t, 0, 2) && IsHexAt(t, 3, 35) && IsHexAt(t, 36, 52) && IsHexAt(t, 53, 55)
    && Lower(t[3..35]) != ZERO_TRACE_ID && Lower(t[36..52]) != ZERO_SPAN_ID
  }

  lemma HexOfLower(s: string)
    ensures IsHexLower(Lower(s)) <==> forall i :: 0 <= i < |s| ==> IsHexChar(s[i])
  {
    assert forall c :: IsHexLowerChar(LowerChar(c)) <==> IsHexChar(c);
  }

  function FourParts(a: string, b: string, c: string, d: string): string {
    Join(a, '-', Join(b, '-', Join(c, '-', d)))
  }

  lemma SplitOfFour(a: string, b: string, c: string, d: string)
    requires '-' !in a && '-' !in b && '-' !in c && '-' !in d
    ensures Split(FourParts(a, b, c, d), '-') == [a, b, c, d]
  {
    SplitOfJoin(a, '-', Join(b, '-', Join(c, '-', d)));
    SplitOfJoin(b, '-', Join(c, '-', d));
    SplitOfJoin(c, '-', d);
    NoCut(d, '-');
  }

  lemma FourOfSplit(t: string)
    requires |Split(t, '-')| == 4
    ensures var p := Split(t, '-'); t == FourParts(p[0], p[1], p[2], p[3])
  {
    SplitStep(t, '-');
    var r := CutAt(t, '-').value.1;
    SplitStep(r, '-');
    var r' := CutAt(r, '-').value.1;
    SplitStep(r', '-');
    var d := CutAt(r', '-').value.1;
    CutUndone(d, '-');
  }

  lemma PlacesOfFour(a: string, b: string, c: string, d: string)
    requires |a| == 2 && |b| == 32 && |c| == 16 && |d| == 2
    ensures var t := FourParts(a, b, c, d);
            && |t| == 55 && t[2] == '-' && t[35] == '-' && t[52] == '-'
            && t[..2] == a && t[3..35] == b && t[36..52] == c && t[53..] == d
  {
    var cd := Join(c, '-', d);
    var bcd := Join(b, '-', cd);
    var t := FourParts(a, b, c, d);
    assert t[3..] == bcd && bcd[33..] == cd;
    assert t[36..] == cd;
    assert t[3..35] == bcd[..32] == b;
    assert t[36..52] == cd[..16] == c;
    assert t[53..] == cd[17..] == d;
  }

  /** The parser accepts exactly the well-formed headers, letters in either case and
      spaces around them, and returns the trace-id field in lower case. */
  lemma ParserMeetsTheForm(header: string)
    ensures var t := TrimSpace(header);
            ParseTraceparent(header) == if WellFormed(t) then Some(Lower(t[3..35])) else None
  {
    var t := TrimSpace(header);
    if WellFormed(t) {
      WellFormedParses(header);
    } else if ParseTraceparent(header).Some? {
      ParsedIsWellFormed(header);
    }
  }

  lemma WellFormedParses(header: string)
    requires WellFormed(TrimSpace(header))
    ensures ParseTraceparent(header) == Some(Lower(TrimSpace(header)[3..35]))
  {
    hide Split;
    var t := TrimSpace(header);
    var a, b, c, d := t[..2], t[3..35], t[36..52], t[53..];
    FieldsAreHex(t);
    hide WellFormed, FourParts;
    SplitOfFour(a, b, c, d);
  }

  lemma FieldsAreHex(t: string)
    requires WellFormed(t)
    ensures t == FourParts(t[..2], t[3..35], t[36..52], t[53..])
    ensures IsHexLower(Lower(t[..2])) && IsValidId(Lower(t[3..35])) && IsHexLower(Lower(t[36..52]))
    ensures IsHexLower(Lower(t[53..])) && Lower(t[36..52]) != ZERO_SPAN_ID
    ensures '-' !in t[..2] && '-' !in t[3..35] && '-' !in t[36..52] && '-' !in t[53..]
  {
    HexOfLower(t[..2]);
    HexOfLower(t[3..35]);
    HexOfLower(t[36..52]);
    HexOfLower(t[53..]);
  }

  lemma ParsedIsWellFormed(header: string)
    requires ParseTraceparent(header).Some?
    ensures WellFormed(TrimSpace(header))
  {
    hide Split, FourParts;
    var t := TrimSpace(header);
    var p := Split(t, '-');
    FourOfSplit(t);
    PlacesOfFour(p[0], p[1], p[2], p[3]);
    HexOfLower(p[0]);
    HexOfLower(p[1]);
    HexOfLower(p[2]);
    HexOfLower(p[3]);
    assert forall i :: 0 <= i < 2 ==> t[i] == p[0][i] && t[53 + i] == p[3][i];
    assert forall i :: 3 <= i < 35 ==> t[i] == p[1][i - 3];
    assert forall i :: 36 <= i < 52 ==> t[i] == p[2][i - 36];
    assert forall i :: 53 <= i < 55 ==> t[i] == p[3][i - 53];
  }

  lemma LowerOfLower(s: string)
    requires IsHexLower(s)
    ensures Lower(s) == s
  {
    assert forall i :: 0 <= i < |s| ==> IsHexLowerChar(s[i]);
  }

  lemma NothingToTrim(s: string)
    requires s != "" && !IsSpace(s[0]) && !IsSpace(s[|s| - 1])
    ensures TrimSpace(s) == s
  {
  }

  /** The parser undoes the printer for every valid id and every parent id but zero. */
  lemma ParseUndoesPrint(id: string, span: seq<byte>)
    requires IsValidId(id) && |span| == 8
    ensures ParseTraceparent(Print(id, Hex(span))) == if AllZero(span) then None else Some(id)
  {
    hide Split, ParseTraceparent, TrimSpace, Hex, Print, WellFormed;
    PrintedForm(id, Hex(span));
    ZeroInHex(span);
    ParserMeetsTheForm(Print(id, Hex(span)));
  }

  lemma ZeroInHex(span: seq<byte>)
    requires |span| == 8
    ensures Hex(span) == ZERO_SPAN_ID <==> AllZero(span)
  {
    hide Hex;
    HexOfNonZero(span);
    var h := Hex(span);
    assert h == ZERO_SPAN_ID <==> forall i :: 0 <= i < |h| ==> h[i] == '0';
  }

  /** What is printed has nothing to trim, and its form is good unless the span is zero. */
  lemma PrintedForm(id: string, h: string)
    requires IsValidId(id) && |h| == 16 && IsHexLower(h)
    ensures var t := Print(id, h);
            && |t| == 55 && TrimSpace(t) == t && t[..2] == "00" && t[3..35] == Lower(t[3..35]) == id
            && t[36..52] == h && t[53..] == "01" && (WellFormed(t) <==> h != ZERO_SPAN_ID)
  {
    hide TrimSpace, FourParts;
    var t := Print(id, h);
    PlacesOfFour("00", id, h, "01");
    assert t[0] == t[..2][0] == '0' && t[1] == t[..2][1] && t[53] == t[53..][0] && t[54] == t[53..][1] == '1';
    NothingToTrim(t);
    LowerOfLower(id);
    LowerOfLower(h);
    assert forall i :: 3 <= i < 35 ==> t[i] == id[i - 3];
    assert forall i :: 36 <= i < 52 ==> t[i] == h[i - 36];
  }

  // ---------------------------------------------------------------------------
  // The parser and the standard

  predicate IsUpper(c: char) {
    'A' <= c <= 'Z'
  }

  ghost predicate IsHexLowerAt(t: string, from: nat, to: nat)
    requires to <= |t|
  {
    forall i :: from <= i < to ==> IsHexLowerChar(t[i])
  }

  /** The field values of section 3.2.2 of W3C Trace Context: lower-case digits only,
      the version not ff, neither id all zero. Version 00 has these four fields; a
      higher version may add further ones after another hyphen. */
  ghost predicate MeetsStandard(t: string) {
    && |t| >= 55 && t[2] == '-' && t[35] == '-' && t[52] == '-'
    && IsHexLowerAt(t, 0, 2) && IsHexLowerAt(t, 3, 35) && IsHexLowerAt(t, 36, 52) && IsHexLowerAt(t, 53, 55)
    && t[..2] != "ff" && t[3..35] != ZERO_TRACE_ID && t[36..52] != ZERO_SPAN_ID
    && (|t| > 55 ==> t[..2] != "00" && t[55] == '-')
  }

  lemma LowerHexIsHexWithoutUpper(c: char)
    ensures IsHexLowerChar(c) <==> IsHexChar(c) && !IsUpper(c)
  {
  }

  lemma FormOfStandard(t: string)
    requires |t| == 55
    ensures MeetsStandard(t) <==> WellFormed(t) && t[..2] != "ff" && forall i :: 0 <= i < 55 ==> !IsUpper(t[i])
  {
    forall i | 0 <= i < 55 ensures IsHexLowerChar(t[i]) <==> IsHexChar(t[i]) && !IsUpper(t[i]) {
      LowerHexIsHexWithoutUpper(t[i]);
    }
    if IsHexLowerAt(t, 3, 35) && IsHexLowerAt(t, 36, 52) {
      LowerOfLower(t[3..35]);
      LowerOfLower(t[36..52]);
    }
  }

  /** An accepted header meets the standard exactly when its version is not ff and it
      has no letter in upper case; a header that meets the standard is accepted, with
      its trace id as it stands, exactly when it has no further fields. */
  lemma ParserAgainstStandard(header: string)
    ensures var t := TrimSpace(header);
            && (ParseTraceparent(header).Some? ==>
                  |t| == 55 &&
                  (MeetsStandard(t) <==> t[..2] != "ff" && forall i :: 0 <= i < |t| ==> !IsUpper(t[i])))
            && (MeetsStandard(t) ==> (ParseTraceparent(header).Some? <==> |t| == 55))
            && (MeetsStandard(t) && |t| == 55 ==> ParseTraceparent(header) == Some(t[3..35]))
  {
    hide ParseTraceparent, TrimSpace, MeetsStandard, WellFormed;
    var t := TrimSpace(header);
    ParserMeetsTheForm(header);
    if |t| == 55 {
      FormOfStandard(t);
      if MeetsStandard(t) {
        StandardIsLower(t);
      }
    } else {
      OtherLengthIsRefused(t);
    }
  }

  lemma StandardIsLower(t: string)
    requires MeetsStandard(t)
    ensures Lower(t[3..35]) == t[3..35]
  {
    LowerOfLower(t[3..35]);
  }

  lemma OtherLengthIsRefused(t: string)
    requires |t| != 55
    ensures !WellFormed(t)
  {
  }

  /** What is printed is a version 00 header of the standard with the sampled flag set,
      unless the parent id is zero. */
  lemma PrintMeetsStandard(id: string, span: seq<byte>)
    requires IsValidId(id) && |span| == 8
    ensures var t := Print(id, Hex(span));
            && (MeetsStandard(t) <==> !AllZero(span))
            && |t| == 55 && t[..2] == "00" && t[3..35] == id && t[36..52] == Hex(span) && t[53..] == "01"
  {
    hide TrimSpace, Hex, Print, WellFormed, MeetsStandard;
    var t := Print(id, Hex(span));
    PrintedForm(id, Hex(span));
    ZeroInHex(span);
    FormOfStandard(t);
    if WellFormed(t) {
      NoCapitals(t);
    }
  }

  lemma NoCapitals(t: string)
    requires |t| == 55 && IsHexLower(t[..2]) && IsHexLower(t[3..35]) && IsHexLower(t[36..52]) && IsHexLower(t[53..])
    requires WellFormed(t)
    ensures forall i :: 0 <= i < 55 ==> !IsUpper(t[i])
  {
    assert forall i :: 0 <= i < 2 ==> t[i] == t[..2][i];
    assert forall i :: 3 <= i < 35 ==> t[i] == t[3..35][i - 3];
    assert forall i :: 36 <= i < 52 ==> t[i] == t[36..52][i - 36];
    assert forall i :: 53 <= i < 55 ==> t[i] == t[53..][i - 53];
  }

  /** A header of the forbidden version is accepted. */
  lemma ForbiddenVersionIsAccepted(id: string, span: string)
    requires IsValidId(id) && |span| == 16 && IsHexLower(span) && span != ZERO_SPAN_ID
    ensures var t := FourParts("ff", id, span, "01");
            ParseTraceparent(t) == Some(id) && !MeetsStandard(TrimSpace(t))
  {
    hide Split, ParseTraceparent, TrimSpace;
    var t := FourParts("ff", id, span, "01");
    PlacesOfFour("ff", id, span, "01");
    assert t[0] == t[..2][0] && t[1] == t[..2][1] && t[54] == t[53..][1] == '1' && t[53] == t[53..][0];
    NothingToTrim(t);
    LowerOfLower(id);
    LowerOfLower(span);
    assert forall i :: 3 <= i < 35 ==> t[i] == id[i - 3];
    assert forall i :: 36 <= i < 52 ==> t[i] == span[i - 36];
    ParserMeetsTheForm(t);
  }

  /** A header of a higher version with a further field meets the standard and is refused. */
  lemma FurtherFieldsAreRefused(id: string, span: string, more: string)
    requires IsValidId(id) && |span| == 16 && IsHexLower(span) && span != ZERO_SPAN_ID && more != "" &&
             !IsSpace(more[|more| - 1])
    ensures var t := Join(FourParts("01", id, span, "01"), '-', more);
            MeetsStandard(TrimSpace(t)) && ParseTraceparent(t).None?
  {
    hide ParseTraceparent, TrimSpace, FourParts;
    var four := FourParts("01", id, span, "01");
    var t := Join(four, '-', more);
    PlacesOfFour("01", id, span, "01");
    assert forall i :: 0 <= i < 55 ==> t[i] == four[i];
    assert t[..2] == four[..2] && t[3..35] == four[3..35] && t[36..52] == four[36..52];
    assert t[0] == four[..2][0] == '0' && t[1] == four[..2][1] && t[53] == four[53..][0] && t[54] == four[53..][1];
    assert t[|t| - 1] == more[|more| - 1];
    NothingToTrim(t);
    assert forall i :: 3 <= i < 35 ==> t[i] == id[i - 3];
    assert forall i :: 36 <= i < 52 ==> t[i] == span[i - 36];
    ParserMeetsTheForm(t);
  }

  // ---------------------------------------------------------------------------
  // The hop

  /** The HTTP middleware's choice, given the bytes NewID would draw. */
  function FromRequest(traceparent: string, requestId: string, drawn: seq<byte>): string {
    match ParseTraceparent(traceparent)
    case Some(id) => id
    case None => if IsSafeExternalId(TrimSpace(requestId)) then TrimSpace(requestId) else Hex(drawn)
  }

  /** The metadata of one outgoing call: at most one value per key. */
  datatype Metadata = Metadata(requestId: Option<string>, traceparent: Option<string>)

  /** The client interceptor, given the parent id that was drawn. */
  function Outgoing(id: string, span: seq<byte>): Metadata {
    if id == "" then Metadata(None, None) else Metadata(Some(id), Traceparent(id, span))
  }

  /** The server's reading; the empty string means no id. */
  function FromMetadata(md: Metadata): string {
    var parsed := if md.traceparent.Some? then ParseTraceparent(md.traceparent.value) else None;
    if parsed.Some? then parsed.value
    else if md.requestId.Some? && IsSafeExternalId(md.requestId.value) then md.requestId.value
    else ""
  }

  lemma HexIsSafe(s: string)
    requires IsHexLower(s) && 0 < |s| <= MAX_EXTERNAL_ID_LEN
    ensures IsSafeExternalId(s)
  {
    assert forall c :: IsHexLowerChar(c) ==> IsSafeChar(c);
  }

  lemma ParsedIdIsValid(header: string)
    ensures ParseTraceparent(header).Some? ==> IsValidId(ParseTraceparent(header).value)
  {
    hide Split, IsValidId;
  }

  lemma ChosenIdIsSafe(traceparent: string, requestId: string, drawn: seq<byte>)
    requires |drawn| == 16
    ensures IsSafeExternalId(FromRequest(traceparent, requestId, drawn))
  {
    hide ParseTraceparent, TrimSpace;
    ParsedIdIsValid(traceparent);
    HexIsSafe(Hex(drawn));
    if ParseTraceparent(traceparent).Some? {
      HexIsSafe(ParseTraceparent(traceparent).value);
    }
  }

  /** The id is the request's own wherever the request has one: the trace id of a good
      traceparent, as it stands if the header meets the standard; else a safe request
      id without the spaces around it; and only else what was drawn. */
  lemma ChosenIdIsTheRequests(traceparent: string, requestId: string, drawn: seq<byte>)
    ensures var t, given := TrimSpace(traceparent), TrimSpace(requestId);
            var id := FromRequest(traceparent, requestId, drawn);
            && (MeetsStandard(t) && |t| == 55 ==> id == t[3..35])
            && (WellFormed(t) ==> id == Lower(t[3..35]))
            && (!WellFormed(t) && IsSafeExternalId(given) ==> id == given)
            && (!WellFormed(t) && !IsSafeExternalId(given) ==> id == Hex(drawn))
  {
    hide ParseTraceparent, TrimSpace, MeetsStandard, WellFormed, Hex;
    ParserMeetsTheForm(traceparent);
    ParserAgainstStandard(traceparent);
  }

  /** So the draw matters exactly when neither header can be used. */
  lemma DrawMattersIffNeitherHeaderIsGood(traceparent: string, requestId: string)
    ensures (exists a, b :: |a| == 16 && |b| == 16 &&
                            FromRequest(traceparent, requestId, a) != FromRequest(traceparent, requestId, b)) <==>
            !WellFormed(TrimSpace(traceparent)) && !IsSafeExternalId(TrimSpace(requestId))
  {
    hide FromRequest, ParseTraceparent, TrimSpace, MeetsStandard, WellFormed, IsSafeExternalId, Hex;
    forall a: seq<byte>, b: seq<byte>
      ensures WellFormed(TrimSpace(traceparent)) || IsSafeExternalId(TrimSpace(requestId)) ==>
                FromRequest(traceparent, requestId, a) == FromRequest(traceparent, requestId, b) {
      ChosenIdIsTheRequests(traceparent, requestId, a);
      ChosenIdIsTheRequests(traceparent, requestId, b);
    }
    var zero, one := seq(16, _ => 0 as byte), seq(16, _ => 1 as byte);
    HexOfNonZero(zero);
    HexOfNonZero(one);
    assert AllZero(zero) && one[0] != 0;
    assert Hex(zero) != Hex(one);
    ChosenIdIsTheRequests(traceparent, requestId, zero);
    ChosenIdIsTheRequests(traceparent, requestId, one);
  }

  /** The server takes the trace id of a good traceparent, else a safe request id, else
      none, whichever of the two keys the call has. */
  lemma ServerReads(md: Metadata)
    ensures var good := md.traceparent.Some? && WellFormed(TrimSpace(md.traceparent.value));
            && (good ==> FromMetadata(md) == Lower(TrimSpace(md.traceparent.value)[3..35]))
            && (good && MeetsStandard(TrimSpace(md.traceparent.value)) ==>
                  FromMetadata(md) == TrimSpace(md.traceparent.value)[3..35])
            && (!good && md.requestId.Some? && IsSafeExternalId(md.requestId.value) ==>
                  FromMetadata(md) == md.requestId.value)
            && (!good && (md.requestId.None? || !IsSafeExternalId(md.requestId.value)) ==> FromMetadata(md) == "")
  {
    hide ParseTraceparent, TrimSpace, MeetsStandard, IsSafeExternalId;
    if md.traceparent.Some? {
      ParserMeetsTheForm(md.traceparent.value);
      ParserAgainstStandard(md.traceparent.value);
    }
  }

  /** Whatever the request's headers are and whatever is drawn, the id the HTTP
      middleware chose is the id the gRPC server recovers: the request's own wherever it
      has one. */
  lemma HopKeepsTheId(traceparent: string, requestId: string, drawn: seq<byte>, span: seq<byte>)
    requires |drawn| == 16 && |span| == 8 && !AllZero(span)
    ensures var id := FromRequest(traceparent, requestId, drawn);
            id != "" && FromMetadata(Outgoing(id, span)) == id && Outgoing(id, span).requestId == Some(id)
    ensures var t, given := TrimSpace(traceparent), TrimSpace(requestId);
            FromMetadata(Outgoing(FromRequest(traceparent, requestId, drawn), span)) ==
            if WellFormed(t) then Lower(t[3..35]) else if IsSafeExternalId(given) then given else Hex(drawn)
  {
    hide FromRequest, ParseTraceparent, Print, Hex, AllZero, TrimSpace;
    var id := FromRequest(traceparent, requestId, drawn);
    ChosenIdIsSafe(traceparent, requestId, drawn);
    ChosenIdIsTheRequests(traceparent, requestId, drawn);
    if IsValidId(id) {
      ParseUndoesPrint(id, span);
    }
  }

  /** Drawing a parent id until it is not all zero; draw number `good` is not. */
  method NewTraceparent(id: string, draws: nat -> seq<byte>, ghost good: nat) returns (r: Option<string>)
    requires forall k: nat :: |draws(k)| == 8
    requires !AllZero(draws(good))
    ensures r.Some? <==> IsValidId(id)
    ensures r.Some? ==> ParseTraceparent(r.value) == Some(id) && MeetsStandard(r.value)
  {
    hide ParseTraceparent, Print, Hex, MeetsStandard;
    if !IsValidId(id) {
      return None;
    }
    var k := 0;
    while AllZero(draws(k))
      invariant k <= good
      decreases good - k
    {
      k := k + 1;
    }
    ParseUndoesPrint(id, draws(k));
    PrintMeetsStandard(id, draws(k));
    return Some(Print(id, Hex(draws(k))));
  }
}
