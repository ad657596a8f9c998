/**
 * MAC-address text normalisation towards the colon-separated EUI-48 form
 * `XX:XX:XX:XX:XX:XX` (IEEE 802). `sanitized_mac` keeps only the hexadecimal
 * digits of its input, demands exactly twelve of them, and puts a colon before
 * every even index after the first; `deserialize_input_mac_to_address` rewrites
 * the Mellanox `ch:64` placeholder and the empty string before parsing.
 * The parser (`MacAddress::from_str`) is a parameter: only the text handed to
 * it is modelled.
 */
module Network {
  import opened Wrappers

  const StrippedMacLength: nat := 12
  const MellanoxSfVfMacAddressIn: string := "ch:64"
  const MellanoxSfVfMacAddressOut: string := "00:00:00:00:00:64"
  const ZeroMacAddress: string := "00:00:00:00:00:00"

  /** `char::is_ascii_hexdigit`. */
  predicate IsAsciiHexDigit(c: char) {
    '0' <= c <= '9' || 'a' <= c <= 'f' || 'A' <= c <= 'F'
  }

  predicate AllHex(s: string) {
    forall i :: 0 <= i < |s| ==> IsAsciiHexDigit(s[i])
  }

  /** The text form `sanitized_mac` produces: 17 characters, colons at 2, 5, 8, 11 and 14, hex digits elsewhere. */
  predicate IsColonMac(s: string) {
    && |s| == 17
    && IsAsciiHexDigit(s[0]) && IsAsciiHexDigit(s[1]) && s[2] == ':'
    && IsAsciiHexDigit(s[3]) && IsAsciiHexDigit(s[4]) && s[5] == ':'
    && IsAsciiHexDigit(s[6]) && IsAsciiHexDigit(s[7]) && s[8] == ':'
    && IsAsciiHexDigit(s[9]) && IsAsciiHexDigit(s[10]) && s[11] == ':'
    && IsAsciiHexDigit(s[12]) && IsAsciiHexDigit(s[13]) && s[14] == ':'
    && IsAsciiHexDigit(s[15]) && IsAsciiHexDigit(s[16])
  }

  /** The colon form, position by position: a colon exactly where the index is 2 modulo 3. */
  lemma ColonMacByIndex(s: string)
    requires |s| == 17
    ensures IsColonMac(s) <==>
      forall j :: 0 <= j < 17 ==> if j % 3 == 2 then s[j] == ':' else IsAsciiHexDigit(s[j])
  {
    if IsColonMac(s) {
      forall j | 0 <= j < 17 ensures if j % 3 == 2 then s[j] == ':' else IsAsciiHexDigit(s[j]) {
        assert j in {0, 1, 2, 3, 4, 5, 6, 7, 8, 9, 10, 11, 12, 13, 14, 15, 16};
      }
    }
  }

  /** `chars().filter(is_ascii_hexdigit).collect()`: the hex digits of `s`, in order. */
  function StripNonHex(s: string): (r: string)
    ensures AllHex(r) && |r| <= |s|
  {
    if s == [] then []
    else if IsAsciiHexDigit(s[0]) then [s[0]] + StripNonHex(s[1..])
    else StripNonHex(s[1..])
  }

  /**
   * The `enumerate().fold` step: each character in turn, preceded by a colon
   * when its index is even and not zero.
   */
  function InsertColons(s: string): (r: string)
    ensures |s| == 0 ==> r == []
    ensures |s| > 0 ==> |r| == |s| + (|s| - 1) / 2
  {
    if s == [] then []
    else
      var i := |s| - 1;
      InsertColons(s[..i]) + (if i > 0 && i % 2 == 0 then [':'] else []) + [s[i]]
  }

  /**
   * Why sanitising failed: the input does not hold exactly twelve hex digits,
   * or the parser refused the sanitised text. Each error carries the texts
   * that `sanitized_mac`'s message reports.
   */
  datatype SanitizeError<E> =
    | InvalidStrippedLength(length: nat, input: string, stripped: string)
    | MacParseFailed(cause: E, input: string, stripped: string, sanitized: string)

  /** The text `sanitized_mac` hands to the parser, or None when the digit count is wrong. */
  function SanitizedText(input: string): (r: Option<string>)
    ensures r.Some? <==> |StripNonHex(input)| == StrippedMacLength
    ensures r.Some? ==> IsColonMac(r.value)
    ensures r.Some? ==> r.value == InsertColons(StripNonHex(input)) && StripNonHex(r.value) == StripNonHex(input)
  {
    var stripped := StripNonHex(input);
    if |stripped| != StrippedMacLength then None
    else
      ColonMacOfTwelve(stripped);
      StripInsertColons(stripped);
      Some(InsertColons(stripped))
  }

  /** `sanitized_mac`, with `MacAddress::from_str` given as `parse`. */
  function SanitizedMac<M, E>(input: string, parse: string -> Result<M, E>): (r: Result<M, SanitizeError<E>>)
    ensures |StripNonHex(input)| != StrippedMacLength ==>
      r == Failure(InvalidStrippedLength(|StripNonHex(input)|, input, StripNonHex(input)))
    ensures |StripNonHex(input)| == StrippedMacLength ==>
      (r.Success? <==> parse(SanitizedText(input).value).Success?)
    ensures r.Success? ==> r.value == parse(SanitizedText(input).value).value
    ensures (|StripNonHex(input)| == StrippedMacLength && parse(SanitizedText(input).value).Failure?) ==>
      r == Failure(MacParseFailed(parse(SanitizedText(input).value).error, input, StripNonHex(input), SanitizedText(input).value))
  {
    match SanitizedText(input)
    case None => Failure(InvalidStrippedLength(|StripNonHex(input)|, input, StripNonHex(input)))
    case Some(text) =>
      match parse(text)
      case Success(mac) => Success(mac)
      case Failure(e) => Failure(MacParseFailed(e, input, StripNonHex(input), text))
  }

  /** The special-case rewrite of `deserialize_input_mac_to_address`. */
  function RewriteSpecialMac(input: string): (r: string)
    ensures r != input <==> input == MellanoxSfVfMacAddressIn || input == ""
    ensures r != ""
  {
    if input == MellanoxSfVfMacAddressIn then MellanoxSfVfMacAddressOut
    else if input == "" then ZeroMacAddress
    else input
  }

  /** `deserialize_input_mac_to_address`, with `MacAddress::from_str` given as `parse`. */
  function DeserializeInputMacToAddress<M, E>(input: string, parse: string -> Result<M, E>): (r: Result<M, E>)
    ensures input == MellanoxSfVfMacAddressIn ==> r == parse(MellanoxSfVfMacAddressOut)
    ensures input == "" ==> r == parse(ZeroMacAddress)
    ensures input != MellanoxSfVfMacAddressIn && input != "" ==> r == parse(input)
  {
    parse(RewriteSpecialMac(input))
  }

  /** The deserializer's error: the input that failed, and why. */
  datatype MlxMacError<E> = FailedToParseInputMac(input: string, cause: E)

  /** `deserialize_mlx_mac` on an already-decoded string. */
  function DeserializeMlxMac<M, E>(input: string, parse: string -> Result<M, E>): (r: Result<M, MlxMacError<E>>)
    ensures r.Success? <==> DeserializeInputMacToAddress(input, parse).Success?
    ensures r.Success? ==> r.value == DeserializeInputMacToAddress(input, parse).value
    ensures r.Failure? ==> r.error == FailedToParseInputMac(input, DeserializeInputMacToAddress(input, parse).error)
  {
    match DeserializeInputMacToAddress(input, parse)
    case Success(mac) => Success(mac)
    case Failure(e) => Failure(FailedToParseInputMac(input, e))
  }

  /** `deserialize_optional_mlx_mac` on an already-decoded optional string. */
  function DeserializeOptionalMlxMac<M, E>(input: Option<string>, parse: string -> Result<M, E>): (r: Result<Option<M>, MlxMacError<E>>)
    ensures input == None ==> r == Success(None)
    ensures input.Some? ==> match DeserializeMlxMac(input.value, parse)
      case Success(mac) => r == Success(Some(mac))
      case Failure(e) => r == Failure(e)
  {
    match input
    case None => Success(None)
    case Some(s) =>
      match DeserializeMlxMac(s, parse)
      case Success(mac) => Success(Some(mac))
      case Failure(e) => Failure(e)
  }

  // ---- Lemmas ----

  /** Filtering distributes over concatenation: with `StripNonHex([c])`, this pins the filter down. */
  lemma {:induction false} StripDistributes(a: string, b: string)
    ensures StripNonHex(a + b) == StripNonHex(a) + StripNonHex(b)
  {
    if a != [] {
      assert (a + b)[1..] == a[1..] + b;
      StripDistributes(a[1..], b);
    } else {
      assert a + b == b;
    }
  }

  /** A string is left unchanged by the filter exactly when it is all hex digits. */
  lemma {:induction false} StripFixesHex(s: string)
    ensures StripNonHex(s) == s <==> AllHex(s)
  {
    if s != [] {
      StripFixesHex(s[1..]);
      if !IsAsciiHexDigit(s[0]) {
        assert |StripNonHex(s)| < |s|;
      }
    }
  }

  /** Where each character and each colon ends up after the fold. */
  lemma {:induction false} ColonLayout(s: string)
    ensures forall j :: 0 <= j < |InsertColons(s)| ==>
      if j % 3 == 2 then InsertColons(s)[j] == ':' else j - j / 3 < |s| && InsertColons(s)[j] == s[j - j / 3]
  {
    if s != [] {
      var i := |s| - 1;
      var front := InsertColons(s[..i]);
      ColonLayout(s[..i]);
      var sep: string := if i > 0 && i % 2 == 0 then [':'] else [];
      var r := InsertColons(s);
      assert r == front + sep + [s[i]];
      forall j | 0 <= j < |InsertColons(s)|
        ensures if j % 3 == 2 then InsertColons(s)[j] == ':' else j - j / 3 < |s| && InsertColons(s)[j] == s[j - j / 3]
      {
        if j < |front| {
          assert r[j] == front[j];
          if j % 3 != 2 {
            assert front[j] == s[..i][j - j / 3];
            assert j - j / 3 < i;
          }
        } else if i == 0 {
          assert j == 0;
        } else if i % 2 == 0 {
          var m := i / 2;
          assert |front| == 3 * m - 1;
          if j == |front| {
            assert j % 3 == 2;
            assert r[j] == ':';
          } else {
            assert j == 3 * m && j / 3 == m;
            assert r[j] == s[i];
          }
        } else {
          var m := i / 2;
          assert |front| == 3 * m + 1;
          assert j == 3 * m + 1 && j / 3 == m;
          assert r[j] == s[i];
        }
      }
    } else {
      assert |InsertColons(s)| == 0;
    }
  }

  /** Twelve hex digits with colons inserted are in colon form. */
  lemma ColonMacOfTwelve(s: string)
    requires |s| == StrippedMacLength && AllHex(s)
    ensures IsColonMac(InsertColons(s))
  {
    var r := InsertColons(s);
    ColonLayout(s);
    forall j | 0 <= j < 17 ensures if j % 3 == 2 then r[j] == ':' else IsAsciiHexDigit(r[j]) {
      if j % 3 != 2 {
        assert r[j] == s[j - j / 3];
      }
    }
    ColonMacByIndex(r);
  }

  /** The filter keeps every hex digit as often as it occurs, and nothing else. */
  lemma {:induction false} StripKeepsHexCounts(s: string, c: char)
    ensures multiset(StripNonHex(s))[c] == if IsAsciiHexDigit(c) then multiset(s)[c] else 0
  {
    if s != [] {
      StripKeepsHexCounts(s[1..], c);
      assert s == [s[0]] + s[1..];
    }
  }

  /** Filtering the fold's output gives back its all-hex input: colons are the only additions. */
  lemma {:induction false} StripInsertColons(s: string)
    requires AllHex(s)
    ensures StripNonHex(InsertColons(s)) == s
  {
    if s != [] {
      var i := |s| - 1;
      var sep: string := if i > 0 && i % 2 == 0 then [':'] else [];
      StripInsertColons(s[..i]);
      StripDistributes(InsertColons(s[..i]), sep + [s[i]]);
      StripDistributes(sep, [s[i]]);
      assert StripNonHex(sep) == [];
      assert StripNonHex([s[i]]) == [s[i]];
      assert InsertColons(s) == InsertColons(s[..i]) + (sep + [s[i]]);
      assert s[..i] + [s[i]] == s;
    }
  }

  /** Any text already in colon form is left exactly as it is: sanitising is idempotent on its own output. */
  lemma ColonMacFixed(s: string)
    requires IsColonMac(s)
    ensures SanitizedText(s) == Some(s)
  {
    ColonMacByIndex(s);
    var digits := seq(12, k requires 0 <= k < 12 => s[k + k / 2]);
    assert AllHex(digits) by {
      forall k | 0 <= k < 12 ensures IsAsciiHexDigit(digits[k]) {
        assert (k + k / 2) % 3 != 2;
      }
    }
    ColonLayout(digits);
    var r := InsertColons(digits);
    forall j | 0 <= j < 17 ensures r[j] == s[j] {
      if j % 3 != 2 {
        assert (j - j / 3) + (j - j / 3) / 2 == j;
      }
    }
    assert r == s;
    StripInsertColons(digits);
  }

  lemma SanitizeIdempotent(input: string)
    requires SanitizedText(input).Some?
    ensures SanitizedText(SanitizedText(input).value) == SanitizedText(input)
  {
    ColonMacFixed(SanitizedText(input).value);
  }

  /** An already clean MAC comes back unchanged. */
  lemma CleanMacUnchanged()
    ensures SanitizedText("DE:ED:0F:BE:EF:99") == Some("DE:ED:0F:BE:EF:99")
  {
    ColonMacFixed("DE:ED:0F:BE:EF:99");
  }

  /** Dropping a run of non-hex characters between two hex runs keeps exactly the two runs. */
  lemma StripBetweenHexRuns(a: string, junk: string, b: string)
    requires AllHex(a) && AllHex(b) && StripNonHex(junk) == []
    ensures StripNonHex(a + junk + b) == a + b
  {
    StripFixesHex(a);
    StripFixesHex(b);
    StripDistributes(a + junk, b);
    StripDistributes(a, junk);
  }

  /** The over-long input `aabbccddeeffgg00112233445566778899` (written in three pieces) is rejected. */
  lemma TooLongMacRejected()
    ensures SanitizedText("aabbccddeeff" + "gg" + "00112233445566778899") == None
  {
    assert AllHex("aabbccddeeff");
    assert AllHex("00112233445566778899");
    StripBetweenHexRuns("aabbccddeeff", "gg", "00112233445566778899");
  }

  /** The rewritten special cases are themselves in colon form, so they parse like any sanitised MAC. */
  lemma SpecialMacsInColonForm()
    ensures IsColonMac(MellanoxSfVfMacAddressOut) && IsColonMac(ZeroMacAddress)
    ensures SanitizedText(MellanoxSfVfMacAddressOut) == Some(MellanoxSfVfMacAddressOut)
    ensures SanitizedText(ZeroMacAddress) == Some(ZeroMacAddress)
  {
    ColonMacFixed(MellanoxSfVfMacAddressOut);
    ColonMacFixed(ZeroMacAddress);
  }

  /** The rewrite is idempotent: its outputs are never rewritten again. */
  lemma RewriteIdempotent(input: string)
    ensures RewriteSpecialMac(RewriteSpecialMac(input)) == RewriteSpecialMac(input)
  {
  }
}
