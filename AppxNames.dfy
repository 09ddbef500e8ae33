/**
 * The names an AppX manifest declares about the package: the package
 * identity name and the application id. Both are checked for length, for
 * their characters and against the device names Windows reserves; the
 * application id is chosen from the explicit option, a numbered identity
 * name with its number removed, or the identity or app name.
 */
module AppxNames {
  import opened Wrappers
  import opened Text

  /** An error that stops the build. */
  datatype BuildError =
    | InvalidConfiguration(message: string)   // InvalidConfigurationError
    | PlainError(message: string)             // a plain Error

  /** The device names Windows reserves, which no identity name or application id may be. */
  const RestrictedValues: seq<string> := [
    "CON", "PRN", "AUX", "NUL",
    "COM1", "COM2", "COM3", "COM4", "COM5", "COM6", "COM7", "COM8", "COM9",
    "LPT1", "LPT2", "LPT3", "LPT4", "LPT5", "LPT6", "LPT7", "LPT8", "LPT9"]

  /** Compared in upper case, so `nul` and `Com1` are restricted too. */
  predicate IsRestricted(s: string) {
    ToUpperAscii(s) in RestrictedValues
  }

  /** The items of `JsonStringList`, quoted and separated by commas. */
  function QuotedList(items: seq<string>): string {
    Join(",", QuoteEach(items))
  }

  /** `JSON.stringify` of a list of plain names (no character in them needs escaping). */
  function JsonStringList(items: seq<string>): string {
    "[" + QuotedList(items) + "]"
  }

  function QuoteEach(items: seq<string>): seq<string> {
    seq(|items|, i requires 0 <= i < |items| => "\"" + items[i] + "\"")
  }

  // ---------------------------------------------------------------------------
  // Identity name

  /** The character class `[a-zA-Z0-9.-]`. */
  predicate IsIdentityChar(c: char) {
    IsAlnum(c) || c == '.' || c == '-'
  }

  /** The whole-string pattern `^[a-zA-Z0-9.-]+$`. */
  predicate MatchesIdentityPattern(s: string) {
    |s| >= 1 && forall i :: 0 <= i < |s| ==> IsIdentityChar(s[i])
  }

  const IdentityLengthMessage := "Appx identityName.Id with a value between 3 and 50 characters in length"
  const IdentityCharactersMessage := "AppX identityName.Id cat be consists of alpha-numeric, period, and dash characters\""
  const IdentityRestrictedMessage := "AppX identityName.Id can not be some values"

  /**
   * The `identityName` macro: the configured identity name, or the app name
   * when it is unset or empty, checked for length (in UTF-16 code units),
   * then characters, then the restricted names.
   */
  function IdentityNameMacro(identityName: Option<string>, appName: string): (r: Result<string, BuildError>)
    ensures r.Success? <==>
      var name := OrElse(identityName, appName);
      3 <= Utf16Length(name) <= 50 && MatchesIdentityPattern(name) && !IsRestricted(name)
    ensures r.Success? ==> r.value == OrElse(identityName, appName)
    ensures r.Failure? ==> r.error.InvalidConfiguration?
  {
    var name := OrElse(identityName, appName);
    if Utf16Length(name) < 3 || Utf16Length(name) > 50 then Failure(InvalidConfiguration(IdentityLengthMessage))
    else if !MatchesIdentityPattern(name) then Failure(InvalidConfiguration(IdentityCharactersMessage))
    else if IsRestricted(name) then Failure(InvalidConfiguration(IdentityRestrictedMessage))
    else Success(name)
  }

  /** A reserved device name in any letter case passes the length and character checks and is refused as restricted. */
  lemma RestrictedIdentityRefused(name: string)
    requires IsRestricted(name)
    requires forall i :: 0 <= i < |name| ==> IsAlnum(name[i])
    ensures IdentityNameMacro(Some(name), "") == Failure(InvalidConfiguration(IdentityRestrictedMessage))
  {
    assert 3 <= |name| <= 4 by {
      RestrictedLengths();
      assert |ToUpperAscii(name)| == |name|;
    }
    assert 3 <= Utf16Length(name) <= 50 by {
      Utf16LengthBounds(name);
    }
    assert OrElse(Some(name), "") == name;
    assert MatchesIdentityPattern(name);
  }

  /**
   * A character outside the Basic Multilingual Plane counts twice towards the
   * length: "a" followed by an emoji has length 3, so it passes the length
   * check and is refused for its characters.
   */
  lemma AstralIdentityName()
    ensures IdentityNameMacro(Some("a\U{1F600}"), "") == Failure(InvalidConfiguration(IdentityCharactersMessage))
  {
    var name := "a\U{1F600}";
    assert name[..1] == "a" && name[..1][..0] == "";
    assert Utf16Length(name) == 3;
    assert !IsIdentityChar(name[1]);
  }

  lemma RestrictedLengths()
    ensures forall v :: v in RestrictedValues ==> 3 <= |v| <= 4
  {
  }

  // ---------------------------------------------------------------------------
  // Application id

  /** The length of the run of letters and digits `s` starts with. */
  function AlnumRun(s: string): (k: nat)
    ensures k <= |s|
    ensures forall i :: 0 <= i < k ==> IsAlnum(s[i])
    ensures k < |s| ==> !IsAlnum(s[k])
    decreases |s|
  {
    if s != [] && IsAlnum(s[0]) then 1 + AlnumRun(s[1..]) else 0
  }

  /**
   * The pattern `^([A-Za-z][A-Za-z0-9]*)(\.[A-Za-z][A-Za-z0-9]*)*$`, read
   * segment by segment: a letter, then letters and digits, then either the
   * end or a period and more segments.
   */
  predicate MatchesApplicationIdPattern(s: string)
    decreases |s|
  {
    && |s| > 0 && IsLetter(s[0])
    && var k := 1 + AlnumRun(s[1..]);
       (k == |s| || (s[k] == '.' && MatchesApplicationIdPattern(s[k + 1..])))
  }

  /**
   * The same language character by character: it starts with a letter, holds
   * only letters, digits and periods, and every period is followed by a letter.
   */
  predicate IsDotSeparatedName(s: string) {
    && |s| > 0 && IsLetter(s[0])
    && (forall i :: 0 <= i < |s| ==> IsAlnum(s[i]) || s[i] == '.')
    && (forall i :: 0 <= i < |s| && s[i] == '.' ==> i + 1 < |s| && IsLetter(s[i + 1]))
  }

  /** The segment-wise reading of the pattern and the character-wise one agree. */
  lemma {:induction false} ApplicationIdPatternIff(s: string)
    ensures MatchesApplicationIdPattern(s) <==> IsDotSeparatedName(s)
    decreases |s|
  {
    if |s| > 0 && IsLetter(s[0]) {
      var k := 1 + AlnumRun(s[1..]);
      assert forall i :: 0 <= i < k ==> IsAlnum(s[i]) by {
        forall i | 0 <= i < k ensures IsAlnum(s[i]) {
          if i > 0 { assert s[i] == s[1..][i - 1]; }
        }
      }
      if k < |s| {
        assert !IsAlnum(s[k]) by { assert s[k] == s[1..][k - 1]; }
        var t := s[k + 1..];
        ApplicationIdPatternIff(t);
        if MatchesApplicationIdPattern(s) {
          assert s[k] == '.' && IsDotSeparatedName(t);
          forall i | 0 <= i < |s| && s[i] == '.' ensures i + 1 < |s| && IsLetter(s[i + 1]) {
            if i > k { assert s[i] == t[i - k - 1]; assert s[i + 1] == t[i - k]; }
          }
          forall i | 0 <= i < |s| ensures IsAlnum(s[i]) || s[i] == '.' {
            if i > k { assert s[i] == t[i - k - 1]; }
          }
        }
        if IsDotSeparatedName(s) {
          assert s[k] == '.';
          forall i | 0 <= i < |t| && t[i] == '.' ensures i + 1 < |t| && IsLetter(t[i + 1]) {
            assert t[i] == s[k + 1 + i];
          }
          assert IsDotSeparatedName(t);
        }
      }
    }
  }

  const ApplicationIdLengthMessage := "Appx Application.Id with a value between 1 and 64 characters in length"
  const ApplicationIdCharactersMessage := "AppX Application.Id can not be consists of alpha-numeric and period\""

  function ApplicationIdRestrictedMessage(): string {
    "AppX identityName.Id can not include restricted values: " + JsonStringList(RestrictedValues)
  }

  lemma QuotedListSnoc(items: seq<string>, x: string)
    requires |items| >= 1
    ensures QuotedList(items + [x]) == QuotedList(items) + "," + "\"" + x + "\""
  {
    assert QuoteEach(items + [x]) == QuoteEach(items) + ["\"" + x + "\""];
    JoinSnoc(",", QuoteEach(items), "\"" + x + "\"");
  }

  lemma QuotedListAppend(a: seq<string>, b: seq<string>)
    requires |a| >= 1 && |b| >= 1
    ensures QuotedList(a + b) == QuotedList(a) + "," + QuotedList(b)
  {
    assert QuoteEach(a + b) == QuoteEach(a) + QuoteEach(b);
    JoinAppend(",", QuoteEach(a), QuoteEach(b));
  }

  /** Three names, quoted and separated by commas. */
  lemma QuotedTriple(a: string, b: string, c: string)
    ensures QuotedList([a, b, c]) == "\"" + a + "\",\"" + b + "\",\"" + c + "\""
  {
    QuotedListSnoc([a], b);
    assert [a] + [b] == [a, b];
    QuotedListSnoc([a, b], c);
    assert [a, b] + [c] == [a, b, c];
  }

  /** The four reserved device names, quoted. */
  lemma QuotedDeviceNames()
    ensures QuotedList(["CON", "PRN", "AUX", "NUL"]) == "\"CON\",\"PRN\",\"AUX\",\"NUL\""
  {
    QuotedTriple("CON", "PRN", "AUX");
    QuotedListSnoc(["CON", "PRN", "AUX"], "NUL");
    assert ["CON", "PRN", "AUX"] + ["NUL"] == ["CON", "PRN", "AUX", "NUL"];
  }

  /** COM1 to COM3, quoted. */
  lemma QuotedCom1To3()
    ensures QuotedList(["COM1", "COM2", "COM3"]) == "\"COM1\",\"COM2\",\"COM3\""
  {
    QuotedTriple("COM1", "COM2", "COM3");
  }

  /** COM4 to COM6, quoted. */
  lemma QuotedCom4To6()
    ensures QuotedList(["COM4", "COM5", "COM6"]) == "\"COM4\",\"COM5\",\"COM6\""
  {
    QuotedTriple("COM4", "COM5", "COM6");
  }

  /** COM7 to COM9, quoted. */
  lemma QuotedCom7To9()
    ensures QuotedList(["COM7", "COM8", "COM9"]) == "\"COM7\",\"COM8\",\"COM9\""
  {
    QuotedTriple("COM7", "COM8", "COM9");
  }

  /** LPT1 to LPT3, quoted. */
  lemma QuotedLpt1To3()
    ensures QuotedList(["LPT1", "LPT2", "LPT3"]) == "\"LPT1\",\"LPT2\",\"LPT3\""
  {
    QuotedTriple("LPT1", "LPT2", "LPT3");
  }

  /** LPT4 to LPT6, quoted. */
  lemma QuotedLpt4To6()
    ensures QuotedList(["LPT4", "LPT5", "LPT6"]) == "\"LPT4\",\"LPT5\",\"LPT6\""
  {
    QuotedTriple("LPT4", "LPT5", "LPT6");
  }

  /** LPT7 to LPT9, quoted. */
  lemma QuotedLpt7To9()
    ensures QuotedList(["LPT7", "LPT8", "LPT9"]) == "\"LPT7\",\"LPT8\",\"LPT9\""
  {
    QuotedTriple("LPT7", "LPT8", "LPT9");
  }

  /** The restricted names, in the order they are listed, in seven groups. */
  lemma RestrictedValuesGroups()
    ensures RestrictedValues == ["CON", "PRN", "AUX", "NUL"] + ["COM1", "COM2", "COM3"] + ["COM4", "COM5", "COM6"] + ["COM7", "COM8", "COM9"]
      + ["LPT1", "LPT2", "LPT3"] + ["LPT4", "LPT5", "LPT6"] + ["LPT7", "LPT8", "LPT9"]
  {
  }

  /**
   * The restricted names appear in the message as the JSON array text
   * `JSON.stringify` makes of them (written here in pieces of a few names).
   */
  lemma RestrictedValuesJson()
    ensures JsonStringList(RestrictedValues) == "[" + ("\"CON\",\"PRN\",\"AUX\",\"NUL\""
      + "," + "\"COM1\",\"COM2\",\"COM3\""
      + "," + "\"COM4\",\"COM5\",\"COM6\""
      + "," + "\"COM7\",\"COM8\",\"COM9\""
      + "," + "\"LPT1\",\"LPT2\",\"LPT3\""
      + "," + "\"LPT4\",\"LPT5\",\"LPT6\""
      + "," + "\"LPT7\",\"LPT8\",\"LPT9\""
      ) + "]"
  {
    var g0 := ["CON", "PRN", "AUX", "NUL"];
    var g1 := ["COM1", "COM2", "COM3"];
    var g2 := ["COM4", "COM5", "COM6"];
    var g3 := ["COM7", "COM8", "COM9"];
    var g4 := ["LPT1", "LPT2", "LPT3"];
    var g5 := ["LPT4", "LPT5", "LPT6"];
    var g6 := ["LPT7", "LPT8", "LPT9"];
    RestrictedValuesGroups();
    QuotedListAppend(g0, g1);
    QuotedListAppend(g0 + g1, g2);
    QuotedListAppend(g0 + g1 + g2, g3);
    QuotedListAppend(g0 + g1 + g2 + g3, g4);
    QuotedListAppend(g0 + g1 + g2 + g3 + g4, g5);
    QuotedListAppend(g0 + g1 + g2 + g3 + g4 + g5, g6);
    QuotedDeviceNames();
    QuotedCom1To3();
    QuotedCom4To6();
    QuotedCom7To9();
    QuotedLpt1To3();
    QuotedLpt4To6();
    QuotedLpt7To9();
  }

  /** The checks on the chosen application id: length (in UTF-16 code units), then pattern, then the restricted names. */
  function ValidateApplicationId(id: string): (r: Result<string, BuildError>)
    ensures r.Success? <==> 1 <= Utf16Length(id) <= 64 && IsDotSeparatedName(id) && !IsRestricted(id)
    ensures r.Success? ==> r.value == id
    ensures r.Failure? ==> r.error.InvalidConfiguration?
  {
    ApplicationIdPatternIff(id);
    if Utf16Length(id) < 1 || Utf16Length(id) > 64 then Failure(InvalidConfiguration(ApplicationIdLengthMessage))
    else if !MatchesApplicationIdPattern(id) then Failure(InvalidConfiguration(ApplicationIdCharactersMessage))
    else if IsRestricted(id) then Failure(InvalidConfiguration(ApplicationIdRestrictedMessage()))
    else Success(id)
  }

  /**
   * Thirty-three characters above U+FFFF are 66 code units: such an id is
   * refused for its length before its characters are looked at.
   */
  lemma AstralApplicationIdTooLong(id: string)
    requires |id| == 33 && forall i :: 0 <= i < |id| ==> id[i] as int > 0xFFFF
    ensures ValidateApplicationId(id) == Failure(InvalidConfiguration(ApplicationIdLengthMessage))
  {
    Utf16LengthOfAstral(id);
  }

  /** `parseInt(identityName, 10) || NaN`: the leading integer of the identity name, with 0 counted as none. */
  function IdentityNumber(identityName: Option<string>): Option<int> {
    if identityName.None? then None
    else match ParseInt(identityName.value)
      case Some(n) => if n == 0 then None else Some(n)
      case None => None
  }

  /**
   * The application id before validation: the explicit `applicationId` when
   * it is set and not empty; else, when the identity name starts (after white
   * space and a sign) with a nonzero number n, the identity name with the
   * first occurrence of n removed, or of "0" followed by n when the name
   * starts with "0"; else the identity name or, when that is unset or empty,
   * the app name.
   */
  function SelectApplicationId(applicationId: Option<string>, identityName: Option<string>, appName: string): string {
    if Truthy(applicationId) then applicationId.value
    else match IdentityNumber(identityName)
      case Some(n) =>
        var name := identityName.value;
        if |name| > 0 && name[0] == '0' then ReplaceFirst(name, "0" + IntToString(n), "")
        else ReplaceFirst(name, IntToString(n), "")
      case None => OrElse(identityName, appName)
  }

  /** The `applicationId` macro. */
  function ApplicationIdMacro(applicationId: Option<string>, identityName: Option<string>, appName: string): Result<string, BuildError> {
    ValidateApplicationId(SelectApplicationId(applicationId, identityName, appName))
  }

  /** An explicit application id is used as it is. */
  lemma ExplicitApplicationIdWins(applicationId: string, identityName: Option<string>, appName: string)
    requires applicationId != ""
    ensures SelectApplicationId(Some(applicationId), identityName, appName) == applicationId
  {
  }

  /** Without an explicit id or a leading number the identity name is used, or the app name when it is unset or empty. */
  lemma UnnumberedIdentityName(applicationId: Option<string>, identityName: Option<string>, appName: string)
    requires !Truthy(applicationId)
    requires identityName.None? || ParseInt(identityName.value).None? || ParseInt(identityName.value) == Some(0)
    ensures SelectApplicationId(applicationId, identityName, appName) == OrElse(identityName, appName)
  {
  }

  /** A nonzero number printed without leading zeros does not start with "0". */
  lemma PositiveHasNoLeadingZero(n: nat)
    requires n > 0
    ensures NatToString(n)[0] != '0'
  {
  }

  /**
   * An identity name that is a positive number followed by the rest of the
   * name (not starting with a digit) gives that rest as the application id.
   */
  lemma NumberedIdentityName(applicationId: Option<string>, n: nat, rest: string, appName: string)
    requires !Truthy(applicationId)
    requires n > 0
    requires rest == [] || !IsDigit(rest[0])
    ensures SelectApplicationId(applicationId, Some(NatToString(n) + rest), appName) == rest
  {
    var digits := NatToString(n);
    var name := digits + rest;
    ParseIntOfNatToString(n, rest);
    assert IdentityNumber(Some(name)) == Some(n);
    PositiveHasNoLeadingZero(n);
    assert name[0] == digits[0];
    assert StartsWith(name, digits) by { assert name[..|digits|] == digits; }
    IndexOfPrefix(name, digits);
    assert OccursAt(name, digits, 0);
    assert name[|digits|..] == rest;
  }

  /**
   * An identity name that is "0", a positive number and the rest of the name
   * (not starting with a digit) loses the "0" and the number: the rest is the
   * application id.
   */
  lemma LeadingZeroIdentityName(applicationId: Option<string>, n: nat, rest: string, appName: string)
    requires !Truthy(applicationId)
    requires n > 0
    requires rest == [] || !IsDigit(rest[0])
    ensures SelectApplicationId(applicationId, Some("0" + NatToString(n) + rest), appName) == rest
  {
    var digits := "0" + NatToString(n);
    var name := digits + rest;
    assert name == "0" + NatToString(n) + rest;
    DigitsValueOfNatToString(n);
    DigitsValueLeadingZero(NatToString(n));
    ParseIntOfDigits(digits, rest);
    assert IdentityNumber(Some(name)) == Some(n);
    assert name[0] == '0';
    assert StartsWith(name, digits) by { assert name[..|digits|] == digits; }
    IndexOfPrefix(name, digits);
    assert OccursAt(name, digits, 0);
    assert name[|digits|..] == rest;
  }

  lemma ParseDoubleZero()
    ensures ParseInt("0012Foo") == Some(12)
  {
    var digits := "0012";
    assert DigitsValue(digits) == 12 by {
      DigitsValueOfNatToString(12);
      assert NatToString(12) == "12";
      DigitsValueLeadingZero("12");
      assert "0" + "12" == "012";
      DigitsValueLeadingZero("012");
      assert "0" + "012" == digits;
    }
    ParseIntOfDigits(digits, "Foo");
    assert "0012Foo" == digits + "Foo";
  }

  lemma DoubleZeroNumber()
    ensures IdentityNumber(Some("0012Foo")) == Some(12)
  {
    ParseDoubleZero();
  }

  lemma RemoveDoubleZero()
    ensures ReplaceFirst("0012Foo", "012", "") == "0Foo"
  {
    var name := "0012Foo";
    assert !OccursAt(name, "012", 0) by { assert name[0..3][1] == '0'; assert "012"[1] == '1'; }
    assert OccursAt(name, "012", 1) by { assert name[1..4] == "012"; }
    assert IndexOf(name, "012") == 1;
    assert name[..1] + "" + name[4..] == "0Foo";
  }

  lemma DoubleZeroSelected(applicationId: Option<string>, appName: string)
    requires !Truthy(applicationId)
    ensures SelectApplicationId(applicationId, Some("0012Foo"), appName) == "0Foo"
  {
    var name := "0012Foo";
    DoubleZeroNumber();
    assert IntToString(12) == "12";
    assert "0" + IntToString(12) == "012";
    assert |name| > 0 && name[0] == '0';
    RemoveDoubleZero();
  }

  /**
   * With more than one leading zero only one of them goes with the number:
   * "0012Foo" has the number 12, loses "012", and gives "0Foo", which the
   * application-id pattern then refuses.
   */
  lemma DoubleZeroIdentityName(applicationId: Option<string>, appName: string)
    requires !Truthy(applicationId)
    ensures SelectApplicationId(applicationId, Some("0012Foo"), appName) == "0Foo"
    ensures ApplicationIdMacro(applicationId, Some("0012Foo"), appName) == Failure(InvalidConfiguration(ApplicationIdCharactersMessage))
  {
    DoubleZeroSelected(applicationId, appName);
    Utf16LengthBounds("0Foo");
    assert !MatchesApplicationIdPattern("0Foo");
  }
}
