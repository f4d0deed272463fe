/**
 The two user-agent classifiers of the controller: ordered, first-match-wins
 case-insensitive substring tests with a default category. Each classifier is
 written as the controller's chain of tests and is proved equal to a
 table-driven reference, an ordered list of (patterns, category) rules.
 */
module UserAgent {
  import opened Wrappers
  import opened Text

  /** The categories the report names "Windows", "macOS", "Android", "iOS", "Linux", "Other". */
  datatype OS = Windows | MacOS | Android | IOS | Linux | OtherOS

  /** The categories the report names "Mobile", "Tablet", "Desktop". */
  datatype Device = Mobile | Tablet | Desktop

  /**
   The text a regular expression tests: a missing user-agent header reaches
   `RegExp.prototype.test` as `undefined`, which is converted to the string
   "undefined".
   */
  function UaText(ua: Option<string>): string {
    match ua
    case None => "undefined"
    case Some(s) => s
  }

  datatype Rule<C> = Rule(patterns: seq<string>, category: C)

  predicate RuleMatches<C>(rule: Rule<C>, ua: string) {
    exists p :: p in rule.patterns && ContainsIgnoreCase(ua, p)
  }

  /** Index of the first rule that matches, or |rules| when none does. */
  function FirstMatch<C>(rules: seq<Rule<C>>, ua: string): (i: nat)
    ensures i <= |rules|
    ensures i < |rules| ==> RuleMatches(rules[i], ua)
    ensures forall j :: 0 <= j < i && j < |rules| ==> !RuleMatches(rules[j], ua)
    decreases |rules|
  {
    if |rules| == 0 then 0
    else if RuleMatches(rules[0], ua) then 0
    else 1 + FirstMatch(rules[1..], ua)
  }

  /** Table-driven classification: the category of the first matching rule. */
  function Classify<C>(rules: seq<Rule<C>>, ua: string, fallback: C): C {
    var i := FirstMatch(rules, ua);
    if i < |rules| then rules[i].category else fallback
  }

  /** A rule that matches at index i puts the first match at or before i. */
  lemma FirstMatchAtMost<C>(rules: seq<Rule<C>>, ua: string, i: nat)
    requires i < |rules| && RuleMatches(rules[i], ua)
    ensures FirstMatch(rules, ua) <= i
  {
  }

  const OsRules: seq<Rule<OS>> := [
    Rule(["windows"], Windows),
    Rule(["macintosh", "mac os"], MacOS),
    Rule(["android"], Android),
    Rule(["iphone", "ipad", "ipod"], IOS),
    Rule(["linux"], Linux)
  ]

  const DeviceRules: seq<Rule<Device>> := [
    Rule(["mobile"], Mobile),
    Rule(["tablet"], Tablet)
  ]

  /** Position of an OS in the precedence order; OtherOS comes last. */
  function OsRank(os: OS): (k: nat)
    ensures k <= |OsRules|
    ensures k < |OsRules| ==> OsRules[k].category == os
    ensures k == |OsRules| <==> os == OtherOS
  {
    match os
    case Windows => 0
    case MacOS => 1
    case Android => 2
    case IOS => 3
    case Linux => 4
    case OtherOS => 5
  }

  function DeviceRank(d: Device): (k: nat)
    ensures k <= |DeviceRules|
    ensures k < |DeviceRules| ==> DeviceRules[k].category == d
    ensures k == |DeviceRules| <==> d == Desktop
  {
    match d
    case Mobile => 0
    case Tablet => 1
    case Desktop => 2
  }

  /** getOS: the controller's chain of tests, in its order. */
  function GetOS(ua: string): (os: OS)
    ensures os == Classify(OsRules, ua, OtherOS)
    ensures OsRank(os) == FirstMatch(OsRules, ua)
  {
    OsChain(ua);
    if ContainsIgnoreCase(ua, "windows") then Windows
    else if ContainsIgnoreCase(ua, "macintosh") || ContainsIgnoreCase(ua, "mac os") then MacOS
    else if ContainsIgnoreCase(ua, "android") then Android
    else if ContainsIgnoreCase(ua, "iphone") || ContainsIgnoreCase(ua, "ipad")
         || ContainsIgnoreCase(ua, "ipod") then IOS
    else if ContainsIgnoreCase(ua, "linux") then Linux
    else OtherOS
  }

  /** getDeviceType: the controller's chain of tests, in its order. */
  function GetDeviceType(ua: string): (d: Device)
    ensures d == Classify(DeviceRules, ua, Desktop)
    ensures DeviceRank(d) == FirstMatch(DeviceRules, ua)
  {
    DeviceTable(ua);
    if ContainsIgnoreCase(ua, "mobile") then Mobile
    else if ContainsIgnoreCase(ua, "tablet") then Tablet
    else Desktop
  }

  /** What each OS rule's match means, written out pattern by pattern. */
  lemma OsRulePatterns(ua: string)
    ensures RuleMatches(OsRules[0], ua) <==> ContainsIgnoreCase(ua, "windows")
    ensures RuleMatches(OsRules[1], ua) <==>
              ContainsIgnoreCase(ua, "macintosh") || ContainsIgnoreCase(ua, "mac os")
    ensures RuleMatches(OsRules[2], ua) <==> ContainsIgnoreCase(ua, "android")
    ensures RuleMatches(OsRules[3], ua) <==>
              ContainsIgnoreCase(ua, "iphone") || ContainsIgnoreCase(ua, "ipad")
              || ContainsIgnoreCase(ua, "ipod")
    ensures RuleMatches(OsRules[4], ua) <==> ContainsIgnoreCase(ua, "linux")
  {
    assert OsRules[1] == Rule(["macintosh", "mac os"], MacOS);
    assert OsRules[3] == Rule(["iphone", "ipad", "ipod"], IOS);
  }

  /** The first match in a table of five rules, found by testing the rules in order. */
  lemma FirstOfFive<C>(rules: seq<Rule<C>>, ua: string)
    requires |rules| == 5
    ensures FirstMatch(rules, ua) ==
              if RuleMatches(rules[0], ua) then 0
              else if RuleMatches(rules[1], ua) then 1
              else if RuleMatches(rules[2], ua) then 2
              else if RuleMatches(rules[3], ua) then 3
              else if RuleMatches(rules[4], ua) then 4
              else 5
  {
    var k := FirstMatch(rules, ua);
    forall i | 0 <= i < 5 && RuleMatches(rules[i], ua)
      ensures k <= i
    {
      FirstMatchAtMost(rules, ua, i);
    }
  }

  /** The first OS rule that matches, as the controller's chain of tests. */
  lemma OsChain(ua: string)
    ensures FirstMatch(OsRules, ua) ==
              if ContainsIgnoreCase(ua, "windows") then 0
              else if ContainsIgnoreCase(ua, "macintosh") || ContainsIgnoreCase(ua, "mac os") then 1
              else if ContainsIgnoreCase(ua, "android") then 2
              else if ContainsIgnoreCase(ua, "iphone") || ContainsIgnoreCase(ua, "ipad")
                      || ContainsIgnoreCase(ua, "ipod") then 3
              else if ContainsIgnoreCase(ua, "linux") then 4
              else 5
  {
    OsRulePatterns(ua);
    FirstOfFive(OsRules, ua);
  }

  lemma DeviceTable(ua: string)
    ensures RuleMatches(DeviceRules[0], ua) <==> ContainsIgnoreCase(ua, "mobile")
    ensures RuleMatches(DeviceRules[1], ua) <==> ContainsIgnoreCase(ua, "tablet")
    ensures FirstMatch(DeviceRules, ua) ==
              if RuleMatches(DeviceRules[0], ua) then 0
              else if RuleMatches(DeviceRules[1], ua) then 1
              else 2
  {
    var k := FirstMatch(DeviceRules, ua);
    forall i | 0 <= i < 2 && RuleMatches(DeviceRules[i], ua)
      ensures k <= i
    {
      FirstMatchAtMost(DeviceRules, ua, i);
    }
  }

  /**
   First match wins: the OS reported is that of a rule that matches, no
   earlier rule matches, and any matching rule is at or after it.
   */
  lemma OsFirstMatchWins(ua: string, i: nat)
    requires i < |OsRules| && RuleMatches(OsRules[i], ua)
    ensures OsRank(GetOS(ua)) <= i
    ensures RuleMatches(OsRules[OsRank(GetOS(ua))], ua)
    ensures OsRank(GetOS(ua)) == i <==> forall j :: 0 <= j < i ==> !RuleMatches(OsRules[j], ua)
  {
    FirstMatchAtMost(OsRules, ua, i);
  }

  /** Other is reported exactly when no rule matches. */
  lemma OsDefault(ua: string)
    ensures GetOS(ua) == OtherOS <==> forall j :: 0 <= j < |OsRules| ==> !RuleMatches(OsRules[j], ua)
  {
    if GetOS(ua) != OtherOS {
      assert RuleMatches(OsRules[OsRank(GetOS(ua))], ua);
    }
  }

  lemma DeviceFirstMatchWins(ua: string, i: nat)
    requires i < |DeviceRules| && RuleMatches(DeviceRules[i], ua)
    ensures DeviceRank(GetDeviceType(ua)) <= i
    ensures RuleMatches(DeviceRules[DeviceRank(GetDeviceType(ua))], ua)
    ensures DeviceRank(GetDeviceType(ua)) == i <==>
              forall j :: 0 <= j < i ==> !RuleMatches(DeviceRules[j], ua)
  {
    FirstMatchAtMost(DeviceRules, ua, i);
  }

  lemma DeviceDefault(ua: string)
    ensures GetDeviceType(ua) == Desktop <==>
              forall j :: 0 <= j < |DeviceRules| ==> !RuleMatches(DeviceRules[j], ua)
  {
    if GetDeviceType(ua) != Desktop {
      assert RuleMatches(DeviceRules[DeviceRank(GetDeviceType(ua))], ua);
    }
  }

  // ---------------------------------------------------------------------
  // The iPhone user agent
  // ---------------------------------------------------------------------

  /**
   The user agent Safari on an iPhone running iOS 17 sends. It is assembled
   from short pieces because the verifier reasons about one long string
   literal very slowly: each piece is checked on its own, and the patterns
   "iPhone" and "Mac OS" sit between pieces where their occurrence is
   immediate. "windows" is excluded by its letter d, which no piece contains.
   */
  const IPhoneHead: string := "Mozilla/5.0 ("
  const IPhoneMiddle: string := "; CPU iPhone OS 17_0 like "
  const IPhoneTail1: string := " X) AppleWebKit/605.1.15 "
  const IPhoneTail2: string := "(KHTML, like Gecko) "
  const IPhoneVersion: string := "Version/17.0 "
  const IPhoneBuild: string := "/15E148 Safari/604.1"
  const IPhoneTail3: string := IPhoneVersion + "Mobile" + IPhoneBuild
  const IPhoneTail: string := IPhoneTail1 + IPhoneTail2 + IPhoneTail3
  const IPhoneUa: string := IPhoneHead + "iPhone" + (IPhoneMiddle + "Mac OS" + IPhoneTail)

  lemma IPhoneHeadLacksD()
    ensures Lacks(IPhoneHead + "iPhone", 'd') && Lacks(IPhoneMiddle + "Mac OS", 'd')
  {
    assert Lacks(IPhoneHead, 'd') && Lacks("iPhone", 'd');
    assert Lacks(IPhoneMiddle, 'd') && Lacks("Mac OS", 'd');
    LacksAppend(IPhoneHead, "iPhone", 'd');
    LacksAppend(IPhoneMiddle, "Mac OS", 'd');
  }

  lemma IPhoneVersionLacksD()
    ensures Lacks(IPhoneTail3, 'd')
  {
    assert Lacks(IPhoneVersion, 'd') && Lacks("Mobile", 'd') && Lacks(IPhoneBuild, 'd');
    LacksAppend(IPhoneVersion, "Mobile", 'd');
    LacksAppend(IPhoneVersion + "Mobile", IPhoneBuild, 'd');
  }

  lemma IPhoneTailLacksD()
    ensures Lacks(IPhoneTail, 'd')
  {
    IPhoneVersionLacksD();
    assert Lacks(IPhoneTail1, 'd') && Lacks(IPhoneTail2, 'd');
    LacksAppend(IPhoneTail1, IPhoneTail2, 'd');
    LacksAppend(IPhoneTail1 + IPhoneTail2, IPhoneTail3, 'd');
  }

  /** "windows" cannot occur in the iPhone user agent: it has no letter d. */
  lemma IPhoneUaNotWindows()
    ensures !ContainsIgnoreCase(IPhoneUa, "windows")
  {
    IPhoneHeadLacksD();
    IPhoneTailLacksD();
    LacksAppend(IPhoneMiddle + "Mac OS", IPhoneTail, 'd');
    LacksAppend(IPhoneHead + "iPhone", IPhoneMiddle + "Mac OS" + IPhoneTail, 'd');
    MissingLetter(IPhoneUa, "windows", 3);
  }

  lemma IPhoneUaMentionsIPhone()
    ensures ContainsIgnoreCase(IPhoneUa, "iphone")
  {
    ContainsIgnoreCaseBetween(IPhoneHead, "iPhone", IPhoneMiddle + "Mac OS" + IPhoneTail);
    SameFoldingPattern(IPhoneUa, "iPhone", "iphone");
  }

  lemma IPhoneUaMentionsMacOs()
    ensures ContainsIgnoreCase(IPhoneUa, "mac os")
  {
    ContainsIgnoreCaseBetween(IPhoneHead + "iPhone" + IPhoneMiddle, "Mac OS", IPhoneTail);
    assert IPhoneUa == IPhoneHead + "iPhone" + IPhoneMiddle + "Mac OS" + IPhoneTail;
    SameFoldingPattern(IPhoneUa, "Mac OS", "mac os");
  }

  lemma IPhoneUaMentionsMobile()
    ensures GetDeviceType(IPhoneUa) == Mobile
  {
    var before := IPhoneHead + "iPhone" + IPhoneMiddle + "Mac OS" + IPhoneTail1 + IPhoneTail2 + IPhoneVersion;
    ContainsIgnoreCaseBetween(before, "Mobile", IPhoneBuild);
    assert IPhoneUa == before + "Mobile" + IPhoneBuild;
    SameFoldingPattern(IPhoneUa, "Mobile", "mobile");
  }

  /**
   As written, the macOS test runs before the iOS test, and iPhone user
   agents carry "like Mac OS X": an iPhone is reported as macOS although the
   iOS pattern matches too.
   */
  lemma IPhoneReadAsMacOS()
    ensures ContainsIgnoreCase(IPhoneUa, "iphone") && ContainsIgnoreCase(IPhoneUa, "mac os")
    ensures GetOS(IPhoneUa) == MacOS
  {
    IPhoneUaMentionsIPhone();
    IPhoneUaMentionsMacOs();
    IPhoneUaNotWindows();
  }

  /** The evidently intended precedence: the iOS rule ahead of the macOS rule. */
  const IntendedOsRules: seq<Rule<OS>> := [OsRules[0], OsRules[3], OsRules[1], OsRules[2], OsRules[4]]

  /**
   Corrected: the OS classifier with the iOS test moved ahead of the macOS
   test. The analytics reports keep the controller's `GetOS`.
   */
  function GetOSIntended(ua: string): (os: OS)
    ensures os == Classify(IntendedOsRules, ua, OtherOS)
  {
    OsRulePatterns(ua);
    FirstOfFive(IntendedOsRules, ua);
    if ContainsIgnoreCase(ua, "windows") then Windows
    else if ContainsIgnoreCase(ua, "iphone") || ContainsIgnoreCase(ua, "ipad")
         || ContainsIgnoreCase(ua, "ipod") then IOS
    else if ContainsIgnoreCase(ua, "macintosh") || ContainsIgnoreCase(ua, "mac os") then MacOS
    else if ContainsIgnoreCase(ua, "android") then Android
    else if ContainsIgnoreCase(ua, "linux") then Linux
    else OtherOS
  }

  /**
   The correction moves only the iOS rule: a user agent that mentions an
   Apple mobile device and not Windows is iOS, any other user agent is
   classified as before, and a changed answer is always iOS in place of the
   macOS or Android rule that the iOS rule used to follow.
   */
  lemma IntendedOsChangesOnlyIOS(ua: string)
    ensures RuleMatches(OsRules[3], ua) && !RuleMatches(OsRules[0], ua) ==> GetOSIntended(ua) == IOS
    ensures !RuleMatches(OsRules[3], ua) ==> GetOSIntended(ua) == GetOS(ua)
    ensures GetOSIntended(ua) != GetOS(ua) ==>
              GetOSIntended(ua) == IOS && (GetOS(ua) == MacOS || GetOS(ua) == Android)
  {
    OsRulePatterns(ua);
  }

  /** With the correction the iPhone user agent is iOS. */
  lemma IPhoneReadAsIOS()
    ensures GetOSIntended(IPhoneUa) == IOS
  {
    IPhoneReadAsMacOS();
    IPhoneUaNotWindows();
  }

  /** The classifiers see a user agent only through its lower-cased text. */
  lemma SameFolding(a: string, b: string)
    requires Lower(a) == Lower(b)
    ensures GetOS(a) == GetOS(b) && GetDeviceType(a) == GetDeviceType(b)
  {
  }

  lemma SameFoldingIntended(a: string, b: string)
    requires Lower(a) == Lower(b)
    ensures GetOSIntended(a) == GetOSIntended(b)
  {
  }

  /** The classifiers ignore letter case. */
  lemma ClassifiersIgnoreCase(ua: string)
    ensures GetOS(Upper(ua)) == GetOS(ua) && GetOS(Lower(ua)) == GetOS(ua)
    ensures GetOSIntended(Upper(ua)) == GetOSIntended(ua) && GetOSIntended(Lower(ua)) == GetOSIntended(ua)
    ensures GetDeviceType(Upper(ua)) == GetDeviceType(ua)
    ensures GetDeviceType(Lower(ua)) == GetDeviceType(ua)
  {
    LowerUpper(ua);
    SameFolding(Upper(ua), ua);
    SameFolding(Lower(ua), ua);
    SameFoldingIntended(Upper(ua), ua);
    SameFoldingIntended(Lower(ua), ua);
  }

  lemma RuleMatchesAppend<C>(rule: Rule<C>, ua: string, more: string)
    requires RuleMatches(rule, ua)
    ensures RuleMatches(rule, ua + more)
  {
    var p :| p in rule.patterns && ContainsIgnoreCase(ua, p);
    ContainsIgnoreCaseAppend(ua, more, p);
  }

  /** Appending text to a user agent can only move it to an earlier category. */
  lemma FirstMatchAppend<C>(rules: seq<Rule<C>>, ua: string, more: string)
    ensures FirstMatch(rules, ua + more) <= FirstMatch(rules, ua)
  {
    var i := FirstMatch(rules, ua);
    if i < |rules| {
      RuleMatchesAppend(rules[i], ua, more);
      FirstMatchAtMost(rules, ua + more, i);
    }
  }

  lemma ClassifiersMonotoneUnderAppend(ua: string, more: string)
    ensures OsRank(GetOS(ua + more)) <= OsRank(GetOS(ua))
    ensures DeviceRank(GetDeviceType(ua + more)) <= DeviceRank(GetDeviceType(ua))
  {
    FirstMatchAppend(OsRules, ua, more);
    FirstMatchAppend(DeviceRules, ua, more);
  }

  /** A request without a user-agent header is classified as Other / Desktop. */
  lemma MissingUserAgent()
    ensures GetOS(UaText(None)) == OtherOS
    ensures GetDeviceType(UaText(None)) == Desktop
  {
    UndefinedMatchesNoPattern();
  }

  lemma UndefinedMatchesNoPattern()
    ensures !ContainsIgnoreCase(UaText(None), "windows")
    ensures !ContainsIgnoreCase(UaText(None), "macintosh")
    ensures !ContainsIgnoreCase(UaText(None), "mac os")
    ensures !ContainsIgnoreCase(UaText(None), "android")
    ensures !ContainsIgnoreCase(UaText(None), "iphone")
    ensures !ContainsIgnoreCase(UaText(None), "ipad")
    ensures !ContainsIgnoreCase(UaText(None), "ipod")
    ensures !ContainsIgnoreCase(UaText(None), "linux")
    ensures !ContainsIgnoreCase(UaText(None), "mobile")
    ensures !ContainsIgnoreCase(UaText(None), "tablet")
  {
    assert !ContainsIgnoreCase(UaText(None), "windows") by { NotContains("windows", 0); }
    assert !ContainsIgnoreCase(UaText(None), "macintosh") by { NotContains("macintosh", 0); }
    assert !ContainsIgnoreCase(UaText(None), "mac os") by { NotContains("mac os", 0); }
    assert !ContainsIgnoreCase(UaText(None), "android") by { NotContains("android", 0); }
    assert !ContainsIgnoreCase(UaText(None), "iphone") by { NotContains("iphone", 1); }
    assert !ContainsIgnoreCase(UaText(None), "ipad") by { NotContains("ipad", 1); }
    assert !ContainsIgnoreCase(UaText(None), "ipod") by { NotContains("ipod", 1); }
    assert !ContainsIgnoreCase(UaText(None), "linux") by { NotContains("linux", 0); }
    assert !ContainsIgnoreCase(UaText(None), "mobile") by { NotContains("mobile", 0); }
    assert !ContainsIgnoreCase(UaText(None), "tablet") by { NotContains("tablet", 0); }
  }

  lemma UndefinedIsLower()
    ensures Lower(UaText(None)) == UaText(None)
  {
    var u := UaText(None);
    forall i | 0 <= i < |u|
      ensures Lower(u)[i] == u[i]
    {
      assert 'a' <= u[i] <= 'z';
    }
  }

  const UndefinedLetters: set<char> := {'u', 'n', 'd', 'e', 'f', 'i'}

  /** A pattern with a letter that "undefined" lacks cannot occur in it. */
  lemma NotContains(p: string, j: nat)
    requires j < |p| && LowerChar(p[j]) !in UndefinedLetters
    ensures !ContainsIgnoreCase(UaText(None), p)
  {
    var u := UaText(None);
    UndefinedIsLower();
    if ContainsIgnoreCase(u, p) {
      ContainsChar(Lower(u), Lower(p), j);
      assert false;
    }
  }

}
