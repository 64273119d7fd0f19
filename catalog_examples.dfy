/**
 * Concrete classifications from the catalogue: what the two classifiers say
 * about particular videos of the table.
 */
module CatalogExamples {

  import opened Types
  import opened Seqs
  import opened Text
  import opened Catalog

  // ---------------------------------------------------------------------------
  // 'DCTcOSrQpNw', "Startling to loud noises (Tamil)": in no ID list and no
  // band keyword in its name, so 'Development'.
  // ---------------------------------------------------------------------------

  lemma StartlingTamilUnlisted()
    ensures !Listed("DCTcOSrQpNw")
  {
    NotInByChar(ZeroToThreeIds, "DCTcOSrQpNw", 1);
    NotInByChar(FourToSixIds, "DCTcOSrQpNw", 1);
    NotInByChar(SevenToNineIds, "DCTcOSrQpNw", 1);
    NotInByChar(TenToTwelveIds, "DCTcOSrQpNw", 1);
  }

  lemma StartlingTamilName()
    ensures VideoName("DCTcOSrQpNw") == "Startling to loud noises (Tamil)"
  {
    LookupLast(TamilNames, 3);
    LookupAppend(ZeroToThreeNames + FourToSixNames + SevenToNineNames + TenToTwelveNames, TamilNames, "DCTcOSrQpNw");
  }

  lemma StartlingLower()
    ensures ToLower("Startling to loud noises (Tamil)") == "startling to loud noises (tamil)"
  {
  }

  lemma StartlingNoZeroToThreeWord()
    ensures !MentionsAny("startling to loud noises (tamil)", ZeroToThreeWords)
  {
    var lower := "startling to loud noises (tamil)";
    AbsentChar(lower, "reflex", 5);
    AbsentChar(lower, "head stability", 0);
    AbsentChar(lower, "symmetry", 1);
  }

  lemma StartlingNoFourToSixWord()
    ensures !MentionsAny("startling to loud noises (tamil)", FourToSixWords)
  {
    AbsentChar("startling to loud noises (tamil)", "sitting with support", 8);
    StartlingNoTurning();
    StartlingNoRolling();
  }

  lemma StartlingNoTurning()
    ensures !Contains("startling to loud noises (tamil)", "turning")
  {
    AbsentPair("startling to loud noises (tamil)", "turning", 0);
  }

  lemma StartlingNoRolling()
    ensures !Contains("startling to loud noises (tamil)", "rolling")
  {
    AbsentPair("startling to loud noises (tamil)", "rolling", 2);
  }

  lemma StartlingNoSevenToNineWord()
    ensures !MentionsAny("startling to loud noises (tamil)", SevenToNineWords)
  {
    var lower := "startling to loud noises (tamil)";
    AbsentChar(lower, "crawl", 0);
    AbsentChar(lower, "reaching", 3);
    AbsentChar(lower, "hidden toys", 0);
  }

  lemma StartlingNoTenToTwelveWord()
    ensures !MentionsAny("startling to loud noises (tamil)", TenToTwelveWords)
  {
    var lower := "startling to loud noises (tamil)";
    AbsentPair(lower, "stand", 2);
    AbsentChar(lower, "walk", 0);
    AbsentChar(lower, "cup", 0);
  }

  /** The Tamil 'Startling to loud noises' video falls through to the default band. */
  lemma StartlingTamilIsDevelopment()
    ensures VideoCategory("DCTcOSrQpNw") == Development
  {
    StartlingTamilIdMarkerFree();
    MarkerFreeResolvesToItself("DCTcOSrQpNw");
    StartlingTamilUnlisted();
    StartlingTamilName();
    StartlingLower();
    StartlingNoZeroToThreeWord();
    StartlingNoFourToSixWord();
    StartlingNoSevenToNineWord();
    StartlingNoTenToTwelveWord();
  }

  // ---------------------------------------------------------------------------
  // '_oPTLw9iyyk', "Symmetry of hand movements (Tamil)": in no ID list, but
  // its name holds "symmetry", so '0-3 Months'.
  // ---------------------------------------------------------------------------

  lemma SymmetryTamilUnlisted()
    ensures !Listed("_oPTLw9iyyk")
  {
    NotInByChar(ZeroToThreeIds, "_oPTLw9iyyk", 2);
    NotInByChar(FourToSixIds, "_oPTLw9iyyk", 2);
    NotInByChar(SevenToNineIds, "_oPTLw9iyyk", 2);
    NotInByChar(TenToTwelveIds, "_oPTLw9iyyk", 2);
  }

  lemma SymmetryTamilName()
    ensures VideoName("_oPTLw9iyyk") == "Symmetry of hand movements (Tamil)"
  {
    LookupLast(TamilNames, 7);
    LookupAppend(ZeroToThreeNames + FourToSixNames + SevenToNineNames + TenToTwelveNames, TamilNames, "_oPTLw9iyyk");
  }

  /** The Tamil 'Symmetry of hand movements' video is placed by its keyword. */
  lemma SymmetryTamilIsZeroToThree()
    ensures VideoCategory("_oPTLw9iyyk") == ZeroToThreeMonths
  {
    SymmetryTamilIdMarkerFree();
    MarkerFreeResolvesToItself("_oPTLw9iyyk");
    SymmetryTamilUnlisted();
    SymmetryTamilName();
    SymmetryMentioned();
  }

  lemma SymmetryMentioned()
    ensures MentionsAny(ToLower("Symmetry of hand movements (Tamil)"), ZeroToThreeWords)
  {
    LoweredContainsAt("Symmetry of hand movements (Tamil)", "symmetry", 0);
    assert "symmetry" in ZeroToThreeWords;
  }

  // ---------------------------------------------------------------------------
  // 'vmEHfOIf3M8', "Rooting Reflex": listed under 0-3 months. Passed its own
  // name instead of its ID, the classifier sees the fallback name
  // "Video Rooting ..." and answers 'Development'.
  // ---------------------------------------------------------------------------

  /** The first video of the table is listed under 0-3 months. */
  lemma RootingReflexIsZeroToThree()
    ensures VideoCategory("vmEHfOIf3M8") == ZeroToThreeMonths
  {
    RootingReflexIdMarkerFree();
    MarkerFreeResolvesToItself("vmEHfOIf3M8");
    assert ZeroToThreeIds[0] == "vmEHfOIf3M8";
  }

  lemma RootingReflexFirstEntry()
    ensures Lookup(ZeroToThreeNames, "vmEHfOIf3M8") == Some("Rooting Reflex")
  {
    LookupFound(ZeroToThreeNames, 0, 0);
  }

  lemma RootingReflexNotInMiddleSections()
    ensures Lookup(FourToSixNames, "vmEHfOIf3M8") == None
    ensures Lookup(SevenToNineNames, "vmEHfOIf3M8") == None
  {
    LookupMissing(FourToSixNames, "vmEHfOIf3M8", 0);
    LookupMissing(SevenToNineNames, "vmEHfOIf3M8", 0);
  }

  lemma RootingReflexNotInLastSections()
    ensures Lookup(TenToTwelveNames, "vmEHfOIf3M8") == None
    ensures Lookup(TamilNames, "vmEHfOIf3M8") == None
  {
    LookupMissing(TenToTwelveNames, "vmEHfOIf3M8", 0);
    LookupMissing(TamilNames, "vmEHfOIf3M8", 0);
  }

  lemma RootingReflexName()
    ensures VideoName("vmEHfOIf3M8") == "Rooting Reflex"
  {
    var key := "vmEHfOIf3M8";
    RootingReflexFirstEntry();
    RootingReflexNotInMiddleSections();
    RootingReflexNotInLastSections();
    var a, b, c, d, e := ZeroToThreeNames, FourToSixNames, SevenToNineNames, TenToTwelveNames, TamilNames;
    LookupAppend(a, b, key);
    LookupAppend(a + b, c, key);
    LookupAppend(a + b + c, d, key);
    LookupAppend(a + b + c + d, e, key);
  }

  lemma RootingReflexAsId()
    ensures ResolveId("Rooting Reflex") == "Rooting Reflex"
    ensures !Listed("Rooting Reflex")
  {
    RootingReflexAsIdMarkerFree();
    MarkerFreeResolvesToItself("Rooting Reflex");
  }

  /** A video name used as an id is not a key of the table, so it gets the fallback name. */
  lemma RootingReflexFallbackName()
    ensures VideoName("Rooting Reflex") == "Video Rooting ..."
  {
    OnlyElevenCharIdsNamed("Rooting Reflex");
    VideoNameFallback("Rooting Reflex");
    assert Take("Rooting Reflex", 8) == "Rooting ";
  }

  lemma FallbackLower()
    ensures ToLower("Video Rooting ...") == "video rooting ..."
  {
  }

  lemma FallbackNoYoungerBandWord()
    ensures !MentionsAny("video rooting ...", ZeroToThreeWords)
    ensures !MentionsAny("video rooting ...", FourToSixWords)
  {
    var lower := "video rooting ...";
    AbsentChar(lower, "reflex", 5);
    AbsentChar(lower, "head stability", 0);
    AbsentChar(lower, "symmetry", 1);
    AbsentChar(lower, "sitting with support", 8);
    AbsentChar(lower, "turning", 1);
    AbsentPair(lower, "rolling", 2);
  }

  lemma FallbackNoOlderBandWord()
    ensures !MentionsAny("video rooting ...", SevenToNineWords)
    ensures !MentionsAny("video rooting ...", TenToTwelveWords)
  {
    var lower := "video rooting ...";
    AbsentChar(lower, "crawl", 0);
    AbsentChar(lower, "reaching", 3);
    AbsentChar(lower, "hidden toys", 0);
    AbsentChar(lower, "stand", 0);
    AbsentChar(lower, "walk", 0);
    AbsentChar(lower, "cup", 0);
  }

  /** Classifying the name "Rooting Reflex" as if it were an id gives 'Development'. */
  lemma RootingReflexNameIsDevelopment()
    ensures VideoCategory("Rooting Reflex") == Development
  {
    RootingReflexAsId();
    RootingReflexFallbackName();
    FallbackLower();
    FallbackNoYoungerBandWord();
    FallbackNoOlderBandWord();
  }

  // ---------------------------------------------------------------------------
  // Skill domains of two names.
  // ---------------------------------------------------------------------------

  /** "head" is a motor word, so motor wins over the later "sound". */
  lemma TurningHeadIsMotor()
    ensures DevelopmentalCategory("Turning head towards sounds") == MotorSkills
  {
    var lower := ToLower("Turning head towards sounds");
    assert lower[8..12] == "head";
    ContainsAt(lower, "head", 8);
    assert "head" in MotorWords;
  }

  lemma SmilingLower()
    ensures ToLower("Smiling at the mirror") == "smiling at the mirror"
  {
  }

  lemma SmilingNoEarlyMotorWord()
    ensures !Contains("smiling at the mirror", "reflex") && !Contains("smiling at the mirror", "grasp")
    ensures !Contains("smiling at the mirror", "crawling") && !Contains("smiling at the mirror", "sitting")
    ensures !Contains("smiling at the mirror", "walking")
  {
    var lower := "smiling at the mirror";
    AbsentChar(lower, "reflex", 5);
    AbsentChar(lower, "grasp", 4);
    AbsentChar(lower, "crawling", 0);
    AbsentPair(lower, "sitting", 0);
    AbsentChar(lower, "walking", 0);
  }

  lemma SmilingNoLateMotorWord()
    ensures !Contains("smiling at the mirror", "hand") && !Contains("smiling at the mirror", "leg")
    ensures !Contains("smiling at the mirror", "head") && !Contains("smiling at the mirror", "stand")
  {
    var lower := "smiling at the mirror";
    AbsentPair(lower, "hand", 0);
    AbsentPair(lower, "leg", 0);
    AbsentPair(lower, "head", 1);
    AbsentPair(lower, "stand", 0);
  }

  lemma SmilingNoMotorWord()
    ensures !MentionsAny("smiling at the mirror", MotorWords)
  {
    SmilingNoEarlyMotorWord();
    SmilingNoLateMotorWord();
  }

  lemma SmilingNoCommunicationWord()
    ensures !MentionsAny("smiling at the mirror", CommunicationWords)
  {
    var lower := "smiling at the mirror";
    AbsentChar(lower, "sound", 2);
    AbsentChar(lower, "word", 0);
    AbsentChar(lower, "babbling", 0);
    AbsentPair(lower, "imitating", 0);
    AbsentChar(lower, "cooing", 0);
  }

  lemma SmilingNoSocialWord()
    ensures !MentionsAny("smiling at the mirror", SocialWords)
  {
    var lower := "smiling at the mirror";
    AbsentChar(lower, "social", 2);
    AbsentPair(lower, "smile", 3);
    AbsentChar(lower, "playing", 0);
    AbsentPair(lower, "others", 0);
  }

  lemma SmilingNoCognitiveWord()
    ensures !MentionsAny("smiling at the mirror", CognitiveWords)
  {
    var lower := "smiling at the mirror";
    AbsentChar(lower, "following", 0);
    AbsentChar(lower, "object", 1);
    AbsentPair(lower, "searching", 0);
    AbsentPair(lower, "attention", 1);
  }

  /** "Smiling" holds none of the words ("smile" is not a prefix of "smiling"). */
  lemma SmilingIsGeneral()
    ensures DevelopmentalCategory("Smiling at the mirror") == General
  {
    SmilingLower();
    SmilingNoMotorWord();
    SmilingNoCommunicationWord();
    SmilingNoSocialWord();
    SmilingNoCognitiveWord();
  }

  lemma StartlingTamilIdMarkerFree()
    ensures MarkerFree("DCTcOSrQpNw")
  {
  }

  lemma SymmetryTamilIdMarkerFree()
    ensures MarkerFree("_oPTLw9iyyk")
  {
  }

  lemma RootingReflexIdMarkerFree()
    ensures MarkerFree("vmEHfOIf3M8")
  {
  }

  lemma RootingReflexAsIdMarkerFree()
    ensures MarkerFree("Rooting Reflex")
  {
  }
}
