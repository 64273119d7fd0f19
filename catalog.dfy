/**
 * The video catalogue: the fixed table of video names, the YouTube-ID
 * extractor, the age-band classifier and the skill-domain classifier
 * (src/lib/firestore.ts).
 */
module Catalog {

  import opened Types
  import opened Seqs
  import opened Text

  /**
   * The object literal mapping video IDs to the names the parent app shows,
   * as its list of entries in source order, section by section.
   */
  const NameTable: seq<(string, string)> :=
    ZeroToThreeNames + FourToSixNames + SevenToNineNames + TenToTwelveNames + TamilNames

  /** Videos for 0-3 months. */
  const ZeroToThreeNames: seq<(string, string)> := [
    ("vmEHfOIf3M8", "Rooting Reflex"),
    ("cnNg9oghuc8", "Sucking Reflex"),
    ("IpJz812Jslo", "Swallowing"),
    ("BIb2ruMlmRo", "Startling to loud noises"),
    ("9X8jjFlzX1Y", "Consolability"),
    ("llJ6DcIi7c8", "Social smile"),
    ("Y0MbbbzhRrw", "Cooing sound"),
    ("VIfB33mAdLo", "Symmetry of hand movements"),
    ("7S9j30fKYvU", "Symmetry of leg movements"),
    ("o2UXGUPsnD4", "Head Stability"),
    ("bTgc-hyMNIQ", "Following objects with eyes"),
    ("f18SUlyJbJA", "Keeping hands over chest")
  ]

  /** Videos for 4-6 months. */
  const FourToSixNames: seq<(string, string)> := [
    ("6MqV75uroG4", "Response to rattle or bell"),
    ("XQt3Q363lAw", "Using both hands equally"),
    ("eghObLb8i2g", "Turning to one side"),
    ("KJIeFr6WcPQ", "Put toy in the mouth"),
    ("LRNYakP5byo", "Holds head steady while sitting with support"),
    ("JkG3cnvuEho", "Reaching out to pick up an object"),
    ("yvi1V-WaOoQ", "Pronouncing simple words"),
    ("bQ57j8nc_sQ", "Turning head towards sounds"),
    ("JtRBQs_Xq4o", "Rolling over from back to tummy"),
    ("LVY8jGcwDRs", "Babbling and imitating sounds"),
    ("0st__3eDn2M", "Smiling at the mirror")
  ]

  /** Videos for 7-9 months. */
  const SevenToNineNames: seq<(string, string)> := [
    ("lnFqXal9l2w", "Hip flexibility"),
    ("e8yIkcKvgFc", "Looking down at dropped toys"),
    ("flVHUfD2DtE", "Sits with own hand supported on the floor"),
    ("ONIuVolMzpU", "Reaching for out of reach toys"),
    ("DLaddLe8x9o", "Searching for hidden toys"),
    ("0r-T16fHULw", "Listen when your baby uses \"Amma\" and \"Appa\""),
    ("_uBO52aLhe4", "Starting to crawl"),
    ("JP44oUguU6s", "Passing toy between hands"),
    ("ZiFvUvRt26Y", "Waving \"Bye-Bye\"")
  ]

  /** Videos for 10-12 months. */
  const TenToTwelveNames: seq<(string, string)> := [
    ("ARWC00IfAvo", "Imitating words"),
    ("qE-vUPDWI5g", "Pointing and naming"),
    ("5nuwScdws1U", "Sitting without support"),
    ("lLdO-9TKHnY", "Standing with support"),
    ("3Qy4cEqX_UY", "Crawling using hands and knees"),
    ("iIWaQdcmI2Q", "Pat-a-cake"),
    ("3gSogttQIvY", "Sitting up from lying down"),
    ("bWgTOWZcFuE", "Playing peek-a-boo"),
    ("F0K4oN8RcUo", "Joint attention"),
    ("pf_idoKpXYs", "Picking up small objects"),
    ("PPITg2_NPcs", "Playing with others"),
    ("JlEc_QnzSmU", "Walking with support"),
    ("-JzUNTk-jmA", "Drinking from a cup")
  ]

  /** Videos for Tamil versions of 0-3 months videos, with the English names and a suffix. */
  const TamilNames: seq<(string, string)> := [
    ("lZpDz-yq3TI", "Rooting Reflex (Tamil)"),
    ("g5BF_4VmRww", "Sucking Reflex (Tamil)"),
    ("UoHxgOYIZFE", "Swallowing (Tamil)"),
    ("DCTcOSrQpNw", "Startling to loud noises (Tamil)"),
    ("7TiVyAefjhA", "Consolability (Tamil)"),
    ("KRBBzniZvU0", "Social smile (Tamil)"),
    ("thC2XEt2r44", "Cooing sound (Tamil)"),
    ("_oPTLw9iyyk", "Symmetry of hand movements (Tamil)"),
    ("4IfghZgAm_U", "Symmetry of leg movements (Tamil)"),
    ("-2YnzBkh6vo", "Head Stability (Tamil)")
  ]

  /** An 11-character key and a name that is not empty and does not begin with 'V'. */
  predicate WellShaped(entries: seq<(string, string)>) {
    forall i :: 0 <= i < |entries| ==>
      |entries[i].0| == 11 && |entries[i].1| > 0 && entries[i].1[0] != 'V'
  }

  /**
   * Property lookup on an object literal: with a repeated key the last entry
   * wins.
   */
  function Lookup(table: seq<(string, string)>, key: string): (r: Option<string>)
    ensures r.Some? ==> exists i :: 0 <= i < |table| && table[i] == (key, r.value)
    ensures r.None? <==> forall i :: 0 <= i < |table| ==> table[i].0 != key
    decreases |table|
  {
    if table == [] then None
    else if table[|table| - 1].0 == key then Some(table[|table| - 1].1)
    else Lookup(table[..|table| - 1], key)
  }

  /** The entry at `i` is what a lookup finds when no later entry has the same key. */
  lemma {:induction false} LookupLast(table: seq<(string, string)>, i: nat)
    requires i < |table|
    requires forall j :: i < j < |table| ==> table[j].0 != table[i].0
    ensures Lookup(table, table[i].0) == Some(table[i].1)
    decreases |table|
  {
    if i < |table| - 1 {
      LookupLast(table[..|table| - 1], i);
    }
  }

  /** Every key of the table is an 11-character ID, and no name is empty or begins with 'V'. */
  lemma NameTableShape()
    ensures WellShaped(NameTable)
  {
    SectionsShaped();
    var a, b, c, d, e := ZeroToThreeNames, FourToSixNames, SevenToNineNames, TenToTwelveNames, TamilNames;
    WellShapedAppend(a, b);
    WellShapedAppend(a + b, c);
    WellShapedAppend(a + b + c, d);
    WellShapedAppend(a + b + c + d, e);
  }

  lemma SectionsShaped()
    ensures WellShaped(ZeroToThreeNames) && WellShaped(FourToSixNames) && WellShaped(SevenToNineNames)
    ensures WellShaped(TenToTwelveNames) && WellShaped(TamilNames)
  {
    ZeroToThreeShaped();
    FourToSixShaped();
    SevenToNineShaped();
    TenToTwelveShaped();
    TamilShaped();
  }

  lemma ZeroToThreeShaped() ensures WellShaped(ZeroToThreeNames) {}
  lemma FourToSixShaped() ensures WellShaped(FourToSixNames) {}
  lemma SevenToNineShaped() ensures WellShaped(SevenToNineNames) {}
  lemma TenToTwelveShaped() ensures WellShaped(TenToTwelveNames) {}
  lemma TamilShaped() ensures WellShaped(TamilNames) {}

  lemma WellShapedAppend(a: seq<(string, string)>, b: seq<(string, string)>)
    requires WellShaped(a) && WellShaped(b)
    ensures WellShaped(a + b)
  {
    forall i | 0 <= i < |a + b| ensures |(a + b)[i].0| == 11 && |(a + b)[i].1| > 0 && (a + b)[i].1[0] != 'V' {
      if i >= |a| {
        assert (a + b)[i] == b[i - |a|];
      }
    }
  }

  /** The name `table` gives `id`, or the fallback built from the id's first eight characters. */
  function NameFrom(table: seq<(string, string)>, id: string): (name: string)
    requires WellShaped(table)
    ensures |name| > 0
  {
    match Lookup(table, id)
    case Some(n) => n
    case None => "Video " + Take(id, 8) + "..."
  }

  /** `VIDEO_NAME_MAP[id] || "Video " + id.slice(0, 8) + "..."`. */
  function VideoName(id: string): (name: string)
    ensures |name| > 0
  {
    NameTableShape();
    NameFrom(NameTable, id)
  }

  /** `id` is a key of the name table. */
  predicate Named(id: string) {
    exists i :: 0 <= i < |NameTable| && NameTable[i].0 == id
  }

  lemma {:induction false} NameFromFallback(table: seq<(string, string)>, id: string)
    requires WellShaped(table)
    ensures StartsWith(NameFrom(table, id), "Video ") <==> Lookup(table, id).None?
    ensures Lookup(table, id).None? ==>
      |NameFrom(table, id)| == 9 + Min(|id|, 8) && NameFrom(table, id)[6..|NameFrom(table, id)| - 3] == id[..Min(|id|, 8)]
  {
    var name := NameFrom(table, id);
    if Lookup(table, id).Some? {
      var i :| 0 <= i < |table| && table[i] == (id, name);
      assert name[0] != 'V';
    } else {
      assert name[6..|name| - 3] == Take(id, 8);
    }
  }

  /**
   * A name starts with "Video " exactly when the id is not in the table, and
   * then it carries the id's first eight characters, or the whole id if shorter.
   */
  lemma VideoNameFallback(id: string)
    ensures StartsWith(VideoName(id), "Video ") <==> !Named(id)
    ensures !Named(id) ==>
      |VideoName(id)| == 9 + Min(|id|, 8) && VideoName(id)[6..|VideoName(id)| - 3] == id[..Min(|id|, 8)]
  {
    NameTableShape();
    NameFromFallback(NameTable, id);
  }

  /** An id that is not 11 characters long is never in the table. */
  lemma OnlyElevenCharIdsNamed(id: string)
    requires |id| != 11
    ensures !Named(id)
  {
    NameTableShape();
  }

  // ---------------------------------------------------------------------------
  // YouTube-ID extraction
  // ---------------------------------------------------------------------------

  /** `\w`: an ASCII letter, digit or underscore. */
  predicate IsWordChar(c: char) {
    'a' <= c <= 'z' || 'A' <= c <= 'Z' || '0' <= c <= '9' || c == '_'
  }

  /** A character the ID group `[^#&?]` accepts. */
  predicate IsIdChar(c: char) {
    c != '#' && c != '&' && c != '?'
  }

  /** The end of the longest run of word characters starting at `i`. */
  function WordRunEnd(s: string, i: nat): (j: nat)
    requires i <= |s|
    ensures i <= j <= |s|
    ensures forall k :: i <= k < j ==> IsWordChar(s[k])
    ensures j == |s| || !IsWordChar(s[j])
    decreases |s| - i
  {
    if i < |s| && IsWordChar(s[i]) then WordRunEnd(s, i + 1) else i
  }

  /** The end of the longest run of ID characters starting at `i`. */
  function IdRunEnd(s: string, i: nat): (j: nat)
    requires i <= |s|
    ensures i <= j <= |s|
    ensures forall k :: i <= k < j ==> IsIdChar(s[k])
    ensures j == |s| || !IsIdChar(s[j])
    decreases |s| - i
  {
    if i < |s| && IsIdChar(s[i]) then IdRunEnd(s, i + 1) else i
  }

  /** `lit` occurs in `s` at position `p`. */
  predicate LiteralAt(s: string, p: nat, lit: string) {
    p + |lit| <= |s| && forall k :: p <= k < p + |lit| ==> s[k] == lit[k - p]
  }

  /**
   * Where the marker group `(youtu.be/|v/|e/|u/\w+/|embed/|shorts/|v=)` ends
   * when it matches at position `p`. At most one alternative can match at a
   * position, so the order of the alternatives does not matter.
   */
  function MarkerEnd(s: string, p: nat): (e: Option<nat>)
    requires p <= |s|
    ensures e.Some? ==> p + 2 <= e.value <= |s| && (s[e.value - 1] == '/' || s[e.value - 1] == '=')
  {
    if LiteralAt(s, p, "youtu") && LiteralAt(s, p + 6, "be/") then
      assert s[p + 6 + 2] == "be/"[2];
      Some(p + 9)
    else if LiteralAt(s, p, "v/") then
      assert s[p + 1] == "v/"[1];
      Some(p + 2)
    else if LiteralAt(s, p, "e/") then
      assert s[p + 1] == "e/"[1];
      Some(p + 2)
    else if LiteralAt(s, p, "u/") && p + 2 < WordRunEnd(s, p + 2) < |s| && s[WordRunEnd(s, p + 2)] == '/' then
      Some(WordRunEnd(s, p + 2) + 1)
    else if LiteralAt(s, p, "embed/") then
      assert s[p + 5] == "embed/"[5];
      Some(p + 6)
    else if LiteralAt(s, p, "shorts/") then
      assert s[p + 6] == "shorts/"[6];
      Some(p + 7)
    else if LiteralAt(s, p, "v=") then
      assert s[p + 1] == "v="[1];
      Some(p + 2)
    else None
  }

  /** No marker matches at a position after `lo` and up to `hi`. */
  ghost predicate NoMarkerIn(s: string, lo: int, hi: nat)
    requires hi <= |s|
  {
    forall q: nat :: lo < q <= hi ==> MarkerEnd(s, q).None?
  }

  /**
   * The greedy `^.*` in front of the marker group: the last position at or
   * before `p` where a marker matches.
   */
  function LastMarker(s: string, p: nat): (r: Option<nat>)
    requires p <= |s|
    ensures r.Some? ==> r.value <= p && MarkerEnd(s, r.value).Some?
    decreases p
  {
    if MarkerEnd(s, p).Some? then Some(p)
    else if p == 0 then None
    else LastMarker(s, p - 1)
  }

  /** No marker matches after the one `LastMarker` finds; when it finds none, none matches at all. */
  lemma {:induction false} LastMarkerIsLast(s: string, p: nat)
    requires p <= |s|
    ensures LastMarker(s, p).Some? ==> NoMarkerIn(s, LastMarker(s, p).value, p)
    ensures LastMarker(s, p).None? ==> NoMarkerIn(s, -1, p)
    decreases p
  {
    if MarkerEnd(s, p).None? && p > 0 {
      LastMarkerIsLast(s, p - 1);
    }
  }

  /**
   * `extractYouTubeId`: the longest run of characters other than `#`, `&`
   * and `?` right after the last marker, accepted only when it is 11
   * characters long.
   */
  function ExtractYouTubeId(url: string): (r: Option<string>)
    ensures url == [] ==> r == None
    ensures r.Some? ==> |r.value| == 11 && forall i :: 0 <= i < 11 ==> IsIdChar(r.value[i])
    ensures r.Some? ==> exists p :: (0 <= p <= |url| && MarkerEnd(url, p).Some?
      && NoMarkerIn(url, p, |url|)
      && LiteralAt(url, MarkerEnd(url, p).value, r.value)
      && (MarkerEnd(url, p).value + 11 == |url| || !IsIdChar(url[MarkerEnd(url, p).value + 11])))
  {
    if url == [] then None
    else
      LastMarkerIsLast(url, |url|);
      match LastMarker(url, |url|)
      case None => None
      case Some(p) => IdAt(url, MarkerEnd(url, p).value)
  }

  /** The run of ID characters starting at `e`, accepted only when it is 11 characters long. */
  function IdAt(url: string, e: nat): (r: Option<string>)
    requires e <= |url|
    ensures r.Some? ==> |r.value| == 11 && LiteralAt(url, e, r.value)
    ensures r.Some? ==> forall i :: 0 <= i < 11 ==> IsIdChar(r.value[i])
    ensures r.Some? ==> e + 11 == |url| || !IsIdChar(url[e + 11])
  {
    var id := url[e..IdRunEnd(url, e)];
    if |id| == 11 then Some(id) else None
  }

  /** No `/` and no `=` occurs in `s`. */
  predicate MarkerFree(s: string) {
    forall i :: 0 <= i < |s| ==> s[i] != '/' && s[i] != '='
  }

  /** Every marker holds a `/` or a `=`, so text without them never yields an ID. */
  lemma MarkerFreeHasNoId(url: string)
    requires MarkerFree(url)
    ensures ExtractYouTubeId(url) == None
  {
  }

  /** Text without `/` or `=` is taken as an id as it stands. */
  lemma MarkerFreeResolvesToItself(videoId: string)
    requires MarkerFree(videoId)
    ensures ResolveId(videoId) == videoId
  {
    MarkerFreeHasNoId(videoId);
  }

  /** No marker starts in a stretch of text without `/` or `=` that runs to the end. */
  lemma NoMarkerInTail(s: string, from: nat)
    requires from <= |s|
    requires forall i :: from <= i < |s| ==> s[i] != '/' && s[i] != '='
    ensures NoMarkerIn(s, from - 1, |s|)
  {
  }

  /** A marker with none after it is the one the greedy prefix stops at. */
  lemma LastMarkerAt(s: string, p: nat)
    requires p <= |s| && MarkerEnd(s, p).Some? && NoMarkerIn(s, p, |s|)
    ensures LastMarker(s, |s|) == Some(p)
  {
    LastMarkerIsLast(s, |s|);
  }

  /** The run of ID characters at `e` ends right after `id` when the next character stops it. */
  lemma IdRunAt(s: string, e: nat, id: string)
    requires LiteralAt(s, e, id) && |id| == 11
    requires forall i :: 0 <= i < |id| ==> IsIdChar(id[i])
    requires e + 11 == |s| || (e + 11 < |s| && !IsIdChar(s[e + 11]))
    ensures IdAt(s, e) == Some(id)
  {
    forall k | e <= k < e + 11 ensures IsIdChar(s[k]) {
      assert s[k] == id[k - e];
    }
    assert IdRunEnd(s, e) == e + 11;
    assert s[e..e + 11] == id;
  }

  /** The ID is read up to the first `#`, `&` or `?` after the marker, or the end. */
  lemma ReadsIdAfter(s: string, p: nat, id: string)
    requires p <= |s|
    requires MarkerEnd(s, p).Some? && NoMarkerIn(s, p, |s|)
    requires LiteralAt(s, MarkerEnd(s, p).value, id) && |id| == 11
    requires forall i :: 0 <= i < |id| ==> IsIdChar(id[i])
    requires MarkerEnd(s, p).value + 11 == |s| || !IsIdChar(s[MarkerEnd(s, p).value + 11])
    ensures ExtractYouTubeId(s) == Some(id)
  {
    LastMarkerAt(s, p);
    IdRunAt(s, MarkerEnd(s, p).value, id);
    assert ExtractYouTubeId(s) == IdAt(s, MarkerEnd(s, p).value);
  }

  /**
   * A link whose last marker is one of the two-character markers `v=`, `v/`
   * or `e/` (`watch?v=…`, `/v/…`, `youtu.be/…`, `/live/…`), followed by an
   * 11-character ID and then nothing, or a `#`, `&` or `?` and text without
   * `/` or `=`, yields that ID.
   */
  lemma TwoCharMarkerLink(prefix: string, id: string, rest: string)
    requires |prefix| >= 2 && prefix[|prefix| - 2..] in ["v=", "v/", "e/"]
    requires |id| == 11 && forall i :: 0 <= i < 11 ==> IsIdChar(id[i]) && id[i] != '/' && id[i] != '='
    requires rest == [] || !IsIdChar(rest[0])
    requires forall i :: 0 <= i < |rest| ==> rest[i] != '/' && rest[i] != '='
    ensures ExtractYouTubeId(prefix + id + rest) == Some(id)
  {
    var s := prefix + id + rest;
    var p := |prefix| - 2;
    assert s[p..p + 2] == prefix[|prefix| - 2..];
    assert MarkerEnd(s, p) == Some(|prefix|);
    assert s[p + 1] == prefix[|prefix| - 1];
    assert MarkerEnd(s, p + 1).None?;
    NoMarkerInTail(s, |prefix|);
    assert s[|prefix|..|prefix| + 11] == id;
    ReadsIdAfter(s, p, id);
  }

  /** A `shorts/` marker ends right after its slash. */
  lemma ShortsMarker(s: string, p: nat)
    requires LiteralAt(s, p, "shorts/")
    ensures MarkerEnd(s, p) == Some(p + 7)
  {
    assert s[p] == 's' && s[p + 1] == 'h';
  }

  /** No other marker starts inside `shorts/`. */
  lemma InsideShortsMarker(s: string, p: nat)
    requires LiteralAt(s, p, "shorts/")
    ensures forall q :: p < q < p + 7 ==> MarkerEnd(s, q).None?
  {
    assert s[p + 1] == 'h' && s[p + 2] == 'o' && s[p + 3] == 'r';
    assert s[p + 4] == 't' && s[p + 5] == 's' && s[p + 6] == '/';
    forall q | p < q < p + 7 ensures MarkerEnd(s, q).None? {
      NoMarkerAt(s, q);
    }
  }

  /**
   * Every marker begins with 'y', 'v', 'e', 'u' or "sh", so no marker starts
   * at any other character.
   */
  lemma NoMarkerAt(s: string, q: nat)
    requires q < |s|
    requires s[q] !in "yveus" || (s[q] == 's' && (q + 1 == |s| || s[q + 1] != 'h'))
    ensures MarkerEnd(s, q).None?
  {
    assert !LiteralAt(s, q, "youtu") && !LiteralAt(s, q, "v/") && !LiteralAt(s, q, "e/");
    assert !LiteralAt(s, q, "u/") && !LiteralAt(s, q, "embed/") && !LiteralAt(s, q, "v=");
    assert !LiteralAt(s, q, "shorts/");
  }

  /** A `…/shorts/<id>` link yields the ID. */
  lemma ShortsLink(prefix: string, id: string, rest: string)
    requires |prefix| >= 7 && prefix[|prefix| - 7..] == "shorts/"
    requires |id| == 11 && forall i :: 0 <= i < 11 ==> IsIdChar(id[i]) && id[i] != '/' && id[i] != '='
    requires rest == [] || !IsIdChar(rest[0])
    requires forall i :: 0 <= i < |rest| ==> rest[i] != '/' && rest[i] != '='
    ensures ExtractYouTubeId(prefix + id + rest) == Some(id)
  {
    var s := prefix + id + rest;
    var p := |prefix| - 7;
    forall k | p <= k < p + 7 ensures s[k] == "shorts/"[k - p] {
      assert s[k] == prefix[|prefix| - 7..][k - p];
    }
    ShortsMarker(s, p);
    InsideShortsMarker(s, p);
    NoMarkerInTail(s, |prefix|);
    assert s[|prefix|..|prefix| + 11] == id;
    ReadsIdAfter(s, p, id);
  }

  /** `extractYouTubeId(videoId) || videoId`: a link resolves to its ID, anything else to itself. */
  function ResolveId(videoId: string): (id: string)
    ensures ExtractYouTubeId(videoId).Some? ==> |id| == 11
    ensures ExtractYouTubeId(videoId).None? ==> id == videoId
  {
    match ExtractYouTubeId(videoId)
    case Some(x) => x
    case None => videoId
  }

  /** A lookup in a concatenation looks in the later part first. */
  lemma {:induction false} LookupAppend(a: seq<(string, string)>, b: seq<(string, string)>, key: string)
    ensures Lookup(a + b, key) == if Lookup(b, key).Some? then Lookup(b, key) else Lookup(a, key)
    decreases |b|
  {
    if b == [] {
      assert a + b == a;
    } else {
      assert (a + b)[..|a + b| - 1] == a + b[..|b| - 1];
      LookupAppend(a, b[..|b| - 1], key);
    }
  }

  /** No entry of `table` from position `lo` on has the key `key`: they differ at character `k`. */
  predicate KeysDifferAt(table: seq<(string, string)>, lo: nat, key: string, k: nat) {
    k < |key| && forall i :: lo <= i < |table| ==> k < |table[i].0| && table[i].0[k] != key[k]
  }

  /** The entry at `i` is found when the later keys differ from its key at some character. */
  lemma LookupFound(table: seq<(string, string)>, i: nat, k: nat)
    requires i < |table| && KeysDifferAt(table, i + 1, table[i].0, k)
    ensures Lookup(table, table[i].0) == Some(table[i].1)
  {
    LookupLast(table, i);
  }

  /** A key is absent when every key of the table differs from it at some character. */
  lemma LookupMissing(table: seq<(string, string)>, key: string, k: nat)
    requires KeysDifferAt(table, 0, key, k)
    ensures Lookup(table, key) == None
  {
  }

  /** `id` is not in `list`: every element differs from it at character `k`. */
  lemma NotInByChar(list: seq<string>, id: string, k: nat)
    requires k < |id| && forall i :: 0 <= i < |list| ==> k < |list[i]| && list[i][k] != id[k]
    ensures id !in list
  {
  }

  // ---------------------------------------------------------------------------
  // Age bands
  // ---------------------------------------------------------------------------

  /** The age band `getVideoCategory` assigns; `Development` is the default. */
  datatype AgeBand = ZeroToThreeMonths | FourToSixMonths | SevenToNineMonths | TenToTwelveMonths | Development

  function AgeBandLabel(band: AgeBand): string {
    match band
    case ZeroToThreeMonths => "0-3 Months"
    case FourToSixMonths => "4-6 Months"
    case SevenToNineMonths => "7-9 Months"
    case TenToTwelveMonths => "10-12 Months"
    case Development => "Development"
  }

  /** Different bands are shown with different labels. */
  lemma AgeBandLabelsDistinct(a: AgeBand, b: AgeBand)
    requires a != b
    ensures AgeBandLabel(a) != AgeBandLabel(b)
  {
  }

  const ZeroToThreeIds: seq<string> := [
        "vmEHfOIf3M8", "cnNg9oghuc8", "IpJz812Jslo", "BIb2ruMlmRo", "9X8jjFlzX1Y",
        "llJ6DcIi7c8", "Y0MbbbzhRrw", "VIfB33mAdLo", "7S9j30fKYvU", "o2UXGUPsnD4",
        "bTgc-hyMNIQ", "f18SUlyJbJA", "lZpDz-yq3TI", "g5BF_4VmRww", "UoHxgOYIZFE"]
  const FourToSixIds: seq<string> := [
        "6MqV75uroG4", "XQt3Q363lAw", "eghObLb8i2g", "KJIeFr6WcPQ", "LRNYakP5byo",
        "JkG3cnvuEho", "yvi1V-WaOoQ", "bQ57j8nc_sQ", "JtRBQs_Xq4o", "LVY8jGcwDRs",
        "0st__3eDn2M"]
  const SevenToNineIds: seq<string> := [
        "lnFqXal9l2w", "e8yIkcKvgFc", "flVHUfD2DtE", "ONIuVolMzpU", "DLaddLe8x9o",
        "0r-T16fHULw", "_uBO52aLhe4", "JP44oUguU6s", "ZiFvUvRt26Y"]
  const TenToTwelveIds: seq<string> := [
        "ARWC00IfAvo", "qE-vUPDWI5g", "5nuwScdws1U", "lLdO-9TKHnY", "3Qy4cEqX_UY",
        "iIWaQdcmI2Q", "3gSogttQIvY", "bWgTOWZcFuE", "F0K4oN8RcUo", "pf_idoKpXYs",
        "PPITg2_NPcs", "JlEc_QnzSmU", "-JzUNTk-jmA"]

  const ZeroToThreeWords: seq<string> := ["reflex", "head stability", "symmetry"]
  const FourToSixWords: seq<string> := ["sitting with support", "turning", "rolling"]
  const SevenToNineWords: seq<string> := ["crawl", "reaching", "hidden toys"]
  const TenToTwelveWords: seq<string> := ["stand", "walk", "cup"]

  /** `lower.includes(w1) || lower.includes(w2) || ...` over the words of `words`. */
  predicate MentionsAny(lower: string, words: seq<string>) {
    exists w :: w in words && Contains(lower, w)
  }

  /** The keyword rules, tried band by band on the lower-cased name. */
  function BandByKeywords(lower: string): AgeBand {
    if MentionsAny(lower, ZeroToThreeWords) then ZeroToThreeMonths
    else if MentionsAny(lower, FourToSixWords) then FourToSixMonths
    else if MentionsAny(lower, SevenToNineWords) then SevenToNineMonths
    else if MentionsAny(lower, TenToTwelveWords) then TenToTwelveMonths
    else Development
  }

  /** The resolved id is in one of the four ID lists. */
  predicate Listed(id: string) {
    id in ZeroToThreeIds || id in FourToSixIds || id in SevenToNineIds || id in TenToTwelveIds
  }

  /**
   * `getVideoCategory`: the ID lists in the order 0-3, 4-6, 7-9, 10-12, then
   * the keyword rules on the lower-cased name of the resolved id.
   */
  function VideoCategory(videoId: string): AgeBand {
    BandOfId(ResolveId(videoId))
  }

  /** The band of an already resolved id. */
  function BandOfId(id: string): AgeBand {
    BandOf(id, VideoName(id))
  }

  /** The ID lists first, then the keyword rules on the lower-cased `name`. */
  function BandOf(id: string, name: string): AgeBand {
    if id in ZeroToThreeIds then ZeroToThreeMonths
    else if id in FourToSixIds then FourToSixMonths
    else if id in SevenToNineIds then SevenToNineMonths
    else if id in TenToTwelveIds then TenToTwelveMonths
    else BandByKeywords(ToLower(name))
  }

  /** Whatever the name, the default band is given exactly when neither the lists nor the keywords place it. */
  lemma BandOfDefault(id: string, name: string)
    ensures BandOf(id, name) == Development <==>
      var lower := ToLower(name);
      && !Listed(id)
      && !MentionsAny(lower, ZeroToThreeWords) && !MentionsAny(lower, FourToSixWords)
      && !MentionsAny(lower, SevenToNineWords) && !MentionsAny(lower, TenToTwelveWords)
  {
  }

  /** A listed id gets its list's band, whatever its name says. */
  lemma ListedIdsIgnoreName(videoId: string)
    ensures ResolveId(videoId) in ZeroToThreeIds ==> VideoCategory(videoId) == ZeroToThreeMonths
    ensures ResolveId(videoId) in FourToSixIds && ResolveId(videoId) !in ZeroToThreeIds ==>
      VideoCategory(videoId) == FourToSixMonths
    ensures (ResolveId(videoId) in SevenToNineIds && ResolveId(videoId) !in ZeroToThreeIds
             && ResolveId(videoId) !in FourToSixIds) ==>
      VideoCategory(videoId) == SevenToNineMonths
    ensures (ResolveId(videoId) in TenToTwelveIds && ResolveId(videoId) !in ZeroToThreeIds
             && ResolveId(videoId) !in FourToSixIds && ResolveId(videoId) !in SevenToNineIds) ==>
      VideoCategory(videoId) == TenToTwelveMonths
    ensures Listed(ResolveId(videoId)) ==> VideoCategory(videoId) != Development
  {
  }

  /**
   * The default: 'Development' exactly when the resolved id is in no list and
   * its lower-cased name holds none of the twelve keywords.
   */
  lemma VideoCategoryDefault(videoId: string)
    ensures VideoCategory(videoId) == Development <==>
      var lower := ToLower(VideoName(ResolveId(videoId)));
      && !Listed(ResolveId(videoId))
      && !MentionsAny(lower, ZeroToThreeWords) && !MentionsAny(lower, FourToSixWords)
      && !MentionsAny(lower, SevenToNineWords) && !MentionsAny(lower, TenToTwelveWords)
  {
    BandOfDefault(ResolveId(videoId), VideoName(ResolveId(videoId)));
  }

  /** An unlisted id whose name mentions a 0-3 keyword is 0-3, whatever else it mentions. */
  lemma KeywordPriority(videoId: string, w: string)
    requires !Listed(ResolveId(videoId))
    requires w in ZeroToThreeWords && Contains(ToLower(VideoName(ResolveId(videoId))), w)
    ensures VideoCategory(videoId) == ZeroToThreeMonths
  {
  }

  /**
   * For an id in no list, the keyword rules are tried first match wins: each
   * band is given exactly when its words are mentioned and no earlier band's are.
   */
  lemma KeywordChain(videoId: string)
    requires !Listed(ResolveId(videoId))
    ensures var lower := ToLower(VideoName(ResolveId(videoId)));
      VideoCategory(videoId) == ZeroToThreeMonths <==> MentionsAny(lower, ZeroToThreeWords)
    ensures var lower := ToLower(VideoName(ResolveId(videoId)));
      VideoCategory(videoId) == FourToSixMonths <==>
        !MentionsAny(lower, ZeroToThreeWords) && MentionsAny(lower, FourToSixWords)
    ensures var lower := ToLower(VideoName(ResolveId(videoId)));
      VideoCategory(videoId) == SevenToNineMonths <==>
        !MentionsAny(lower, ZeroToThreeWords) && !MentionsAny(lower, FourToSixWords)
        && MentionsAny(lower, SevenToNineWords)
    ensures var lower := ToLower(VideoName(ResolveId(videoId)));
      VideoCategory(videoId) == TenToTwelveMonths <==>
        !MentionsAny(lower, ZeroToThreeWords) && !MentionsAny(lower, FourToSixWords)
        && !MentionsAny(lower, SevenToNineWords) && MentionsAny(lower, TenToTwelveWords)
  {
  }

  /** A YouTube link is classified like the bare ID it carries. */
  lemma LinkClassifiedLikeId(prefix: string, id: string)
    requires |prefix| >= 2 && prefix[|prefix| - 2..] in ["v=", "v/", "e/"]
    requires |id| == 11 && forall i :: 0 <= i < 11 ==> IsIdChar(id[i]) && id[i] != '/' && id[i] != '='
    ensures VideoCategory(prefix + id) == VideoCategory(id)
  {
    TwoCharMarkerLink(prefix, id, []);
    assert prefix + id + [] == prefix + id;
    MarkerFreeHasNoId(id);
    assert ResolveId(prefix + id) == id == ResolveId(id);
  }

  // ---------------------------------------------------------------------------
  // Skill domains
  // ---------------------------------------------------------------------------

  /** The skill domain `getDevelopmentalCategory` assigns; `General` is shown as 'Development'. */
  datatype SkillDomain = MotorSkills | Communication | SocialEmotional | Cognitive | General

  function SkillDomainLabel(domain: SkillDomain): string {
    match domain
    case MotorSkills => "Motor Skills"
    case Communication => "Communication"
    case SocialEmotional => "Social-Emotional"
    case Cognitive => "Cognitive"
    case General => "Development"
  }

  /** Different domains are shown with different labels. */
  lemma SkillDomainLabelsDistinct(a: SkillDomain, b: SkillDomain)
    requires a != b
    ensures SkillDomainLabel(a) != SkillDomainLabel(b)
  {
  }

  const MotorWords: seq<string> :=
    ["reflex", "grasp", "crawling", "sitting", "walking", "hand", "leg", "head", "stand"]
  const CommunicationWords: seq<string> := ["sound", "word", "babbling", "imitating", "cooing"]
  const SocialWords: seq<string> := ["social", "smile", "playing", "others"]
  const CognitiveWords: seq<string> := ["following", "object", "searching", "attention"]

  /** `getDevelopmentalCategory`: the first domain one of whose words the lower-cased name holds. */
  function DevelopmentalCategory(videoName: string): SkillDomain {
    var lower := ToLower(videoName);
    if MentionsAny(lower, MotorWords) then MotorSkills
    else if MentionsAny(lower, CommunicationWords) then Communication
    else if MentionsAny(lower, SocialWords) then SocialEmotional
    else if MentionsAny(lower, CognitiveWords) then Cognitive
    else General
  }

  /** Upper- and lower-case letters in the name make no difference. */
  lemma DevelopmentalCategoryIgnoresCase(videoName: string)
    ensures DevelopmentalCategory(ToLower(videoName)) == DevelopmentalCategory(videoName)
  {
    ToLowerIdempotent(videoName);
  }

  /**
   * First match wins: each domain is chosen exactly when the name holds one
   * of its words and none of an earlier domain's.
   */
  lemma DevelopmentalCategoryPriority(videoName: string)
    ensures var lower := ToLower(videoName);
      && (DevelopmentalCategory(videoName) == MotorSkills <==> MentionsAny(lower, MotorWords))
      && (DevelopmentalCategory(videoName) == Communication <==>
            !MentionsAny(lower, MotorWords) && MentionsAny(lower, CommunicationWords))
      && (DevelopmentalCategory(videoName) == SocialEmotional <==>
            !MentionsAny(lower, MotorWords) && !MentionsAny(lower, CommunicationWords)
            && MentionsAny(lower, SocialWords))
      && (DevelopmentalCategory(videoName) == Cognitive <==>
            !MentionsAny(lower, MotorWords) && !MentionsAny(lower, CommunicationWords)
            && !MentionsAny(lower, SocialWords) && MentionsAny(lower, CognitiveWords))
      && (DevelopmentalCategory(videoName) == General <==>
            !MentionsAny(lower, MotorWords) && !MentionsAny(lower, CommunicationWords)
            && !MentionsAny(lower, SocialWords) && !MentionsAny(lower, CognitiveWords))
  {
  }
}
