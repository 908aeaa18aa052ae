/** Reading equipment strings (client/src/components/ui/equipment-icons.tsx):
    the count and the name shown for an item such as "20 x Footballs", the
    icon chosen by keyword, and the equipment list read out of a practice's
    setup text, with estimates when the text names none. */
module EquipmentIcons {
  import opened Wrappers
  import opened Text

  // ---------------------------------------------------------------------
  // Count and name of one item

  /** `parseEquipmentCount`: the value of the first run of digits anywhere in
      the item (the pattern is not anchored), or 1 when there is none. */
  function ParseEquipmentCount(item: string): (n: nat)
    ensures (forall i | 0 <= i < |item| :: !IsDigit(item[i])) ==> n == 1
    ensures (exists i | 0 <= i < |item| :: IsDigit(item[i])) ==>
      exists p, q | 0 <= p < q <= |item| ::
        && (forall i | 0 <= i < p :: !IsDigit(item[i]))
        && AllDigits(item[p..q]) && (q == |item| || !IsDigit(item[q]))
        && n == DigitsValue(item[p..q])
  {
    var p := SkipWhile(item, 0, NonDigit);
    if p == |item| then 1
    else
      var q := SkipWhile(item, p, Digit);
      assert AllDigits(item[p..q]) by {
        forall i | 0 <= i < q - p ensures IsDigit(item[p..q][i]) {
          assert item[p..q][i] == item[p + i];
        }
      }
      DigitsValue(item[p..q])
  }

  /** Where the parts of the prefix `^\d+\s*x?\s*` that `getEquipmentName`
      removes end: the digits, the whitespace after them, the optional `x`
      (or `X`: the pattern ignores case) and the whitespace after that. */
  datatype Prefix = Prefix(digitsEnd: nat, xStart: nat, xEnd: nat, end: nat)

  /** The prefix the pattern matches, which is greedy: each part is as long
      as it can be. An item that does not start with a digit has none. */
  function CountPrefix(item: string): (p: Prefix)
    ensures p.digitsEnd <= p.xStart <= p.xEnd <= p.end <= |item|
    ensures forall k | 0 <= k < p.digitsEnd :: IsDigit(item[k])
    ensures p.digitsEnd == |item| || !IsDigit(item[p.digitsEnd])
    ensures p.digitsEnd == 0 ==> p.end == 0
    ensures p.digitsEnd > 0 ==> forall k | p.digitsEnd <= k < p.xStart :: IsSpace(item[k])
    ensures p.digitsEnd > 0 ==> p.xStart == |item| || !IsSpace(item[p.xStart])
    ensures p.xEnd == p.xStart || p.xEnd == p.xStart + 1
    ensures p.digitsEnd > 0 ==> (p.xEnd == p.xStart + 1 <==> p.xStart < |item| && LowerAscii(item[p.xStart]) == 'x')
    ensures p.digitsEnd > 0 ==> forall k | p.xEnd <= k < p.end :: IsSpace(item[k])
    ensures p.digitsEnd > 0 ==> p.end == |item| || !IsSpace(item[p.end])
  {
    var d := SkipWhile(item, 0, Digit);
    if d == 0 then Prefix(0, 0, 0, 0)
    else
      var w := SkipWhile(item, d, Space);
      var x := if w < |item| && LowerAscii(item[w]) == 'x' then w + 1 else w;
      Prefix(d, w, x, SkipWhile(item, x, Space))
  }

  /** `getEquipmentName`: the item without its leading count, trimmed. */
  function GetEquipmentName(item: string): (name: string)
    ensures name == [] || (!IsSpace(name[0]) && !IsSpace(name[|name| - 1]))
    ensures exists i, j | CountPrefix(item).end <= i <= j <= |item| ::
      && name == item[i..j]
      && (forall k | CountPrefix(item).end <= k < i :: IsSpace(item[k]))
      && (forall k | j <= k < |item| :: IsSpace(item[k]))
  {
    TrimOfSuffix(item, CountPrefix(item).end);
    Trim(item[CountPrefix(item).end..])
  }

  /** An item written as a count, an optional `x` with whitespace around it,
      and a name is named by that name, provided the name cannot be read as
      part of the prefix: it starts with neither a digit nor whitespace, and
      not with an `x` when the item has none of its own. */
  lemma NameAfterCount(digits: string, gap1: string, x: string, gap2: string, name: string)
    requires digits != [] && AllDigits(digits)
    requires forall k | 0 <= k < |gap1| :: IsSpace(gap1[k])
    requires x == "" || x == "x" || x == "X"
    requires forall k | 0 <= k < |gap2| :: IsSpace(gap2[k])
    requires name != [] && !IsSpace(name[0]) && !IsDigit(name[0]) && !IsSpace(name[|name| - 1])
    requires x == "" ==> LowerAscii(name[0]) != 'x'
    ensures GetEquipmentName(digits + gap1 + x + gap2 + name) == name
  {
    var item := digits + gap1 + x + gap2 + name;
    var a := |digits|;
    var b := a + |gap1|;
    var c := b + |x|;
    var e := c + |gap2|;
    assert item[..a] == digits && item[a..b] == gap1 && item[b..c] == x && item[c..e] == gap2 && item[e..] == name;
    forall k | 0 <= k < a ensures IsDigit(item[k]) {
      assert item[k] == item[..a][k];
    }
    forall k | a <= k < b ensures IsSpace(item[k]) {
      assert item[k] == item[a..b][k - a];
    }
    forall k | c <= k < e ensures IsSpace(item[k]) {
      assert item[k] == item[c..e][k - c];
    }
    if c > b {
      assert item[b] == item[b..c][0];
    }
    assert item[e] == item[e..][0];
    PrefixEndsAt(item, a, b, c, e);
    TrimKeepsUnpadded(name);
  }

  /** The prefix ends at `e` when the item has digits up to `a`, whitespace up
      to `b`, an optional `x` up to `c`, whitespace up to `e`, and at `e` a
      character that continues none of these. */
  lemma PrefixEndsAt(item: string, a: nat, b: nat, c: nat, e: nat)
    requires 0 < a <= b <= c <= e < |item|
    requires forall k | 0 <= k < a :: IsDigit(item[k])
    requires forall k | a <= k < b :: IsSpace(item[k])
    requires c == b || (c == b + 1 && LowerAscii(item[b]) == 'x')
    requires forall k | c <= k < e :: IsSpace(item[k])
    requires !IsSpace(item[e]) && !IsDigit(item[e])
    requires c == b ==> LowerAscii(item[e]) != 'x'
    ensures CountPrefix(item).end == e
  {
    forall k | 0 <= k < a ensures InClass(item[k], Digit) {
    }
    assert !IsDigit(item[a]) by {
      if a < b {
      } else if b < c {
      } else if a < e {
      }
    }
    SkipWhileStopsAt(item, 0, a, Digit);
    if c == b {
      SkipWhileStopsAt(item, a, e, Space);
      SkipWhileStopsAt(item, e, e, Space);
    } else {
      SkipWhileStopsAt(item, a, b, Space);
      SkipWhileStopsAt(item, c, e, Space);
    }
  }

  /** An item that does not start with a digit is only trimmed. */
  lemma NameWithoutLeadingCount(item: string)
    requires item == [] || !IsDigit(item[0])
    ensures GetEquipmentName(item) == Trim(item)
  {
    assert item[0..] == item;
  }

  /** "20 x Footballs" counts twenty... */
  lemma TwentyFootballs()
    ensures ParseEquipmentCount("20 x Footballs") == 20
  {
    var s := "20 x Footballs";
    assert s[0] == '2' && s[1] == '0' && s[2] == ' ';
    SkipWhileStopsAt(s, 0, 0, NonDigit);
    SkipWhileStopsAt(s, 0, 2, Digit);
    assert s[0..2] == "20";
    assert DigitsValue("20") == 20 by {
      assert "20"[..1] == "2";
      assert "2"[..0] == [];
    }
  }

  /** ... and is named "Footballs": the count, the spaces and the `x` go. */
  lemma FootballsName()
    ensures GetEquipmentName("20 x Footballs") == "Footballs"
  {
    var s := "20 x Footballs";
    assert s[0] == '2' && s[1] == '0' && s[2] == ' ' && s[3] == 'x' && s[4] == ' ' && s[5] == 'F';
    SkipWhileStopsAt(s, 0, 2, Digit);
    SkipWhileStopsAt(s, 2, 3, Space);
    SkipWhileStopsAt(s, 4, 5, Space);
    assert s[5..] == "Footballs";
    TrimKeepsUnpadded("Footballs");
  }

  /** The count pattern is not anchored: "Bibs (3 colors)" counts 3... */
  lemma BibsCountThree()
    ensures ParseEquipmentCount("Bibs (3 colors)") == 3
  {
    var s := "Bibs (3 colors)";
    assert s[..6] == "Bibs (" && s[6] == '3' && s[7] == ' ';
    assert forall k | 0 <= k < 6 :: InClass(s[k], NonDigit) by {
      forall k | 0 <= k < 6 ensures InClass(s[k], NonDigit) {
        assert s[k] == s[..6][k];
      }
    }
    SkipWhileStopsAt(s, 0, 6, NonDigit);
    SkipWhileStopsAt(s, 6, 7, Digit);
    assert s[6..7] == "3";
    assert "3"[..0] == [];
  }

  /** ... while its name, which does not start with a digit, keeps it. */
  lemma BibsNameKeepsDigit()
    ensures GetEquipmentName("Bibs (3 colors)") == "Bibs (3 colors)"
  {
    var s := "Bibs (3 colors)";
    assert s[0] == 'B' && s[14] == ')';
    SkipWhileStopsAt(s, 0, 0, Digit);
    assert s[0..] == s;
    TrimKeepsUnpadded(s);
  }

  /** The optional `x` is taken from a word that merely starts with one:
      "3 xylophones" is named "ylophones". */
  lemma XylophonesLoseTheirX()
    ensures GetEquipmentName("3 xylophones") == "ylophones"
  {
    var s := "3 xylophones";
    assert s[0] == '3' && s[1] == ' ' && s[2] == 'x' && s[3] == 'y';
    SkipWhileStopsAt(s, 0, 1, Digit);
    SkipWhileStopsAt(s, 1, 2, Space);
    SkipWhileStopsAt(s, 3, 3, Space);
    assert s[3..] == "ylophones";
    TrimKeepsUnpadded("ylophones");
  }

  /** The label rendered for an item: the count with an `x` only when it is
      more than one, then the name. */
  function ItemLabel(item: string): (shown: string)
    ensures ParseEquipmentCount(item) <= 1 ==> shown == GetEquipmentName(item)
    ensures ParseEquipmentCount(item) > 1 ==>
      shown == NatToString(ParseEquipmentCount(item)) + "x " + GetEquipmentName(item)
  {
    var count := ParseEquipmentCount(item);
    (if count > 1 then NatToString(count) + "x " else "") + GetEquipmentName(item)
  }

  /** A count found inside the name is shown twice: "3x Bibs (3 colors)". */
  lemma BibsLabel()
    ensures ItemLabel("Bibs (3 colors)") == "3x " + "Bibs (3 colors)"
  {
    BibsCountThree();
    BibsNameKeepsDigit();
    ThreeShownBeforeName("Bibs (3 colors)");
  }

  /** A count of three is shown as "3x " before the name. */
  lemma ThreeShownBeforeName(item: string)
    requires ParseEquipmentCount(item) == 3
    ensures ItemLabel(item) == "3x " + GetEquipmentName(item)
  {
    assert NatToString(3) == "3";
    assert "3" + "x " == "3x ";
  }

  // ---------------------------------------------------------------------
  // Icons

  /** The icon shown for an item. */
  datatype Icon = BallIcon | ConeIcon | GoalIcon | BibIcon | FlagIcon | MannequinIcon | DefaultIcon

  /** `getEquipmentIcon`: keyword tests on the lower-cased item, first match
      wins, so the icon is the first in priority order that the item mentions. */
  function GetEquipmentIcon(item: string): (icon: Icon)
    ensures icon == FirstMatching(ToLowerAscii(item), Priority)
  {
    IconIsFirstMentioned(ToLowerAscii(item));
    KeywordTests(ToLowerAscii(item))
  }

  /** The chain of keyword tests on the lower-cased item. */
  function KeywordTests(lower: string): Icon {
    if Contains(lower, "ball") || Contains(lower, "football") then BallIcon
    else if Contains(lower, "cone") then ConeIcon
    else if Contains(lower, "goal") then GoalIcon
    else if Contains(lower, "bib") || Contains(lower, "vest") then BibIcon
    else if Contains(lower, "flag") || Contains(lower, "marker") then FlagIcon
    else if Contains(lower, "mannequin") || Contains(lower, "dummy") then MannequinIcon
    else DefaultIcon
  }

  /** The keywords of each icon. */
  function Keywords(icon: Icon): seq<string> {
    match icon
    case BallIcon => ["ball", "football"]
    case ConeIcon => ["cone"]
    case GoalIcon => ["goal"]
    case BibIcon => ["bib", "vest"]
    case FlagIcon => ["flag", "marker"]
    case MannequinIcon => ["mannequin", "dummy"]
    case DefaultIcon => []
  }

  const Priority: seq<Icon> := [BallIcon, ConeIcon, GoalIcon, BibIcon, FlagIcon, MannequinIcon]

  /** Some keyword of the list occurs. */
  predicate AnyContains(lower: string, words: seq<string>) {
    words != [] && (Contains(lower, words[0]) || AnyContains(lower, words[1..]))
  }

  predicate Mentions(lower: string, icon: Icon) {
    AnyContains(lower, Keywords(icon))
  }

  /** The reference reading: the first icon in priority order one of whose
      keywords occurs, the default icon when none does. */
  function FirstMatching(lower: string, icons: seq<Icon>): (icon: Icon)
    ensures icon == DefaultIcon || icon in icons
    ensures icon != DefaultIcon ==> Mentions(lower, icon)
    ensures icon == DefaultIcon ==> forall i | 0 <= i < |icons| :: !Mentions(lower, icons[i])
    ensures icon != DefaultIcon ==>
      exists i | 0 <= i < |icons| :: icons[i] == icon && forall j | 0 <= j < i :: !Mentions(lower, icons[j])
  {
    if icons == [] then DefaultIcon
    else if Mentions(lower, icons[0]) then icons[0]
    else
      var icon := FirstMatching(lower, icons[1..]);
      assert icon != DefaultIcon ==> exists i | 0 <= i < |icons| :: icons[i] == icon && forall j | 0 <= j < i :: !Mentions(lower, icons[j]) by {
        if icon != DefaultIcon {
          var i :| 0 <= i < |icons[1..]| && icons[1..][i] == icon && forall j | 0 <= j < i :: !Mentions(lower, icons[1..][j]);
          assert icons[i + 1] == icon;
          forall j | 0 <= j < i + 1 ensures !Mentions(lower, icons[j]) {
            if j > 0 {
              assert icons[j] == icons[1..][j - 1];
            }
          }
        }
      }
      icon
  }

  /** The if-chain is the priority reading: the first icon in `Priority`
      that the lower-cased item mentions. */
  lemma IconIsFirstMentioned(lower: string)
    ensures KeywordTests(lower) == FirstMatching(lower, Priority)
  {
    MentionsTwo(lower, BallIcon);
    MentionsOne(lower, ConeIcon);
    MentionsOne(lower, GoalIcon);
    MentionsTwo(lower, BibIcon);
    MentionsTwo(lower, FlagIcon);
    MentionsTwo(lower, MannequinIcon);
    var p := Priority;
    forall k | 0 <= k < |p|
      ensures FirstMatching(lower, p[k..]) == if Mentions(lower, p[k]) then p[k] else FirstMatching(lower, p[k + 1..])
    {
      assert p[k..][0] == p[k] && p[k..][1..] == p[k + 1..];
    }
    assert p[6..] == [];
    assert p[0..] == p;
    assert Keywords(BallIcon) == ["ball", "football"];
    assert Mentions(lower, BallIcon) <==> Contains(lower, "ball") || Contains(lower, "football");
    assert Mentions(lower, ConeIcon) <==> Contains(lower, "cone");
    assert Mentions(lower, GoalIcon) <==> Contains(lower, "goal");
    assert Mentions(lower, BibIcon) <==> Contains(lower, "bib") || Contains(lower, "vest");
    assert Mentions(lower, FlagIcon) <==> Contains(lower, "flag") || Contains(lower, "marker");
    assert Mentions(lower, MannequinIcon) <==> Contains(lower, "mannequin") || Contains(lower, "dummy");
    assert p[0] == BallIcon && p[1] == ConeIcon && p[2] == GoalIcon && p[3] == BibIcon && p[4] == FlagIcon && p[5] == MannequinIcon;
  }

  lemma MentionsOne(lower: string, icon: Icon)
    requires |Keywords(icon)| == 1
    ensures Mentions(lower, icon) <==> Contains(lower, Keywords(icon)[0])
  {
    var w := Keywords(icon);
    assert w[1..] == [];
    assert !AnyContains(lower, w[1..]);
    assert AnyContains(lower, w) == (Contains(lower, w[0]) || AnyContains(lower, w[1..]));
  }

  lemma MentionsTwo(lower: string, icon: Icon)
    requires |Keywords(icon)| == 2
    ensures Mentions(lower, icon) <==> Contains(lower, Keywords(icon)[0]) || Contains(lower, Keywords(icon)[1])
  {
    var w := Keywords(icon);
    var t := w[1..];
    assert t[0] == w[1] && t[1..] == [];
    assert !AnyContains(lower, t[1..]);
    assert AnyContains(lower, t) == (Contains(lower, t[0]) || AnyContains(lower, t[1..]));
    assert AnyContains(lower, w) == (Contains(lower, w[0]) || AnyContains(lower, t));
  }

  /** "football" never decides anything: an item containing it contains "ball". */
  lemma FootballKeywordIsRedundant(lower: string)
    requires Contains(lower, "football")
    ensures Contains(lower, "ball")
  {
    ContainsTailOf(lower, "football", "ball");
  }

  /** Case does not matter to the icon. */
  lemma IconIgnoresCase(item: string)
    ensures GetEquipmentIcon(ToLowerAscii(item)) == GetEquipmentIcon(item)
  {
    assert ToLowerAscii(ToLowerAscii(item)) == ToLowerAscii(item);
  }

  // ---------------------------------------------------------------------
  // Equipment read out of a setup description

  /** The word alternatives of one of the global, case-insensitive patterns
      `(\d+)\s*(word s?|...)`, tried in order. */
  const Patterns: seq<seq<string>> := [["cone"], ["ball", "football"], ["goal"], ["mannequin"], ["marker"], ["pole"]]

  /** `stem` occurs at `w`, letters compared without regard to ASCII case. */
  predicate StemAt(s: string, w: nat, stem: string) {
    w + |stem| <= |s| && forall k | 0 <= k < |stem| :: LowerAscii(s[w + k]) == stem[k]
  }

  /** The first alternative that occurs at `w`, with an `s` after it when there
      is one: the end of the word. */
  function WordEnd(s: string, w: nat, stems: seq<string>): (e: Option<nat>)
    ensures e.Some? ==> w < e.value <= |s|
    ensures e.None? <==> forall k | 0 <= k < |stems| :: stems[k] == [] || !StemAt(s, w, stems[k])
  {
    if stems == [] then None
    else if stems[0] != [] && StemAt(s, w, stems[0]) then
      var e := w + |stems[0]|;
      Some(if e < |s| && LowerAscii(s[e]) == 's' then e + 1 else e)
    else WordEnd(s, w, stems[1..])
  }

  /** A match of the pattern: where it starts, where its digits end, where
      its word starts and where the match ends. */
  datatype Match = Match(start: nat, digitsEnd: nat, wordStart: nat, end: nat)

  /** Whether the pattern matches at `p`: digits (all of the run, the words
      start with no digit), whitespace, then one of the words. */
  function MatchAt(s: string, p: nat, stems: seq<string>): (m: Option<Match>)
    requires p <= |s|
    ensures m.Some? ==> m.value.start == p < m.value.digitsEnd <= m.value.wordStart < m.value.end <= |s|
    ensures m.Some? ==> IsDigit(s[p])
  {
    var d := SkipWhile(s, p, Digit);
    if d == p then None
    else
      var w := SkipWhile(s, d, Space);
      match WordEnd(s, w, stems)
      case None => None
      case Some(e) => Some(Match(p, d, w, e))
  }

  /** `pattern.exec(s)` with `lastIndex` at `i`: the leftmost match at or
      after `i`. */
  function FirstMatch(s: string, stems: seq<string>, i: nat): (m: Option<Match>)
    requires i <= |s|
    ensures m.Some? ==> i <= m.value.start <= |s| && MatchAt(s, m.value.start, stems) == m
    decreases |s| - i
  {
    var here := MatchAt(s, i, stems);
    if here.Some? then here
    else if i == |s| then None
    else FirstMatch(s, stems, i + 1)
  }

  /** One step of the scan: a match here, the end of the text, or the rest. */
  lemma FirstMatchStep(s: string, stems: seq<string>, p: nat)
    requires p <= |s|
    ensures FirstMatch(s, stems, p) ==
      if MatchAt(s, p, stems).Some? then MatchAt(s, p, stems)
      else if p == |s| then None
      else FirstMatch(s, stems, p + 1)
  {
  }

  /** No match starts at a position from `i` up to, not including, `p`. */
  predicate NoMatchBetween(s: string, stems: seq<string>, i: nat, p: nat)
    requires i <= p <= |s|
  {
    forall q | i <= q < p :: MatchAt(s, q, stems).None?
  }

  lemma NoMatchExtends(s: string, stems: seq<string>, i: nat, p: nat)
    requires i <= p < |s| && NoMatchBetween(s, stems, i, p) && MatchAt(s, p, stems).None?
    ensures NoMatchBetween(s, stems, i, p + 1)
  {
  }

  lemma NoMatchPrepends(s: string, stems: seq<string>, i: nat, p: nat)
    requires i < p <= |s| && MatchAt(s, i, stems).None? && NoMatchBetween(s, stems, i + 1, p)
    ensures NoMatchBetween(s, stems, i, p)
  {
    forall q | i <= q < p ensures MatchAt(s, q, stems).None? {
      if q != i {
        assert i + 1 <= q < p;
      }
    }
  }

  /** No match starts between `i` and the one `exec` returns, nor anywhere
      from `i` to the end of the text when it returns none. */
  lemma {:induction false} FirstMatchIsLeftmost(s: string, stems: seq<string>, i: nat)
    requires i <= |s|
    ensures var m := FirstMatch(s, stems, i);
      && (m.Some? ==> NoMatchBetween(s, stems, i, m.value.start))
      && (m.None? ==> NoMatchBetween(s, stems, i, |s|) && MatchAt(s, |s|, stems).None?)
    decreases |s| - i
  {
    FirstMatchStep(s, stems, i);
    if MatchAt(s, i, stems).None? && i < |s| {
      FirstMatchIsLeftmost(s, stems, i + 1);
      var m := FirstMatch(s, stems, i + 1);
      NoMatchPrepends(s, stems, i, if m.Some? then m.value.start else |s|);
    }
  }

  /** The text pushed for a match. */
  function Entry(s: string, m: Match): string
    requires m.start <= m.digitsEnd <= m.wordStart <= m.end <= |s|
  {
    s[m.start..m.digitsEnd] + " x " + s[m.wordStart..m.end]
  }

  /** Every match of one pattern from `i` on, in order of position. */
  function Matches(s: string, stems: seq<string>, i: nat): (r: seq<string>)
    requires i <= |s|
    decreases |s| - i
  {
    match FirstMatch(s, stems, i)
    case None => []
    case Some(m) => [Entry(s, m)] + Matches(s, stems, m.end)
  }

  /** The matches of the patterns `ps`, pattern by pattern. */
  function AllMatches(s: string, ps: seq<seq<string>>): seq<string> {
    if ps == [] then [] else AllMatches(s, ps[..|ps| - 1]) + Matches(s, ps[|ps| - 1], 0)
  }

  /** `Math.ceil`. */
  function Ceil(x: real): (n: int)
    ensures n as real >= x && (n - 1) as real < x
  {
    -((-x).Floor)
  }

  /** `extractEquipmentFromSetup`: the matches of every pattern; when there
      are none, a cone estimate from the area (when present) and a football
      estimate from the player count (when truthy). */
  function Extract(setup: string, area: Option<(real, real)>, players: Option<real>): (r: seq<string>)
    ensures AllMatches(setup, Patterns) != [] ==> r == AllMatches(setup, Patterns)
    ensures AllMatches(setup, Patterns) == [] ==> r == Estimates(area, players)
    ensures AllMatches(setup, Patterns) == [] ==>
      |r| == (if area.Some? then 1 else 0) + (if players.Some? && players.value != 0.0 then 1 else 0)
  {
    var found := AllMatches(setup, Patterns);
    if found != [] then found else Estimates(area, players)
  }

  /** The estimates: a cone every five metres of the area's perimeter, a
      football for every two players, each rounded up. */
  function Estimates(area: Option<(real, real)>, players: Option<real>): (r: seq<string>)
    ensures |r| == (if area.Some? then 1 else 0) + (if players.Some? && players.value != 0.0 then 1 else 0)
  {
    (if area.Some? then [IntToString(Ceil((area.value.0 + area.value.1) * 2.0 / 5.0)) + " x Cones"] else [])
    + (if players.Some? && players.value != 0.0 then [IntToString(Ceil(players.value / 2.0)) + " x Footballs"] else [])
  }

  /** The cone estimate comes first and names the fewest cones that, one
      every five metres, go round the area; the football estimate comes last
      and names the fewest balls that give every two players one. */
  lemma EstimatesAreCeilings(area: Option<(real, real)>, players: Option<real>)
    ensures var r := Estimates(area, players);
      && (area.Some? ==> exists n: int ::
            && r[0] == IntToString(n) + " x Cones"
            && n as real * 5.0 >= (area.value.0 + area.value.1) * 2.0 > (n - 1) as real * 5.0)
      && (players.Some? && players.value != 0.0 ==> exists n: int ::
            && r[|r| - 1] == IntToString(n) + " x Footballs"
            && n as real * 2.0 >= players.value > (n - 1) as real * 2.0)
  {
    var r := Estimates(area, players);
    if area.Some? {
      var n := Ceil((area.value.0 + area.value.1) * 2.0 / 5.0);
      assert r[0] == IntToString(n) + " x Cones";
    }
    if players.Some? && players.value != 0.0 {
      var n := Ceil(players.value / 2.0);
      assert r[|r| - 1] == IntToString(n) + " x Footballs";
    }
  }

  /** `pattern.exec` run by hand: scan forward for the leftmost match. */
  method Exec(s: string, stems: seq<string>, lastIndex: nat) returns (m: Option<Match>)
    requires lastIndex <= |s|
    ensures m == FirstMatch(s, stems, lastIndex)
  {
    var p := lastIndex;
    m := MatchAt(s, p, stems);
    while m.None? && p < |s|
      invariant lastIndex <= p <= |s|
      invariant m == MatchAt(s, p, stems)
      invariant NoMatchBetween(s, stems, lastIndex, p)
      decreases |s| - p
    {
      NoMatchExtends(s, stems, lastIndex, p);
      p := p + 1;
      m := MatchAt(s, p, stems);
    }
    FirstMatchSkips(s, stems, lastIndex, p);
  }

  /** The scan passes over positions where nothing matches: from `i` it
      finds what it finds from `p`, and stops at `p` when a match is there
      or the text ends. */
  lemma {:induction false} FirstMatchSkips(s: string, stems: seq<string>, i: nat, p: nat)
    requires i <= p <= |s|
    requires NoMatchBetween(s, stems, i, p)
    requires MatchAt(s, p, stems).Some? || p == |s|
    ensures FirstMatch(s, stems, i) == MatchAt(s, p, stems)
    decreases p - i
  {
    if i < p {
      FirstMatchSkips(s, stems, i + 1, p);
      FirstMatchStep(s, stems, i);
    }
  }

  /** One pattern's `while ((match = pattern.exec(setup)) !== null)` loop:
      an entry per match, the search resuming where the last match ended. */
  method ExecAll(setup: string, stems: seq<string>) returns (found: seq<string>)
    ensures found == Matches(setup, stems, 0)
  {
    found := [];
    var lastIndex := 0;
    var m := Exec(setup, stems, lastIndex);
    while m.Some?
      invariant lastIndex <= |setup|
      invariant m == FirstMatch(setup, stems, lastIndex)
      invariant found + Matches(setup, stems, lastIndex) == Matches(setup, stems, 0)
      decreases |setup| - lastIndex
    {
      MatchesAdvance(setup, stems, lastIndex, found, Matches(setup, stems, 0));
      found := found + [Entry(setup, m.value)];
      lastIndex := m.value.end;
      m := Exec(setup, stems, lastIndex);
    }
    MatchesDone(setup, stems, lastIndex, found, Matches(setup, stems, 0));
  }

  /** One step of the loop: a match adds its entry and the search resumes
      at its end. */
  lemma MatchesAdvance(s: string, stems: seq<string>, i: nat, found: seq<string>, all: seq<string>)
    requires i <= |s| && FirstMatch(s, stems, i).Some?
    requires found + Matches(s, stems, i) == all
    ensures var m := FirstMatch(s, stems, i).value;
      (found + [Entry(s, m)]) + Matches(s, stems, m.end) == all
  {
    var m := FirstMatch(s, stems, i).value;
    var rest := Matches(s, stems, m.end);
    assert Matches(s, stems, i) == [Entry(s, m)] + rest;
    assert found + ([Entry(s, m)] + rest) == (found + [Entry(s, m)]) + rest;
  }

  /** The last step: no match ends the list. */
  lemma MatchesDone(s: string, stems: seq<string>, i: nat, found: seq<string>, all: seq<string>)
    requires i <= |s| && FirstMatch(s, stems, i).None?
    requires found + Matches(s, stems, i) == all
    ensures found == all
  {
    assert Matches(s, stems, i) == [];
    assert found + [] == found;
  }

  /** `extractEquipmentFromSetup`: the patterns in turn, then the estimates
      only if nothing was found. */
  method ExtractEquipmentFromSetup(setup: string, area: Option<(real, real)>, players: Option<real>)
    returns (equipment: seq<string>)
    ensures equipment == Extract(setup, area, players)
  {
    equipment := [];
    var k := 0;
    while k < |Patterns|
      invariant 0 <= k <= |Patterns|
      invariant equipment == AllMatches(setup, Patterns[..k])
    {
      var found := ExecAll(setup, Patterns[k]);
      assert Patterns[..k + 1][..k] == Patterns[..k];
      equipment := equipment + found;
      k := k + 1;
    }
    assert Patterns[..|Patterns|] == Patterns;
    if equipment == [] {
      equipment := AddEstimates(area, players);
    }
  }

  /** The estimates pushed when no pattern matched. */
  method AddEstimates(area: Option<(real, real)>, players: Option<real>) returns (equipment: seq<string>)
    ensures equipment == Estimates(area, players)
  {
    equipment := [];
    if area.Some? {
      var perimeterCones := Ceil((area.value.0 + area.value.1) * 2.0 / 5.0);
      equipment := equipment + [IntToString(perimeterCones) + " x Cones"];
    }
    if players.Some? && players.value != 0.0 {
      var ballsNeeded := Ceil(players.value / 2.0);
      equipment := equipment + [IntToString(ballsNeeded) + " x Footballs"];
    }
  }

  // ---------------------------------------------------------------------
  // Properties of the extraction

  /** Each match is a run of digits, then whitespace, then one of the
      pattern's words, and the next search starts past it. */
  lemma MatchShape(s: string, stems: seq<string>, p: nat)
    requires p <= |s| && MatchAt(s, p, stems).Some?
    ensures var m := MatchAt(s, p, stems).value;
      && (forall j | p <= j < m.digitsEnd :: IsDigit(s[j]))
      && (m.digitsEnd == |s| || !IsDigit(s[m.digitsEnd]))
      && (forall j | m.digitsEnd <= j < m.wordStart :: IsSpace(s[j]))
      && exists k | 0 <= k < |stems| ::
           && StemAt(s, m.wordStart, stems[k])
           && (m.end == m.wordStart + |stems[k]| || m.end == m.wordStart + |stems[k]| + 1)
  {
    var k := WordIndex(s, MatchAt(s, p, stems).value.wordStart, stems);
  }

  /** The alternative `WordEnd` chose. */
  function WordIndex(s: string, w: nat, stems: seq<string>): (k: nat)
    requires WordEnd(s, w, stems).Some?
    ensures k < |stems| && stems[k] != [] && StemAt(s, w, stems[k])
    ensures WordEnd(s, w, stems).value == w + |stems[k]| || WordEnd(s, w, stems).value == w + |stems[k]| + 1
  {
    if stems[0] != [] && StemAt(s, w, stems[0]) then 0 else 1 + WordIndex(s, w, stems[1..])
  }

  /** The pattern is found wherever the text has it: a digit run begun at
      `p` and taken whole, whitespace up to `w`, and one of the words at `w`
      make a match with exactly those parts, ending after the first word
      that occurs there. */
  lemma MatchAtFinds(s: string, p: nat, d: nat, w: nat, stems: seq<string>)
    requires p < d <= w <= |s|
    requires forall j | p <= j < d :: IsDigit(s[j])
    requires d == |s| || !IsDigit(s[d])
    requires forall j | d <= j < w :: IsSpace(s[j])
    requires w == |s| || !IsSpace(s[w])
    ensures MatchAt(s, p, stems).Some? <==> exists k | 0 <= k < |stems| :: stems[k] != [] && StemAt(s, w, stems[k])
    ensures MatchAt(s, p, stems).Some? ==> MatchAt(s, p, stems) == Some(Match(p, d, w, WordEnd(s, w, stems).value))
  {
    forall j | p <= j < d ensures InClass(s[j], Digit) {
    }
    SkipWhileStopsAt(s, p, d, Digit);
    forall j | d <= j < w ensures InClass(s[j], Space) {
    }
    SkipWhileStopsAt(s, d, w, Space);
  }

  /** Text without digits holds no match. */
  lemma NoDigitsNoMatch(s: string, stems: seq<string>, i: nat, p: nat)
    requires i <= p <= |s|
    requires forall q | i <= q < p :: !IsDigit(s[q])
    ensures NoMatchBetween(s, stems, i, p)
  {
  }

  lemma NoMatchJoin(s: string, stems: seq<string>, i: nat, p: nat, q: nat)
    requires i <= p <= q <= |s|
    requires NoMatchBetween(s, stems, i, p) && NoMatchBetween(s, stems, p, q)
    ensures NoMatchBetween(s, stems, i, q)
  {
  }

  /** Every match is pushed: the first match at or after `i` heads the
      entries from `i`, and the rest follow from where it ends. */
  lemma MatchesFrom(s: string, stems: seq<string>, i: nat, p: nat)
    requires i <= p <= |s|
    requires NoMatchBetween(s, stems, i, p) && MatchAt(s, p, stems).Some?
    ensures var m := MatchAt(s, p, stems).value;
      Matches(s, stems, i) == [Entry(s, m)] + Matches(s, stems, m.end)
  {
    FirstMatchSkips(s, stems, i, p);
  }

  /** Without a match from `i` on, nothing is pushed. */
  lemma MatchesNone(s: string, stems: seq<string>, i: nat)
    requires i <= |s| && NoMatchBetween(s, stems, i, |s|)
    ensures Matches(s, stems, i) == []
  {
    SkipWhileStopsAt(s, |s|, |s|, Digit);
    FirstMatchSkips(s, stems, i, |s|);
  }

  /** The patterns' matches come pattern by pattern. */
  lemma AllMatchesPrefix(s: string, ps: seq<seq<string>>, k: nat)
    requires 0 < k <= |ps|
    ensures AllMatches(s, ps[..k]) == AllMatches(s, ps[..k - 1]) + Matches(s, ps[k - 1], 0)
  {
    assert ps[..k][..k - 1] == ps[..k - 1];
  }

  /** A setup text with two counted items. */
  const TwoItemSetup: string := "4 cones, 2 balls"

  /** Where its digits and its words are. */
  predicate TwoItemLayout(s: string) {
    && |s| == 16
    && IsDigit(s[0]) && IsSpace(s[1]) && !IsDigit(s[1]) && !IsSpace(s[2])
    && (forall q | 2 <= q < 9 :: !IsDigit(s[q]))
    && IsDigit(s[9]) && IsSpace(s[10]) && !IsDigit(s[10]) && !IsSpace(s[11])
    && (forall q | 11 <= q < 16 :: !IsDigit(s[q]))
  }

  /** In a text laid out so, any pattern finds at most the word after the
      first count and the word after the second, in that order. */
  lemma TwoItemMatches(s: string, stems: seq<string>)
    requires TwoItemLayout(s)
    requires WordEnd(s, 2, stems).Some? ==> WordEnd(s, 2, stems).value <= 9
    ensures var first := WordEnd(s, 2, stems);
      var second := WordEnd(s, 11, stems);
      Matches(s, stems, 0) ==
        (if first.Some? then [Entry(s, Match(0, 1, 2, first.value))] else [])
        + (if second.Some? then [Entry(s, Match(9, 10, 11, second.value))] else [])
  {
    MatchAtFinds(s, 0, 1, 2, stems);
    var first := WordEnd(s, 2, stems);
    if first.Some? {
      MatchesFrom(s, stems, 0, 0);
      TwoItemSecond(s, stems, first.value);
    } else {
      FirstMatchStep(s, stems, 0);
      TwoItemSecond(s, stems, 1);
    }
  }

  /** From anywhere before the second count, only the second word is left. */
  lemma TwoItemSecond(s: string, stems: seq<string>, i: nat)
    requires TwoItemLayout(s) && 1 <= i <= 9
    ensures var second := WordEnd(s, 11, stems);
      Matches(s, stems, i) == if second.Some? then [Entry(s, Match(9, 10, 11, second.value))] else []
  {
    MatchAtFinds(s, 9, 10, 11, stems);
    NoDigitsNoMatch(s, stems, i, 9);
    NoDigitsNoMatch(s, stems, 10, 16);
    var second := WordEnd(s, 11, stems);
    if second.Some? {
      MatchesFrom(s, stems, i, 9);
      MatchesNone(s, stems, second.value);
    } else {
      NoMatchJoin(s, stems, i, 9, 10);
      NoMatchJoin(s, stems, i, 10, 16);
      MatchesNone(s, stems, i);
    }
  }

  /** No word starts at `w` when every alternative begins with another letter. */
  lemma FirstLetterDiffers(s: string, w: nat, stems: seq<string>)
    requires w < |s|
    requires forall k | 0 <= k < |stems| :: stems[k] != [] && LowerAscii(s[w]) != stems[k][0]
    ensures WordEnd(s, w, stems).None?
  {
    forall k | 0 <= k < |stems| ensures !StemAt(s, w, stems[k]) {
      assert LowerAscii(s[w + 0]) != stems[k][0];
    }
  }

  /** The counts and words of such a text. */
  predicate TwoItemWords(s: string) {
    && TwoItemLayout(s)
    && s[0..1] == "4" && s[2..7] == "cones" && s[9..10] == "2" && s[11..16] == "balls"
  }

  lemma TwoItemSetupWords()
    ensures TwoItemWords(TwoItemSetup)
  {
    var s := TwoItemSetup;
    assert s[0] == '4' && s[1] == ' ' && s[7] == ',' && s[8] == ' ' && s[9] == '2' && s[10] == ' ';
    assert s[2..7] == "cones" by {
      assert s[2] == 'c' && s[3] == 'o' && s[4] == 'n' && s[5] == 'e' && s[6] == 's';
    }
    assert s[11..16] == "balls" by {
      assert s[11] == 'b' && s[12] == 'a' && s[13] == 'l' && s[14] == 'l' && s[15] == 's';
    }
  }

  /** The entries pushed for its two matches. */
  lemma TwoItemEntryTexts()
    ensures "4" + " x " + "cones" == "4 x cones"
    ensures "2" + " x " + "balls" == "2 x balls"
  {
  }

  lemma TwoItemCones(s: string)
    requires TwoItemWords(s)
    ensures Matches(s, ["cone"], 0) == ["4 x cones"]
  {
    assert s[2..7][0] == s[2] && s[11..16][0] == s[11];
    forall k | 0 <= k < 4 ensures LowerAscii(s[2 + k]) == "cone"[k] {
      assert s[2 + k] == s[2..7][k];
    }
    assert s[6] == s[2..7][4];
    assert WordEnd(s, 2, ["cone"]) == Some(7);
    FirstLetterDiffers(s, 11, ["cone"]);
    TwoItemMatches(s, ["cone"]);
    assert Entry(s, Match(0, 1, 2, 7)) == "4" + " x " + "cones";
    TwoItemEntryTexts();
    assert Matches(s, ["cone"], 0) == [Entry(s, Match(0, 1, 2, 7))] + [];
  }

  lemma TwoItemBalls(s: string)
    requires TwoItemWords(s)
    ensures Matches(s, ["ball", "football"], 0) == ["2 x balls"]
  {
    assert s[2..7][0] == s[2] && s[11..16][0] == s[11];
    forall k | 0 <= k < 4 ensures LowerAscii(s[11 + k]) == "ball"[k] {
      assert s[11 + k] == s[11..16][k];
    }
    assert s[15] == s[11..16][4];
    FirstLetterDiffers(s, 2, ["ball", "football"]);
    assert WordEnd(s, 11, ["ball", "football"]) == Some(16);
    TwoItemMatches(s, ["ball", "football"]);
    assert Entry(s, Match(9, 10, 11, 16)) == "2" + " x " + "balls";
    TwoItemEntryTexts();
    assert Matches(s, ["ball", "football"], 0) == [] + [Entry(s, Match(9, 10, 11, 16))];
  }

  lemma TwoItemOthers(s: string, stems: seq<string>)
    requires TwoItemWords(s)
    requires stems in [["goal"], ["mannequin"], ["marker"], ["pole"]]
    ensures Matches(s, stems, 0) == []
  {
    assert s[2..7][0] == s[2] && s[11..16][0] == s[11];
    FirstLetterDiffers(s, 2, stems);
    FirstLetterDiffers(s, 11, stems);
    TwoItemMatches(s, stems);
  }

  lemma TwoItemAllMatches(s: string)
    requires TwoItemWords(s)
    ensures AllMatches(s, Patterns) == ["4 x cones", "2 x balls"]
  {
    var P := Patterns;
    var found := ["4 x cones", "2 x balls"];
    assert AllMatches(s, P[..2]) == found by {
      TwoItemCones(s);
      TwoItemBalls(s);
      assert P[..0] == [];
      AllMatchesPrefix(s, P, 1);
      AllMatchesPrefix(s, P, 2);
    }
    assert AllMatches(s, P[..3]) == found by {
      TwoItemOthers(s, P[2]);
      AllMatchesPrefix(s, P, 3);
    }
    assert AllMatches(s, P[..4]) == found by {
      TwoItemOthers(s, P[3]);
      AllMatchesPrefix(s, P, 4);
    }
    assert AllMatches(s, P[..5]) == found by {
      TwoItemOthers(s, P[4]);
      AllMatchesPrefix(s, P, 5);
    }
    assert AllMatches(s, P[..6]) == found by {
      TwoItemOthers(s, P[5]);
      AllMatchesPrefix(s, P, 6);
    }
    assert P[..6] == P;
  }

  /** Both items are listed, cones first since the cone pattern is tried
      first, and no estimate is added although an area and players are
      given. */
  lemma TwoItemSetupExtracted()
    ensures Extract(TwoItemSetup, Some((18.0, 6.0)), Some(6.0)) == ["4 x cones", "2 x balls"]
  {
    TwoItemSetupWords();
    TwoItemAllMatches(TwoItemSetup);
  }

  /** `PracticeEquipmentSummary` renders nothing exactly when nothing was
      found and neither estimate applies. */
  predicate SummaryShown(setup: string, area: Option<(real, real)>, players: Option<real>) {
    Extract(setup, area, players) != []
  }

  lemma SummaryShownIff(setup: string, area: Option<(real, real)>, players: Option<real>)
    ensures SummaryShown(setup, area, players) <==>
      AllMatches(setup, Patterns) != [] || area.Some? || (players.Some? && players.value != 0.0)
  {
  }

  /** A setup text without a digit matches no pattern, so it gets the
      estimates. */
  lemma DigitFreeTextGetsEstimates(setup: string, area: Option<(real, real)>, players: Option<real>)
    requires forall k | 0 <= k < |setup| :: !IsDigit(setup[k])
    ensures Extract(setup, area, players) == Estimates(area, players)
  {
    forall stems ensures Matches(setup, stems, 0) == [] {
      var m := FirstMatch(setup, stems, 0);
    }
    AllMatchesEmpty(setup, Patterns);
  }

  lemma {:induction false} AllMatchesEmpty(s: string, ps: seq<seq<string>>)
    requires forall stems :: Matches(s, stems, 0) == []
    ensures AllMatches(s, ps) == []
    decreases |ps|
  {
    if ps != [] {
      AllMatchesEmpty(s, ps[..|ps| - 1]);
    }
  }

  /** The estimates for the goalkeeping practice (18 by 6 metres, 6 players,
      a setup text without digits) and for the first passing practice (20 by
      15 metres, 14 players, whose "4 stations" and "10 meters" name no
      counted word): ten cones and three footballs, fourteen cones and seven
      footballs. */
  lemma FixtureEstimates()
    ensures Estimates(Some((18.0, 6.0)), Some(6.0)) == ["10 x Cones", "3 x Footballs"]
    ensures Estimates(Some((20.0, 15.0)), Some(14.0)) == ["14 x Cones", "7 x Footballs"]
  {
    assert Ceil((18.0 + 6.0) * 2.0 / 5.0) == 10;
    assert Ceil(6.0 / 2.0) == 3;
    assert Ceil((20.0 + 15.0) * 2.0 / 5.0) == 14;
    assert Ceil(14.0 / 2.0) == 7;
    assert NatToString(1) == "1";
    assert IntToString(10) == "10";
    assert IntToString(14) == "14";
    assert IntToString(3) == "3";
    assert IntToString(7) == "7";
    assert Estimates(Some((18.0, 6.0)), Some(6.0)) == [IntToString(10) + " x Cones"] + [IntToString(3) + " x Footballs"];
    assert Estimates(Some((20.0, 15.0)), Some(14.0)) == [IntToString(14) + " x Cones"] + [IntToString(7) + " x Footballs"];
    assert "10" + " x Cones" == "10 x Cones";
    assert "14" + " x Cones" == "14 x Cones";
    assert "3" + " x Footballs" == "3 x Footballs";
    assert "7" + " x Footballs" == "7 x Footballs";
  }
}
