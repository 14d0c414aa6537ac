/**
 * The presentation policy of the markdown renderer: the palette chosen by
 * section, the flattening of a node's children to text, and the keyword
 * classifiers that pick the style and icon of list items, the badge of bold
 * spans, the callout of block quotes and the gradient of table headers.
 * Markdown parsing and the rendered markup are not modelled, and icons are names.
 */
module MarkdownRenderer {
  import opened Wrappers
  import opened JsStrings

  /** The renderer's `section` prop. */
  datatype SectionType = Market | Competition | Risk | Default

  /** `section = "default"`: a missing prop selects the default palette. */
  function SectionOrDefault(section: Option<SectionType>): (r: SectionType)
    ensures section.Some? ==> r == section.value
    ensures section.None? ==> r == Default
  {
    match section
    case None => Default
    case Some(s) => s
  }

  /** The class names of one section palette. */
  datatype Palette = Palette(header: string, accent: string, bg: string, border: string, icon: string)

  /** `sectionColors`. */
  function SectionColors(section: SectionType): Palette
  {
    match section
    case Market => Palette("text-blue-900", "text-blue-600", "bg-blue-50", "border-blue-200", "text-blue-600")
    case Competition => Palette("text-emerald-900", "text-emerald-600", "bg-emerald-50", "border-emerald-200", "text-emerald-600")
    case Risk => Palette("text-amber-900", "text-amber-600", "bg-amber-50", "border-amber-200", "text-amber-600")
    case Default => Palette("text-gray-900", "text-gray-600", "bg-gray-50", "border-gray-200", "text-gray-600")
  }

  /** Each palette shows one colour in fixed shades, and different sections get different palettes. */
  lemma PalettesDiffer(section: SectionType, other: SectionType)
    ensures SectionColors(section).icon == SectionColors(section).accent
    ensures section != other ==> SectionColors(section) != SectionColors(other)
  {
    if section != other {
      assert SectionColors(section).header[5] != SectionColors(other).header[5];
    }
  }

  // ---------------------------------------------------------------------------
  // Flattening children to text

  /**
   * The `children` a renderer receives: a string, an array of children, an
   * element whose `props.children` may be missing, or any other value
   * (a number, `null`, a boolean).
   */
  datatype Children = Text(s: string) | Nodes(items: seq<Children>) | Element(inner: Option<Children>) | OtherValue

  /** The concatenation of a sequence of strings, `join("")`. */
  function Join(parts: seq<string>): string
  {
    if parts == [] then "" else parts[0] + Join(parts[1..])
  }

  lemma {:induction false} JoinAppend(a: seq<string>, b: seq<string>)
    ensures Join(a + b) == Join(a) + Join(b)
  {
    if a != [] {
      assert (a + b)[1..] == a[1..] + b;
      JoinAppend(a[1..], b);
    } else {
      assert a + b == b;
    }
  }

  /** `extractText`. */
  function ExtractText(c: Children): string
    decreases c
  {
    match c
    case Text(s) => s
    case Nodes(items) => Join(seq(|items|, i requires 0 <= i < |items| => ExtractText(items[i])))
    case Element(inner) => if inner.Some? then ExtractText(inner.value) else ""
    case OtherValue => ""
  }

  /**
   * Flattening an array is flattening its parts in order: the text of
   * `a + b` is the text of `a` followed by the text of `b`, and a one-element
   * array reads as its element.
   */
  lemma ExtractTextAppend(a: seq<Children>, b: seq<Children>)
    ensures ExtractText(Nodes(a + b)) == ExtractText(Nodes(a)) + ExtractText(Nodes(b))
    ensures ExtractText(Nodes([Text(ExtractText(Nodes(a)))])) == ExtractText(Nodes(a))
  {
    var fa := seq(|a|, i requires 0 <= i < |a| => ExtractText(a[i]));
    var fb := seq(|b|, i requires 0 <= i < |b| => ExtractText(b[i]));
    var ab := a + b;
    assert seq(|ab|, i requires 0 <= i < |ab| => ExtractText(ab[i])) == fa + fb;
    JoinAppend(fa, fb);
    var one := [Text(ExtractText(Nodes(a)))];
    assert seq(|one|, i requires 0 <= i < |one| => ExtractText(one[i])) == [Join(fa)];
    assert Join([Join(fa)]) == Join(fa) + Join([]);
  }

  /** A one-element array reads as its element. */
  lemma ExtractTextSingle(c: Children)
    ensures ExtractText(Nodes([c])) == ExtractText(c)
  {
    var one := [c];
    assert seq(|one|, j requires 0 <= j < |one| => ExtractText(one[j])) == [ExtractText(c)];
    assert Join([ExtractText(c)]) == ExtractText(c) + Join([]);
  }

  /** The text of every child occurs in the text of the whole array. */
  lemma ExtractTextChild(items: seq<Children>, i: nat, sub: string)
    requires i < |items| && Includes(ExtractText(items[i]), sub)
    ensures Includes(ExtractText(Nodes(items)), sub)
  {
    ExtractTextAppend(items[..i], items[i..]);
    assert items[..i] + items[i..] == items;
    ExtractTextAppend([items[i]], items[i + 1..]);
    assert [items[i]] + items[i + 1..] == items[i..];
    ExtractTextSingle(items[i]);
    IncludesAppend(ExtractText(Nodes([items[i]])), ExtractText(Nodes(items[i + 1..])), sub);
    IncludesAppend(ExtractText(Nodes(items[..i])), ExtractText(Nodes(items[i..])), sub);
  }

  // ---------------------------------------------------------------------------
  // Keyword rules

  /** A priority rule: if the text contains any of `keywords`, the result is `value`. */
  datatype Rule<T> = Rule(keywords: seq<string>, value: T)

  predicate Matches<T>(rule: Rule<T>, text: string)
  {
    exists i :: 0 <= i < |rule.keywords| && Includes(text, rule.keywords[i])
  }

  /** The position of the first rule that matches (`|rules|` if none does). */
  function FirstMatchIndex<T>(rules: seq<Rule<T>>, text: string): (r: nat)
    ensures r <= |rules|
    ensures forall j :: 0 <= j < r ==> !Matches(rules[j], text)
    ensures r < |rules| ==> Matches(rules[r], text)
  {
    if rules == [] then 0
    else if Matches(rules[0], text) then 0
    else 1 + FirstMatchIndex(rules[1..], text)
  }

  /** A policy table read in order: the value of the first rule that matches, else `otherwise`. */
  function FirstMatch<T>(rules: seq<Rule<T>>, text: string, otherwise: T): T
  {
    var i := FirstMatchIndex(rules, text);
    if i < |rules| then rules[i].value else otherwise
  }

  /** A table value is chosen exactly when its rule matches and no earlier rule does. */
  lemma FirstMatchChooses<T>(rules: seq<Rule<T>>, text: string, otherwise: T, i: nat)
    requires i < |rules|
    requires Matches(rules[i], text) && forall j :: 0 <= j < i ==> !Matches(rules[j], text)
    ensures FirstMatch(rules, text, otherwise) == rules[i].value
  {
    var k := FirstMatchIndex(rules, text);
    assert k <= i;
    assert k < |rules| ==> Matches(rules[k], text);
  }

  /** A table is read head first. */
  lemma FirstMatchCons<T>(rules: seq<Rule<T>>, text: string, otherwise: T)
    requires rules != []
    ensures FirstMatch(rules, text, otherwise) ==
            if Matches(rules[0], text) then rules[0].value else FirstMatch(rules[1..], text, otherwise)
  {
  }

  /** A rule with two keywords matches when either occurs. */
  lemma MatchesTwo<T>(a: string, b: string, v: T, text: string)
    ensures Matches(Rule([a, b], v), text) <==> Includes(text, a) || Includes(text, b)
  {
    var ks := [a, b];
    assert ks[0] == a && ks[1] == b;
    if Matches(Rule(ks, v), text) {
      var i :| 0 <= i < |ks| && Includes(text, ks[i]);
      assert i == 0 || i == 1;
    }
  }

  /** A rule with one keyword matches when it occurs. */
  lemma MatchesOne<T>(a: string, v: T, text: string)
    ensures Matches(Rule([a], v), text) <==> Includes(text, a)
  {
    var ks := [a];
    assert ks[0] == a;
  }

  // ---------------------------------------------------------------------------
  // List items

  datatype ListItemStyle = SuccessStyle | WarningStyle | ErrorStyle | DefaultStyle

  /** `getListItemStyle` on already flattened text. */
  function ListItemStyleOf(text: string): ListItemStyle
  {
    var t := Lower(text);
    if Includes(t, "risk") || Includes(t, "challenge") then WarningStyle
    else if Includes(t, "opportunity") || Includes(t, "growth") then SuccessStyle
    else if Includes(t, "critical") || Includes(t, "threat") then ErrorStyle
    else DefaultStyle
  }

  function GetListItemStyle(children: Children): ListItemStyle
  {
    ListItemStyleOf(ExtractText(children))
  }

  /** The list-item policy as a table, in priority order. */
  const ListItemRules: seq<Rule<ListItemStyle>> := [
    Rule(["risk", "challenge"], WarningStyle),
    Rule(["opportunity", "growth"], SuccessStyle),
    Rule(["critical", "threat"], ErrorStyle)]

  /** `getListItemStyle` is the priority table read in order on the lower-cased text. */
  lemma ListItemStyleIsTable(text: string)
    ensures ListItemStyleOf(text) == FirstMatch(ListItemRules, Lower(text), DefaultStyle)
  {
    var t := Lower(text);
    MatchesTwo("risk", "challenge", WarningStyle, t);
    MatchesTwo("opportunity", "growth", SuccessStyle, t);
    MatchesTwo("critical", "threat", ErrorStyle, t);
    FirstMatchCons(ListItemRules, t, DefaultStyle);
    FirstMatchCons(ListItemRules[1..], t, DefaultStyle);
    FirstMatchCons(ListItemRules[2..], t, DefaultStyle);
    assert ListItemRules[1..][1..] == ListItemRules[2..];
    assert ListItemRules[2..][1..] == [];
  }

  /**
   * Priority warning > success > error > default, matched on lower-cased text:
   * a "risk" or "challenge" wins over everything, so text with both "risk"
   * and "threat" is a warning, and an error has none of the warning or
   * success terms.
   */
  lemma ListItemStylePrecedence(text: string)
    ensures var t := Lower(text); var r := ListItemStyleOf(text);
            (r == WarningStyle <==> Includes(t, "risk") || Includes(t, "challenge"))
            && (r == SuccessStyle <==>
                  (!(Includes(t, "risk") || Includes(t, "challenge"))
                   && (Includes(t, "opportunity") || Includes(t, "growth"))))
            && (r == ErrorStyle <==>
                  (!Includes(t, "risk") && !Includes(t, "challenge")
                   && !Includes(t, "opportunity") && !Includes(t, "growth")
                   && (Includes(t, "critical") || Includes(t, "threat"))))
            && (r == DefaultStyle <==>
                  (!Includes(t, "risk") && !Includes(t, "challenge")
                   && !Includes(t, "opportunity") && !Includes(t, "growth")
                   && !Includes(t, "critical") && !Includes(t, "threat")))
  {
  }

  /** Once a list item's text says "risk" or "challenge", more text around it cannot change the warning. */
  lemma WarningIsAbsorbing(a: string, b: string)
    requires ListItemStyleOf(a) == WarningStyle
    ensures ListItemStyleOf(a + b) == WarningStyle && ListItemStyleOf(b + a) == WarningStyle
  {
    LowerAppend(a, b);
    LowerAppend(b, a);
    var la := Lower(a);
    if Includes(la, "risk") {
      IncludesAppend(la, Lower(b), "risk");
      IncludesAppend(Lower(b), la, "risk");
    } else {
      IncludesAppend(la, Lower(b), "challenge");
      IncludesAppend(Lower(b), la, "challenge");
    }
  }

  /** A list item one of whose children is a warning is a warning as a whole. */
  lemma WarningChildMakesWarningItem(items: seq<Children>, i: nat)
    requires i < |items| && GetListItemStyle(items[i]) == WarningStyle
    ensures GetListItemStyle(Nodes(items)) == WarningStyle
  {
    var t := ExtractText(items[i]);
    ExtractTextAppend(items[..i], items[i..]);
    assert items[..i] + items[i..] == items;
    ExtractTextAppend([items[i]], items[i + 1..]);
    assert [items[i]] + items[i + 1..] == items[i..];
    ExtractTextSingle(items[i]);
    WarningIsAbsorbing(t, ExtractText(Nodes(items[i + 1..])));
    WarningIsAbsorbing(t + ExtractText(Nodes(items[i + 1..])), ExtractText(Nodes(items[..i])));
  }

  /** The list-item icons. */
  datatype Icon =
    | ChevronRight | AlertCircle | Lightbulb | Shield | Rocket | Award | Flame
    | BarChart3 | Target | Users | TrendingUp | Briefcase

  /** `getIcon` on already flattened text. */
  function IconOf(text: string): Icon
  {
    var t := Lower(text);
    if Includes(t, "feature") then Rocket
    else if Includes(t, "strength") || Includes(t, "advantage") then Award
    else if Includes(t, "weakness") then AlertCircle
    else if Includes(t, "opportunity") then Lightbulb
    else if Includes(t, "threat") || Includes(t, "challenge") then Flame
    else if Includes(t, "market") then BarChart3
    else if Includes(t, "target") then Target
    else if Includes(t, "competitor") then Users
    else if Includes(t, "benefit") then TrendingUp
    else ChevronRight
  }

  function GetIcon(children: Children): Icon
  {
    IconOf(ExtractText(children))
  }

  /** The icon policy as a table, in priority order. */
  const IconRules: seq<Rule<Icon>> := [
    Rule(["feature"], Rocket),
    Rule(["strength", "advantage"], Award),
    Rule(["weakness"], AlertCircle),
    Rule(["opportunity"], Lightbulb),
    Rule(["threat", "challenge"], Flame),
    Rule(["market"], BarChart3),
    Rule(["target"], Target),
    Rule(["competitor"], Users),
    Rule(["benefit"], TrendingUp)]

  /** The last four icon groups, read in order. */
  lemma IconTailIsTable(t: string)
    ensures FirstMatch(IconRules[5..], t, ChevronRight) ==
            if Includes(t, "market") then BarChart3
            else if Includes(t, "target") then Target
            else if Includes(t, "competitor") then Users
            else if Includes(t, "benefit") then TrendingUp
            else ChevronRight
  {
    MatchesOne("market", BarChart3, t);
    MatchesOne("target", Target, t);
    MatchesOne("competitor", Users, t);
    MatchesOne("benefit", TrendingUp, t);
    FirstMatchCons(IconRules[5..], t, ChevronRight);
    FirstMatchCons(IconRules[6..], t, ChevronRight);
    FirstMatchCons(IconRules[7..], t, ChevronRight);
    FirstMatchCons(IconRules[8..], t, ChevronRight);
    assert IconRules[5..][1..] == IconRules[6..];
    assert IconRules[6..][1..] == IconRules[7..];
    assert IconRules[7..][1..] == IconRules[8..];
    assert IconRules[8..][1..] == [];
  }

  /** `getIcon` is the icon table read in order, with `ChevronRight` when no group matches. */
  lemma IconIsTable(text: string)
    ensures IconOf(text) == FirstMatch(IconRules, Lower(text), ChevronRight)
  {
    var t := Lower(text);
    MatchesOne("feature", Rocket, t);
    MatchesTwo("strength", "advantage", Award, t);
    MatchesOne("weakness", AlertCircle, t);
    MatchesOne("opportunity", Lightbulb, t);
    MatchesTwo("threat", "challenge", Flame, t);
    IconTailIsTable(t);
    FirstMatchCons(IconRules, t, ChevronRight);
    FirstMatchCons(IconRules[1..], t, ChevronRight);
    FirstMatchCons(IconRules[2..], t, ChevronRight);
    FirstMatchCons(IconRules[3..], t, ChevronRight);
    FirstMatchCons(IconRules[4..], t, ChevronRight);
    assert IconRules[1..][1..] == IconRules[2..];
    assert IconRules[2..][1..] == IconRules[3..];
    assert IconRules[3..][1..] == IconRules[4..];
    assert IconRules[4..][1..] == IconRules[5..];
  }

  /** The background and icon colour of a list item (`bgMap` and `iconColorMap`). */
  datatype ListItemLook = ListItemLook(style: ListItemStyle, bg: string, iconColor: string, icon: Icon)

  /** The `li` renderer's choice for the given children under the given section. */
  function ListItemView(children: Children, section: SectionType): ListItemLook
  {
    var style := GetListItemStyle(children);
    var bg := match style
      case SuccessStyle => "bg-green-50 border-green-200"
      case WarningStyle => "bg-amber-50 border-amber-200"
      case ErrorStyle => "bg-red-50 border-red-200"
      case DefaultStyle => "bg-white border-gray-200";
    var iconColor := match style
      case SuccessStyle => "text-green-600"
      case WarningStyle => "text-amber-600"
      case ErrorStyle => "text-red-600"
      case DefaultStyle => SectionColors(section).icon;
    ListItemLook(style, bg, iconColor, GetIcon(children))
  }

  /**
   * Only a default-style item takes the section's icon colour; the success,
   * warning and error colours are the same under every section, and the
   * background never depends on the section.
   */
  lemma ListItemColourBySection(children: Children, s1: SectionType, s2: SectionType)
    ensures ListItemView(children, s1).bg == ListItemView(children, s2).bg
    ensures GetListItemStyle(children) == DefaultStyle ==>
              ListItemView(children, s1).iconColor == SectionColors(s1).icon
    ensures GetListItemStyle(children) != DefaultStyle ==>
              ListItemView(children, s1).iconColor == ListItemView(children, s2).iconColor
  {
  }

  // ---------------------------------------------------------------------------
  // Bold spans, block quotes and table headers

  datatype Badge = RedBadge | AmberBadge | GreenBadge | EmeraldBadge | GrayBadge

  /** The `strong` renderer's badge. */
  function BadgeOf(text: string): Badge
  {
    var t := Lower(text);
    if Includes(t, "high") || Includes(t, "critical") then RedBadge
    else if Includes(t, "medium") then AmberBadge
    else if Includes(t, "low") then GreenBadge
    else if Includes(t, "opportunity") then EmeraldBadge
    else GrayBadge
  }

  /** The badge policy as a table, in priority order. */
  const BadgeRules: seq<Rule<Badge>> := [
    Rule(["high", "critical"], RedBadge),
    Rule(["medium"], AmberBadge),
    Rule(["low"], GreenBadge),
    Rule(["opportunity"], EmeraldBadge)]

  /** The badge is the badge table read in order, with gray when nothing matches. */
  lemma BadgeIsTable(text: string)
    ensures BadgeOf(text) == FirstMatch(BadgeRules, Lower(text), GrayBadge)
  {
    var t := Lower(text);
    MatchesTwo("high", "critical", RedBadge, t);
    MatchesOne("medium", AmberBadge, t);
    MatchesOne("low", GreenBadge, t);
    MatchesOne("opportunity", EmeraldBadge, t);
    FirstMatchCons(BadgeRules, t, GrayBadge);
    FirstMatchCons(BadgeRules[1..], t, GrayBadge);
    FirstMatchCons(BadgeRules[2..], t, GrayBadge);
    FirstMatchCons(BadgeRules[3..], t, GrayBadge);
    assert BadgeRules[1..][1..] == BadgeRules[2..];
    assert BadgeRules[2..][1..] == BadgeRules[3..];
    assert BadgeRules[3..][1..] == [];
  }

  /** Matching is on substrings, so "highlight" gets the red badge of "high". */
  lemma HighlightIsRed()
    ensures BadgeOf("highlight") == RedBadge
  {
    assert Lower("highlight") == "highlight";
    assert "highlight"[0..4] == "high";
    IncludesAt("highlight", "high", 0);
  }

  /** Likewise "below" gets the green badge of "low". */
  lemma BelowIsGreen()
    ensures BadgeOf("below") == GreenBadge
  {
    assert Lower("below") == "below";
    assert "below"[2..5] == "low";
    IncludesAt("below", "low", 2);
    IncludesFirstChar("below", "high");
    IncludesFirstChar("below", "critical");
    IncludesFirstChar("below", "medium");
  }

  /** Tone and icon of a block quote. */
  datatype Tone = BlueTone | AmberTone | RedTone

  datatype Callout = Callout(tone: Tone, icon: Icon)

  /** The `blockquote` renderer: blue and a bulb, amber on risk/warning, then red on critical/danger. */
  function CalloutOf(text: string): Callout
  {
    var t := Lower(text);
    var first := if Includes(t, "risk") || Includes(t, "warning") then Callout(AmberTone, AlertCircle)
                 else Callout(BlueTone, Lightbulb);
    if Includes(t, "critical") || Includes(t, "danger") then Callout(RedTone, Shield) else first
  }

  /** The callout priority: the second check is not an `else`, so it comes first. */
  const CalloutRules: seq<Rule<Callout>> := [
    Rule(["critical", "danger"], Callout(RedTone, Shield)),
    Rule(["risk", "warning"], Callout(AmberTone, AlertCircle))]

  /**
   * Because the critical/danger check runs after the risk/warning one and is
   * not an `else`, it overrides: the callout is the table with red first.
   */
  lemma CalloutIsTable(text: string)
    ensures CalloutOf(text) == FirstMatch(CalloutRules, Lower(text), Callout(BlueTone, Lightbulb))
  {
    var t := Lower(text);
    MatchesTwo("critical", "danger", Callout(RedTone, Shield), t);
    MatchesTwo("risk", "warning", Callout(AmberTone, AlertCircle), t);
    FirstMatchCons(CalloutRules, t, Callout(BlueTone, Lightbulb));
    FirstMatchCons(CalloutRules[1..], t, Callout(BlueTone, Lightbulb));
    assert CalloutRules[1..][1..] == [];
  }

  /** Table-header gradient by section. */
  function TableHeaderGradient(section: SectionType): (g: string)
  {
    if section == Market then "from-blue-600 to-blue-700"
    else if section == Competition then "from-emerald-600 to-emerald-700"
    else if section == Risk then "from-amber-600 to-amber-700"
    else "from-gray-700 to-gray-800"
  }

  /** The colour family each section is drawn in. */
  function Hue(section: SectionType): string
  {
    match section
    case Market => "blue"
    case Competition => "emerald"
    case Risk => "amber"
    case Default => "gray"
  }

  /** The table-header gradient starts in the section's colour family. */
  lemma GradientHue(section: SectionType)
    ensures StartsWith(TableHeaderGradient(section), "from-" + Hue(section) + "-")
  {
    match section
    case Market => MarketHues();
    case Competition => CompetitionHues();
    case Risk => RiskHues();
    case Default => DefaultHues();
  }

  /** The palette's accent colour is in the same family. */
  lemma AccentHue(section: SectionType)
    ensures StartsWith(SectionColors(section).accent, "text-" + Hue(section) + "-")
  {
    match section
    case Market => MarketHues();
    case Competition => CompetitionHues();
    case Risk => RiskHues();
    case Default => DefaultHues();
  }

  // The two facts above, one section at a time.

  lemma MarketHues()
    ensures StartsWith(TableHeaderGradient(Market), "from-" + Hue(Market) + "-")
    ensures StartsWith(SectionColors(Market).accent, "text-" + Hue(Market) + "-")
  {
  }

  lemma CompetitionHues()
    ensures StartsWith(TableHeaderGradient(Competition), "from-" + Hue(Competition) + "-")
    ensures StartsWith(SectionColors(Competition).accent, "text-" + Hue(Competition) + "-")
  {
  }

  lemma RiskHues()
    ensures StartsWith(TableHeaderGradient(Risk), "from-" + Hue(Risk) + "-")
    ensures StartsWith(SectionColors(Risk).accent, "text-" + Hue(Risk) + "-")
  {
  }

  lemma DefaultHues()
    ensures StartsWith(TableHeaderGradient(Default), "from-" + Hue(Default) + "-")
    ensures StartsWith(SectionColors(Default).accent, "text-" + Hue(Default) + "-")
  {
  }

  /**
   * The header gradient is drawn in the colour family of the section's
   * palette: market blue, competition emerald, risk amber, anything else gray.
   * The four families differ, and so do the four gradients.
   */
  lemma GradientMatchesPalette(section: SectionType, other: SectionType)
    ensures StartsWith(TableHeaderGradient(section), "from-" + Hue(section) + "-")
    ensures StartsWith(SectionColors(section).accent, "text-" + Hue(section) + "-")
    ensures section != other ==> Hue(section) != Hue(other)
    ensures section != other ==> TableHeaderGradient(section) != TableHeaderGradient(other)
  {
    GradientHue(section);
    AccentHue(section);
    if section != other {
      GradientsDiffer(section, other);
    }
  }

  /** Different sections have different colour families and different header gradients. */
  lemma GradientsDiffer(section: SectionType, other: SectionType)
    requires section != other
    ensures Hue(section) != Hue(other)
    ensures TableHeaderGradient(section) != TableHeaderGradient(other)
  {
    GradientHue(section);
    GradientHue(other);
    var p := "from-" + Hue(section) + "-";
    var q := "from-" + Hue(other) + "-";
    assert TableHeaderGradient(section)[5] == p[5] == Hue(section)[0];
    assert TableHeaderGradient(other)[5] == q[5] == Hue(other)[0];
    assert Hue(section)[0] != Hue(other)[0];
  }

  /**
   * A renderer given no `section` draws list items and table headers exactly
   * as under the default section: gray icons for default-style items and a
   * gray header gradient.
   */
  lemma AbsentSectionRendersAsDefault(children: Children)
    ensures ListItemView(children, SectionOrDefault(None)) == ListItemView(children, Default)
    ensures GetListItemStyle(children) == DefaultStyle ==>
              ListItemView(children, SectionOrDefault(None)).iconColor == "text-gray-600"
    ensures TableHeaderGradient(SectionOrDefault(None)) == TableHeaderGradient(Default)
    ensures Hue(SectionOrDefault(None)) == "gray"
  {
  }
}
