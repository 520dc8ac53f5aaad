/** The small total maps of the gallery's chrome: the category icon switch
    (App.tsx:165-181), the sidebar label (App.tsx:471) and the header
    text handed to the typewriter (App.tsx:490). */
module Labels {
  import opened Types
  import opened Text

  /** The icon components `CategoryIcon` can render. */
  datatype Icon =
    | Monitor | Globe | Disc | Terminal | Code | Cpu | Zap | Activity
    | Smartphone | Shield | Layers | Box | Hash

  /** `CategoryIcon`: the prop is any string; it is compared against each
      enum value in turn, and anything else falls through to `Hash`. */
  function CategoryIcon(category: string): (icon: Icon)
    ensures |category| < 6 ==> icon == Hash
  {
    if category == DisplayName(WebDesign) then Monitor
    else if category == DisplayName(WebProgramming) then Globe
    else if category == DisplayName(Shaders) then Disc
    else if category == DisplayName(Python) then Terminal
    else if category == DisplayName(JavaScript) then Code
    else if category == DisplayName(MachineLearning) then Cpu
    else if category == DisplayName(GameDev) then Zap
    else if category == DisplayName(DataScience) then Activity
    else if category == DisplayName(MobileApps) then Smartphone
    else if category == DisplayName(Cybersecurity) then Shield
    else if category == DisplayName(DevOps) then Layers
    else if category == DisplayName(AITools) then Box
    else Hash
  }

  /** The icon of each category, read off the switch's cases. */
  function IconFor(c: Category): Icon {
    match c
    case WebDesign => Monitor
    case WebProgramming => Globe
    case Shaders => Disc
    case Python => Terminal
    case JavaScript => Code
    case MachineLearning => Cpu
    case GameDev => Zap
    case DataScience => Activity
    case MobileApps => Smartphone
    case Cybersecurity => Shield
    case DevOps => Layers
    case AITools => Box
  }

  /** A category's string value reaches its own case of the switch: no
      earlier case compares equal to it. */
  lemma CategoryIconOfCategory(c: Category)
    ensures CategoryIcon(DisplayName(c)) == IconFor(c)
  {
    match c
    case WebDesign | WebProgramming | Shaders | Python | JavaScript | MachineLearning | GameDev =>
      IconOfFirstSeven(c);
    case DataScience | MobileApps | Cybersecurity =>
      IconOfMiddleThree(c);
    case DevOps | AITools =>
      IconOfLastTwo(c);
  }

  lemma {:induction false} IconOfFirstSeven(c: Category)
    requires Ordinal(c) < 7
    ensures CategoryIcon(DisplayName(c)) == IconFor(c)
  {
    match c
    case WebDesign =>
    case WebProgramming =>
    case Shaders =>
    case Python =>
    case JavaScript =>
    case MachineLearning =>
    case GameDev =>
  }

  lemma {:induction false} IconOfMiddleThree(c: Category)
    requires c == DataScience || c == MobileApps || c == Cybersecurity
    ensures CategoryIcon(DisplayName(c)) == IconFor(c)
  {
    match c
    case DataScience =>
    case MobileApps =>
    case Cybersecurity =>
  }

  lemma {:induction false} IconOfLastTwo(c: Category)
    requires c == DevOps || c == AITools
    ensures CategoryIcon(DisplayName(c)) == IconFor(c)
  {
    match c
    case DevOps =>
    case AITools =>
  }

  /** The switch falls through to `Hash` exactly for a string that is no
      category's value. */
  lemma CategoryIconFallback(category: string)
    ensures CategoryIcon(category) == Hash <==> forall c :: DisplayName(c) != category
  {
    if c :| DisplayName(c) == category {
      CategoryIconOfCategory(c);
    }
  }

  /** Every category gets its own icon, and none gets the fallback. */
  lemma CategoryIconsDistinct(c1: Category, c2: Category)
    ensures CategoryIcon(DisplayName(c1)) != Hash
    ensures CategoryIcon(DisplayName(c1)) == CategoryIcon(DisplayName(c2)) <==> c1 == c2
  {
    CategoryIconOfCategory(c1);
    CategoryIconOfCategory(c2);
  }

  /** `s.replace(/\s/g, ch)`: every whitespace character becomes `ch`. */
  function ReplaceWhitespace(s: string, ch: char): (r: string)
    ensures |r| == |s|
    ensures forall k :: 0 <= k < |s| ==> r[k] == (if IsWhitespace(s[k]) then ch else s[k])
  {
    if s == [] then [] else [if IsWhitespace(s[0]) then ch else s[0]] + ReplaceWhitespace(s[1..], ch)
  }

  /** The sidebar label `cat.toLowerCase().replace(/\s/g, '_')`. */
  function SidebarLabel(cat: string): (name: string)
    ensures |name| == |cat|
  {
    ReplaceWhitespace(Lower(cat), '_')
  }

  /** The label has the length of the category string, no whitespace and
      no upper-case letter; each character is the lowered original, or `_`
      where the original was whitespace. */
  lemma SidebarLabelShape(cat: string)
    ensures |SidebarLabel(cat)| == |cat|
    ensures forall k :: 0 <= k < |cat| ==>
      !IsWhitespace(SidebarLabel(cat)[k]) && !IsUpperAscii(SidebarLabel(cat)[k])
    ensures forall k :: 0 <= k < |cat| ==>
      SidebarLabel(cat)[k] == (if IsWhitespace(cat[k]) then '_' else LowerChar(cat[k]))
  {
    var l := Lower(cat);
    forall k | 0 <= k < |cat|
      ensures IsWhitespace(l[k]) <==> IsWhitespace(cat[k])
    {
      assert l[k] == LowerChar(cat[k]);
    }
  }

  /** The text the header types out: `ROOT_ACCESS` for `'All'`, the
      upper-cased category string otherwise. */
  function HeaderText(selected: string, isAll: bool): (header: string)
    ensures |header| == (if isAll then 11 else |selected|)
  {
    if isAll then "ROOT_ACCESS" else Upper(selected)
  }

  /** A category header is never `ROOT_ACCESS` (no category string starts
      with `R`), and it lowers to the lowered category string, so it names
      the same category the sidebar label does. */
  lemma HeaderTextOfCategory(c: Category)
    ensures HeaderText(DisplayName(c), false) != HeaderText("", true)
    ensures Lower(HeaderText(DisplayName(c), false)) == Lower(DisplayName(c))
  {
    var d := DisplayName(c);
    assert Upper(d)[0] == UpperChar(d[0]) != 'R';
    LowerOfUpper(d);
  }
}
