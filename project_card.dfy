/** The project card: a risk score shown in one of three colour bands, the
    first three SDG tags as badges, each with an icon picked by keyword and
    labelled by the text before its first colon. */
module ProjectCard {
  import opened Wrappers
  import Text

  /** The three risk bands, best first. */
  datatype RiskBand = Low | Medium | High

  function BandRank(b: RiskBand): nat
  {
    match b
    case Low => 0
    case Medium => 1
    case High => 2
  }

  /** The band a score falls in: at most 30, at most 60, above 60. */
  function BandOf(score: real): (b: RiskBand)
    ensures b == Low <==> score <= 30.0
    ensures b == Medium <==> 30.0 < score <= 60.0
    ensures b == High <==> score > 60.0
  {
    if score <= 30.0 then Low else if score <= 60.0 then Medium else High
  }

  /** A higher score never lands in a better band. */
  lemma BandMonotone(s: real, t: real)
    requires s <= t
    ensures BandRank(BandOf(s)) <= BandRank(BandOf(t))
  {
  }

  /** `getRiskColor`. */
  function RiskColor(score: real): string
  {
    if score <= 30.0 then "text-accent"
    else if score <= 60.0 then "text-warning"
    else "text-destructive"
  }

  /** `getRiskBg`. */
  function RiskBg(score: real): string
  {
    if score <= 30.0 then "bg-accent/10 border-accent/20"
    else if score <= 60.0 then "bg-warning/10 border-warning/20"
    else "bg-destructive/10 border-destructive/20"
  }

  /** The band a text-colour class stands for. */
  function BandOfColor(c: string): Option<RiskBand>
  {
    if c == "text-accent" then Some(Low)
    else if c == "text-warning" then Some(Medium)
    else if c == "text-destructive" then Some(High)
    else None
  }

  /** The band a background class stands for. */
  function BandOfBg(c: string): Option<RiskBand>
  {
    if c == "bg-accent/10 border-accent/20" then Some(Low)
    else if c == "bg-warning/10 border-warning/20" then Some(Medium)
    else if c == "bg-destructive/10 border-destructive/20" then Some(High)
    else None
  }

  /** The text colour and the background of one score always stand for the
      same band: the one `BandOf` assigns. */
  lemma ColorAndBackgroundAgree(score: real)
    ensures BandOfColor(RiskColor(score)) == Some(BandOf(score))
    ensures BandOfBg(RiskBg(score)) == Some(BandOf(score))
  {
    assert |"text-accent"| == 11 && |"text-warning"| == 12 && |"text-destructive"| == 16;
    assert |"bg-accent/10 border-accent/20"| != |"bg-warning/10 border-warning/20"|;
    assert |"bg-warning/10 border-warning/20"| != |"bg-destructive/10 border-destructive/20"|;
    assert |"bg-accent/10 border-accent/20"| != |"bg-destructive/10 border-destructive/20"|;
  }

  datatype Icon = Leaf | Droplets | Zap | Building2

  /** The keyword tests of `getSDGIcon`, in the order they are tried. */
  const IconRules: seq<(string, Icon)> := [
    ("Life on Land", Leaf),
    ("Clean Water", Droplets),
    ("Clean Energy", Zap),
    ("Climate Action", Leaf),
    ("Life Below Water", Droplets),
    ("Decent Work", Building2),
    ("Innovation", Zap)]

  /** Rule `k` is the first rule whose keyword occurs in `tag`. */
  predicate FirstMatchAt(rules: seq<(string, Icon)>, tag: string, k: int)
  {
    && 0 <= k < |rules|
    && Text.Includes(tag, rules[k].0)
    && (forall j :: 0 <= j < k ==> !Text.Includes(tag, rules[j].0))
  }

  /** The icon of the first rule whose keyword occurs in `tag`, else `fallback`. */
  function FirstMatch(rules: seq<(string, Icon)>, tag: string, fallback: Icon): (icon: Icon)
    ensures (forall k :: 0 <= k < |rules| ==> !Text.Includes(tag, rules[k].0)) ==> icon == fallback
    ensures forall k :: FirstMatchAt(rules, tag, k) ==> icon == rules[k].1
  {
    if rules == [] then fallback
    else if Text.Includes(tag, rules[0].0) then rules[0].1
    else
      var icon := FirstMatch(rules[1..], tag, fallback);
      assert forall k :: FirstMatchAt(rules, tag, k) ==> FirstMatchAt(rules[1..], tag, k - 1);
      icon
  }

  /** `getSDGIcon`: the first matching keyword decides; no match gives a leaf. */
  function SdgIcon(tag: string): (icon: Icon)
    ensures forall k :: FirstMatchAt(IconRules, tag, k) ==> icon == IconRules[k].1
    ensures (forall k :: 0 <= k < |IconRules| ==> !Text.Includes(tag, IconRules[k].0)) ==> icon == Leaf
  {
    FirstMatch(IconRules, tag, Leaf)
  }

  /** `tag.split(':')[0]`: the text before the first colon, or the whole tag. */
  function BadgeLabel(tag: string): (prefix: string)
    ensures ':' !in prefix
    ensures |prefix| <= |tag| && tag[..|prefix|] == prefix
    ensures |prefix| == |tag| <==> ':' !in tag
    ensures |prefix| < |tag| ==> tag[|prefix|] == ':'
  {
    match Text.IndexOf(tag, ':')
    case None => tag
    case Some(i) => tag[..i]
  }

  /** `project.sdgs.slice(0, 3)`: the first three tags, or all when fewer. */
  function TopSdgs(sdgs: seq<string>): (top: seq<string>)
    ensures |top| == if |sdgs| < 3 then |sdgs| else 3
    ensures top == sdgs[..|top|]
  {
    if |sdgs| <= 3 then sdgs else sdgs[..3]
  }

  /** One badge of the card. */
  datatype Badge = Badge(icon: Icon, text: string)

  /** The badges of a card: icon and label of each of the top tags, in order. */
  function Badges(sdgs: seq<string>): (badges: seq<Badge>)
    ensures |badges| == |TopSdgs(sdgs)| <= 3
    ensures forall i :: 0 <= i < |badges| ==>
              badges[i] == Badge(SdgIcon(sdgs[i]), BadgeLabel(sdgs[i]))
  {
    var top := TopSdgs(sdgs);
    seq(|top|, i requires 0 <= i < |top| => Badge(SdgIcon(top[i]), BadgeLabel(top[i])))
  }
}
