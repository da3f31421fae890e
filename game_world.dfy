/** The project orbs of the 3D game world (portfolio/src/components/3d/GameWorld.tsx): the
    project data, the `totalMetrics` sums computed with `replace` and `parseInt`, and the
    `hovered`, `selectedProject` and `showMetrics` state driven by pointer and click
    handlers. */
module GameWorld {
  import opened Base

  predicate IsDigit(c: char) {
    '0' <= c <= '9'
  }

  function DigitValue(c: char): nat
    requires IsDigit(c)
  {
    (c as int - '0' as int) as nat
  }

  function DigitChar(d: nat): (c: char)
    requires d < 10
    ensures IsDigit(c) && DigitValue(c) == d
  {
    ('0' as int + d) as char
  }

  /** The longest prefix made of decimal digits. */
  function LeadingDigits(s: string): (ds: string)
    ensures |ds| <= |s| && ds == s[..|ds|]
    ensures forall k :: 0 <= k < |ds| ==> IsDigit(ds[k])
    ensures |ds| < |s| ==> !IsDigit(s[|ds|])
  {
    if s == [] || !IsDigit(s[0]) then [] else [s[0]] + LeadingDigits(s[1..])
  }

  predicate AllDigits(s: string) {
    forall k :: 0 <= k < |s| ==> IsDigit(s[k])
  }

  /** The value of a string of decimal digits, read from the left. */
  function DigitsValue(ds: string): nat
    requires AllDigits(ds)
    decreases |ds|
  {
    if ds == [] then 0 else DigitsValue(ds[..|ds| - 1]) * 10 + DigitValue(ds[|ds| - 1])
  }

  /** `parseInt(s)` for decimal text: leading white space is skipped, one sign is read,
      then as many digits as follow; with no digit the result is `NaN`, here `None`. */
  function ParseInt(s: string): Option<int> {
    var t := TrimStart(s);
    var negative := t != [] && t[0] == '-';
    var unsigned := if t != [] && (t[0] == '-' || t[0] == '+') then t[1..] else t;
    var ds := LeadingDigits(unsigned);
    if ds == [] then None
    else
      var magnitude: int := DigitsValue(ds);
      Some(if negative then -magnitude else magnitude)
  }

  /** The decimal text of a natural number, without leading zeros. */
  function Decimal(n: nat): (s: string)
    ensures s != [] && AllDigits(s)
  {
    if n < 10 then [DigitChar(n)] else Decimal(n / 10) + [DigitChar(n % 10)]
  }

  lemma {:induction false} DecimalValue(n: nat)
    ensures DigitsValue(Decimal(n)) == n
  {
    if n >= 10 {
      var s := Decimal(n);
      assert s[..|s| - 1] == Decimal(n / 10);
      DecimalValue(n / 10);
    }
  }

  /** `parseInt` reads a run of digits and stops at the first character that is not a
      digit, whatever follows it: '2.5' reads as 2. */
  lemma ParseIntStopsAtNonDigit(d: string, rest: string)
    requires d != [] && AllDigits(d)
    requires rest == [] || !IsDigit(rest[0])
    ensures ParseInt(d + rest) == Some(DigitsValue(d))
  {
    var s := d + rest;
    assert !IsWhiteSpace(s[0]) && s[0] != '-' && s[0] != '+';
    assert TrimStart(s) == s;
    LeadingDigitsOfDigitsThen(d, rest);
  }

  /** `parseInt` reads back the decimal text of every natural number. */
  lemma ParseIntReadsDecimal(n: nat)
    ensures ParseInt(Decimal(n)) == Some(n)
  {
    assert Decimal(n) + [] == Decimal(n);
    ParseIntStopsAtNonDigit(Decimal(n), []);
    DecimalValue(n);
  }

  lemma {:induction false} LeadingDigitsOfDigitsThen(d: string, rest: string)
    requires AllDigits(d)
    requires rest == [] || !IsDigit(rest[0])
    ensures LeadingDigits(d + rest) == d
    decreases |d|
  {
    if d == [] {
      assert d + rest == rest;
    } else {
      assert (d + rest)[1..] == d[1..] + rest;
      LeadingDigitsOfDigitsThen(d[1..], rest);
      assert d == [d[0]] + d[1..];
    }
  }

  /** Text without a digit after the optional sign is `NaN`. */
  lemma ParseIntWithoutDigits(s: string)
    requires s != [] && !IsDigit(s[0]) && !IsWhiteSpace(s[0]) && s[0] != '-' && s[0] != '+'
    ensures ParseInt(s) == None
  {
  }

  /** `s.replace(pattern, replacement)` with a string pattern: only the first occurrence is
      replaced, and an empty pattern inserts the replacement at the front. */
  function ReplaceFirst(s: string, pattern: string, replacement: string): string
    decreases |s|
  {
    if StartsWith(s, pattern) then replacement + s[|pattern|..]
    else if s == [] then []
    else [s[0]] + ReplaceFirst(s[1..], pattern, replacement)
  }

  /** The first occurrence of the pattern, at `i`, is what gets replaced. */
  lemma {:induction false} ReplaceFirstAt(s: string, pattern: string, replacement: string, i: nat)
    requires OccursAt(s, pattern, i)
    requires forall j :: 0 <= j < i ==> !OccursAt(s, pattern, j)
    ensures ReplaceFirst(s, pattern, replacement) == s[..i] + replacement + s[i + |pattern|..]
    decreases i
  {
    if i == 0 {
      assert StartsWith(s, pattern);
    } else {
      var t := s[1..];
      assert !OccursAt(s, pattern, 0);
      ReplaceFirstStep(s, pattern, replacement);
      NoEarlierOccurrence(s, pattern, i);
      ReplaceFirstAt(t, pattern, replacement, i - 1);
      assert s[..i] == [s[0]] + t[..i - 1];
      assert t[i - 1 + |pattern|..] == s[i + |pattern|..];
    }
  }

  /** Where the text does not start with the pattern, its first character is kept. */
  lemma ReplaceFirstStep(s: string, pattern: string, replacement: string)
    requires !OccursAt(s, pattern, 0) && s != []
    ensures ReplaceFirst(s, pattern, replacement) == [s[0]] + ReplaceFirst(s[1..], pattern, replacement)
  {
    assert !StartsWith(s, pattern);
  }

  /** The first occurrence at `i` in the text is the first occurrence at `i - 1` in its tail. */
  lemma NoEarlierOccurrence(s: string, pattern: string, i: nat)
    requires OccursAt(s, pattern, i) && i >= 1
    requires forall j :: 0 <= j < i ==> !OccursAt(s, pattern, j)
    ensures OccursAt(s[1..], pattern, i - 1)
    ensures forall j :: 0 <= j < i - 1 ==> !OccursAt(s[1..], pattern, j)
  {
    OccursShifted(s, pattern, i);
    forall j | 0 <= j < i - 1
      ensures !OccursAt(s[1..], pattern, j)
    {
      OccursShifted(s, pattern, j + 1);
    }
  }

  /** An occurrence past the first character is an occurrence in the rest. */
  lemma OccursShifted(s: string, pattern: string, k: nat)
    requires 1 <= k <= |s|
    ensures OccursAt(s, pattern, k) <==> OccursAt(s[1..], pattern, k - 1)
  {
    if k <= |s| - |pattern| {
      assert s[1..][k - 1..k - 1 + |pattern|] == s[k..k + |pattern|];
    }
  }

  /** Text without the pattern is left as it is. */
  lemma {:induction false} ReplaceAbsent(s: string, pattern: string, replacement: string)
    requires !Contains(s, pattern)
    ensures ReplaceFirst(s, pattern, replacement) == s
    decreases |s|
  {
    assert !OccursAt(s, pattern, 0);
    if s != [] {
      assert !Contains(s[1..], pattern) by {
        if Contains(s[1..], pattern) {
          var j :| 0 <= j <= |s[1..]| - |pattern| && OccursAt(s[1..], pattern, j);
          assert s[j + 1..j + 1 + |pattern|] == s[1..][j..j + |pattern|];
          assert OccursAt(s, pattern, j + 1);
        }
      }
      ReplaceAbsent(s[1..], pattern, replacement);
    }
  }

  datatype ProjectMetrics = ProjectMetrics(
    downloads: string, rating: real, size: string, revenue: Option<string>, users: Option<string>)

  /** A project orb; position, colour and description are scene data and are left out. */
  datatype Project = Project(id: string, title: string, tech: seq<string>,
                             metrics: ProjectMetrics, achievements: seq<string>)

  const Projects: seq<Project> := [
    Project("pulse-incident-ios", "Pulse Incident", ["SwiftUI", "ARKit", "Core Data", "CloudKit", "Combine"],
            ProjectMetrics("15K+", 4.8, "45MB", Some("$50K+"), Some("2.5K+")),
            ["Featured in App Store", "Enterprise client adoption", "Zero critical bugs in production", "99.9% uptime SLA"]),
    Project("weather-pro", "Weather Pro", ["SwiftUI", "Combine", "WeatherKit", "Core ML", "WidgetKit"],
            ProjectMetrics("8K+", 4.9, "32MB", Some("$25K+"), Some("1.8K+")),
            ["App Store Editor's Choice", "95% accuracy rate", "Sub-1s load times", "Offline functionality"]),
    Project("task-manager", "Task Manager Pro", ["SwiftUI", "Core Data", "CloudKit", "WidgetKit", "StoreKit"],
            ProjectMetrics("12K+", 4.7, "28MB", Some("$35K+"), Some("3.2K+")),
            ["Team collaboration features", "Advanced analytics dashboard", "Cross-platform sync", "Enterprise security compliance"])
  ]

  /** `a || '0'` after an optional chain: undefined and `''` both give '0'. */
  function OrZero(s: Option<string>): string {
    if s.Some? && s.value != "" then s.value else "0"
  }

  /** `downloads.replace('K+', '')`, read with `parseInt`. */
  function Downloads(text: string): Option<int> {
    ParseInt(ReplaceFirst(text, "K+", ""))
  }

  /** `revenue?.replace('$', '').replace('K+', '') || '0'`, read with `parseInt`. */
  function Revenue(text: Option<string>): Option<int> {
    var stripped := if text.Some? then Some(ReplaceFirst(ReplaceFirst(text.value, "$", ""), "K+", "")) else None;
    ParseInt(OrZero(stripped))
  }

  /** `users?.replace('K+', '') || '0'`, read with `parseInt`. */
  function Users(text: Option<string>): Option<int> {
    var stripped := if text.Some? then Some(ReplaceFirst(text.value, "K+", "")) else None;
    ParseInt(OrZero(stripped))
  }

  /** The `|| '0'` fallback: a project without a revenue or a users figure counts as 0,
      and so does one whose figure is left empty once stripped. */
  lemma MissingCountsZero()
    ensures Revenue(None) == Some(0) && Users(None) == Some(0)
    ensures Revenue(Some("")) == Some(0) && Users(Some("")) == Some(0)
  {
    ParseIntReadsDecimal(0);
    assert Decimal(0) == "0";
    ReplaceAbsent("", "$", "");
    ReplaceAbsent("", "K+", "");
  }

  function DownloadsOf(p: Project): Option<int> {
    Downloads(p.metrics.downloads)
  }

  function RevenueOf(p: Project): Option<int> {
    Revenue(p.metrics.revenue)
  }

  function UsersOf(p: Project): Option<int> {
    Users(p.metrics.users)
  }

  /** NaN-propagating addition. */
  function Add(a: Option<int>, b: Option<int>): Option<int> {
    if a.Some? && b.Some? then Some(a.value + b.value) else None
  }

  /** `projects.reduce((sum, p) => sum + f(p), 0)`: a single `NaN` makes the whole sum
      `NaN`. Integer addition makes the order of the terms immaterial, so the sum is taken
      from the front. */
  function Total(ps: seq<Project>, f: Project -> Option<int>): Option<int> {
    if ps == [] then Some(0) else Add(f(ps[0]), Total(ps[1..], f))
  }

  /** A three-project sum is the sum of the three readings when none of them is `NaN`. */
  lemma TotalOfThree(ps: seq<Project>, f: Project -> Option<int>, a: int, b: int, c: int)
    requires |ps| == 3
    requires f(ps[0]) == Some(a) && f(ps[1]) == Some(b) && f(ps[2]) == Some(c)
    ensures Total(ps, f) == Some(a + b + c)
  {
    var t1 := ps[1..];
    var t2 := t1[1..];
    assert t2[1..] == [];
    assert Total(t2, f) == Some(c);
    assert Total(t1, f) == Some(b + c);
  }

  /** Removing the first occurrence of a pattern from text that ends with it, when the
      pattern's first character does not occur earlier, leaves the text before it. */
  lemma RemoveTrailing(t: string, pattern: string)
    requires pattern != [] && pattern[0] !in t
    ensures ReplaceFirst(t + pattern, pattern, "") == t
  {
    var s := t + pattern;
    forall j | 0 <= j < |t|
      ensures !OccursAt(s, pattern, j)
    {
      assert s[j..j + |pattern|][0] == s[j] == t[j] != pattern[0];
    }
    assert s[|t|..|t| + |pattern|] == pattern;
    ReplaceFirstAt(s, pattern, "", |t|);
    assert s[..|t|] == t;
  }

  /** A count written as digits, possibly followed by a fraction, then 'K+' reads as its
      whole thousands: `parseInt` drops the fraction. */
  lemma ReadsThousands(s: string, d: string, fraction: string)
    requires d != [] && AllDigits(d)
    requires fraction == [] || !IsDigit(fraction[0])
    requires 'K' !in fraction
    requires s == d + fraction + "K+"
    ensures ReplaceFirst(s, "K+", "") == d + fraction
    ensures Downloads(s) == Some(DigitsValue(d))
    ensures Users(Some(s)) == Some(DigitsValue(d))
  {
    assert 'K' !in d;
    RemoveTrailing(d + fraction, "K+");
    ParseIntStopsAtNonDigit(d, fraction);
  }

  /** The same with a leading '$', which is removed first. */
  lemma ReadsDollarThousands(s: string, d: string)
    requires d != [] && AllDigits(d)
    requires s == "$" + d + "K+"
    ensures Revenue(Some(s)) == Some(DigitsValue(d))
  {
    var rest := d + "K+";
    assert s == "$" + rest;
    assert s[..1] == "$";
    assert ReplaceFirst(s, "$", "") == rest;
    assert rest == d + "" + "K+";
    ReadsThousands(rest, d, "");
  }

  /** One lemma per reading keeps each literal small for the solver. */
  lemma Downloads15()
    ensures Downloads("15K+") == Some(15)
  {
    var d := "15";
    assert DigitsValue(d) == 15 by { assert d[..1] == "1"; assert d[..1][..0] == ""; }
    var s := d + "" + "K+";
    assert s == "15K+";
    ReadsThousands(s, d, "");
  }

  lemma Downloads8()
    ensures Downloads("8K+") == Some(8)
  {
    var d := "8";
    assert DigitsValue(d) == 8 by { assert d[..0] == ""; }
    var s := d + "" + "K+";
    assert s == "8K+";
    ReadsThousands(s, d, "");
  }

  lemma Downloads12()
    ensures Downloads("12K+") == Some(12)
  {
    var d := "12";
    assert DigitsValue(d) == 12 by { assert d[..1] == "1"; assert d[..1][..0] == ""; }
    var s := d + "" + "K+";
    assert s == "12K+";
    ReadsThousands(s, d, "");
  }

  lemma Revenue50()
    ensures Revenue(Some("$50K+")) == Some(50)
  {
    var d := "50";
    assert DigitsValue(d) == 50 by { assert d[..1] == "5"; assert d[..1][..0] == ""; }
    var s := "$" + d + "K+";
    assert s == "$50K+";
    ReadsDollarThousands(s, d);
  }

  lemma Revenue25()
    ensures Revenue(Some("$25K+")) == Some(25)
  {
    var d := "25";
    assert DigitsValue(d) == 25 by { assert d[..1] == "2"; assert d[..1][..0] == ""; }
    var s := "$" + d + "K+";
    assert s == "$25K+";
    ReadsDollarThousands(s, d);
  }

  lemma Revenue35()
    ensures Revenue(Some("$35K+")) == Some(35)
  {
    var d := "35";
    assert DigitsValue(d) == 35 by { assert d[..1] == "3"; assert d[..1][..0] == ""; }
    var s := "$" + d + "K+";
    assert s == "$35K+";
    ReadsDollarThousands(s, d);
  }

  lemma Users25()
    ensures Users(Some("2.5K+")) == Some(2)
  {
    var d := "2";
    assert DigitsValue(d) == 2 by { assert d[..0] == ""; }
    var s := d + ".5" + "K+";
    assert s == "2.5K+";
    ReadsThousands(s, d, ".5");
  }

  lemma Users18()
    ensures Users(Some("1.8K+")) == Some(1)
  {
    var d := "1";
    assert DigitsValue(d) == 1 by { assert d[..0] == ""; }
    var s := d + ".8" + "K+";
    assert s == "1.8K+";
    ReadsThousands(s, d, ".8");
  }

  lemma Users32()
    ensures Users(Some("3.2K+")) == Some(3)
  {
    var d := "3";
    assert DigitsValue(d) == 3 by { assert d[..0] == ""; }
    var s := d + ".2" + "K+";
    assert s == "3.2K+";
    ReadsThousands(s, d, ".2");
  }

  /** The downloads total is 15 + 8 + 12 = 35. */
  lemma DownloadsTotal()
    ensures Total(Projects, DownloadsOf) == Some(35)
  {
    Downloads15();
    assert DownloadsOf(Projects[0]) == Some(15);
    Downloads8();
    assert DownloadsOf(Projects[1]) == Some(8);
    Downloads12();
    assert DownloadsOf(Projects[2]) == Some(12);
    TotalOfThree(Projects, DownloadsOf, 15, 8, 12);
  }

  /** The revenue total strips '$' and then 'K+': 50 + 25 + 35 = 110. */
  lemma RevenueTotal()
    ensures Total(Projects, RevenueOf) == Some(110)
  {
    Revenue50();
    assert RevenueOf(Projects[0]) == Some(50);
    Revenue25();
    assert RevenueOf(Projects[1]) == Some(25);
    Revenue35();
    assert RevenueOf(Projects[2]) == Some(35);
    TotalOfThree(Projects, RevenueOf, 50, 25, 35);
  }

  /** The users total is 2 + 1 + 3 = 6: `parseInt` stops at the '.' of '2.5', '1.8' and
      '3.2'. */
  lemma UsersTotal()
    ensures Total(Projects, UsersOf) == Some(6)
  {
    Users25();
    assert UsersOf(Projects[0]) == Some(2);
    Users18();
    assert UsersOf(Projects[1]) == Some(1);
    Users32();
    assert UsersOf(Projects[2]) == Some(3);
    TotalOfThree(Projects, UsersOf, 2, 1, 3);
  }

  /** A click on a project's orb: it becomes selected unless it already was. */
  function Toggle(selected: Option<string>, id: string): Option<string> {
    if selected == Some(id) then None else Some(id)
  }

  /** After a click the project is selected exactly when it was not before, and no other
      project is. Two clicks on one project restore the selection when it was that project
      or nothing, and otherwise end with nothing selected. */
  lemma ToggleSelection(selected: Option<string>, id: string)
    ensures Toggle(selected, id) == Some(id) <==> selected != Some(id)
    ensures Toggle(selected, id).Some? ==> Toggle(selected, id).value == id
    ensures selected == None || selected == Some(id) ==> Toggle(Toggle(selected, id), id) == selected
    ensures Toggle(Toggle(selected, id), id) == None <==> selected != Some(id)
  {
  }

  /** The achievements list drawn under a project: only for the selected one. */
  function ShownAchievements(selected: Option<string>, p: Project): seq<string> {
    if selected == Some(p.id) then p.achievements else []
  }

  /** The floating badges: `achievements.slice(0, 2)`. */
  function Badges(p: Project): seq<string> {
    if |p.achievements| <= 2 then p.achievements else p.achievements[..2]
  }

  /** Project ids are distinct, so at most one project lists its achievements, and only the
      selected one; each project floats at most two badges, its first achievements. */
  lemma AchievementsAndBadges(selected: Option<string>, i: nat, j: nat)
    requires i < |Projects| && j < |Projects|
    ensures ShownAchievements(selected, Projects[i]) != [] ==> selected == Some(Projects[i].id)
    ensures ShownAchievements(selected, Projects[i]) != [] && ShownAchievements(selected, Projects[j]) != [] ==> i == j
    ensures |Badges(Projects[i])| <= 2
    ensures Badges(Projects[i]) == Projects[i].achievements[..|Badges(Projects[i])|]
  {
  }

  /** The world's state. */
  class World {
    var hovered: Option<string>
    var selectedProject: Option<string>
    var showMetrics: bool

    constructor ()
      ensures hovered == None && selectedProject == None && !showMetrics
    {
      hovered := None;
      selectedProject := None;
      showMetrics := false;
    }

    /** The orb's click handler; returns the id passed to `onProjectSelect`, which is the
        clicked project's whatever the selection becomes. */
    method Click(id: string) returns (notified: string)
      modifies this`selectedProject
      ensures selectedProject == Toggle(old(selectedProject), id)
      ensures notified == id
    {
      selectedProject := if selectedProject == Some(id) then None else Some(id);
      notified := id;
    }

    method PointerOver(id: string)
      modifies this`hovered
      ensures hovered == Some(id)
    {
      hovered := Some(id);
    }

    method PointerOut()
      modifies this`hovered
      ensures hovered == None
    {
      hovered := None;
    }

    /** The 'Show/Hide Detailed Metrics' button. */
    method ToggleMetrics()
      modifies this`showMetrics
      ensures showMetrics == !old(showMetrics)
    {
      showMetrics := !showMetrics;
    }
  }
}
