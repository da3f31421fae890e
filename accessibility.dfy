/** The accessibility settings (portfolio/src/components/AccessibilityProvider.tsx): the three
    settings held by the provider, the effect that writes them to the document as a list of
    class names, and the `useAccessibility` guard. */
module Accessibility {
  import opened Base

  datatype FontSize = Small | Medium | Large

  /** The size as it appears in the union type and in the class name. */
  function SizeName(size: FontSize): string {
    match size
    case Small => "small"
    case Medium => "medium"
    case Large => "large"
  }

  const ReduceMotion := "reduce-motion"
  const HighContrast := "high-contrast"
  const FontSizePrefix := "font-size-"
  const Space := ' '

  /** The class for the font size. */
  function SizeClass(size: FontSize): string {
    FontSizePrefix + SizeName(size)
  }

  /** The `classes` array the effect builds: each `push` appends one token. */
  function ClassTokens(reducedMotion: bool, highContrast: bool, size: FontSize): seq<string> {
    (if reducedMotion then [ReduceMotion] else [])
      + (if highContrast then [HighContrast] else [])
      + [SizeClass(size)]
  }

  /** `classes.join(' ')`, the document element's class name. */
  function ClassName(reducedMotion: bool, highContrast: bool, size: FontSize): string {
    Join(ClassTokens(reducedMotion, highContrast, size), [Space])
  }

  /** The position a token takes in the fixed order of the pushes. */
  function Rank(token: string): nat {
    if token == ReduceMotion then 0 else if token == HighContrast then 1 else 2
  }

  /** The class list holds one to three tokens, none with a space: 'reduce-motion' exactly
      when motion is reduced, 'high-contrast' exactly when contrast is high, and always, last,
      the size class; the tokens come in the order of the pushes. */
  lemma TokensFollowSettings(reducedMotion: bool, highContrast: bool, size: FontSize)
    ensures var ts := ClassTokens(reducedMotion, highContrast, size);
            && 1 <= |ts| <= 3
            && (ReduceMotion in ts <==> reducedMotion)
            && (HighContrast in ts <==> highContrast)
            && ts[|ts| - 1] == SizeClass(size)
            && (forall i, j :: 0 <= i < j < |ts| ==> Rank(ts[i]) < Rank(ts[j]))
            && (forall t :: t in ts ==> Space !in t)
  {
    SizeClassIsThird(size);
    assert Space !in ReduceMotion && Space !in HighContrast;
  }

  /** The size class is neither of the other two tokens and holds no space. */
  lemma SizeClassIsThird(size: FontSize)
    ensures SizeClass(size) != ReduceMotion && SizeClass(size) != HighContrast
    ensures Rank(SizeClass(size)) == 2
    ensures Space !in SizeClass(size)
  {
    var s := SizeClass(size);
    assert s[0] == 'f' && ReduceMotion[0] == 'r' && HighContrast[0] == 'h';
    match size
    case Small => assert s == "font-size-small";
    case Medium => assert s == "font-size-medium";
    case Large => assert s == "font-size-large";
  }

  /** `s.split(c)`: the pieces between the occurrences of `c`; there is one more piece than
      there are occurrences. */
  function Split(s: string, c: char): (pieces: seq<string>)
    ensures |pieces| >= 1
    decreases |s|
  {
    if s == [] then [""]
    else
      var rest := Split(s[1..], c);
      if s[0] == c then [""] + rest else [[s[0]] + rest[0]] + rest[1..]
  }

  /** A prefix without the separator joins the first piece of what follows it. */
  lemma {:induction false} SplitPrefix(t: string, u: string, c: char)
    requires c !in t
    ensures Split(t + u, c) == [t + Split(u, c)[0]] + Split(u, c)[1..]
    decreases |t|
  {
    if t == [] {
      var r := Split(u, c);
      assert t + u == u && t + r[0] == r[0];
      assert r == [r[0]] + r[1..];
    } else {
      assert (t + u)[0] == t[0];
      assert (t + u)[1..] == t[1..] + u;
      SplitPrefix(t[1..], u, c);
      assert [t[0]] + (t[1..] + Split(u, c)[0]) == t + Split(u, c)[0];
    }
  }

  /** Splitting a join of tokens that do not contain the separator gives the tokens back:
      the browser reads the class name as exactly the tokens pushed. */
  lemma {:induction false} SplitJoin(xs: seq<string>, c: char)
    requires xs != []
    requires forall t :: t in xs ==> c !in t
    ensures Split(Join(xs, [c]), c) == xs
    decreases |xs|
  {
    if |xs| == 1 {
      assert xs[0] + [] == xs[0];
      SplitPrefix(xs[0], [], c);
    } else {
      SplitJoin(xs[1..], c);
      var u := [c] + Join(xs[1..], [c]);
      assert Join(xs, [c]) == xs[0] + u;
      SplitPrefix(xs[0], u, c);
      assert u[0] == c && u[1..] == Join(xs[1..], [c]);
      assert xs[0] + "" == xs[0];
      assert xs == [xs[0]] + xs[1..];
    }
  }

  /** Joining one more element appends the separator and the element. */
  lemma {:induction false} JoinSnoc(xs: seq<string>, x: string, sep: string)
    ensures Join(xs + [x], sep) == if xs == [] then x else Join(xs, sep) + sep + x
    decreases |xs|
  {
    if |xs| == 1 {
      assert (xs + [x])[1..] == [x];
    } else if |xs| > 1 {
      assert (xs + [x])[1..] == xs[1..] + [x];
      JoinSnoc(xs[1..], x, sep);
    }
  }

  /** The document's class list, read back from the class name, is exactly the tokens pushed:
      it holds 'reduce-motion' iff motion is reduced and 'high-contrast' iff contrast is
      high. The class name always ends with the size class. */
  lemma ClassNameFollowsSettings(reducedMotion: bool, highContrast: bool, size: FontSize)
    ensures var cn := ClassName(reducedMotion, highContrast, size);
            && Split(cn, Space) == ClassTokens(reducedMotion, highContrast, size)
            && (ReduceMotion in Split(cn, Space) <==> reducedMotion)
            && (HighContrast in Split(cn, Space) <==> highContrast)
            && |cn| >= |SizeClass(size)| && cn[|cn| - |SizeClass(size)|..] == SizeClass(size)
  {
    var ts := ClassTokens(reducedMotion, highContrast, size);
    TokensFollowSettings(reducedMotion, highContrast, size);
    SplitJoin(ts, Space);
    var front := ts[..|ts| - 1];
    assert ts == front + [SizeClass(size)];
    JoinSnoc(front, SizeClass(size), [Space]);
  }

  /** With the initial settings the document's class name is 'font-size-medium'. */
  lemma InitialClassName()
    ensures ClassName(false, false, Medium) == "font-size-medium"
  {
  }

  /** The settings the context hands out; the setters are the provider's methods below. */
  datatype Settings = Settings(reducedMotion: bool, highContrast: bool, fontSize: FontSize)

  /** What `useAccessibility` gives: the context, or the error it throws. */
  datatype Lookup = Provided(settings: Settings) | Thrown(message: string)

  const OutsideProvider := "useAccessibility must be used within an AccessibilityProvider"

  /** `useAccessibility`: the nearest provider's value, `None` outside any provider. */
  function UseAccessibility(context: Option<Settings>): (r: Lookup)
    ensures r.Thrown? <==> context.None?
    ensures r.Thrown? ==> r.message == OutsideProvider
    ensures r.Provided? ==> Some(r.settings) == context
  {
    if context.None? then Thrown(OutsideProvider) else Provided(context.value)
  }

  /** The provider: its three pieces of state and the class name it has written to the
      document element. Every setter re-runs the class effect, which depends on all three. */
  class Provider {
    var reducedMotion: bool
    var highContrast: bool
    var fontSize: FontSize
    var documentClassName: string

    /** The document shows the current settings. */
    predicate Valid()
      reads this
    {
      documentClassName == ClassName(reducedMotion, highContrast, fontSize)
    }

    /** Mounting: the initial state, and the class effect's first run. */
    constructor ()
      ensures !reducedMotion && !highContrast && fontSize == Medium
      ensures Valid() && documentClassName == "font-size-medium"
    {
      reducedMotion := false;
      highContrast := false;
      fontSize := Medium;
      documentClassName := "font-size-medium";
    }

    /** The class effect: push the tokens in order, then join them with spaces. */
    method ApplyClasses()
      modifies this`documentClassName
      ensures Valid()
      ensures Split(documentClassName, Space) == ClassTokens(reducedMotion, highContrast, fontSize)
    {
      var classes: seq<string> := [];
      if reducedMotion {
        classes := classes + [ReduceMotion];
      }
      if highContrast {
        classes := classes + [HighContrast];
      }
      classes := classes + [FontSizePrefix + SizeName(fontSize)];
      assert classes == ClassTokens(reducedMotion, highContrast, fontSize);
      documentClassName := Join(classes, [Space]);
      ClassNameFollowsSettings(reducedMotion, highContrast, fontSize);
    }

    /** `setReducedMotion`, used by the checkbox and by the motion-preference media query
        (its value on mount and every change event). */
    method SetReducedMotion(value: bool)
      modifies this`reducedMotion, this`documentClassName
      ensures reducedMotion == value && Valid()
    {
      reducedMotion := value;
      ApplyClasses();
    }

    method SetHighContrast(value: bool)
      modifies this`highContrast, this`documentClassName
      ensures highContrast == value && Valid()
    {
      highContrast := value;
      ApplyClasses();
    }

    method SetFontSize(size: FontSize)
      modifies this`fontSize, this`documentClassName
      ensures fontSize == size && Valid()
    {
      fontSize := size;
      ApplyClasses();
    }
  }
}
