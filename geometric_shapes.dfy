/** The decorative quarter and half circles behind the page: each shape's
    box size, colour class, corner-rounding class and optional animation
    and mobile-hiding classes. */
module Shapes {
  import opened Wrappers

  datatype ShapeColor = Teal | Coral | Navy | Golden

  datatype ShapeType =
    | QuarterTl | QuarterTr | QuarterBl | QuarterBr
    | SemiT | SemiB | SemiL | SemiR

  /** The string literal of each member of the `type` union. */
  function TypeName(t: ShapeType): string
  {
    match t
    case QuarterTl => "quarter-tl"
    case QuarterTr => "quarter-tr"
    case QuarterBl => "quarter-bl"
    case QuarterBr => "quarter-br"
    case SemiT => "semi-t"
    case SemiB => "semi-b"
    case SemiL => "semi-l"
    case SemiR => "semi-r"
  }

  /** `colorMap[color]`. */
  function ColorClass(c: ShapeColor): string
  {
    match c
    case Teal => "bg-teal-400"
    case Coral => "bg-coral-400"
    case Navy => "bg-navy-500"
    case Golden => "bg-golden-400"
  }

  /** Every colour maps to its own background class. */
  lemma ColorClassDistinct(c: ShapeColor, d: ShapeColor)
    ensures ColorClass(c)[..3] == "bg-"
    ensures c != d ==> ColorClass(c) != ColorClass(d)
  {
    match c
    case Teal => assert ColorClass(c)[3] == 't';
    case Coral => assert ColorClass(c)[3] == 'c';
    case Navy => assert ColorClass(c)[3] == 'n';
    case Golden => assert ColorClass(c)[3] == 'g';
  }

  /** `radiusMap[type]`. */
  function RadiusClass(t: ShapeType): string
  {
    match t
    case QuarterTl => "rounded-tl-full"
    case QuarterTr => "rounded-tr-full"
    case QuarterBl => "rounded-bl-full"
    case QuarterBr => "rounded-br-full"
    case SemiT => "rounded-t-full"
    case SemiB => "rounded-b-full"
    case SemiL => "rounded-l-full"
    case SemiR => "rounded-r-full"
  }

  /** The part of a type name after its dash: the side or corner to round. */
  function Side(t: ShapeType): string
  {
    var name := TypeName(t);
    if StartsWithSemi(t) then name[5..] else name[8..]
  }

  /** Each type rounds exactly the side or corner its name gives, and no two
      types share a rounding class. */
  lemma RadiusClassFollowsName(t: ShapeType, u: ShapeType)
    ensures RadiusClass(t) == "rounded-" + Side(t) + "-full"
    ensures t != u ==> RadiusClass(t) != RadiusClass(u)
  {
    StartsWithSemiIff(t);
    match t
    case QuarterTl => assert Side(t) == "tl";
    case QuarterTr => assert Side(t) == "tr";
    case QuarterBl => assert Side(t) == "bl";
    case QuarterBr => assert Side(t) == "br";
    case SemiT => assert Side(t) == "t";
    case SemiB => assert Side(t) == "b";
    case SemiL => assert Side(t) == "l";
    case SemiR => assert Side(t) == "r";
  }

  /** `type.startsWith("semi")`. */
  predicate StartsWithSemi(t: ShapeType)
  {
    var name := TypeName(t);
    |name| >= 4 && name[..4] == "semi"
  }

  /** Exactly the four half circles have names starting with "semi". */
  lemma StartsWithSemiIff(t: ShapeType)
    ensures StartsWithSemi(t) <==> t in {SemiT, SemiB, SemiL, SemiR}
    ensures |TypeName(t)| == if StartsWithSemi(t) then 6 else 10
  {
    var name := TypeName(t);
    if t in {SemiT, SemiB, SemiL, SemiR} {
      assert name[..4] == "semi";
    } else {
      assert name[..4][0] == 'q';
    }
  }

  datatype ShapeProps = ShapeProps(
    size: real,
    color: ShapeColor,
    shapeType: ShapeType,
    top: Option<string>,
    bottom: Option<string>,
    left: Option<string>,
    right: Option<string>,
    delay: Option<real>,
    animate: Option<bool>,
    hideOnMobile: Option<bool>)

  /** The inline `style` object. */
  datatype Style = Style(
    width: real,
    height: real,
    top: Option<string>,
    bottom: Option<string>,
    left: Option<string>,
    right: Option<string>)

  /** Builds `style`, then overwrites width and height for the left and right
      half circles. */
  method ComputeStyle(p: ShapeProps) returns (style: Style)
    ensures p.shapeType in {QuarterTl, QuarterTr, QuarterBl, QuarterBr} ==>
              style.width == p.size && style.height == p.size
    ensures p.shapeType in {SemiT, SemiB} ==>
              style.width == p.size && style.height == p.size / 2.0
    ensures p.shapeType in {SemiL, SemiR} ==>
              style.width == p.size / 2.0 && style.height == p.size
    ensures style.top == p.top && style.bottom == p.bottom
    ensures style.left == p.left && style.right == p.right
  {
    StartsWithSemiIff(p.shapeType);
    style := Style(
      p.size,
      if StartsWithSemi(p.shapeType) then p.size / 2.0 else p.size,
      p.top, p.bottom, p.left, p.right);
    if p.shapeType == SemiL || p.shapeType == SemiR {
      style := style.(height := p.size);
      style := style.(width := p.size / 2.0);
    }
  }

  /** The defaults of the optional properties. */
  function Delay(p: ShapeProps): real { p.delay.GetOr(0.0) }
  function Animated(p: ShapeProps): bool { p.animate.GetOr(false) }
  function HiddenOnMobile(p: ShapeProps): bool { p.hideOnMobile.GetOr(false) }

  /** Omitted `delay`, `animate` and `hideOnMobile` props read as 0, false
      and false, and the element then carries neither the float nor the
      mobile-hiding classes. */
  lemma PropDefaults(p: ShapeProps)
    requires p.delay.None? && p.animate.None? && p.hideOnMobile.None?
    ensures Delay(p) == 0.0 && !Animated(p) && !HiddenOnMobile(p)
    ensures Tokens(ClassName(p))
         == ["absolute", "pointer-events-none", ColorClass(p.color), RadiusClass(p.shapeType)]
  {
    ClassTokens(p);
  }

  /** `mobileClass`. */
  function MobileClass(p: ShapeProps): string
  {
    if HiddenOnMobile(p) then "hidden md:block" else ""
  }

  /** The `animate` placeholder of the class name. */
  function AnimationClass(p: ShapeProps): string
  {
    if Animated(p) then "animate-float-slow" else ""
  }

  /** The `className` template string. The class list it yields is stated by
      ClassTokens below. */
  function ClassName(p: ShapeProps): string
  {
    "absolute pointer-events-none " + ColorClass(p.color) + " " + RadiusClass(p.shapeType) + " "
      + AnimationClass(p) + " " + MobileClass(p)
  }

  /** The class list a browser reads from a `class` attribute: the maximal
      runs of non-space characters. `current` is the run being read. */
  function TokensFrom(s: string, current: string): seq<string>
  {
    if s == [] then (if current == "" then [] else [current])
    else if s[0] == ' ' then (if current == "" then [] else [current]) + TokensFrom(s[1..], "")
    else TokensFrom(s[1..], current + [s[0]])
  }

  function Tokens(s: string): seq<string>
  {
    TokensFrom(s, "")
  }

  /** A space separates the class lists on its two sides. */
  lemma {:induction false} TokensFromSplit(a: string, b: string, current: string)
    ensures TokensFrom(a + " " + b, current) == TokensFrom(a, current) + Tokens(b)
  {
    if a == [] {
      assert a + " " + b == [' '] + b;
      assert ([' '] + b)[1..] == b;
    } else {
      assert (a + " " + b)[0] == a[0];
      assert (a + " " + b)[1..] == a[1..] + " " + b;
      TokensFromSplit(a[1..], b, if a[0] == ' ' then "" else current + [a[0]]);
      if a[0] == ' ' {
        assert TokensFrom(a, current) == (if current == "" then [] else [current]) + TokensFrom(a[1..], "");
      }
    }
  }

  lemma TokensSplit(a: string, b: string)
    ensures Tokens(a + " " + b) == Tokens(a) + Tokens(b)
  {
    TokensFromSplit(a, b, "");
  }

  /** A word without spaces is one class. */
  lemma {:induction false} TokensFromWord(w: string, current: string)
    requires forall k :: 0 <= k < |w| ==> w[k] != ' '
    requires current + w != ""
    ensures TokensFrom(w, current) == [current + w]
  {
    if w == [] {
      assert current + w == current;
    } else {
      assert current + w == (current + [w[0]]) + w[1..];
      TokensFromWord(w[1..], current + [w[0]]);
    }
  }

  lemma TokensWord(w: string)
    requires IsWord(w)
    ensures Tokens(w) == [w]
  {
    TokensFromWord(w, "");
    assert "" + w == w;
  }

  /** The class name is its seven parts joined by single spaces. */
  lemma ClassNameParts(p: ShapeProps)
    ensures ClassName(p)
         == "absolute" + " " + ("pointer-events-none" + " " + (ColorClass(p.color) + " "
            + (RadiusClass(p.shapeType) + " " + (AnimationClass(p) + " " + MobileClass(p)))))
  {
    assert "absolute pointer-events-none " == "absolute" + " " + "pointer-events-none" + " ";
  }

  predicate IsWord(w: string)
  {
    w != "" && forall k :: 0 <= k < |w| ==> w[k] != ' '
  }

  lemma ClassWords(p: ShapeProps)
    ensures IsWord(ColorClass(p.color)) && IsWord(RadiusClass(p.shapeType))
    ensures IsWord("absolute") && IsWord("pointer-events-none")
    ensures IsWord("animate-float-slow") && IsWord("hidden") && IsWord("md:block")
  {
    match p.color
    case Teal => assert IsWord("bg-teal-400");
    case Coral => assert IsWord("bg-coral-400");
    case Navy => assert IsWord("bg-navy-500");
    case Golden => assert IsWord("bg-golden-400");
    match p.shapeType
    case QuarterTl => assert IsWord("rounded-tl-full");
    case QuarterTr => assert IsWord("rounded-tr-full");
    case QuarterBl => assert IsWord("rounded-bl-full");
    case QuarterBr => assert IsWord("rounded-br-full");
    case SemiT => assert IsWord("rounded-t-full");
    case SemiB => assert IsWord("rounded-b-full");
    case SemiL => assert IsWord("rounded-l-full");
    case SemiR => assert IsWord("rounded-r-full");
  }

  lemma MobileTokens(p: ShapeProps)
    ensures Tokens(MobileClass(p)) == if HiddenOnMobile(p) then ["hidden", "md:block"] else []
  {
    if HiddenOnMobile(p) {
      assert MobileClass(p) == "hidden" + " " + "md:block";
      TokensSplit("hidden", "md:block");
      TokensWord("hidden");
      TokensWord("md:block");
    }
  }

  /** The classes the element carries. */
  lemma ClassTokens(p: ShapeProps)
    ensures Tokens(ClassName(p))
         == ["absolute", "pointer-events-none", ColorClass(p.color), RadiusClass(p.shapeType)]
            + (if Animated(p) then ["animate-float-slow"] else [])
            + (if HiddenOnMobile(p) then ["hidden", "md:block"] else [])
  {
    var c := ColorClass(p.color);
    var r := RadiusClass(p.shapeType);
    var an := AnimationClass(p);
    var m := MobileClass(p);
    ClassNameParts(p);
    ClassWords(p);
    TokensSplit(an, m);
    MobileTokens(p);
    if Animated(p) {
      TokensWord(an);
    }
    var t1 := Tokens(an + " " + m);
    assert t1 == (if Animated(p) then ["animate-float-slow"] else []) + Tokens(m);
    TokensSplit(r, an + " " + m);
    TokensWord(r);
    TokensSplit(c, r + " " + (an + " " + m));
    TokensWord(c);
    TokensSplit("pointer-events-none", c + " " + (r + " " + (an + " " + m)));
    TokensWord("pointer-events-none");
    TokensSplit("absolute", "pointer-events-none" + " " + (c + " " + (r + " " + (an + " " + m))));
    TokensWord("absolute");
  }

  /** The element is hidden below the `md` breakpoint exactly when
      `hideOnMobile` is set, and floats exactly when `animate` is set. */
  lemma ClassFlags(p: ShapeProps)
    ensures "hidden" in Tokens(ClassName(p)) <==> HiddenOnMobile(p)
    ensures "md:block" in Tokens(ClassName(p)) <==> HiddenOnMobile(p)
    ensures "animate-float-slow" in Tokens(ClassName(p)) <==> Animated(p)
    ensures ColorClass(p.color) in Tokens(ClassName(p)) && RadiusClass(p.shapeType) in Tokens(ClassName(p))
  {
    ClassTokens(p);
    var c := ColorClass(p.color);
    var r := RadiusClass(p.shapeType);
    var base := ["absolute", "pointer-events-none", c, r];
    assert c[0] == 'b' && r[0] == 'r';
    assert "hidden" !in base && "md:block" !in base && "animate-float-slow" !in base;
  }
}
