/** The scrolling sky: a cyclic day/sunset/night theme, drifting clouds and colour helpers
    (static/js/background.js). */
module Backgrounds {
  import opened Wrappers
  import opened Geometry

  datatype Theme = Day | Sunset | Night

  /** Progress added to a running transition on every update. */
  const TransitionSpeed: real := 0.005

  /** Position of a theme in the list ['day', 'sunset', 'night']. */
  function ThemeIndex(t: Theme): (i: nat)
    ensures i < 3
  {
    match t
    case Day => 0
    case Sunset => 1
    case Night => 2
  }

  function ThemeAt(i: nat): Theme
    requires i < 3
  {
    if i == 0 then Day else if i == 1 then Sunset else Night
  }

  /** The theme after `t` in the list, wrapping round at the end. */
  function NextTheme(t: Theme): Theme
  {
    ThemeAt((ThemeIndex(t) + 1) % 3)
  }

  /** The cycle is day, sunset, night, day; no theme follows itself. */
  lemma ThemeCycle(t: Theme)
    ensures NextTheme(Day) == Sunset && NextTheme(Sunset) == Night && NextTheme(Night) == Day
    ensures NextTheme(t) != t && NextTheme(NextTheme(NextTheme(t))) == t
  {
    assert (0 + 1) % 3 == 1 && (1 + 1) % 3 == 2 && (2 + 1) % 3 == 0;
  }

  /** Which theme is shown, which one is being faded to, and how far the fade is. */
  datatype ThemeState = ThemeState(current: Theme, target: Option<Theme>, transitioning: bool, progress: real)

  /** The theme state of a new background. */
  const Dawn: ThemeState := ThemeState(Day, None, false, 0.0)

  /** Progress stays in [0, 1) and is 0 at rest; a running fade has a target other than the current theme. */
  predicate ThemeValid(s: ThemeState)
  {
    0.0 <= s.progress < 1.0 &&
    (!s.transitioning ==> s.progress == 0.0) &&
    (s.transitioning ==> s.target.Some? && s.target.value != s.current)
  }

  /** transitionTo: start fading to `theme`, unless it is already shown or a fade is running. */
  function StartTransition(s: ThemeState, theme: Theme): (r: ThemeState)
    ensures theme == s.current || s.transitioning ==> r == s
    ensures theme != s.current && !s.transitioning ==>
              r.transitioning && r.target == Some(theme) && r.progress == 0.0 && r.current == s.current
  {
    if s.current != theme && !s.transitioning then s.(transitioning := true, target := Some(theme), progress := 0.0)
    else s
  }

  /** updateTheme: aim for the next theme of the cycle. */
  function ScheduleNext(s: ThemeState): ThemeState
  {
    StartTransition(s, NextTheme(s.current))
  }

  /** The theme part of update(): advance a running fade and commit it when it reaches 1.
      A fade always has a target (ThemeValid); were it missing, the model keeps the current theme. */
  function Tick(s: ThemeState): ThemeState
  {
    if !s.transitioning then s
    else
      var p := s.progress + TransitionSpeed;
      if p >= 1.0 then
        ThemeState(if s.target.Some? then s.target.value else s.current, s.target, false, 0.0)
      else s.(progress := p)
  }

  lemma StartTransitionKeepsValid(s: ThemeState, theme: Theme)
    requires ThemeValid(s)
    ensures ThemeValid(StartTransition(s, theme)) && ThemeValid(ScheduleNext(s))
  {
  }

  lemma TickKeepsValid(s: ThemeState)
    requires ThemeValid(s)
    ensures ThemeValid(Tick(s))
  {
  }

  /** When the cycle asks for a change, the fade starts towards the next theme. */
  lemma ScheduleNextTargetsNext(s: ThemeState)
    requires !s.transitioning
    ensures ScheduleNext(s).transitioning && ScheduleNext(s).target == Some(NextTheme(s.current))
  {
    ThemeCycle(s.current);
  }

  /** `k` updates of the theme state. */
  function Ticks(s: ThemeState, k: nat): ThemeState
    decreases k
  {
    if k == 0 then s else Ticks(Tick(s), k - 1)
  }

  lemma {:induction false} TicksFrom(s: ThemeState, j: nat, k: nat)
    requires s.transitioning && s.target.Some? && j < 200 && j + k <= 200
    requires s.progress == j as real * TransitionSpeed
    ensures j + k < 200 ==> Ticks(s, k) == s.(progress := (j + k) as real * TransitionSpeed)
    ensures j + k == 200 ==> Ticks(s, k) == ThemeState(s.target.value, s.target, false, 0.0)
    decreases k
  {
    if k > 0 {
      assert Ticks(s, k) == Ticks(Tick(s), k - 1);
      if j + 1 < 200 {
        assert Tick(s) == s.(progress := (j + 1) as real * TransitionSpeed);
        TicksFrom(Tick(s), j + 1, k - 1);
      } else {
        assert j == 199 && k == 1;
        assert Tick(s) == ThemeState(s.target.value, s.target, false, 0.0);
        assert Ticks(Tick(s), 0) == Tick(s);
      }
    }
  }

  /** A fade, once started, runs for 199 updates and commits the target on the 200th. */
  lemma {:induction false} FadeTakes200Updates(s: ThemeState, theme: Theme, k: nat)
    requires ThemeValid(s) && !s.transitioning && theme != s.current && k < 200
    ensures var f := StartTransition(s, theme);
            Ticks(f, k).transitioning && Ticks(f, k).current == s.current &&
            Ticks(f, 200).current == theme && !Ticks(f, 200).transitioning
  {
    var f := StartTransition(s, theme);
    TicksFrom(f, 0, k);
    TicksFrom(f, 0, 200);
  }

  /** A cloud; clouds are plain records that update() changes in place. */
  datatype Cloud = Cloud(x: real, y: real, width: real, speed: real, opacity: real)

  /** The five Math.random() draws that make one cloud. */
  datatype CloudDraw = CloudDraw(x: real, y: real, width: real, speed: real, opacity: real)

  predicate IsDraw(d: CloudDraw)
  {
    0.0 <= d.x < 1.0 && 0.0 <= d.y < 1.0 && 0.0 <= d.width < 1.0 &&
    0.0 <= d.speed < 1.0 && 0.0 <= d.opacity < 1.0
  }

  /** A cloud as initClouds makes it, on a canvas of size `w` × `h`. */
  function NewCloud(w: real, h: real, d: CloudDraw): (c: Cloud)
    requires w >= 0.0 && h >= 0.0
    ensures IsDraw(d) ==>
              0.0 <= c.x <= w && 0.0 <= c.y <= h / 2.0 &&
              50.0 <= c.width < 150.0 && 0.1 <= c.speed < 0.6 && 0.5 <= c.opacity < 1.0
  {
    var half := h / 2.0;
    assert IsDraw(d) ==> 0.0 <= d.x * w <= w && 0.0 <= d.y * half <= half by {
      if IsDraw(d) {
        ScaledBelow(d.x, w);
        ScaledBelow(d.y, half);
      }
    }
    Cloud(d.x * w, d.y * half, d.width * 100.0 + 50.0, d.speed * 0.5 + 0.1, d.opacity * 0.5 + 0.5)
  }

  /** One cloud in update(): drift left by its speed; once wholly past the left edge, re-enter
      at the right edge at a fresh height `r` of the upper half. */
  function Drift(c: Cloud, r: real): (d: Cloud)
    ensures d.width == c.width && d.speed == c.speed && d.opacity == c.opacity
    ensures c.x - c.speed + c.width < 0.0 ==> d.x == CanvasWidth + c.width && d.y == r * (CanvasHeight / 2.0)
    ensures c.x - c.speed + c.width >= 0.0 ==> d.x == c.x - c.speed && d.y == c.y
    ensures 0.0 <= c.width && 0.0 <= r < 1.0 ==> d.x + d.width >= 0.0 && (d.y == c.y || 0.0 <= d.y < CanvasHeight / 2.0)
  {
    var moved := c.(x := c.x - c.speed);
    if moved.x + moved.width < 0.0 then moved.(x := CanvasWidth + moved.width, y := r * (CanvasHeight / 2.0))
    else moved
  }

  function Drifted(cs: seq<Cloud>, rs: seq<real>): (ds: seq<Cloud>)
    requires |rs| == |cs|
    ensures |ds| == |cs|
  {
    seq(|cs|, i requires 0 <= i < |cs| => Drift(cs[i], rs[i]))
  }

  /** The whole state of a background. */
  datatype BackgroundState = BackgroundState(theme: ThemeState, clouds: seq<Cloud>)

  /** update(): the clouds drift, then the fade advances. */
  function Advanced(s: BackgroundState, rs: seq<real>): BackgroundState
    requires |rs| == |s.clouds|
  {
    BackgroundState(Tick(s.theme), Drifted(s.clouds, rs))
  }

  // ---------------------------------------------------------------- colours

  function Lerp(a: real, b: real, t: real): (r: real)
    ensures t == 0.0 ==> r == a
    ensures t == 1.0 ==> r == b
    ensures a == b ==> r == a
  {
    a * (1.0 - t) + b * t
  }

  /** For t in [0, 1] the interpolant lies between its endpoints. */
  lemma LerpBetween(a: real, b: real, t: real)
    requires 0.0 <= t <= 1.0
    ensures a <= b ==> a <= Lerp(a, b, t) <= b
    ensures b <= a ==> b <= Lerp(a, b, t) <= a
  {
    assert Lerp(a, b, t) == a + (b - a) * t;
    assert Lerp(a, b, t) == b - (b - a) * (1.0 - t);
    if a <= b {
      ProductNonnegative(b - a, t);
      ProductNonnegative(b - a, 1.0 - t);
    } else {
      ProductNonnegative(a - b, t);
      ProductNonnegative(a - b, 1.0 - t);
    }
  }

  datatype Rgb = Rgb(r: int, g: int, b: int)

  predicate IsByteTriple(c: Rgb)
  {
    0 <= c.r <= 255 && 0 <= c.g <= 255 && 0 <= c.b <= 255
  }

  /** The pattern's [a-f\d] under the case-insensitive flag. */
  predicate IsHexDigit(c: char)
  {
    '0' <= c <= '9' || 'a' <= c <= 'f' || 'A' <= c <= 'F'
  }

  function DigitValue(c: char): (n: int)
    requires IsHexDigit(c)
    ensures 0 <= n < 16
  {
    if '0' <= c <= '9' then c as int - '0' as int
    else if 'a' <= c <= 'f' then c as int - 'a' as int + 10
    else c as int - 'A' as int + 10
  }

  /** parseInt of two hex digits in base 16. */
  function ParseByte(hi: char, lo: char): (n: int)
    requires IsHexDigit(hi) && IsHexDigit(lo)
    ensures 0 <= n <= 255
  {
    16 * DigitValue(hi) + DigitValue(lo)
  }

  predicate AllHex(s: string)
  {
    forall i :: 0 <= i < |s| ==> IsHexDigit(s[i])
  }

  /** The strings /^#?([a-f\d]{2})([a-f\d]{2})([a-f\d]{2})$/i accepts. */
  predicate IsHexColour(s: string)
  {
    (|s| == 6 && AllHex(s)) || (|s| == 7 && s[0] == '#' && AllHex(s[1..]))
  }

  /** hexToRgb: the three channels of a `#RRGGBB` colour, or None (the source's null). */
  function HexToRgb(s: string): (res: Option<Rgb>)
    ensures res.Some? <==> IsHexColour(s)
    ensures res.Some? ==> IsByteTriple(res.value)
  {
    var d := if |s| > 0 && s[0] == '#' then s[1..] else s;
    if |d| == 6 && AllHex(d) then
      Some(Rgb(ParseByte(d[0], d[1]), ParseByte(d[2], d[3]), ParseByte(d[4], d[5])))
    else None
  }

  /** A lower-case hex digit for 0 <= n < 16. */
  function HexChar(n: int): (c: char)
    requires 0 <= n < 16
    ensures IsHexDigit(c) && DigitValue(c) == n
  {
    if n < 10 then ('0' as int + n) as char else ('a' as int + n - 10) as char
  }

  function ByteToHex(n: int): (s: string)
    requires 0 <= n <= 255
    ensures |s| == 2 && AllHex(s) && ParseByte(s[0], s[1]) == n
  {
    [HexChar(n / 16), HexChar(n % 16)]
  }

  /** The `#rrggbb` spelling of a colour. */
  function RgbToHex(c: Rgb): (s: string)
    requires IsByteTriple(c)
    ensures |s| == 7 && s[0] == '#'
  {
    "#" + ByteToHex(c.r) + ByteToHex(c.g) + ByteToHex(c.b)
  }

  /** Parsing the spelling of a colour gives the colour back. */
  lemma ParseSpelledColour(c: Rgb)
    requires IsByteTriple(c)
    ensures HexToRgb(RgbToHex(c)) == Some(c)
  {
    var s := RgbToHex(c);
    var d := s[1..];
    assert d == ByteToHex(c.r) + ByteToHex(c.g) + ByteToHex(c.b);
    assert d[0..2] == ByteToHex(c.r) && d[2..4] == ByteToHex(c.g) && d[4..6] == ByteToHex(c.b);
    assert AllHex(d);
  }

  /** The leading '#' is optional. */
  lemma HashIsOptional(s: string)
    requires |s| == 6
    ensures HexToRgb("#" + s) == HexToRgb(s)
  {
    assert ("#" + s)[1..] == s;
  }

  function UpperChar(c: char): char
  {
    if 'a' <= c <= 'z' then (c as int - 32) as char else c
  }

  function UpperCase(s: string): (u: string)
    ensures |u| == |s|
  {
    seq(|s|, i requires 0 <= i < |s| => UpperChar(s[i]))
  }

  /** The pattern is case-insensitive: upper-casing a colour does not change what it parses to. */
  lemma ParseIgnoresCase(s: string)
    ensures HexToRgb(UpperCase(s)) == HexToRgb(s)
  {
    var u := UpperCase(s);
    if |s| > 0 && s[0] == '#' {
      assert u[0] == '#';
      assert u[1..] == UpperCase(s[1..]);
      DigitsIgnoreCase(s[1..]);
    } else {
      assert |s| > 0 ==> u[0] != '#';
      DigitsIgnoreCase(s);
    }
  }

  /** The six hex digits after an optional '#' read the same in either case. */
  lemma DigitsIgnoreCase(d: string)
    ensures AllHex(UpperCase(d)) == AllHex(d)
    ensures |d| == 6 && AllHex(d) ==>
              var u := UpperCase(d);
              ParseByte(u[0], u[1]) == ParseByte(d[0], d[1]) &&
              ParseByte(u[2], u[3]) == ParseByte(d[2], d[3]) &&
              ParseByte(u[4], u[5]) == ParseByte(d[4], d[5])
  {
    var u := UpperCase(d);
    forall i | 0 <= i < |d|
      ensures IsHexDigit(u[i]) == IsHexDigit(d[i])
      ensures IsHexDigit(d[i]) ==> DigitValue(u[i]) == DigitValue(d[i])
    {
    }
  }

  /** Math.round: the nearest integer, halves rounded up. */
  function Round(x: real): int
  {
    (x + 0.5).Floor
  }

  function LerpChannel(a: int, b: int, t: real): (n: int)
    ensures 0.0 <= t <= 1.0 && a <= b ==> a <= n <= b
    ensures 0.0 <= t <= 1.0 && b <= a ==> b <= n <= a
    ensures t == 0.0 ==> n == a
    ensures t == 1.0 ==> n == b
  {
    var x := Lerp(a as real, b as real, t);
    assert 0.0 <= t <= 1.0 ==> (a <= b ==> a as real <= x <= b as real) && (b <= a ==> b as real <= x <= a as real) by {
      if 0.0 <= t <= 1.0 { LerpBetween(a as real, b as real, t); }
    }
    Round(x)
  }

  /** The numbers behind lerpColor; None where the source would read a channel of null. */
  function LerpColor(c1: string, c2: string, t: real): (res: Option<Rgb>)
    ensures res.Some? <==> IsHexColour(c1) && IsHexColour(c2)
    ensures res.Some? && 0.0 <= t <= 1.0 ==> IsByteTriple(res.value)
    ensures t == 0.0 && IsHexColour(c2) ==> res == HexToRgb(c1)
    ensures t == 1.0 && IsHexColour(c1) ==> res == HexToRgb(c2)
  {
    match (HexToRgb(c1), HexToRgb(c2))
    case (Some(a), Some(b)) =>
      Some(Rgb(LerpChannel(a.r, b.r, t), LerpChannel(a.g, b.g, t), LerpChannel(a.b, b.b, t)))
    case _ => None
  }

  /** The colours of a theme: the two sky gradient stops, the clouds and the mountains. */
  datatype Palette = Palette(skyTop: string, skyBottom: string, clouds: string, mountains: string)

  function Colours(t: Theme): Palette
  {
    match t
    case Day => Palette("#87CEEB", "#E0F6FF", "#FFFFFF", "#2E8B57")
    case Sunset => Palette("#FF7F50", "#FFB6C1", "#FFE4E1", "#4A4A4A")
    case Night => Palette("#191970", "#000033", "#483D8B", "#1A1A1A")
  }

  predicate PaletteParses(p: Palette)
  {
    IsHexColour(p.skyTop) && IsHexColour(p.skyBottom) && IsHexColour(p.clouds) && IsHexColour(p.mountains)
  }

  /** Every colour in the table parses, so blending two themes never reads a channel of null. */
  lemma EveryThemeColourParses(t: Theme, u: Theme, k: real)
    ensures PaletteParses(Colours(t))
    ensures LerpColor(Colours(t).skyTop, Colours(u).skyTop, k).Some?
    ensures LerpColor(Colours(t).skyBottom, Colours(u).skyBottom, k).Some?
    ensures LerpColor(Colours(t).clouds, Colours(u).clouds, k).Some?
  {
    ThemePaletteParses(t);
    ThemePaletteParses(u);
  }

  lemma ThemePaletteParses(t: Theme)
    ensures PaletteParses(Colours(t))
  {
    var p := Colours(t);
    HashAndSixDigits(p.skyTop);
    HashAndSixDigits(p.skyBottom);
    HashAndSixDigits(p.clouds);
    HashAndSixDigits(p.mountains);
  }

  lemma HashAndSixDigits(s: string)
    requires |s| == 7 && s[0] == '#'
    requires IsHexDigit(s[1]) && IsHexDigit(s[2]) && IsHexDigit(s[3])
    requires IsHexDigit(s[4]) && IsHexDigit(s[5]) && IsHexDigit(s[6])
    ensures IsHexColour(s)
  {
    assert forall i :: 0 <= i < 6 ==> s[1..][i] == s[i + 1];
  }

  // ---------------------------------------------------------------- the object

  class Background {
    const transitionSpeed: real := TransitionSpeed
    var currentTheme: Theme
    var targetTheme: Option<Theme>
    var isTransitioning: bool
    var transitionProgress: real
    var clouds: seq<Cloud>

    function View(): BackgroundState
      reads this
    {
      BackgroundState(ThemeState(currentTheme, targetTheme, isTransitioning, transitionProgress), clouds)
    }

    /** `w` × `h` is the canvas size when the background is built; `draws` are initClouds' random numbers. */
    constructor (w: real, h: real, draws: seq<CloudDraw>)
      requires w >= 0.0 && h >= 0.0 && |draws| == 5
      ensures View().theme == Dawn
      ensures clouds == seq(5, i requires 0 <= i < 5 => NewCloud(w, h, draws[i]))
    {
      currentTheme := Day;
      transitionProgress := 0.0;
      isTransitioning := false;
      targetTheme := None;
      clouds := [];
      new;
      InitClouds(w, h, draws);
    }

    method InitClouds(w: real, h: real, draws: seq<CloudDraw>)
      requires w >= 0.0 && h >= 0.0 && |draws| == 5
      modifies this
      ensures View().theme == old(View().theme)
      ensures clouds == old(clouds) + seq(5, i requires 0 <= i < 5 => NewCloud(w, h, draws[i]))
    {
      var i := 0;
      while i < 5
        invariant 0 <= i <= 5
        invariant View().theme == old(View().theme)
        invariant clouds == old(clouds) + seq(i, j requires 0 <= j < i => NewCloud(w, h, draws[j]))
      {
        clouds := clouds + [NewCloud(w, h, draws[i])];
        i := i + 1;
      }
    }

    method TransitionTo(theme: Theme)
      modifies this
      ensures View() == old(View()).(theme := StartTransition(old(View().theme), theme))
    {
      if currentTheme != theme && !isTransitioning {
        isTransitioning := true;
        targetTheme := Some(theme);
        transitionProgress := 0.0;
      }
    }

    method UpdateTheme()
      modifies this
      ensures View() == old(View()).(theme := ScheduleNext(old(View().theme)))
    {
      var themes := [Day, Sunset, Night];
      var currentIndex := ThemeIndex(currentTheme);
      assert themes[currentIndex] == currentTheme;
      TransitionTo(themes[(currentIndex + 1) % 3]);
    }

    /** `rs` holds one Math.random() draw per cloud, used when that cloud re-enters. */
    method Update(rs: seq<real>)
      requires |rs| == |clouds|
      modifies this
      ensures View() == Advanced(old(View()), rs)
    {
      var i := 0;
      while i < |clouds|
        invariant 0 <= i <= |clouds| == |old(clouds)|
        invariant View().theme == old(View().theme)
        invariant forall j :: 0 <= j < i ==> clouds[j] == Drift(old(clouds)[j], rs[j])
        invariant forall j :: i <= j < |clouds| ==> clouds[j] == old(clouds)[j]
      {
        var cloud := clouds[i];
        cloud := cloud.(x := cloud.x - cloud.speed);
        if cloud.x + cloud.width < 0.0 {
          cloud := cloud.(x := CanvasWidth + cloud.width, y := rs[i] * (CanvasHeight / 2.0));
        }
        clouds := clouds[i := cloud];
        i := i + 1;
      }
      assert clouds == Drifted(old(clouds), rs);
      if isTransitioning {
        transitionProgress := transitionProgress + transitionSpeed;
        if transitionProgress >= 1.0 {
          currentTheme := if targetTheme.Some? then targetTheme.value else currentTheme;
          isTransitioning := false;
          transitionProgress := 0.0;
        }
      }
    }
  }
}
