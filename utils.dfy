/**
 * The pure helpers of the shared utility module: the `m:ss` clock format,
 * the resolved theme, and the colour-scheme class table with its purple
 * fallback.
 */
module Utils {
  import opened Strings
  import opened Wrappers
  import opened ThemeSlice

  /** JavaScript's `%`: the remainder takes the sign of the dividend. */
  function JsRem(a: int, b: int): int
    requires b > 0
  {
    if a >= 0 then a % b else -((-a) % b)
  }

  /**
   * `formatTime(seconds)`: `Math.floor(seconds / 60)`, a colon, then
   * `seconds % 60` with a `'0'` in front when it is below 10. Dafny's `/`
   * with a positive divisor is already the floor.
   */
  function FormatTime(seconds: int): string {
    var rest := JsRem(seconds, 60);
    IntToString(seconds / 60) + ":" + (if rest < 10 then "0" else "") + IntToString(rest)
  }

  /** Exactly two decimal digits. */
  function TwoDigits(n: nat): (s: string)
    requires n < 100
    ensures |s| == 2 && AllDigits(s)
  {
    [DigitChar(n / 10), DigitChar(n % 10)]
  }

  /** The optional `'0'` followed by the number is always two digits. */
  lemma PaddedIsTwoDigits(n: nat)
    requires n < 60
    ensures (if n < 10 then "0" else "") + NatToString(n) == TwoDigits(n)
  {
    if n >= 10 {
      assert NatToString(n) == NatToString(n / 10) + [DigitChar(n % 10)];
    }
  }

  /** For a non-negative count, the clock is the minutes, a colon and two digits of seconds. */
  lemma FormatTimeShape(seconds: int)
    requires seconds >= 0
    ensures FormatTime(seconds) == NatToString(seconds / 60) + ":" + TwoDigits(seconds % 60)
  {
    PaddedIsTwoDigits(seconds % 60);
  }

  /** A `'0'` is inserted exactly when the seconds part is below 10. */
  lemma FormatTimeLeadingZero(seconds: int)
    requires seconds >= 0
    ensures var t := FormatTime(seconds);
            |t| >= 4 && t[|t| - 3] == ':' && (t[|t| - 2] == '0' <==> seconds % 60 < 10)
  {
    FormatTimeShape(seconds);
  }

  /** The index of the first `':'`. */
  function IndexOfColon(s: string): (r: Option<nat>)
    ensures r.Some? ==> r.value < |s| && s[r.value] == ':'
    ensures r.Some? ==> forall j :: 0 <= j < r.value ==> s[j] != ':'
    ensures r.None? ==> forall j :: 0 <= j < |s| ==> s[j] != ':'
  {
    if s == [] then None
    else if s[0] == ':' then Some(0)
    else match IndexOfColon(s[1..])
      case None => None
      case Some(i) => Some(i + 1)
  }

  /** Reads an `m:ss` clock back into seconds; anything else is rejected. */
  function ParseClock(text: string): Option<nat> {
    match IndexOfColon(text)
    case None => None
    case Some(k) =>
      var minutes := text[..k];
      var secs := text[k + 1..];
      if minutes != [] && AllDigits(minutes) && |secs| == 2 && AllDigits(secs) && ParseNat(secs) < 60
      then Some(60 * ParseNat(minutes) + ParseNat(secs))
      else None
  }

  lemma ParseTwoDigits(n: nat)
    requires n < 100
    ensures ParseNat(TwoDigits(n)) == n
  {
    var s := TwoDigits(n);
    assert s[..1] == [DigitChar(n / 10)];
    assert s[..1][..0] == [];
    assert ParseNat(s[..1]) == n / 10;
    assert ParseNat(s) == 10 * (n / 10) + n % 10;
  }

  /** Round trip: reading the clock back gives the number of seconds formatted. */
  lemma FormatTimeRoundTrip(seconds: nat)
    ensures ParseClock(FormatTime(seconds)) == Some(seconds)
  {
    FormatTimeShape(seconds);
    var m := NatToString(seconds / 60);
    var t := FormatTime(seconds);
    assert t == m + ":" + TwoDigits(seconds % 60);
    assert IndexOfColon(t) == Some(|m|) by {
      assert t[|m|] == ':';
      forall j | 0 <= j < |m| ensures t[j] != ':' {
        assert t[j] == m[j];
      }
    }
    assert t[..|m|] == m;
    assert t[|m| + 1..] == TwoDigits(seconds % 60);
    ParseNatToString(seconds / 60);
    ParseTwoDigits(seconds % 60);
  }

  /** `getThemeClass`: the system theme stands in for `System`, so the result is never `System`. */
  function GetThemeClass(theme: Theme, systemTheme: ConcreteTheme): (r: ConcreteTheme)
    ensures theme == System ==> r == systemTheme
    ensures theme != System ==> r == theme
  {
    if theme == System then systemTheme else theme
  }

  /** Resolving a resolved theme again changes nothing, whatever the system reports. */
  lemma GetThemeClassStable(theme: Theme, s1: ConcreteTheme, s2: ConcreteTheme)
    ensures GetThemeClass(GetThemeClass(theme, s1), s2) == GetThemeClass(theme, s1)
  {
  }

  datatype ColorClasses = ColorClasses(
    primary: string, secondary: string, accent: string, border: string, ring: string)

  const KnownSchemes: set<string> := {"blue", "purple", "green", "orange", "red"}

  /** The scheme whose entry the lookup returns: the given one if known, purple otherwise. */
  function ResolvedScheme(scheme: string): (n: string)
    ensures n in KnownSchemes
    ensures scheme in KnownSchemes ==> n == scheme
    ensures scheme !in KnownSchemes ==> n == "purple"
  {
    if scheme in KnownSchemes then scheme else "purple"
  }

  /** The class names the table uses for a scheme name `n`. */
  function ClassesFor(n: string): ColorClasses {
    ColorClasses("bg-" + n + "-500", "bg-" + n + "-600", "text-" + n + "-500",
                 "border-" + n + "-500", "ring-" + n + "-500")
  }

  /** `getColorSchemeClasses`: the literal table of the source, falling back to purple. */
  function GetColorSchemeClasses(scheme: string): ColorClasses {
    if scheme == "blue" then
      ColorClasses("bg-blue-500", "bg-blue-600", "text-blue-500", "border-blue-500", "ring-blue-500")
    else if scheme == "green" then
      ColorClasses("bg-green-500", "bg-green-600", "text-green-500", "border-green-500", "ring-green-500")
    else if scheme == "orange" then
      ColorClasses("bg-orange-500", "bg-orange-600", "text-orange-500", "border-orange-500", "ring-orange-500")
    else if scheme == "red" then
      ColorClasses("bg-red-500", "bg-red-600", "text-red-500", "border-red-500", "ring-red-500")
    else
      ColorClasses("bg-purple-500", "bg-purple-600", "text-purple-500", "border-purple-500", "ring-purple-500")
  }

  /** Every entry of the table follows the naming pattern of its scheme; unknown names get purple's. */
  lemma ColorSchemeTable(scheme: string)
    ensures GetColorSchemeClasses(scheme) == ClassesFor(ResolvedScheme(scheme))
  {
    if scheme == "blue" {
      BlueEntry();
    } else if scheme == "green" {
      GreenEntry();
    } else if scheme == "orange" {
      OrangeEntry();
    } else if scheme == "red" {
      RedEntry();
    } else {
      assert GetColorSchemeClasses(scheme) == GetColorSchemeClasses("purple");
      PurpleEntry();
    }
  }

  lemma BlueEntry()
    ensures GetColorSchemeClasses("blue") == ClassesFor("blue")
  {
  }

  lemma PurpleEntry()
    ensures GetColorSchemeClasses("purple") == ClassesFor("purple")
  {
  }

  lemma GreenEntry()
    ensures GetColorSchemeClasses("green") == ClassesFor("green")
  {
  }

  lemma OrangeEntry()
    ensures GetColorSchemeClasses("orange") == ClassesFor("orange")
  {
  }

  lemma RedEntry()
    ensures GetColorSchemeClasses("red") == ClassesFor("red")
  {
  }
}
