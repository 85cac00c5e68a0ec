/**
 * The movie card: the poster image path derived from a movie's `poster_url` (sanitised, with
 * an extension whitelist and a placeholder fallback) and the hours/minutes duration label.
 */
module MovieCard {
  import opened Wrappers

  // ---------------------------------------------------------------------------------------
  // Filename sanitising
  // ---------------------------------------------------------------------------------------

  /** The class `[a-z0-9\-._]` under the case-insensitive flag: ASCII letters of either case, digits, `-`, `.`, `_`. */
  predicate Kept(c: char) {
    ('a' <= c <= 'z') || ('A' <= c <= 'Z') || ('0' <= c <= '9') || c == '-' || c == '.' || c == '_'
  }

  /** The characters a sanitised name may hold. */
  predicate SanitizedChar(c: char) {
    ('a' <= c <= 'z') || ('0' <= c <= '9') || c == '-' || c == '.' || c == '_'
  }

  /** `\s`: the ECMAScript white space and line terminator characters. */
  predicate IsWhitespace(c: char) {
    c == '\t' || c == '\n' || c == '\U{B}' || c == '\U{C}' || c == '\r' || c == ' '
    || c == '\U{A0}' || c == '\U{1680}' || ('\U{2000}' <= c <= '\U{200A}')
    || c == '\U{2028}' || c == '\U{2029}' || c == '\U{202F}' || c == '\U{205F}' || c == '\U{3000}' || c == '\U{FEFF}'
  }

  /** `.replace(/[^a-z0-9\-._]/gi, '')` */
  function KeepAllowed(s: string): (r: string)
    ensures forall i :: 0 <= i < |r| ==> Kept(r[i])
    ensures |r| <= |s|
    decreases |s|
  {
    if s == [] then []
    else (if Kept(s[0]) then [s[0]] else []) + KeepAllowed(s[1..])
  }

  /** Every allowed character stays, as often as it occurs in the input, and no other character is left. */
  lemma {:induction false} KeepAllowedCounts(s: string)
    ensures forall c :: Kept(c) ==> multiset(KeepAllowed(s))[c] == multiset(s)[c]
    ensures forall c :: !Kept(c) ==> multiset(KeepAllowed(s))[c] == 0
    decreases |s|
  {
    if s != [] {
      KeepAllowedCounts(s[1..]);
      assert s == [s[0]] + s[1..];
    }
  }

  /** The filter works character by character: filtering a concatenation concatenates the filtered parts, in order. */
  lemma {:induction false} KeepAllowedAppend(a: string, b: string)
    ensures KeepAllowed(a + b) == KeepAllowed(a) + KeepAllowed(b)
    decreases |a|
  {
    if a == [] {
      assert a + b == b;
    } else {
      assert (a + b)[1..] == a[1..] + b;
      KeepAllowedAppend(a[1..], b);
    }
  }

  /** The input without its leading run of white space. */
  function SkipWhitespace(s: string): (r: string)
    ensures |r| <= |s|
    ensures s != [] && IsWhitespace(s[0]) ==> |r| < |s|
    decreases |s|
  {
    if s != [] && IsWhitespace(s[0]) then SkipWhitespace(s[1..]) else s
  }

  /** `.replace(/\s+/g, '-')`: each maximal run of white space becomes one `-`. */
  function DashWhitespace(s: string): string
    decreases |s|
  {
    if s == [] then []
    else if IsWhitespace(s[0]) then "-" + DashWhitespace(SkipWhitespace(s))
    else [s[0]] + DashWhitespace(s[1..])
  }

  function LowerChar(c: char): char {
    if 'A' <= c <= 'Z' then (c as int + 32) as char else c
  }

  /** `.toLowerCase()` on a string of ASCII characters. */
  function LowerAscii(s: string): (r: string)
    ensures |r| == |s| && forall i :: 0 <= i < |s| ==> r[i] == LowerChar(s[i])
  {
    seq(|s|, i requires 0 <= i < |s| => LowerChar(s[i]))
  }

  /** The three steps in the source's order. */
  function Sanitize(name: string): (r: string)
    ensures forall i :: 0 <= i < |r| ==> SanitizedChar(r[i]) && !IsWhitespace(r[i])
  {
    var kept := KeepAllowed(name);
    DashWhitespaceIdentity(kept);
    LowerAscii(DashWhitespace(kept))
  }

  /** A string without white space passes the white-space step unchanged. */
  lemma {:induction false} DashWhitespaceIdentity(s: string)
    requires forall i :: 0 <= i < |s| ==> !IsWhitespace(s[i])
    ensures DashWhitespace(s) == s
    decreases |s|
  {
    if s != [] {
      DashWhitespaceIdentity(s[1..]);
    }
  }

  /** After the filter no white space is left, so the white-space step never changes anything. */
  lemma WhitespaceStepIsNoOp(name: string)
    ensures DashWhitespace(KeepAllowed(name)) == KeepAllowed(name)
  {
    DashWhitespaceIdentity(KeepAllowed(name));
  }

  lemma {:induction false} KeepAllowedIdentity(s: string)
    requires forall i :: 0 <= i < |s| ==> Kept(s[i])
    ensures KeepAllowed(s) == s
    decreases |s|
  {
    if s != [] {
      KeepAllowedIdentity(s[1..]);
    }
  }

  /** The names sanitising leaves alone are exactly those made of the sanitised characters. */
  lemma SanitizeFixedPoints(name: string)
    ensures Sanitize(name) == name <==> forall i :: 0 <= i < |name| ==> SanitizedChar(name[i])
  {
    if forall i :: 0 <= i < |name| ==> SanitizedChar(name[i]) {
      KeepAllowedIdentity(name);
      DashWhitespaceIdentity(name);
      assert LowerAscii(name) == name;
    }
  }

  /** Sanitising twice gives what sanitising once gives. */
  lemma SanitizeIdempotent(name: string)
    ensures Sanitize(Sanitize(name)) == Sanitize(name)
  {
    SanitizeFixedPoints(Sanitize(name));
  }

  // ---------------------------------------------------------------------------------------
  // Extension check and poster path
  // ---------------------------------------------------------------------------------------

  /** `name.split('.').pop()`: the text after the last `.`, or the whole name when there is none. */
  function Extension(name: string): (r: string)
    ensures '.' !in r
    ensures |r| <= |name| && r == name[|name| - |r|..]
    ensures |r| < |name| ==> name[|name| - |r| - 1] == '.'
    decreases |name|
  {
    if name == [] then []
    else if name[|name| - 1] == '.' then []
    else
      var init := Extension(name[..|name| - 1]);
      assert name[..|name| - 1][|name| - 1 - |init|..] + [name[|name| - 1]] == name[|name| - |init| - 1..];
      init + [name[|name| - 1]]
  }

  const ValidExtensions: seq<string> := ["jpg", "jpeg", "png", "webp"]
  const Placeholder: string := "/placeholder-movie.png"
  const DefaultImageBase: string := "/assets/movie-posters/"

  /** `import.meta.env.VITE_IMAGE_BASE_URL || '/assets/movie-posters/'` */
  function ImageBase(env: Option<string>): (base: string)
    ensures env.Some? && env.value != [] ==> base == env.value
    ensures env.None? || env.value == [] ==> base == DefaultImageBase
  {
    if env.Some? && env.value != [] then env.value else DefaultImageBase
  }

  datatype PosterError = NoPosterUrl | InvalidExtension(extension: string) | ImageNotFound

  /** The path the card tries, or why it gives up before trying. */
  function PosterPath(posterUrl: Option<string>, base: string): (r: Result<string, PosterError>)
    ensures posterUrl.None? || posterUrl.value == [] ==> r == Err(NoPosterUrl)
    ensures r.Ok? <==> posterUrl.Some? && posterUrl.value != [] && Extension(Sanitize(posterUrl.value)) in ValidExtensions
    ensures r.Ok? ==> r.value == base + Sanitize(posterUrl.value)
  {
    if posterUrl.None? || posterUrl.value == [] then Err(NoPosterUrl)
    else
      var name := Sanitize(posterUrl.value);
      var ext := Extension(name);
      if ext !in ValidExtensions then Err(InvalidExtension(ext)) else Ok(base + name)
  }

  /**
   * The image source the card ends up with: the tried path if the image loads (`loads`
   * stands for the browser's answer), else the placeholder. A missing or empty `poster_url`
   * and an extension off the whitelist always give the placeholder; anything else than the
   * placeholder is the base followed by the sanitised name.
   */
  function PosterSrc(posterUrl: Option<string>, env: Option<string>, loads: bool): (src: string)
    ensures posterUrl.None? || posterUrl.value == [] ==> src == Placeholder
    ensures posterUrl.Some? && Extension(Sanitize(posterUrl.value)) !in ValidExtensions ==> src == Placeholder
    ensures !loads ==> src == Placeholder
    ensures src != Placeholder ==>
              && posterUrl.Some? && Extension(Sanitize(posterUrl.value)) in ValidExtensions
              && src == ImageBase(env) + Sanitize(posterUrl.value)
    ensures posterUrl.Some? && posterUrl.value != [] && Extension(Sanitize(posterUrl.value)) in ValidExtensions && loads ==>
              src == ImageBase(env) + Sanitize(posterUrl.value)
  {
    match PosterPath(posterUrl, ImageBase(env))
    case Ok(path) => if loads then path else Placeholder
    case Err(_) => Placeholder
  }

  /** The card's image state. */
  class Poster {
    var imageSrc: string
    var imageLoaded: bool

    constructor ()
      ensures imageSrc == [] && !imageLoaded
    {
      imageSrc := [];
      imageLoaded := false;
    }

    /** The effect that runs `loadImage`: it always ends with the image marked loaded. */
    method LoadImage(posterUrl: Option<string>, env: Option<string>, loads: bool)
      modifies this
      ensures imageSrc == PosterSrc(posterUrl, env, loads) && imageLoaded
    {
      var attempt := PosterPath(posterUrl, ImageBase(env));
      if attempt.Ok? && loads {
        imageSrc := attempt.value;
      } else {
        imageSrc := Placeholder;
      }
      imageLoaded := true;
    }
  }

  // ---------------------------------------------------------------------------------------
  // Duration label
  // ---------------------------------------------------------------------------------------

  /** What the card shows for `duration_minutes`. */
  datatype DurationView =
    | Hidden                          // null or undefined: nothing is rendered
    | RawZero                         // 0 is falsy, and React renders the 0 itself
    | HoursMinutes(hours: int, minutes: int)

  /** JavaScript's `%`: the remainder takes the sign of the dividend. */
  function JsRemainder(a: int, n: int): (r: int)
    requires n > 0
    ensures a >= 0 ==> 0 <= r < n
    ensures a < 0 ==> -n < r <= 0
    ensures (a - r) % n == 0
  {
    if a >= 0 then
      RemainderSplit(a, n);
      MultipleMod(a / n, n);
      a % n
    else
      RemainderSplit(-a, n);
      assert a + (-a) % n == (-((-a) / n)) * n;
      MultipleMod(-((-a) / n), n);
      -((-a) % n)
  }

  lemma RemainderSplit(a: int, n: int)
    requires n > 0
    ensures a - a % n == (a / n) * n
  {
  }

  /** A multiple of `n` leaves no remainder. */
  lemma MultipleMod(q: int, n: int)
    requires n > 0
    ensures (q * n) % n == 0
  {
    var d, m := (q * n) / n, (q * n) % n;
    assert (q - d) * n == m;
    if q - d >= 1 {
      ProductBound(q - d, n);
      assert false;
    } else if q - d <= -1 {
      ProductBound(d - q, n);
      assert false;
    }
  }

  lemma ProductBound(k: int, n: int)
    requires k >= 1 && n > 0
    ensures k * n >= n && (-k) * n <= -n
  {
  }

  /**
   * `Math.floor(d / 60)` and `d % 60`, behind the `duration_minutes &&` guard. A positive
   * duration is split exactly, 60·h + m = d with 0 <= m < 60. A negative one that is not a
   * whole number of hours is not: the hours are floored but the minutes keep the sign of the
   * dividend, so the label comes out one hour short.
   */
  function DurationLabel(d: Option<int>): (v: DurationView)
    ensures d.None? <==> v.Hidden?
    ensures d == Some(0) <==> v.RawZero?
    ensures d.Some? && d.value > 0 ==>
              v.HoursMinutes? && 60 * v.hours + v.minutes == d.value && 0 <= v.minutes < 60 && v.hours >= 0
    ensures d.Some? && d.value < 0 && d.value % 60 != 0 ==>
              v.HoursMinutes? && 60 * v.hours + v.minutes == d.value - 60 && -60 < v.minutes < 0
    ensures d.Some? && d.value < 0 && d.value % 60 == 0 ==>
              v.HoursMinutes? && 60 * v.hours == d.value && v.minutes == 0
  {
    match d
    case None => Hidden
    case Some(m) => if m == 0 then RawZero else HoursMinutes(m / 60, JsRemainder(m, 60))
  }
}
