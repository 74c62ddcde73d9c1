// Sprite-sheet animation bookkeeping (SpriteSheet.cpp): the table of named
// animations, which one is current, and the line-by-line sheet loader.
// What an animation does frame by frame (AnimBase / AnimDirectional) is not
// part of this model: an animation is reduced to its observable flags.

module SpriteSheets {
  import opened Wrappers
  import opened Geometry

  datatype Direction = Left | Right

  /** The observable state of one animation. `params` are the tokens its loader line carries. */
  datatype Anim = Anim(looping: bool, playing: bool, inAction: bool, params: seq<string>)

  /** An animation's own `update(elapsed)`: what one time step does to it. */
  type Animator = (Anim, real) -> Anim

  /** An animation as the loader creates it, after `reset()`. */
  function FreshAnim(params: seq<string>): (a: Anim)
    ensures !a.playing && !a.looping && !a.inAction && a.params == params
  {
    Anim(false, false, false, params)
  }

  datatype IntVec = IntVec(x: int, y: int)

  /** Everything `loadSheet` and `setAnimation` can change. */
  datatype SheetState = SheetState(
    animations: map<string, Anim>,
    current: Option<string>,
    texture: Option<string>,
    spriteSize: IntVec,
    spriteScale: Vec2,
    animType: string)

  /** A new sheet: nothing loaded, no current animation, no texture, zero frame size, unit scale. */
  const Blank: SheetState := SheetState(map[], None, None, IntVec(0, 0), Vec2(1.0, 1.0), "")

  /** The current animation, when set, is one of the loaded ones, and no other animation plays. */
  predicate Consistent(st: SheetState)
  {
    (st.current.Some? ==> st.current.value in st.animations) &&
    (forall n :: n in st.animations && st.animations[n].playing ==> st.current == Some(n))
  }

  // ---------------------------------------------------------------------
  // Animation selection

  datatype Selection = Selection(state: SheetState, changed: bool)

  /**
   * `setAnimation(name, play, loop)`: an unknown name or the already current
   * one changes nothing; otherwise the previous animation is stopped and the
   * named one becomes current with the requested looping and playing flags.
   */
  function SelectAnimation(st: SheetState, name: string, play: bool, loop: bool): (r: Selection)
    ensures r.changed <==> name in st.animations && st.current != Some(name)
    ensures !r.changed ==> r.state == st
    ensures r.changed ==> r.state.current == Some(name) && name in r.state.animations
    ensures r.changed ==> r.state.animations.Keys == st.animations.Keys
    ensures r.changed ==> r.state.animations[name].looping == loop
    ensures r.changed && play ==> r.state.animations[name].playing
    ensures r.changed && st.current.Some? && st.current.value in st.animations ==>
      !r.state.animations[st.current.value].playing
    ensures r.state.texture == st.texture && r.state.spriteSize == st.spriteSize
    ensures r.state.spriteScale == st.spriteScale && r.state.animType == st.animType
  {
    if name !in st.animations || st.current == Some(name) then Selection(st, false)
    else
      var stopped :=
        if st.current.Some? && st.current.value in st.animations then
          st.animations[st.current.value := st.animations[st.current.value].(playing := false)]
        else st.animations;
      var a := stopped[name];
      var started := a.(looping := loop, playing := if play then true else a.playing);
      Selection(st.(animations := stopped[name := started], current := Some(name)), true)
  }

  /** Selecting keeps the table consistent, and then the new animation plays exactly when asked to. */
  lemma SelectAnimationConsistent(st: SheetState, name: string, play: bool, loop: bool)
    requires Consistent(st)
    ensures Consistent(SelectAnimation(st, name, play, loop).state)
    ensures SelectAnimation(st, name, play, loop).changed ==>
      SelectAnimation(st, name, play, loop).state.animations[name].playing == play
  {
    var r := SelectAnimation(st, name, play, loop);
    if r.changed {
      forall n | n in r.state.animations && r.state.animations[n].playing
        ensures r.state.current == Some(n)
      {
        if n != name {
          assert n in st.animations;
        }
      }
      if !play {
        assert name in st.animations && st.animations[name].playing ==> st.current == Some(name);
      }
    }
  }

  /** Selecting the same animation twice in a row has the effect of selecting it once. */
  lemma SelectAnimationIdempotent(st: SheetState, name: string, play: bool, loop: bool)
    ensures var r := SelectAnimation(st, name, play, loop);
      SelectAnimation(r.state, name, play, loop) == Selection(r.state, false)
  {
  }

  // ---------------------------------------------------------------------
  // Tokenising a loader line, as `std::stringstream >>` does

  predicate IsSpace(c: char)
  {
    c == ' ' || c == '\t' || c == '\n' || c == '\r' || c as int == 11 || c as int == 12
  }

  predicate IsWord(w: string)
  {
    w != [] && forall j :: 0 <= j < |w| ==> !IsSpace(w[j])
  }

  function SkipSpaces(s: string): (r: string)
    ensures |r| <= |s| && r == s[|s| - |r|..]
    ensures r == [] || !IsSpace(r[0])
  {
    if s != [] && IsSpace(s[0]) then SkipSpaces(s[1..]) else s
  }

  function WordLength(s: string): (n: nat)
    ensures n <= |s|
    ensures forall j :: 0 <= j < n ==> !IsSpace(s[j])
    ensures n == |s| || IsSpace(s[n])
  {
    if s == [] || IsSpace(s[0]) then 0 else 1 + WordLength(s[1..])
  }

  /** The whitespace-separated words of a line, in order. */
  function Words(s: string): (ws: seq<string>)
    ensures forall i :: 0 <= i < |ws| ==> IsWord(ws[i])
    decreases |s|
  {
    var t := SkipSpaces(s);
    if t == [] then []
    else
      var n := WordLength(t);
      assert n >= 1 && !IsSpace(t[0]);
      var first, others := t[..n], Words(t[n..]);
      FirstIsWord(t, n);
      ConsWords(first, others);
      [first] + others
  }

  lemma FirstIsWord(t: string, n: nat)
    requires 1 <= n <= |t| && forall j :: 0 <= j < n ==> !IsSpace(t[j])
    ensures IsWord(t[..n])
  {
    forall j | 0 <= j < n ensures !IsSpace(t[..n][j]) {
      assert t[..n][j] == t[j];
    }
  }

  lemma ConsWords(first: string, others: seq<string>)
    requires IsWord(first) && forall i :: 0 <= i < |others| ==> IsWord(others[i])
    ensures var ws := [first] + others; forall i :: 0 <= i < |ws| ==> IsWord(ws[i])
  {
    var ws := [first] + others;
    forall i | 0 <= i < |ws| ensures IsWord(ws[i]) {
      if i > 0 {
        assert ws[i] == others[i - 1];
      }
    }
  }

  /** A word followed by whitespace and the rest of the line splits into that word and the rest's words. */
  lemma {:induction false} WordsOfWordThenRest(w: string, rest: string)
    requires IsWord(w)
    requires rest == [] || IsSpace(rest[0])
    ensures Words(w + rest) == [w] + Words(rest)
  {
    var s := w + rest;
    assert SkipSpaces(s) == s;
    WordLengthOfWord(w, rest);
    assert s[..|w|] == w && s[|w|..] == rest;
  }

  lemma {:induction false} WordLengthOfWord(w: string, rest: string)
    requires forall j :: 0 <= j < |w| ==> !IsSpace(w[j])
    requires rest == [] || IsSpace(rest[0])
    ensures WordLength(w + rest) == |w|
    decreases |w|
  {
    if w != [] {
      assert (w + rest)[1..] == w[1..] + rest;
      WordLengthOfWord(w[1..], rest);
    } else {
      assert w + rest == rest;
    }
  }

  /** What a stream over `s` has left once `>>` has read the first word. */
  function AfterWord(s: string): (r: string)
    ensures |r| <= |s|
    ensures r == [] || IsSpace(r[0])
  {
    var t := SkipSpaces(s);
    t[WordLength(t)..]
  }

  /** The words of a line are its first word followed by the words of what comes after it. */
  lemma WordsAfterWord(s: string)
    requires Words(s) != []
    ensures Words(s) == [Words(s)[0]] + Words(AfterWord(s))
  {
  }

  // ---------------------------------------------------------------------
  // Numbers in Size and Scale lines

  predicate IsDigit(c: char) { '0' <= c <= '9' }

  /** Whitespace is neither a digit nor a point. */
  lemma SpaceIsNoDigit(s: string)
    requires s == [] || IsSpace(s[0])
    ensures s == [] || (!IsDigit(s[0]) && s[0] != '.')
  {
  }

  function DigitValue(c: char): (d: nat)
    requires IsDigit(c)
    ensures d < 10
  {
    (c as int - '0' as int) as nat
  }

  predicate AllDigits(s: string) { forall j :: 0 <= j < |s| ==> IsDigit(s[j]) }

  /** The value of a decimal digit string, most significant digit first. */
  function DigitsValue(s: string): (v: nat)
    requires AllDigits(s)
    ensures |s| > 0 ==> v < Pow10(|s|)
  {
    if s == [] then 0
    else DigitsValue(s[..|s| - 1]) * 10 + DigitValue(s[|s| - 1])
  }

  function Pow10(n: nat): (p: nat)
    ensures p >= 1
  {
    if n == 0 then 1 else 10 * Pow10(n - 1)
  }

  /** The length of the run of decimal digits that starts `s`. */
  function DigitRun(s: string): (n: nat)
    ensures n <= |s| && AllDigits(s[..n])
    ensures n == |s| || !IsDigit(s[n])
  {
    if s == [] || !IsDigit(s[0]) then 0
    else
      var n := 1 + DigitRun(s[1..]);
      assert s[..n] == [s[0]] + s[1..][..n - 1];
      n
  }

  lemma {:induction false} DigitRunOfDigits(d: string, rest: string)
    requires AllDigits(d) && (rest == [] || !IsDigit(rest[0]))
    ensures DigitRun(d + rest) == |d|
    decreases |d|
  {
    if d != [] {
      assert (d + rest)[1..] == d[1..] + rest;
      DigitRunOfDigits(d[1..], rest);
    } else {
      assert d + rest == rest;
    }
  }

  /** An integer token: an optional sign followed by at least one digit. */
  function ParseInt(s: string): (r: Option<int>)
    ensures r.Some? ==> s != []
    ensures AllDigits(s) && s != [] ==> r == Some(DigitsValue(s) as int)
  {
    if s != [] && (s[0] == '-' || s[0] == '+') then
      var body := s[1..];
      if body != [] && AllDigits(body) then
        Some(if s[0] == '-' then -(DigitsValue(body) as int) else DigitsValue(body) as int)
      else None
    else if s != [] && AllDigits(s) then Some(DigitsValue(s) as int)
    else None
  }

  function IndexOfDot(s: string): (k: nat)
    ensures k <= |s|
    ensures k < |s| ==> s[k] == '.'
    ensures forall j :: 0 <= j < k ==> s[j] != '.'
  {
    if s == [] then 0 else if s[0] == '.' then 0 else 1 + IndexOfDot(s[1..])
  }

  /** An unsigned decimal: digits, optionally followed by a dot and more digits. */
  function ParseUnsignedDecimal(s: string): (r: Option<real>)
    ensures AllDigits(s) && s != [] ==> r == Some(DigitsValue(s) as real)
    ensures r.Some? ==> s != [] && r.value >= 0.0
  {
    var k := IndexOfDot(s);
    var whole := s[..k];
    if k == |s| then
      if s != [] && AllDigits(s) then Some(DigitsValue(s) as real) else None
    else
      var frac := s[k + 1..];
      if AllDigits(whole) && AllDigits(frac) && (whole != [] || frac != []) then
        Some(PointValue(whole, frac))
      else None
  }

  /** A floating-point token in plain decimal notation (exponents are not modelled). */
  function ParseReal(s: string): (r: Option<real>)
  {
    if s != [] && s[0] == '-' then
      match ParseUnsignedDecimal(s[1..])
      case Some(v) => Some(-v)
      case None => None
    else if s != [] && s[0] == '+' then ParseUnsignedDecimal(s[1..])
    else ParseUnsignedDecimal(s)
  }

  // ---------------------------------------------------------------------
  // Reading numbers from a line, as `keystream >> v` does

  /**
   * A string stream: the characters not read yet, and whether a read has
   * failed (after which every read leaves its target as it is).
   */
  datatype Stream = Stream(rest: string, failed: bool)

  datatype IntRead = IntRead(stream: Stream, value: int)
  datatype RealRead = RealRead(stream: Stream, value: real)

  /** The range of a 32-bit `int`. */
  const IntMin: int := -0x8000_0000
  const IntMax: int := 0x7fff_ffff

  function SignLength(s: string): (n: nat)
    ensures n <= 1 && n <= |s|
  {
    if s != [] && (s[0] == '-' || s[0] == '+') then 1 else 0
  }

  /**
   * A number at the start of a stream's remaining characters: how many
   * characters it takes, 0 when none can be read, and its value.
   */
  datatype Field<T> = Field(len: nat, value: T)

  /** An optional sign and the run of digits after it; at least one digit is needed. */
  function IntField(t: string): (f: Field<int>)
    ensures f.len <= |t|
  {
    var k := SignLength(t);
    var n := DigitRun(t[k..]);
    if n == 0 then Field(0, 0)
    else
      var mag := DigitsValue(t[k..][..n]) as int;
      Field(k + n, if k == 1 && t[0] == '-' then -mag else mag)
  }

  /** Digits with an optional point and fraction after them, at least one digit in all. */
  function MantissaField(u: string): (f: Field<real>)
    ensures f.len <= |u|
    ensures f.len > 0 ==> f.value >= 0.0
  {
    var a := DigitRun(u);
    if a < |u| && u[a] == '.' then
      var b := DigitRun(u[a + 1..]);
      if a + b == 0 then Field(0, 0.0)
      else Field(a + 1 + b, PointValue(u[..a], u[a + 1..][..b]))
    else if a == 0 then Field(0, 0.0)
    else Field(a, DigitsValue(u[..a]) as real)
  }

  /** Ten to the power `e`, as a real, for an exponent of either sign. */
  function Scale10(e: int): (r: real)
    ensures r > 0.0
  {
    if e >= 0 then Pow10(e) as real else 1.0 / Pow10(-e) as real
  }

  /**
   * An optional sign, a mantissa and an optional exponent; an `e` with no
   * digit after it cannot be read.
   */
  function RealField(t: string): (f: Field<real>)
    ensures f.len <= |t|
  {
    var k := SignLength(t);
    var m := MantissaField(t[k..]);
    if m.len == 0 then Field(0, 0.0)
    else
      var sign := if k == 1 && t[0] == '-' then -1.0 else 1.0;
      var after := t[k + m.len..];
      if after != [] && (after[0] == 'e' || after[0] == 'E') then
        var e := IntField(after[1..]);
        if e.len == 0 then Field(0, 0.0)
        else Field(k + m.len + 1 + e.len, sign * m.value * Scale10(e.value))
      else Field(k + m.len, sign * m.value)
  }

  /**
   * `>>` into an `int` holding `prior`. A failed stream, or one with only
   * whitespace left, leaves it as it is. Otherwise the whitespace is skipped
   * and a number is read: none stores 0, a value out of range stores the
   * nearest bound, and both fail the stream.
   */
  function ReadInt(s: Stream, prior: int): (r: IntRead)
    ensures s.failed ==> r == IntRead(s, prior)
    ensures !s.failed && SkipSpaces(s.rest) == [] ==> r.stream.failed && r.value == prior
    ensures r.value == prior || IntMin <= r.value <= IntMax
    ensures !r.stream.failed ==> !s.failed && |r.stream.rest| < |s.rest|
  {
    if s.failed then IntRead(s, prior)
    else
      var t := SkipSpaces(s.rest);
      if t == [] then IntRead(Stream([], true), prior)
      else
        var f := IntField(t);
        if f.len == 0 then IntRead(Stream(t, true), 0)
        else if f.value > IntMax then IntRead(Stream(t[f.len..], true), IntMax)
        else if f.value < IntMin then IntRead(Stream(t[f.len..], true), IntMin)
        else IntRead(Stream(t[f.len..], false), f.value)
  }

  /**
   * `>>` into a `float` holding `prior`, on exact reals: as for an `int`,
   * without the range bound.
   */
  function ReadReal(s: Stream, prior: real): (r: RealRead)
    ensures s.failed ==> r == RealRead(s, prior)
    ensures !s.failed && SkipSpaces(s.rest) == [] ==> r.stream.failed && r.value == prior
    ensures !r.stream.failed ==> !s.failed && |r.stream.rest| < |s.rest|
  {
    if s.failed then RealRead(s, prior)
    else
      var t := SkipSpaces(s.rest);
      if t == [] then RealRead(Stream([], true), prior)
      else
        var f := RealField(t);
        if f.len == 0 then RealRead(Stream(t, true), 0.0)
        else RealRead(Stream(t[f.len..], false), f.value)
  }

  /** An integer word, followed by anything but a digit, is one whole field. */
  lemma IntFieldOfWord(w: string, tail: string)
    requires tail == [] || !IsDigit(tail[0])
    requires ParseInt(w).Some?
    ensures IntField(w + tail) == Field(|w|, ParseInt(w).value)
  {
    var t := w + tail;
    var k := SignLength(t);
    assert t[k..] == w[k..] + tail;
    DigitRunOfDigits(w[k..], tail);
    assert t[k..][..|w| - k] == w[k..];
  }

  /** A word in plain unsigned decimal notation, followed by whitespace or nothing, is one whole mantissa. */
  lemma MantissaOfWord(v: string, tail: string)
    requires tail == [] || IsSpace(tail[0])
    requires ParseUnsignedDecimal(v).Some?
    ensures MantissaField(v + tail) == Field(|v|, ParseUnsignedDecimal(v).value)
  {
    var i := IndexOfDot(v);
    if i == |v| {
      assert AllDigits(v) && v != [];
      SpaceIsNoDigit(tail);
      WholeThenPoint(v, tail);
      MantissaFieldPlain(v + tail);
    } else {
      SplitAt(v, i);
      MantissaWithPoint(v[..i], v[i + 1..], tail);
    }
  }

  lemma SplitAt(v: string, i: nat)
    requires i < |v|
    ensures v == v[..i] + [v[i]] + v[i + 1..]
  {
    assert v == v[..i] + v[i..] && v[i..] == [v[i]] + v[i + 1..];
  }

  /** The value of whole.frac: the whole digits plus the fraction digits over a power of ten. */
  function PointValue(whole: string, frac: string): (v: real)
    requires AllDigits(whole) && AllDigits(frac)
    ensures v >= 0.0
  {
    var num, den := DigitsValue(frac) as real, Pow10(|frac|) as real;
    assert num / den >= 0.0 by { assert num >= 0.0 && den >= 1.0; }
    DigitsValue(whole) as real + num / den
  }

  lemma MantissaWithPoint(whole: string, frac: string, tail: string)
    requires tail == [] || IsSpace(tail[0])
    requires AllDigits(whole) && AllDigits(frac) && (whole != [] || frac != [])
    ensures var v := whole + ['.'] + frac;
      MantissaField(v + tail) == Field(|v|, ParseUnsignedDecimal(v).value)
  {
    MantissaFieldWithPoint(whole, frac, tail);
    ParsePointValue(whole, frac);
  }

  lemma MantissaFieldWithPoint(whole: string, frac: string, tail: string)
    requires tail == [] || IsSpace(tail[0])
    requires AllDigits(whole) && AllDigits(frac) && (whole != [] || frac != [])
    ensures MantissaField(whole + ['.'] + frac + tail) == Field(|whole| + 1 + |frac|, PointValue(whole, frac))
  {
    var u := whole + (['.'] + (frac + tail));
    PointSplit(whole, frac + tail);
    SpaceIsNoDigit(tail);
    WholeThenPoint(frac, tail);
    MantissaFieldPoint(u);
    Associative(['.'], frac, tail);
    Associative(whole, ['.'] + frac, tail);
    Associative(whole, ['.'], frac);
  }

  /** Digits, a point and the rest: the digit run stops at the point. */
  lemma PointSplit(whole: string, after: string)
    requires AllDigits(whole)
    ensures var u := whole + (['.'] + after);
      DigitRun(u) == |whole| && u[|whole|] == '.' && u[..|whole|] == whole && u[|whole| + 1..] == after
  {
    var rest := ['.'] + after;
    assert rest[0] == '.' && rest[1..] == after;
    WholeThenPoint(whole, rest);
  }

  /** The digit run of digits followed by a non-digit is those digits. */
  lemma WholeThenPoint(d: string, rest: string)
    requires AllDigits(d) && (rest == [] || !IsDigit(rest[0]))
    ensures var u := d + rest; DigitRun(u) == |d| && u[..|d|] == d && u[|d|..] == rest
  {
    DigitRunOfDigits(d, rest);
    assert (d + rest)[..|d|] == d;
  }

  /** Digits with no point after them make a mantissa without a fraction. */
  lemma MantissaFieldPlain(u: string)
    ensures var a := DigitRun(u);
      a > 0 && (a == |u| || u[a] != '.') ==> MantissaField(u) == Field(a, DigitsValue(u[..a]) as real)
  {
  }

  /** Digits, a point and digits, with at least one digit, make a mantissa with a fraction. */
  lemma MantissaFieldPoint(u: string)
    ensures var a := DigitRun(u);
      a < |u| && u[a] == '.' ==>
        var b := DigitRun(u[a + 1..]);
        a + b > 0 ==>
          MantissaField(u) == Field(a + 1 + b, PointValue(u[..a], u[a + 1..][..b]))
  {
  }

  lemma ParsePointValue(whole: string, frac: string)
    requires AllDigits(whole) && AllDigits(frac) && (whole != [] || frac != [])
    ensures ParseUnsignedDecimal(whole + ['.'] + frac) == Some(PointValue(whole, frac))
  {
    var v := whole + ['.'] + frac;
    assert v == whole + (['.'] + frac);
    IndexOfDotAfter(whole, ['.'] + frac);
    assert v[..|whole|] == whole && v[|whole| + 1..] == frac;
  }

  lemma {:induction false} IndexOfDotAfter(whole: string, rest: string)
    requires AllDigits(whole) && rest != [] && rest[0] == '.'
    ensures IndexOfDot(whole + rest) == |whole|
    decreases |whole|
  {
    if whole != [] {
      assert (whole + rest)[1..] == whole[1..] + rest;
      IndexOfDotAfter(whole[1..], rest);
    } else {
      assert whole + rest == rest;
    }
  }

  /** A word in plain decimal notation, followed by whitespace or nothing, is one whole field. */
  lemma RealFieldOfWord(w: string, tail: string)
    requires tail == [] || IsSpace(tail[0])
    requires ParseReal(w).Some?
    ensures RealField(w + tail) == Field(|w|, ParseReal(w).value)
  {
    var t := w + tail;
    var k := SignLength(w);
    assert SignLength(t) == k && ParseUnsignedDecimal(w[k..]).Some?;
    var v := ParseUnsignedDecimal(w[k..]).value;
    var neg := k == 1 && t[0] == '-';
    assert ParseReal(w).value == if neg then -v else v;
    assert MantissaField(t[k..]) == Field(|w| - k, v) by {
      assert t[k..] == w[k..] + tail;
      MantissaOfWord(w[k..], tail);
    }
    assert |w| - k > 0 && t[|w|..] == tail;
    RealFieldPlain(t);
    assert RealField(t) == Field(|w|, if neg then -v else v);
  }

  /** A mantissa with no exponent after it is the whole field, with the sign applied. */
  lemma RealFieldPlain(t: string)
    ensures var k := SignLength(t); var m := MantissaField(t[k..]); var after := t[k + m.len..];
      m.len > 0 && (after == [] || IsSpace(after[0])) ==>
        RealField(t) == Field(k + m.len, if k == 1 && t[0] == '-' then -m.value else m.value)
  {
  }

  /**
   * An integer in range, followed by anything but a digit, is read whole,
   * and the stream goes on right after it (`32px` reads 32 and leaves `px`).
   */
  lemma ReadIntOfWord(rest: string, w: string, tail: string, prior: int)
    requires SkipSpaces(rest) == w + tail && (tail == [] || !IsDigit(tail[0]))
    requires ParseInt(w).Some? && IntMin <= ParseInt(w).value <= IntMax
    ensures ReadInt(Stream(rest, false), prior) == IntRead(Stream(tail, false), ParseInt(w).value)
  {
    var t := SkipSpaces(rest);
    IntFieldOfWord(w, tail);
    assert t[|w|..] == tail;
    ReadIntField(rest, prior);
  }

  /** A field in range read from a stream in good state leaves the stream in good state just after it. */
  lemma ReadIntField(rest: string, prior: int)
    ensures var t := SkipSpaces(rest); var f := IntField(t);
      t != [] && f.len > 0 && IntMin <= f.value <= IntMax ==>
        ReadInt(Stream(rest, false), prior) == IntRead(Stream(t[f.len..], false), f.value)
  {
  }

  /** A word in plain decimal notation is read whole, and the stream goes on after it. */
  lemma ReadRealOfWord(rest: string, w: string, tail: string, prior: real)
    requires SkipSpaces(rest) == w + tail && (tail == [] || IsSpace(tail[0]))
    requires ParseReal(w).Some?
    ensures ReadReal(Stream(rest, false), prior) == RealRead(Stream(tail, false), ParseReal(w).value)
  {
    var t := SkipSpaces(rest);
    RealFieldOfWord(w, tail);
    assert t[|w|..] == tail;
    ReadRealField(rest, prior);
  }

  /** The same for a `float`, which has no range bound. */
  lemma ReadRealField(rest: string, prior: real)
    ensures var t := SkipSpaces(rest); var f := RealField(t);
      t != [] && f.len > 0 ==> ReadReal(Stream(rest, false), prior) == RealRead(Stream(t[f.len..], false), f.value)
  {
  }

  /** What is left that does not start with a number stores 0 and fails the stream. */
  lemma ReadIntNoNumber(rest: string, prior: int)
    requires var t := SkipSpaces(rest); t != [] && !IsDigit(t[0]) && t[0] != '-' && t[0] != '+'
    ensures ReadInt(Stream(rest, false), prior) == IntRead(Stream(SkipSpaces(rest), true), 0)
  {
  }

  /** The same for a `float`, for which a point may also start a number. */
  lemma ReadRealNoNumber(rest: string, prior: real)
    requires var t := SkipSpaces(rest); t != [] && !IsDigit(t[0]) && t[0] != '-' && t[0] != '+' && t[0] != '.'
    ensures ReadReal(Stream(rest, false), prior) == RealRead(Stream(SkipSpaces(rest), true), 0.0)
  {
  }

  // ---------------------------------------------------------------------
  // Loader lines

  /** How `loadSheet` reads one line, by its first word. */
  datatype LineKind =
    | Skipped
    | TextureLine(file: string)
    | SizeLine(rest: string)
    | ScaleLine(rest: string)
    | AnimTypeLine(animType: Option<string>)
    | AnimationLine(name: string, params: seq<string>)
    | Unrecognised(word: string)

  /** The word after the key, or the empty string when there is none. */
  function Arg(ws: seq<string>, i: nat): string
  {
    if i < |ws| then ws[i] else ""
  }

  function Classify(line: string): (k: LineKind)
    ensures line == [] || line[0] == '#' ==> k == Skipped
    ensures line != [] && line[0] != '#' && Words(line) == [] ==> k == Unrecognised("")
  {
    if line == [] || line[0] == '#' then Skipped
    else
      var ws := Words(line);
      var key := Arg(ws, 0);
      if key == "Texture" then TextureLine(Arg(ws, 1))
      else if key == "Size" then SizeLine(AfterWord(line))
      else if key == "Scale" then ScaleLine(AfterWord(line))
      else if key == "AnimationType" then AnimTypeLine(if |ws| > 1 then Some(ws[1]) else None)
      else if key == "Animation" then AnimationLine(Arg(ws, 1), if |ws| > 2 then ws[2..] else [])
      else Unrecognised(key)
  }

  /** `keystream >> size.x >> size.y`: two reads from one stream into the frame size. */
  function ReadSize(rest: string, prior: IntVec): IntVec
  {
    var x := ReadInt(Stream(rest, false), prior.x);
    var y := ReadInt(x.stream, prior.y);
    IntVec(x.value, y.value)
  }

  /** `keystream >> scale.x >> scale.y`, into the scale. */
  function ReadScale(rest: string, prior: Vec2): Vec2
  {
    var x := ReadReal(Stream(rest, false), prior.x);
    var y := ReadReal(x.stream, prior.y);
    Vec2(x.value, y.value)
  }

  datatype StepResult = StepResult(state: SheetState, ok: bool)

  /**
   * The effect of one classified line. A texture that cannot be loaded, a
   * duplicate animation name and an animation under a type other than
   * "Directional" throw (`ok == false`); the state is then the one reached
   * before the line.
   */
  function Apply(st: SheetState, k: LineKind, textures: set<string>): (r: StepResult)
    ensures r.state.current == st.current
    ensures k.AnimationLine? && r.ok ==>
      k.name !in st.animations && r.state.animations == st.animations[k.name := FreshAnim(k.params)]
    ensures !k.AnimationLine? ==> r.state.animations == st.animations
    ensures !r.ok ==> r.state == st
    ensures !r.ok <==>
      (k.TextureLine? && k.file !in textures) ||
      (k.AnimationLine? && (k.name in st.animations || st.animType != "Directional"))
  {
    match k
    case Skipped => StepResult(st, true)
    case Unrecognised(_) => StepResult(st, true)
    case TextureLine(file) =>
      if file in textures then StepResult(st.(texture := Some(file)), true) else StepResult(st, false)
    case SizeLine(rest) => StepResult(st.(spriteSize := ReadSize(rest, st.spriteSize)), true)
    case ScaleLine(rest) => StepResult(st.(spriteScale := ReadScale(rest, st.spriteScale)), true)
    case AnimTypeLine(t) =>
      if t.Some? then StepResult(st.(animType := t.value), true) else StepResult(st, true)
    case AnimationLine(name, params) =>
      if name in st.animations || st.animType != "Directional" then StepResult(st, false)
      else StepResult(st.(animations := st.animations[name := FreshAnim(params)]), true)
  }

  /** A line that starts with a key word: the key is its first word and the rest is left for `>>`. */
  lemma KeyThenRest(key: string, rest: string)
    requires IsWord(key) && (rest == [] || IsSpace(rest[0]))
    ensures Words(key + rest)[0] == key && AfterWord(key + rest) == rest
  {
    WordsOfWordThenRest(key, rest);
    WordLengthOfWord(key, rest);
    assert SkipSpaces(key + rest) == key + rest;
    assert (key + rest)[|key|..] == rest;
  }

  /** A Size line hands what follows the key to the two reads, and a Scale line likewise. */
  lemma ClassifySizeAndScale(rest: string)
    requires rest == [] || IsSpace(rest[0])
    ensures Classify("Size" + rest) == SizeLine(rest)
    ensures Classify("Scale" + rest) == ScaleLine(rest)
  {
    ClassifyKeyed("Size", rest);
    ClassifyKeyed("Scale", rest);
  }

  lemma ClassifyKeyed(key: string, rest: string)
    requires key == "Size" || key == "Scale"
    requires rest == [] || IsSpace(rest[0])
    ensures Classify(key + rest) == if key == "Size" then SizeLine(rest) else ScaleLine(rest)
  {
    KeysAreWords(key);
    KeyThenRest(key, rest);
    ClassifyByKey(key + rest, key);
  }

  lemma KeysAreWords(key: string)
    requires key == "Size" || key == "Scale"
    ensures IsWord(key) && key[0] == 'S' && key != "Texture" && (key == "Scale" <==> key != "Size")
  {
    assert |"Texture"| == 7 && |"Size"| == 4 && |"Scale"| == 5;
  }

  /** A line that is not a comment is classified by its first word. */
  lemma ClassifyByKey(line: string, key: string)
    requires line != [] && line[0] != '#' && Words(line) != [] && Words(line)[0] == key
    requires key != "Texture"
    ensures key == "Size" ==> Classify(line) == SizeLine(AfterWord(line))
    ensures key == "Scale" ==> Classify(line) == ScaleLine(AfterWord(line))
  {
  }

  /**
   * A Size line whose first number reads whole sets the width to it; the
   * height is then read from what follows (`Size 32 abc` and `Size 32px 16`
   * give height 0, `Size 32` keeps the height).
   */
  lemma SizeLineReadsWidth(st: SheetState, rest: string, w: string, tail: string, textures: set<string>)
    requires SkipSpaces(rest) == w + tail && (tail == [] || !IsDigit(tail[0]))
    requires ParseInt(w).Some? && IntMin <= ParseInt(w).value <= IntMax
    ensures Apply(st, SizeLine(rest), textures) ==
      StepResult(st.(spriteSize := IntVec(ParseInt(w).value, ReadInt(Stream(tail, false), st.spriteSize.y).value)), true)
  {
    ReadIntOfWord(rest, w, tail, st.spriteSize.x);
  }

  /** A Size line with no number after the key keeps the size; one that starts with something else sets the width to 0 only. */
  lemma SizeLineWithoutNumber(st: SheetState, rest: string, textures: set<string>)
    ensures SkipSpaces(rest) == [] ==> Apply(st, SizeLine(rest), textures) == StepResult(st, true)
    ensures var t := SkipSpaces(rest); t != [] && !IsDigit(t[0]) && t[0] != '-' && t[0] != '+' ==>
      Apply(st, SizeLine(rest), textures) == StepResult(st.(spriteSize := IntVec(0, st.spriteSize.y)), true)
  {
    ReadSizeNothing(rest, st.spriteSize);
    ReadSizeNoNumber(rest, st.spriteSize);
  }

  lemma ReadSizeNothing(rest: string, prior: IntVec)
    ensures SkipSpaces(rest) == [] ==> ReadSize(rest, prior) == prior
  {
  }

  lemma ReadSizeNoNumber(rest: string, prior: IntVec)
    ensures var t := SkipSpaces(rest); t != [] && !IsDigit(t[0]) && t[0] != '-' && t[0] != '+' ==>
      ReadSize(rest, prior) == IntVec(0, prior.y)
  {
    var t := SkipSpaces(rest);
    if t != [] && !IsDigit(t[0]) && t[0] != '-' && t[0] != '+' {
      ReadIntNoNumber(rest, prior.x);
    }
  }

  /** A Scale line whose first number is a whole decimal word sets the x scale to it; the y scale is read from what follows. */
  lemma ScaleLineReadsX(st: SheetState, rest: string, w: string, tail: string, textures: set<string>)
    requires SkipSpaces(rest) == w + tail && (tail == [] || IsSpace(tail[0]))
    requires ParseReal(w).Some?
    ensures Apply(st, ScaleLine(rest), textures) ==
      StepResult(st.(spriteScale := Vec2(ParseReal(w).value, ReadReal(Stream(tail, false), st.spriteScale.y).value)), true)
  {
    ReadRealOfWord(rest, w, tail, st.spriteScale.x);
  }

  /** The classification of every line of a file. */
  function ClassifyAll(lines: seq<string>): (ks: seq<LineKind>)
    ensures |ks| == |lines| && forall i :: 0 <= i < |lines| ==> ks[i] == Classify(lines[i])
  {
    seq(|lines|, i requires 0 <= i < |lines| => Classify(lines[i]))
  }

  /** Runs the classified lines in order, stopping at the first one that throws. */
  function Run(st: SheetState, ks: seq<LineKind>, textures: set<string>): StepResult
    decreases |ks|
  {
    if ks == [] then StepResult(st, true)
    else
      var s := Apply(st, ks[0], textures);
      if !s.ok then s else Run(s.state, ks[1..], textures)
  }

  /** `loadSheet` from the released state over the lines of a file. */
  function Load(st: SheetState, lines: seq<string>, textures: set<string>): StepResult
  {
    Run(Released(st), ClassifyAll(lines), textures)
  }

  /** `releaseSheet`: no animations and no current one. */
  function Released(st: SheetState): (r: SheetState)
    ensures r.animations == map[] && r.current == None
    ensures r.texture == st.texture && r.spriteSize == st.spriteSize
    ensures r.spriteScale == st.spriteScale && r.animType == st.animType
  {
    st.(animations := map[], current := None)
  }

  /** The names declared by the Animation lines, in order. */
  function AnimationNames(ks: seq<LineKind>): seq<string>
  {
    if ks == [] then []
    else (if ks[0].AnimationLine? then [ks[0].name] else []) + AnimationNames(ks[1..])
  }

  /** Comment and blank lines have no effect anywhere in a file. */
  lemma SkippedLineIsNoOp(st: SheetState, line: string, rest: seq<LineKind>, textures: set<string>)
    requires line == [] || line[0] == '#'
    ensures Run(st, [Classify(line)] + rest, textures) == Run(st, rest, textures)
  {
    assert ([Classify(line)] + rest)[1..] == rest;
  }

  /** Loading never sets a current animation, and from no current animation nothing plays afterwards. */
  lemma {:induction false} RunKeepsCurrent(st: SheetState, ks: seq<LineKind>, textures: set<string>)
    requires Consistent(st)
    ensures Run(st, ks, textures).state.current == st.current
    ensures Consistent(Run(st, ks, textures).state)
    decreases |ks|
  {
    if ks != [] {
      var s := Apply(st, ks[0], textures);
      if s.ok {
        assert Consistent(s.state) by {
          if ks[0].AnimationLine? {
            assert s.state.animations == st.animations[ks[0].name := FreshAnim(ks[0].params)];
          }
        }
        RunKeepsCurrent(s.state, ks[1..], textures);
      }
    }
  }

  /** The set of elements of a sequence. */
  function Elements(s: seq<string>): set<string>
  {
    set i | 0 <= i < |s| :: s[i]
  }

  lemma ElementsConcat(a: seq<string>, b: seq<string>)
    ensures Elements(a + b) == Elements(a) + Elements(b)
  {
    forall x | x in Elements(a + b) ensures x in Elements(a) + Elements(b) {
      var i :| 0 <= i < |a + b| && (a + b)[i] == x;
      if i >= |a| { assert b[i - |a|] == x; }
    }
    forall x | x in Elements(b) ensures x in Elements(a + b) {
      var i :| 0 <= i < |b| && b[i] == x;
      assert (a + b)[i + |a|] == x;
    }
    forall x | x in Elements(a) ensures x in Elements(a + b) {
      var i :| 0 <= i < |a| && a[i] == x;
      assert (a + b)[i] == x;
    }
  }

  /**
   * A load that completes adds exactly the names of the Animation lines,
   * none of which was already present.
   */
  lemma {:induction false} RunDeclaresAnimations(st: SheetState, ks: seq<LineKind>, textures: set<string>)
    requires Run(st, ks, textures).ok
    ensures Run(st, ks, textures).state.animations.Keys == st.animations.Keys + Elements(AnimationNames(ks))
    ensures forall n :: n in Elements(AnimationNames(ks)) ==> n !in st.animations
    decreases |ks|
  {
    if ks != [] {
      var s := Apply(st, ks[0], textures);
      RunDeclaresAnimations(s.state, ks[1..], textures);
      var head := if ks[0].AnimationLine? then [ks[0].name] else [];
      assert AnimationNames(ks) == head + AnimationNames(ks[1..]);
      ElementsConcat(head, AnimationNames(ks[1..]));
      assert Elements(head) == if ks[0].AnimationLine? then {ks[0].name} else {} by {
        if ks[0].AnimationLine? { assert head[0] == ks[0].name; }
      }
    }
  }

  /** Declaring an animation name twice makes the load throw. */
  lemma DuplicateAnimationThrows(st: SheetState, k1: LineKind, k2: LineKind, textures: set<string>)
    requires k1.AnimationLine? && k2.AnimationLine? && k1.name == k2.name
    ensures !Run(st, [k1, k2], textures).ok
  {
    var s := Apply(st, k1, textures);
    if s.ok {
      assert k1.name in s.state.animations;
      assert [k1, k2][1..] == [k2];
    }
  }

  /** Without the "Directional" animation type, the first Animation line throws. */
  lemma {:induction false} UnknownAnimationTypeThrows(st: SheetState, ks: seq<LineKind>, textures: set<string>)
    requires st.animType != "Directional"
    requires forall i :: 0 <= i < |ks| ==> !ks[i].AnimTypeLine?
    requires exists i :: 0 <= i < |ks| && ks[i].AnimationLine?
    ensures !Run(st, ks, textures).ok
    decreases |ks|
  {
    var s := Apply(st, ks[0], textures);
    if s.ok && !ks[0].AnimationLine? {
      var i :| 0 <= i < |ks| && ks[i].AnimationLine?;
      assert ks[1..][i - 1].AnimationLine?;
      UnknownAnimationTypeThrows(s.state, ks[1..], textures);
    }
  }

  /** The animation a sheet state designates as current, if any. */
  function CurrentOf(st: SheetState): (a: Option<Anim>)
    ensures a.Some? <==> st.current.Some? && st.current.value in st.animations
    ensures a.Some? ==> a.value == st.animations[st.current.value]
  {
    if st.current.Some? && st.current.value in st.animations then Some(st.animations[st.current.value]) else None
  }

  /** A freshly selected animation is the current one, with the requested flags. */
  lemma SelectedIsCurrent(st: SheetState, name: string, play: bool, loop: bool)
    requires name in st.animations
    ensures var a := CurrentOf(SelectAnimation(st, name, play, loop).state);
      a.Some? && a.value.params == st.animations[name].params &&
      (SelectAnimation(st, name, play, loop).changed ==> a.value.looping == loop && (play ==> a.value.playing))
  {
  }

  /**
   * `update(elapsed)`: the current animation, when there is one, takes its
   * time step. `advance` stands for the animation's own `update`, whose
   * frame arithmetic is not part of this model.
   */
  function Advanced(st: SheetState, advance: Animator, elapsed: real): (r: SheetState)
    ensures r.current == st.current && r.animations.Keys == st.animations.Keys
    ensures CurrentOf(r) == if CurrentOf(st).Some? then Some(advance(CurrentOf(st).value, elapsed)) else None
    ensures forall n | n in st.animations && st.current != Some(n) :: r.animations[n] == st.animations[n]
    ensures r.texture == st.texture && r.spriteSize == st.spriteSize
    ensures r.spriteScale == st.spriteScale && r.animType == st.animType
  {
    match CurrentOf(st)
    case Some(a) => st.(animations := st.animations[st.current.value := advance(a, elapsed)])
    case None => st
  }

  /** The base entity update: only a sheet the entity draws from (`animated`) takes the time step. */
  function Animated(st: SheetState, animated: bool, advance: Animator, elapsed: real): SheetState
  {
    if animated then Advanced(st, advance, elapsed) else st
  }

  /** A time step keeps the table consistent, whatever the current animation does. */
  lemma AdvancedConsistent(st: SheetState, advance: Animator, elapsed: real)
    requires Consistent(st)
    ensures Consistent(Advanced(st, advance, elapsed))
  {
  }

  // ---------------------------------------------------------------------
  // The sprite sheet object

  class SpriteSheet {
    var animations: map<string, Anim>
    var current: Option<string>
    var texture: Option<string>
    var spriteSize: IntVec
    var spriteScale: Vec2
    var animType: string
    var direction: Direction

    function State(): SheetState
      reads this`animations, this`current, this`texture, this`spriteSize, this`spriteScale, this`animType
    {
      SheetState(animations, current, texture, spriteSize, spriteScale, animType)
    }

    constructor ()
      ensures State() == Blank
      ensures direction == Right
    {
      animations := map[];
      current := None;
      texture := None;
      spriteSize := IntVec(0, 0);
      spriteScale := Vec2(1.0, 1.0);
      animType := "";
      direction := Right;
    }

    method ReleaseSheet()
      modifies this
      ensures State() == Released(old(State()))
      ensures direction == old(direction)
    {
      current := None;
      animations := map[];
    }

    /** Turning to the direction already faced does nothing. */
    method SetSpriteDirection(dir: Direction)
      modifies this`direction
      ensures direction == dir
    {
      if dir == direction {
        return;
      }
      direction := dir;
    }

    /**
     * `loadSheet`: `file` is the list of lines of the sheet file, or None when
     * it cannot be opened; `textures` are the image files that load.
     */
    method LoadSheet(file: Option<seq<string>>, textures: set<string>) returns (status: Status)
      modifies this
      ensures file.None? ==> status.Failure? && State() == old(State())
      ensures file.Some? ==>
        var r := Load(Released(old(State())), file.value, textures);
        State() == r.state && (status == Success <==> r.ok)
      ensures direction == old(direction)
    {
      if file.None? {
        return Failure(RuntimeError("ERROR: failed loading spritesheet"));
      }
      ReleaseSheet();
      status := ApplyLines(file.value, textures);
    }

    /** The line loop of `loadSheet`: each line in order, stopping at the first one that fails. */
    method ApplyLines(lines: seq<string>, textures: set<string>) returns (status: Status)
      modifies this
      ensures var r := Run(old(State()), ClassifyAll(lines), textures);
        State() == r.state && (status == Success <==> r.ok)
      ensures direction == old(direction)
    {
      ghost var ks := ClassifyAll(lines);
      var i := 0;
      while i < |lines|
        invariant 0 <= i <= |lines|
        invariant Run(old(State()), ks, textures) == Run(State(), ks[i..], textures)
        invariant direction == old(direction)
      {
        ghost var rest := ks[i..];
        assert rest[0] == Classify(lines[i]) && rest[1..] == ks[i + 1..];
        var ok := ApplyLine(Classify(lines[i]), textures);
        if !ok {
          return Failure(RuntimeError("sprite sheet error"));
        }
        i := i + 1;
      }
      return Success;
    }

    /** One classified line of the sheet file; a line that throws leaves the state as it was. */
    method ApplyLine(k: LineKind, textures: set<string>) returns (ok: bool)
      modifies this
      ensures var r := Apply(old(State()), k, textures);
        State() == r.state && ok == r.ok
      ensures direction == old(direction)
    {
      var r := Apply(State(), k, textures);
      ok := r.ok;
      if ok {
        animations, current, texture := r.state.animations, r.state.current, r.state.texture;
        spriteSize, spriteScale, animType := r.state.spriteSize, r.state.spriteScale, r.state.animType;
      }
    }

    method SetAnimation(name: string, play: bool, loop: bool) returns (changed: bool)
      modifies this
      ensures var r := SelectAnimation(old(State()), name, play, loop);
        State() == r.state && changed == r.changed
      ensures direction == old(direction)
    {
      var r := SelectAnimation(State(), name, play, loop);
      animations, current := r.state.animations, r.state.current;
      changed := r.changed;
    }

    /** `update(elapsed)`: the current animation's time step. */
    method Update(elapsed: real, advance: Animator)
      modifies this`animations
      ensures State() == Advanced(old(State()), advance, elapsed)
    {
      var cur := CurrentAnim();
      if cur.Some? {
        animations := animations[current.value := advance(cur.value, elapsed)];
      }
    }

    /** `getCurrentAnim`: null when no animation is current. */
    function CurrentAnim(): (a: Option<Anim>)
      reads this`animations, this`current
      ensures a == CurrentOf(State())
      ensures a.Some? ==> current.Some? && a.value == animations[current.value]
    {
      if current.Some? && current.value in animations then Some(animations[current.value]) else None
    }
  }
}
