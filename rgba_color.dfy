/** The settings panel's cursor-colour helpers: `getRGBA`, which reads an
    `rgba(r, g, b, a)` string back into four components, and the string the
    colour picker writes, `rgba(${r}, ${g}, ${b}, ${a})`.

    `getRGBA` accepts only the regular expression
      ^rgba\(\s*(\d+)\s*,\s*(\d+)\s*,\s*(\d+)\s*,\s*(\d+)\s*\)$
    and returns the fixed colour (51, 51, 51, 1) for anything else. Because
    white space, decimal digits, ',' and ')' are pairwise disjoint, that
    expression matches in at most one way, so it is modelled by a scanner
    (`Parse`) and, independently, by the set of strings it describes
    (`IsLayout`/`Layout`); `ParseComplete` and `ParseSound` say they agree. */
module RgbaColor {
  import opened Wrappers
  import opened JsStrings

  /** The colour object `getRGBA` returns. Components are non-negative integers. */
  datatype Rgba = Rgba(r: nat, g: nat, b: nat, a: nat)

  /** What `getRGBA` returns for anything it does not accept. */
  const DefaultRgba := Rgba(51, 51, 51, 1)

  /** `\d` in a JavaScript regular expression without the `u` flag. */
  predicate IsDigit(c: char) {
    '0' <= c <= '9'
  }

  /** `\s` in a JavaScript regular expression: ECMAScript WhiteSpace and LineTerminator. */
  predicate IsSpace(c: char) {
    c == '\t' || c == '\n' || c == '\U{000B}' || c == '\U{000C}' || c == '\r' || c == ' '
    || c == '\U{00A0}' || c == '\U{1680}' || ('\U{2000}' <= c <= '\U{200A}')
    || c == '\U{2028}' || c == '\U{2029}' || c == '\U{202F}' || c == '\U{205F}'
    || c == '\U{3000}' || c == '\U{FEFF}'
  }

  predicate AllSpaces(w: string) {
    forall i :: 0 <= i < |w| ==> IsSpace(w[i])
  }

  /** A run matched by `\d+`. */
  predicate IsDigitRun(d: string) {
    |d| > 0 && forall i :: 0 <= i < |d| ==> IsDigit(d[i])
  }

  /** Length of the white-space run at the start of `s` (what a greedy `\s*` consumes). */
  function SpacesLen(s: string): (n: nat)
    ensures n <= |s|
  {
    if s != [] && IsSpace(s[0]) then 1 + SpacesLen(s[1..]) else 0
  }

  /** Length of the digit run at the start of `s` (what a greedy `\d+` consumes). */
  function DigitsLen(s: string): (n: nat)
    ensures n <= |s|
  {
    if s != [] && IsDigit(s[0]) then 1 + DigitsLen(s[1..]) else 0
  }

  /** The white-space run is maximal. */
  lemma {:induction false} SpacesLenIsMaximal(s: string)
    ensures AllSpaces(s[..SpacesLen(s)])
    ensures SpacesLen(s) < |s| ==> !IsSpace(s[SpacesLen(s)])
  {
    if s != [] && IsSpace(s[0]) {
      SpacesLenIsMaximal(s[1..]);
      assert s[..SpacesLen(s)] == [s[0]] + s[1..][..SpacesLen(s[1..])];
    }
  }

  /** The digit run is maximal. */
  lemma {:induction false} DigitsLenIsMaximal(s: string)
    ensures forall i :: 0 <= i < DigitsLen(s) ==> IsDigit(s[i])
    ensures DigitsLen(s) < |s| ==> !IsDigit(s[DigitsLen(s)])
  {
    if s != [] && IsDigit(s[0]) {
      DigitsLenIsMaximal(s[1..]);
      forall i | 0 <= i < DigitsLen(s) ensures IsDigit(s[i]) {
        if i > 0 {
          assert s[i] == s[1..][i - 1];
        }
      }
    }
  }

  /** Scanning `w + v` for white space stops at the end of the run `w` when `v`
      does not start with white space. */
  lemma {:induction false} SpacesLenStops(w: string, v: string)
    requires AllSpaces(w)
    requires v == [] || !IsSpace(v[0])
    ensures SpacesLen(w + v) == |w|
  {
    if w == [] {
      assert w + v == v;
    } else {
      assert (w + v)[0] == w[0];
      assert (w + v)[1..] == w[1..] + v;
      SpacesLenStops(w[1..], v);
    }
  }

  /** Scanning `d + v` for digits stops at the end of the run `d` when `v` does
      not start with a digit. */
  lemma {:induction false} DigitsLenStops(d: string, v: string)
    requires forall i :: 0 <= i < |d| ==> IsDigit(d[i])
    requires v == [] || !IsDigit(v[0])
    ensures DigitsLen(d + v) == |d|
  {
    if d == [] {
      assert d + v == v;
    } else {
      assert (d + v)[0] == d[0];
      assert (d + v)[1..] == d[1..] + v;
      DigitsLenStops(d[1..], v);
    }
  }

  function DigitValue(c: char): nat {
    if IsDigit(c) then c as int - '0' as int else 0
  }

  function DigitChar(k: nat): (c: char)
    requires k < 10
    ensures IsDigit(c) && DigitValue(c) == k
  {
    ('0' as int + k) as char
  }

  /** `parseInt(d, 10)` on a run of decimal digits. */
  function ParseDecimal(d: string): nat {
    if d == [] then 0 else 10 * ParseDecimal(d[..|d| - 1]) + DigitValue(d[|d| - 1])
  }

  /** A leading zero does not change the value `parseInt` reads. */
  lemma {:induction false} LeadingZeroIgnored(d: string)
    ensures ParseDecimal("0" + d) == ParseDecimal(d)
  {
    if d != [] {
      var z := "0" + d;
      assert z[..|z| - 1] == "0" + d[..|d| - 1];
      assert z[|z| - 1] == d[|d| - 1];
      LeadingZeroIgnored(d[..|d| - 1]);
    } else {
      assert "0"[..0] == [];
    }
  }

  /** A non-negative integer in a template literal: its decimal digits, no leading zero. */
  function Decimal(n: nat): (d: string)
    ensures IsDigitRun(d)
    ensures |d| > 1 ==> d[0] != '0'
  {
    if n < 10 then [DigitChar(n)] else Decimal(n / 10) + [DigitChar(n % 10)]
  }

  lemma {:induction false} DecimalRoundTrip(n: nat)
    ensures ParseDecimal(Decimal(n)) == n
  {
    if n >= 10 {
      DecimalRoundTrip(n / 10);
      var d := Decimal(n);
      assert d[..|d| - 1] == Decimal(n / 10);
    }
  }

  /** `\s*(\d+)\s*` followed by the character `term`: the digit run's value and
      what follows `term`, or None when the text does not have that shape. */
  function Component(s: string, term: char): Option<(nat, string)> {
    var t := s[SpacesLen(s)..];
    var n := DigitsLen(t);
    if n == 0 then None
    else
      var u := t[n..];
      var v := u[SpacesLen(u)..];
      if v != [] && v[0] == term then Some((ParseDecimal(t[..n]), v[1..])) else None
  }

  /** The terminators of the four components: `,` `,` `,` `)`. */
  const Terminators: seq<char> := [',', ',', ',', ')']

  /** Components with the given terminators, one after the other: their values
      and the text after the last terminator. */
  function Fields(s: string, terms: seq<char>): (r: Option<(seq<nat>, string)>)
    ensures r.Some? ==> |r.value.0| == |terms|
  {
    if terms == [] then Some(([], s))
    else
      var c :- Component(s, terms[0]);
      var more :- Fields(c.1, terms[1..]);
      Some(([c.0] + more.0, more.1))
  }

  /** The full match of the `rgba(...)` expression, or None. */
  function Parse(s: string): (r: Option<Rgba>)
    ensures r.Some? ==> StartsWith(s, "rgba(")
  {
    if !StartsWith(s, "rgba(") then None
    else
      var f :- Fields(s[5..], Terminators);
      if f.1 == "" then Some(Rgba(f.0[0], f.0[1], f.0[2], f.0[3])) else None
  }

  /** `getRGBA(inputStr)`. `None` stands for `undefined` and `null`. */
  function GetRgba(input: Option<string>): (r: Rgba)
    ensures input.None? ==> r == DefaultRgba
    ensures r == DefaultRgba || (input.Some? && Parse(input.value) == Some(r))
  {
    match input
    case None => DefaultRgba
    case Some(s) =>
      if s == "" || !StartsWith(s, "rgba(") then DefaultRgba
      else
        match Parse(s)
        case None => DefaultRgba
        case Some(c) => c
  }

  // ---------------------------------------------------------------------------
  // The strings the regular expression describes, stated without scanning.

  /** Two white-space runs around each digit run. */
  predicate IsLayout(ws: seq<string>, ds: seq<string>) {
    && |ws| == 2 * |ds|
    && (forall i :: 0 <= i < |ws| ==> AllSpaces(ws[i]))
    && (forall k :: 0 <= k < |ds| ==> IsDigitRun(ds[k]))
  }

  /** `w1 d w2 term rest`. */
  function Piece(w1: string, d: string, w2: string, term: char, rest: string): string {
    w1 + (d + (w2 + ([term] + rest)))
  }

  /** `ws[0] ds[0] ws[1] terms[0] ws[2] ds[1] ws[3] terms[1] ... rest`. */
  function Pieces(ws: seq<string>, ds: seq<string>, terms: seq<char>, rest: string): string
    requires |ws| == 2 * |ds| && |terms| == |ds|
    decreases |ds|
  {
    if ds == [] then rest
    else Piece(ws[0], ds[0], ws[1], terms[0], Pieces(ws[2..], ds[1..], terms[1..], rest))
  }

  /** The string `rgba(` w0 d0 w1 `,` w2 d1 w3 `,` w4 d2 w5 `,` w6 d3 w7 `)`. */
  function Layout(ws: seq<string>, ds: seq<string>): string
    requires |ws| == 8 && |ds| == 4
  {
    "rgba(" + Pieces(ws, ds, Terminators, "")
  }

  function DecimalValues(ds: seq<string>): (vs: seq<nat>)
    ensures |vs| == |ds|
  {
    if ds == [] then [] else [ParseDecimal(ds[0])] + DecimalValues(ds[1..])
  }

  function Values(ds: seq<string>): Rgba
    requires |ds| == 4
  {
    Rgba(ParseDecimal(ds[0]), ParseDecimal(ds[1]), ParseDecimal(ds[2]), ParseDecimal(ds[3]))
  }

  /** One component in the layout is read back exactly. */
  lemma ComponentComplete(w1: string, d: string, w2: string, term: char, rest: string)
    requires AllSpaces(w1) && IsDigitRun(d) && AllSpaces(w2)
    requires !IsSpace(term) && !IsDigit(term)
    ensures Component(Piece(w1, d, w2, term, rest), term) == Some((ParseDecimal(d), rest))
  {
    var x3 := [term] + rest;
    var x2 := w2 + x3;
    var x1 := d + x2;
    var s := w1 + x1;
    assert x1[0] == d[0];
    SpacesLenStops(w1, x1);
    assert s[|w1|..] == x1;
    assert x2 != [] && (x2[0] == term || x2[0] == w2[0]);
    DigitsLenStops(d, x2);
    assert x1[..|d|] == d && x1[|d|..] == x2;
    assert x3[0] == term;
    SpacesLenStops(w2, x3);
    assert x2[|w2|..] == x3;
    assert x3[1..] == rest;
  }

  /** A run of components in the layout is read back exactly. */
  lemma {:induction false} FieldsComplete(ws: seq<string>, ds: seq<string>, terms: seq<char>, rest: string)
    requires IsLayout(ws, ds) && |terms| == |ds|
    requires forall j :: 0 <= j < |terms| ==> !IsSpace(terms[j]) && !IsDigit(terms[j])
    ensures Fields(Pieces(ws, ds, terms, rest), terms) == Some((DecimalValues(ds), rest))
  {
    if ds != [] {
      var tail := Pieces(ws[2..], ds[1..], terms[1..], rest);
      assert AllSpaces(ws[0]) && AllSpaces(ws[1]) && IsDigitRun(ds[0]);
      ComponentComplete(ws[0], ds[0], ws[1], terms[0], tail);
      assert IsLayout(ws[2..], ds[1..]) by {
        forall i | 0 <= i < |ws| - 2 ensures AllSpaces(ws[2..][i]) {
          assert ws[2..][i] == ws[i + 2];
        }
        forall k | 0 <= k < |ds| - 1 ensures IsDigitRun(ds[1..][k]) {
          assert ds[1..][k] == ds[k + 1];
        }
      }
      FieldsComplete(ws[2..], ds[1..], terms[1..], rest);
    }
  }

  /** `Parse` once the four components and the end of the text are known. */
  lemma ParseOfFields(s: string, vs: seq<nat>)
    requires StartsWith(s, "rgba(") && Fields(s[5..], Terminators) == Some((vs, ""))
    ensures |vs| == 4 && Parse(s) == Some(Rgba(vs[0], vs[1], vs[2], vs[3]))
  {
  }

  lemma ValuesAreDecimalValues(ds: seq<string>)
    requires |ds| == 4
    ensures Values(ds) == Rgba(DecimalValues(ds)[0], DecimalValues(ds)[1], DecimalValues(ds)[2], DecimalValues(ds)[3])
  {
    var vs := DecimalValues(ds);
    assert vs[1..] == DecimalValues(ds[1..]);
    assert vs[2..] == DecimalValues(ds[2..]);
    assert vs[3..] == DecimalValues(ds[3..]);
  }

  /** Every string of the layout is accepted, with the values of its digit runs. */
  lemma ParseComplete(ws: seq<string>, ds: seq<string>)
    requires IsLayout(ws, ds) && |ds| == 4
    ensures Parse(Layout(ws, ds)) == Some(Values(ds))
  {
    var s := Layout(ws, ds);
    var body := Pieces(ws, ds, Terminators, "");
    assert s[..5] == "rgba(" && s[5..] == body;
    FieldsComplete(ws, ds, Terminators, "");
    ParseOfFields(s, DecimalValues(ds));
    ValuesAreDecimalValues(ds);
  }

  /** A non-empty digit run at the start of `t` is a digit run. */
  lemma DigitsPrefixIsRun(t: string)
    requires DigitsLen(t) > 0
    ensures IsDigitRun(t[..DigitsLen(t)])
  {
    DigitsLenIsMaximal(t);
    var d := t[..DigitsLen(t)];
    forall i | 0 <= i < |d| ensures IsDigit(d[i]) {
      assert d[i] == t[i];
    }
  }

  /** Cutting a string at `k` and joining the halves gives it back. */
  lemma CutJoin(s: string, k: nat)
    requires k <= |s|
    ensures s == s[..k] + s[k..]
  {
  }

  /** A string cut into the parts of one component is that component's piece. */
  lemma PieceOfParts(s: string, w1: string, t: string, d: string, u: string, w2: string, v: string,
                     term: char, rest: string)
    requires s == w1 + t && t == d + u && u == w2 + v && v == [term] + rest
    ensures s == Piece(w1, d, w2, term, rest)
  {
  }

  /** What `Component` accepted has the layout of one component. */
  lemma ComponentSound(s: string, term: char, n: nat, rest: string) returns (w1: string, d: string, w2: string)
    requires Component(s, term) == Some((n, rest))
    ensures AllSpaces(w1) && IsDigitRun(d) && AllSpaces(w2)
    ensures s == Piece(w1, d, w2, term, rest) && n == ParseDecimal(d)
  {
    var lead := SpacesLen(s);
    var t := s[lead..];
    var k := DigitsLen(t);
    var u := t[k..];
    var trail := SpacesLen(u);
    var v := u[trail..];
    assert v != [] && v[0] == term && v[1..] == rest && n == ParseDecimal(t[..k]);
    w1, d, w2 := s[..lead], t[..k], u[..trail];
    SpacesLenIsMaximal(s);
    DigitsPrefixIsRun(t);
    SpacesLenIsMaximal(u);
    assert v == [term] + rest by {
      CutJoin(v, 1);
      assert v[..1] == [v[0]];
    }
    CutJoin(u, trail);
    CutJoin(t, k);
    CutJoin(s, lead);
    PieceOfParts(s, w1, t, d, u, w2, v, term, rest);
  }

  /** Prepending one component to a layout. */
  lemma LayoutCons(w1: string, d: string, w2: string, ws: seq<string>, ds: seq<string>,
                   terms: seq<char>, rest: string)
    requires AllSpaces(w1) && IsDigitRun(d) && AllSpaces(w2) && IsLayout(ws, ds)
    requires |terms| == |ds| + 1
    ensures IsLayout([w1, w2] + ws, [d] + ds)
    ensures Pieces([w1, w2] + ws, [d] + ds, terms, rest)
         == Piece(w1, d, w2, terms[0], Pieces(ws, ds, terms[1..], rest))
    ensures DecimalValues([d] + ds) == [ParseDecimal(d)] + DecimalValues(ds)
  {
    var ws', ds' := [w1, w2] + ws, [d] + ds;
    assert ws'[2..] == ws && ds'[1..] == ds;
    forall i | 0 <= i < |ws'| ensures AllSpaces(ws'[i]) {
      if i >= 2 {
        assert ws'[i] == ws[i - 2];
      }
    }
    forall k | 0 <= k < |ds'| ensures IsDigitRun(ds'[k]) {
      if k >= 1 {
        assert ds'[k] == ds[k - 1];
      }
    }
  }

  /** What `Fields` accepted has the layout of its components. */
  lemma {:induction false} FieldsSound(s: string, terms: seq<char>, vs: seq<nat>, rest: string)
    returns (ws: seq<string>, ds: seq<string>)
    requires Fields(s, terms) == Some((vs, rest))
    ensures IsLayout(ws, ds) && |ds| == |terms|
    ensures s == Pieces(ws, ds, terms, rest) && DecimalValues(ds) == vs
  {
    if terms == [] {
      ws, ds := [], [];
    } else {
      var c := Component(s, terms[0]).value;
      var more := Fields(c.1, terms[1..]).value;
      assert vs == [c.0] + more.0 && rest == more.1;
      var w1, d, w2 := ComponentSound(s, terms[0], c.0, c.1);
      var ws', ds' := FieldsSound(c.1, terms[1..], more.0, rest);
      LayoutCons(w1, d, w2, ws', ds', terms, rest);
      ws, ds := [w1, w2] + ws', [d] + ds';
    }
  }

  /** Every accepted string has the layout, and the result is the values of its digit runs. */
  lemma ParseSoundWitness(s: string, c: Rgba) returns (ws: seq<string>, ds: seq<string>)
    requires Parse(s) == Some(c)
    ensures IsLayout(ws, ds) && |ds| == 4 && s == Layout(ws, ds) && Values(ds) == c
  {
    var f := Fields(s[5..], Terminators).value;
    ws, ds := FieldsSound(s[5..], Terminators, f.0, f.1);
    assert s == s[..5] + s[5..];
    ValuesAreDecimalValues(ds);
  }

  lemma ParseSound(s: string, c: Rgba)
    requires Parse(s) == Some(c)
    ensures exists ws, ds :: IsLayout(ws, ds) && |ds| == 4 && s == Layout(ws, ds) && Values(ds) == c
  {
    var ws, ds := ParseSoundWitness(s, c);
  }

  /** `Parse` accepts exactly the strings of the layout. */
  lemma ParseIff(s: string, c: Rgba)
    ensures Parse(s) == Some(c) <==>
      exists ws, ds :: IsLayout(ws, ds) && |ds| == 4 && s == Layout(ws, ds) && Values(ds) == c
  {
    if Parse(s) == Some(c) {
      ParseSound(s, c);
    }
    if exists ws, ds :: IsLayout(ws, ds) && |ds| == 4 && s == Layout(ws, ds) && Values(ds) == c {
      var ws, ds :| IsLayout(ws, ds) && |ds| == 4 && s == Layout(ws, ds) && Values(ds) == c;
      ParseComplete(ws, ds);
    }
  }

  // ---------------------------------------------------------------------------
  // getRGBA

  /** `undefined`, `null`, "" and anything not starting with `rgba(` give the default. */
  lemma GetRgbaFallback(input: Option<string>)
    requires input.None? || input.value == "" || !StartsWith(input.value, "rgba(")
    ensures GetRgba(input) == DefaultRgba
  {
  }

  /** The first guard of `getRGBA` is subsumed by the full match: on any string
      the result is the matched colour when there is one and the default otherwise. */
  lemma GetRgbaIsParse(s: string)
    ensures GetRgba(Some(s)) == Parse(s).GetOr(DefaultRgba)
  {
  }

  /** On a full match, the four digit runs are read base 10. */
  lemma GetRgbaReadsComponents(ws: seq<string>, ds: seq<string>)
    requires IsLayout(ws, ds) && |ds| == 4
    ensures GetRgba(Some(Layout(ws, ds))) == Values(ds)
  {
    ParseComplete(ws, ds);
  }

  /** A string that is not of the layout gives the default. */
  lemma GetRgbaRejects(s: string)
    requires forall ws, ds :: IsLayout(ws, ds) && |ds| == 4 ==> s != Layout(ws, ds)
    ensures GetRgba(Some(s)) == DefaultRgba
  {
    if Parse(s).Some? {
      ParseSound(s, Parse(s).value);
    }
  }

  /** No string of the layout contains a '.'. */
  lemma {:induction false} PiecesHaveNoDot(ws: seq<string>, ds: seq<string>, terms: seq<char>, rest: string)
    requires IsLayout(ws, ds) && |terms| == |ds| && '.' !in terms && '.' !in rest
    ensures '.' !in Pieces(ws, ds, terms, rest)
  {
    if ds != [] {
      assert AllSpaces(ws[0]) && AllSpaces(ws[1]) && IsDigitRun(ds[0]);
      assert '.' !in ws[0] && '.' !in ws[1] && '.' !in ds[0];
      assert terms[0] in terms;
      var ws', ds' := ws[2..], ds[1..];
      assert IsLayout(ws', ds') by {
        forall i | 0 <= i < |ws'| ensures AllSpaces(ws'[i]) {
          assert ws'[i] == ws[i + 2];
        }
        forall k | 0 <= k < |ds'| ensures IsDigitRun(ds'[k]) {
          assert ds'[k] == ds[k + 1];
        }
      }
      assert '.' !in terms[1..] by {
        forall j | 0 <= j < |terms| - 1 ensures terms[1..][j] != '.' {
          assert terms[1..][j] == terms[j + 1];
        }
      }
      PiecesHaveNoDot(ws', ds', terms[1..], rest);
    }
  }

  /** Any string holding a '.' (a fractional component, such as the alpha the
      colour picker writes for a translucent colour) falls back to the default. */
  lemma DotFallsBack(s: string)
    requires '.' in s
    ensures GetRgba(Some(s)) == DefaultRgba
  {
    if Parse(s).Some? {
      var ws, ds := ParseSoundWitness(s, Parse(s).value);
      PiecesHaveNoDot(ws, ds, Terminators, "");
      assert false;
    }
  }

  /** The picker's string for a half-transparent default cursor colour reads back as the default grey. */
  lemma FractionalAlphaFallsBack()
    ensures GetRgba(Some("rgba(74, 144, 226, 0.5)")) == DefaultRgba
  {
    var s := "rgba(74, 144, 226, 0.5)";
    assert s[20] == '.';
    DotFallsBack(s);
  }

  // ---------------------------------------------------------------------------
  // The colour picker's string

  /** The string the colour picker writes for integer components:
      `rgba(${r}, ${g}, ${b}, ${a})`. */
  function FormatRgba(c: Rgba): (r: string)
    ensures StartsWith(r, "rgba(") && r[|r| - 1] == ')'
  {
    var body := Decimal(c.r) + ", " + Decimal(c.g) + ", " + Decimal(c.b) + ", " + Decimal(c.a) + ")";
    assert ("rgba(" + body)[..5] == "rgba(";
    "rgba(" + body
  }

  /** Formatting then reading gives the same components back. */
  lemma FormatRoundTrip(c: Rgba)
    ensures GetRgba(Some(FormatRgba(c))) == c
  {
    var ws := ["", "", " ", "", " ", "", " ", ""];
    var r, g, b, a := Decimal(c.r), Decimal(c.g), Decimal(c.b), Decimal(c.a);
    var ds := [r, g, b, a];
    assert IsLayout(ws, ds);
    var p4 := Pieces([" ", ""], [a], [')'], "");
    assert p4 == Piece(" ", a, "", ')', "") by {
      assert Pieces([" ", ""][2..], [a][1..], [')'][1..], "") == "";
    }
    var p3 := Pieces([" ", "", " ", ""], [b, a], [',', ')'], "");
    assert p3 == Piece(" ", b, "", ',', p4) by {
      assert [" ", "", " ", ""][2..] == [" ", ""] && [b, a][1..] == [a] && [',', ')'][1..] == [')'];
    }
    var p2 := Pieces([" ", "", " ", "", " ", ""], [g, b, a], [',', ',', ')'], "");
    assert p2 == Piece(" ", g, "", ',', p3) by {
      assert [" ", "", " ", "", " ", ""][2..] == [" ", "", " ", ""];
      assert [g, b, a][1..] == [b, a] && [',', ',', ')'][1..] == [',', ')'];
    }
    var p1 := Pieces(ws, ds, Terminators, "");
    assert p1 == Piece("", r, "", ',', p2) by {
      assert ws[2..] == [" ", "", " ", "", " ", ""];
      assert ds[1..] == [g, b, a] && Terminators[1..] == [',', ',', ')'];
    }
    assert FormatRgba(c) == "rgba(" + p1;
    GetRgbaReadsComponents(ws, ds);
    DecimalRoundTrip(c.r);
    DecimalRoundTrip(c.g);
    DecimalRoundTrip(c.b);
    DecimalRoundTrip(c.a);
  }

  /** The default cursor colour of the settings reads back as (74, 144, 226, 1). */
  lemma DefaultCursorColourReads()
    ensures GetRgba(Some("rgba(74, 144, 226, 1)")) == Rgba(74, 144, 226, 1)
  {
    var c := Rgba(74, 144, 226, 1);
    assert Decimal(74) == "74";
    assert Decimal(144) == "144";
    assert Decimal(226) == "226";
    assert FormatRgba(c) == "rgba(74, 144, 226, 1)";
    FormatRoundTrip(c);
  }
}
