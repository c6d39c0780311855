/**
 * src/utils/generateCompanyLogos.js: `generateLogoURL`, a placeholder logo
 * drawn from the company name: a colour hashed from its characters and up
 * to two initials, as an SVG data URL.
 */
module CompanyLogos {
  import opened JsCore

  // ---------------------------------------------------------------------
  // The name hash

  /**
   * `char.charCodeAt(0)` for an element of `Array.from(name)`, which is a
   * whole code point: the code point itself below U+10000, its high
   * surrogate above.
   */
  function CharCode(c: char): (r: nat)
    ensures r < 0x10000
    ensures (c as int) < 0x10000 ==> r == c as int
  {
    if (c as int) < 0x10000 then c as int else 0xD800 + ((c as int) - 0x10000) / 0x400
  }

  /** Multiples of 2^32 stay multiples under the combination the shift needs. */
  lemma WrapMultiples(a: int, b: int)
    requires a % TwoTo32 == 0 && b % TwoTo32 == 0
    ensures (-(a + 32 * b)) % TwoTo32 == 0
  {
    var qa, qb := a / TwoTo32, b / TwoTo32;
    assert -(a + 32 * b) == TwoTo32 * (-(qa + 32 * qb));
  }

  /** `acc << 5`: acc truncated to a signed 32-bit integer, shifted, truncated again. */
  function ShiftLeft5(acc: int): (r: int)
    ensures -TwoTo31 <= r < TwoTo31
    ensures (r - 32 * acc) % TwoTo32 == 0
  {
    var lhs := ToInt32(acc);
    var r := ToInt32(lhs * 32);
    WrapMultiples(lhs * 32 - r, acc - lhs);
    assert r - 32 * acc == -((lhs * 32 - r) + 32 * (acc - lhs));
    r
  }

  /** One step of the reduce: `char.charCodeAt(0) + ((acc << 5) - acc)`. */
  function HashStep(acc: int, c: char): int
  {
    CharCode(c) + (ShiftLeft5(acc) - acc)
  }

  /** The reduce from 0 over the name's code points, left to right. */
  function Hash(name: string): int
  {
    if |name| == 0 then 0 else HashStep(Hash(name[..|name| - 1]), name[|name| - 1])
  }

  /** Each character moves the hash by less than 2^31 + 2^16. */
  lemma {:induction false} HashBound(name: string)
    ensures -|name| * (TwoTo31 + 0x10000) <= Hash(name) <= |name| * (TwoTo31 + 0x10000)
  {
    if |name| > 0 {
      HashBound(name[..|name| - 1]);
    }
  }

  /**
   * The hash is an integer the JavaScript number holds exactly (below 2^53
   * in magnitude) for every name of up to 2^21 characters, so the integer
   * model loses nothing there.
   */
  lemma HashExact(name: string)
    requires |name| <= 0x20_0000
    ensures -0x20_0000_0000_0000 < Hash(name) < 0x20_0000_0000_0000
  {
    HashBound(name);
    var n := |name|;
    assert n * (TwoTo31 + 0x10000) <= 0x20_0000 * (TwoTo31 + 0x10000);
  }

  // ---------------------------------------------------------------------
  // The colour

  datatype Hsl = Hsl(hue: int, saturation: int, lightness: int)

  /**
   * `hue = hash % 360`, `saturation = 60 + hash % 20`, `lightness = 45 +
   * hash % 10`, with JavaScript's `%`: each remainder takes the sign of the
   * hash, so a negative hash gives a negative hue and falls below the
   * 60-80% and 45-55% ranges the comments announce.
   */
  function Colour(hash: int): (c: Hsl)
    ensures -360 < c.hue < 360
    ensures exists q :: hash == q * 360 + c.hue
    ensures hash >= 0 ==> 0 <= c.hue && 60 <= c.saturation <= 79 && 45 <= c.lightness <= 54
    ensures hash < 0 ==> c.hue <= 0 && 41 <= c.saturation <= 60 && 36 <= c.lightness <= 45
  {
    Hsl(JsRem(hash, 360), 60 + JsRem(hash, 20), 45 + JsRem(hash, 10))
  }

  /** A name's colour: the colour of its hash. */
  function NameColour(name: string): Hsl
  {
    Colour(Hash(name))
  }

  /** Names made of one character below U+0800 hash to their code, so their colours are in range. */
  lemma SingleCharacterColour(c: char)
    requires (c as int) < 0x800
    ensures Hash([c]) == c as int
    ensures 0 <= NameColour([c]).hue && 60 <= NameColour([c]).saturation <= 79
  {
    assert [c][..0] == "";
  }

  // ---------------------------------------------------------------------
  // The initials

  /**
   * `name.split(/\s+/)`: the pieces between maximal runs of whitespace. A
   * run at the start or the end leaves an empty piece there, and the empty
   * name gives one empty piece.
   */
  function SplitWords(s: string): (r: seq<string>)
    ensures |r| >= 1
    ensures |r[|r| - 1]| == 0 <==> |s| == 0 || IsSpace(s[|s| - 1])
  {
    if |s| == 0 then [""]
    else
      var front := SplitWords(s[..|s| - 1]);
      var c := s[|s| - 1];
      if !IsSpace(c) then
        front[..|front| - 1] + [front[|front| - 1] + [c]]
      else if |s| > 1 && IsSpace(s[|s| - 2]) then front
      else front + [""]
  }

  /** No word holds whitespace: each maximal run is a separator. */
  lemma {:induction false} WordsHaveNoSpace(s: string)
    ensures forall i, j :: 0 <= i < |SplitWords(s)| && 0 <= j < |SplitWords(s)[i]| ==> !IsSpace(SplitWords(s)[i][j])
    decreases |s|
  {
    if |s| > 0 {
      var front := SplitWords(s[..|s| - 1]);
      WordsHaveNoSpace(s[..|s| - 1]);
      var c := s[|s| - 1];
      if !IsSpace(c) {
        var k := |front| - 1;
        var w := front[k] + [c];
        var r := front[..k] + [w];
        forall i, j | 0 <= i < |r| && 0 <= j < |r[i]|
          ensures !IsSpace(r[i][j])
        {
          if i < k {
            assert r[i] == front[i];
          } else if j < |front[k]| {
            assert r[i][j] == front[k][j];
          }
        }
      }
    }
  }

  /** `word[0]` joined by `join("")`: the first character, or nothing for an empty word. */
  function Initial(w: string): string
  {
    if |w| == 0 then "" else [w[0]]
  }

  /** `.map(word => word[0]).join("")`. */
  function FirstLetters(words: seq<string>): string
  {
    if |words| == 0 then "" else FirstLetters(words[..|words| - 1]) + Initial(words[|words| - 1])
  }

  /** The characters that start a word: not whitespace, and first or after whitespace. */
  function WordStarts(s: string): string
  {
    if |s| == 0 then ""
    else
      var front := s[..|s| - 1];
      var c := s[|s| - 1];
      WordStarts(front) + (if !IsSpace(c) && (|front| == 0 || IsSpace(front[|front| - 1])) then [c] else "")
  }

  /** A character added to the last word adds a first letter only when that word was empty. */
  lemma FirstLettersExtendLast(ws: seq<string>, c: char)
    requires |ws| >= 1
    ensures var k := |ws| - 1;
            FirstLetters(ws[..k] + [ws[k] + [c]]) == FirstLetters(ws) + if |ws[k]| == 0 then [c] else ""
  {
    var k := |ws| - 1;
    var r := ws[..k] + [ws[k] + [c]];
    assert r[..|r| - 1] == ws[..k];
    if |ws[k]| == 0 {
      assert Initial(ws[k] + [c]) == [c];
    } else {
      assert Initial(ws[k] + [c]) == Initial(ws[k]);
    }
  }

  /** An empty word adds no first letter. */
  lemma FirstLettersEmptyWord(ws: seq<string>)
    ensures FirstLetters(ws + [""]) == FirstLetters(ws)
  {
    assert (ws + [""])[..|ws|] == ws;
  }

  /** Splitting and taking each word's first character picks exactly the word starts. */
  lemma {:induction false} FirstLettersAreWordStarts(s: string)
    ensures FirstLetters(SplitWords(s)) == WordStarts(s)
    decreases |s|
  {
    if |s| > 0 {
      var front := s[..|s| - 1];
      var c := s[|s| - 1];
      FirstLettersAreWordStarts(front);
      var ws := SplitWords(front);
      var k := |ws| - 1;
      assert |ws[k]| == 0 <==> |front| == 0 || IsSpace(front[|front| - 1]);
      if !IsSpace(c) {
        assert WordStarts(s) == WordStarts(front) + if |ws[k]| == 0 then [c] else "";
        assert SplitWords(s) == ws[..k] + [ws[k] + [c]];
        FirstLettersExtendLast(ws, c);
      } else if |s| > 1 && IsSpace(s[|s| - 2]) {
        assert SplitWords(s) == ws;
        assert WordStarts(s) == WordStarts(front);
      } else {
        assert SplitWords(s) == ws + [""];
        assert WordStarts(s) == WordStarts(front);
        FirstLettersEmptyWord(ws);
      }
    }
  }

  /** `.slice(0, 2).toUpperCase()` of the first letters. */
  function Initials(name: string): (r: string)
    ensures |r| <= 2
  {
    var letters := FirstLetters(SplitWords(name));
    ToUpper(letters[..if |letters| < 2 then |letters| else 2])
  }

  /** The initials are the first two word starts, upper-cased; empty words contribute nothing. */
  lemma InitialsAreWordStarts(name: string)
    ensures var starts := WordStarts(name);
            Initials(name) == ToUpper(starts[..if |starts| < 2 then |starts| else 2])
  {
    FirstLettersAreWordStarts(name);
  }

  // ---------------------------------------------------------------------
  // The data URL

  const DataUrlPrefix: string := "data:image/svg+xml;base64,"

  /** The SVG text of the template, with the colour and the initials filled in. */
  function LogoSvg(c: Hsl, initials: string): string
  {
    SvgOpen + IntToString(c.hue) + ", " + IntToString(c.saturation) + "%, " + IntToString(c.lightness) + SvgMiddle + initials + SvgClose
  }

  const SvgOpen: string := "\n      <svg xmlns=\"http://www.w3.org/2000/svg\" viewBox=\"0 0 100 100\">\n        <rect width=\"100\" height=\"100\" fill=\"hsl("
  const SvgMiddle: string := "%)\" />\n        <text\n          x=\"50\"\n          y=\"50\"\n          dy=\"0.35em\"\n          fill=\"white\"\n          font-family=\"Arial, sans-serif\"\n          font-size=\"40\"\n          text-anchor=\"middle\"\n          font-weight=\"bold\"\n        >\n          "
  const SvgClose: string := "\n        </text>\n      </svg>\n    "

  /**
   * `generateLogoURL(companyName)`. `btoa` is given as a parameter; it
   * throws (here: None) on a character above U+00FF, and then so does the
   * whole call. Otherwise the result is the data-URL prefix followed by the
   * encoded SVG of the name's colour and initials.
   */
  function GenerateLogoUrl(name: string, btoa: string -> Option<string>): (r: Option<string>)
    ensures r.None? <==> btoa(LogoSvg(NameColour(name), Initials(name))).None?
    ensures r.Some? ==> StartsWith(r.value, DataUrlPrefix)
    ensures r.Some? ==> r.value[|DataUrlPrefix|..] == btoa(LogoSvg(NameColour(name), Initials(name))).value
  {
    match btoa(LogoSvg(NameColour(name), Initials(name)))
    case None => None
    case Some(encoded) =>
      AppendParts(DataUrlPrefix, encoded);
      Some(DataUrlPrefix + encoded)
  }

  lemma AppendParts(a: string, b: string)
    ensures StartsWith(a + b, a) && (a + b)[|a|..] == b
  {
  }
}
