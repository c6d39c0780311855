/**
 * src/utils/logoUtils.js: `getLogoFilename`, the chain
 * `toLowerCase().replace(/[^\w\s-]/g, "").replace(/\s+/g, ".").replace(/\.+$/g, "")`.
 */
module LogoUtils {
  import opened JsCore

  /** The characters `[\w\s-]`: the ones the first replace keeps. */
  predicate KeptChar(c: char)
  {
    IsWordChar(c) || IsSpace(c) || c == '-'
  }

  /** The characters a filename is made of. */
  predicate FilenameChar(c: char)
  {
    IsAsciiLower(c) || IsDigit(c) || c == '_' || c == '-' || c == '.'
  }

  /** `replace(/[^\w\s-]/g, "")`: every other character deleted, in order. */
  function StripSpecials(s: string): (r: string)
    ensures |r| <= |s|
    ensures forall i :: 0 <= i < |r| ==> KeptChar(r[i])
    ensures forall c :: c in r <==> c in s && KeptChar(c)
  {
    if |s| == 0 then ""
    else
      var front := StripSpecials(s[..|s| - 1]);
      var last := s[|s| - 1];
      assert s == s[..|s| - 1] + [last];
      if KeptChar(last) then front + [last] else front
  }

  /**
   * `replace(/\s+/g, ".")`: each maximal run of whitespace becomes one dot.
   * `inRun` says whether the text before `s` ended in whitespace already replaced.
   */
  function CollapseSpaces(s: string, inRun: bool): (r: string)
    requires forall i :: 0 <= i < |s| ==> s[i] != '.'
    ensures forall i :: 0 <= i < |r| ==> !IsSpace(r[i])
    ensures forall i :: 0 <= i < |r| ==> r[i] == '.' || r[i] in s
    ensures forall i :: 1 <= i < |r| ==> !(r[i - 1] == '.' && r[i] == '.')
    ensures inRun && |r| > 0 ==> r[0] != '.'
  {
    if |s| == 0 then ""
    else if IsSpace(s[0]) then
      var rest := CollapseSpaces(s[1..], true);
      assert forall i :: 1 <= i < |"." + rest| ==> ("." + rest)[i] == rest[i - 1];
      if inRun then rest else "." + rest
    else
      var rest := CollapseSpaces(s[1..], false);
      assert forall i :: 1 <= i < |[s[0]] + rest| ==> ([s[0]] + rest)[i] == rest[i - 1];
      [s[0]] + rest
  }

  /** `replace(/\.+$/g, "")`: the trailing dots removed. */
  function TrimTrailingDots(s: string): (r: string)
    ensures |r| <= |s| && r == s[..|r|]
    ensures |r| == 0 || r[|r| - 1] != '.'
    ensures forall i :: |r| <= i < |s| ==> s[i] == '.'
  {
    if |s| > 0 && s[|s| - 1] == '.' then TrimTrailingDots(s[..|s| - 1]) else s
  }

  /** After lower-casing and stripping, every character is whitespace or a filename character other than a dot. */
  lemma StrippedChars(name: string)
    ensures forall c :: c in StripSpecials(ToLower(name)) ==> c != '.' && (IsSpace(c) || FilenameChar(c))
    ensures forall i :: 0 <= i < |StripSpecials(ToLower(name))| ==> StripSpecials(ToLower(name))[i] != '.'
  {
    var lowered := ToLower(name);
    var stripped := StripSpecials(lowered);
    forall c | c in stripped
      ensures c != '.' && (IsSpace(c) || FilenameChar(c))
    {
      assert c in lowered && KeptChar(c);
      var i :| 0 <= i < |lowered| && lowered[i] == c;
      assert c == LowerChar(name[i]);
    }
    forall i | 0 <= i < |stripped|
      ensures stripped[i] != '.'
    {
      assert stripped[i] in stripped;
    }
  }

  /** `getLogoFilename(companyName)`. */
  function LogoFilename(name: string): (r: string)
    ensures forall i :: 0 <= i < |r| ==> FilenameChar(r[i]) && !IsSpace(r[i])
    ensures |r| == 0 || r[|r| - 1] != '.'
    ensures forall i :: 1 <= i < |r| ==> !(r[i - 1] == '.' && r[i] == '.')
  {
    var stripped := StripSpecials(ToLower(name));
    StrippedChars(name);
    var collapsed := CollapseSpaces(stripped, false);
    var r := TrimTrailingDots(collapsed);
    assert forall i :: 0 <= i < |r| ==> r[i] == collapsed[i];
    r
  }

  // ---------------------------------------------------------------------
  // What the filename keeps of the name

  /** The characters of `s` other than dots, in order. */
  function WithoutDots(s: string): (r: string)
    ensures forall i :: 0 <= i < |r| ==> r[i] != '.'
  {
    if |s| == 0 then ""
    else
      var front := WithoutDots(s[..|s| - 1]);
      if s[|s| - 1] == '.' then front else front + [s[|s| - 1]]
  }

  /** The letters, digits, `_` and `-` of `s`, in order. */
  function NameCore(s: string): (r: string)
  {
    if |s| == 0 then ""
    else
      var front := NameCore(s[..|s| - 1]);
      var c := s[|s| - 1];
      if IsWordChar(c) || c == '-' then front + [c] else front
  }

  lemma {:induction false} WithoutDotsAppend(a: string, b: string)
    ensures WithoutDots(a + b) == WithoutDots(a) + WithoutDots(b)
    decreases |b|
  {
    if |b| == 0 {
      assert a + b == a;
    } else {
      assert (a + b)[..|a + b| - 1] == a + b[..|b| - 1];
      WithoutDotsAppend(a, b[..|b| - 1]);
    }
  }

  /** The characters of `s` other than whitespace, in order. */
  function WithoutSpaces(s: string): string
  {
    if |s| == 0 then ""
    else
      var front := WithoutSpaces(s[..|s| - 1]);
      if IsSpace(s[|s| - 1]) then front else front + [s[|s| - 1]]
  }

  lemma {:induction false} WithoutSpacesCons(c: char, s: string)
    ensures WithoutSpaces([c] + s) == (if IsSpace(c) then "" else [c]) + WithoutSpaces(s)
    decreases |s|
  {
    if |s| == 0 {
      assert ([c] + s)[..0] == "";
    } else {
      assert ([c] + s)[..|[c] + s| - 1] == [c] + s[..|s| - 1];
      WithoutSpacesCons(c, s[..|s| - 1]);
    }
  }

  /** Collapsing whitespace into dots keeps every other character, in order. */
  lemma {:induction false} CollapseKeepsText(s: string, inRun: bool)
    requires forall i :: 0 <= i < |s| ==> s[i] != '.'
    ensures WithoutDots(CollapseSpaces(s, inRun)) == WithoutSpaces(s)
    decreases |s|
  {
    if |s| > 0 {
      var tail := s[1..];
      assert s == [s[0]] + tail;
      WithoutSpacesCons(s[0], tail);
      var rest := CollapseSpaces(tail, IsSpace(s[0]));
      CollapseKeepsText(tail, IsSpace(s[0]));
      if IsSpace(s[0]) {
        if !inRun {
          WithoutDotsAppend(".", rest);
          assert WithoutDots(".") == "" by {
            assert "."[..0] == "";
          }
        }
      } else {
        WithoutDotsAppend([s[0]], rest);
        assert WithoutDots([s[0]]) == [s[0]] by {
          assert [s[0]][..0] == "";
        }
      }
    }
  }

  /** Trailing dots carry nothing but dots. */
  lemma {:induction false} TrimKeepsText(s: string)
    ensures WithoutDots(TrimTrailingDots(s)) == WithoutDots(s)
    decreases |s|
  {
    if |s| > 0 && s[|s| - 1] == '.' {
      TrimKeepsText(s[..|s| - 1]);
    }
  }

  /** Stripping and then dropping the whitespace leaves the core characters. */
  lemma {:induction false} StripKeepsCore(s: string)
    ensures WithoutSpaces(StripSpecials(s)) == NameCore(s)
    decreases |s|
  {
    if |s| > 0 {
      var front, c := s[..|s| - 1], s[|s| - 1];
      StripKeepsCore(front);
      var sf := StripSpecials(front);
      if KeptChar(c) {
        assert (sf + [c])[..|sf + [c]| - 1] == sf;
      }
    }
  }

  /**
   * The dots of the filename are the only characters it adds: without them
   * it is exactly the name's lower-cased letters, digits, `_` and `-`, in
   * order (a dot in the name is deleted, not kept).
   */
  lemma FilenameKeepsNameCore(name: string)
    ensures WithoutDots(LogoFilename(name)) == NameCore(ToLower(name))
  {
    var stripped := StripSpecials(ToLower(name));
    var collapsed := CollapseSpaces(stripped, false);
    assert LogoFilename(name) == TrimTrailingDots(collapsed);
    TrimKeepsText(collapsed);
    CollapseKeepsText(stripped, false);
    StripKeepsCore(ToLower(name));
  }

  lemma {:induction false} StripSpecialsCons(c: char, s: string)
    ensures StripSpecials([c] + s) == (if KeptChar(c) then [c] else "") + StripSpecials(s)
    decreases |s|
  {
    if |s| == 0 {
      assert ([c] + s)[..0] == "";
    } else {
      assert ([c] + s)[..|[c] + s| - 1] == [c] + s[..|s| - 1];
      StripSpecialsCons(c, s[..|s| - 1]);
    }
  }

  /**
   * Leading whitespace is not trimmed: a name that starts with whitespace
   * and has something to keep gets a filename starting with a dot.
   */
  lemma LeadingSpaceGivesDot(name: string)
    requires |name| > 0 && IsSpace(name[0]) && NameCore(ToLower(name)) != ""
    ensures |LogoFilename(name)| > 0 && LogoFilename(name)[0] == '.'
  {
    var lowered := ToLower(name);
    assert lowered == [lowered[0]] + lowered[1..];
    StripSpecialsCons(lowered[0], lowered[1..]);
    var stripped := StripSpecials(lowered);
    var collapsed := CollapseSpaces(stripped, false);
    assert stripped[0] == lowered[0];
    FilenameKeepsNameCore(name);
    assert LogoFilename(name) == TrimTrailingDots(collapsed);
  }
}
