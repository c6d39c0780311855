/**
 * src/domains/invoice/utils/fetchCompanyLogos.js: the pure parts of the
 * logo-fetching script: the domain guessed from a company name, the choice
 * of the PNG logo in a Brandfetch reply, and the company-to-file mapping
 * written at the end.
 */
module FetchCompanyLogos {
  import opened JsCore
  import opened LogoUtils

  // ---------------------------------------------------------------------
  // getDomainFromName

  /** The suffixes removed, in the order they are tried. */
  const Suffixes: seq<string> := ["Corporation", "Corp", "Inc", "LLC", "Ltd", "Group"]

  /** The characters the part before ".com" is made of. */
  predicate DomainChar(c: char)
  {
    IsAsciiLower(c) || IsDigit(c) || c == '_' || c == '-'
  }

  /**
   * `domain.replace(new RegExp(suffix + "$"), "")`: the suffix is removed
   * when it ends the text, matched case-sensitively and with no word boundary.
   */
  function StripSuffix(s: string, suffix: string): (r: string)
    ensures EndsWith(s, suffix) ==> r + suffix == s
    ensures !EndsWith(s, suffix) ==> r == s
  {
    if EndsWith(s, suffix) then s[..|s| - |suffix|] else s
  }

  /** The suffixes tried one after the other, each on what the ones before left. */
  function StripSuffixes(s: string, suffixes: seq<string>): string
  {
    if |suffixes| == 0 then s
    else StripSuffix(StripSuffixes(s, suffixes[..|suffixes| - 1]), suffixes[|suffixes| - 1])
  }

  /** `String.prototype.trim`: leading and trailing whitespace removed. */
  function TrimStart(s: string): (r: string)
    ensures |r| == 0 || !IsSpace(r[0])
  {
    if |s| > 0 && IsSpace(s[0]) then TrimStart(s[1..]) else s
  }

  function TrimEnd(s: string): (r: string)
    ensures |r| == 0 || !IsSpace(r[|r| - 1])
  {
    if |s| > 0 && IsSpace(s[|s| - 1]) then TrimEnd(s[..|s| - 1]) else s
  }

  function Trim(s: string): string
  {
    TrimEnd(TrimStart(s))
  }

  /**
   * `getDomainFromName(name)`, the domain the script asks Brandfetch about:
   * after the suffixes, the lower-cased name without its special characters
   * and whitespace, then ".com".
   */
  function DomainFromName(name: string): (r: string)
    ensures EndsWith(r, ".com")
    ensures forall i :: 0 <= i < |r| - 4 ==> DomainChar(r[i])
  {
    var lowered := ToLower(StripSuffixes(name, Suffixes));
    var stem := WithoutSpaces(StripSpecials(Trim(lowered)));
    StripKeepsCore(Trim(lowered));
    TrimEndKeepsCore(TrimStart(lowered));
    TrimStartKeepsCore(lowered);
    CoreChars(lowered);
    stem + ".com"
  }

  lemma {:induction false} CoreChars(s: string)
    requires forall i :: 0 <= i < |s| ==> !IsAsciiUpper(s[i])
    ensures forall i :: 0 <= i < |NameCore(s)| ==> DomainChar(NameCore(s)[i])
    decreases |s|
  {
    if |s| > 0 {
      CoreChars(s[..|s| - 1]);
    }
  }

  /**
   * `getDomainFromName`, as the script runs it: the suffix list walked with
   * `forEach`, each step reassigning `domain`.
   */
  method GetDomainFromName(name: string) returns (domain: string)
    ensures domain == DomainFromName(name)
    ensures EndsWith(domain, ".com")
    ensures forall i :: 0 <= i < |domain| - 4 ==> DomainChar(domain[i])
  {
    domain := name;
    for i := 0 to |Suffixes|
      invariant domain == StripSuffixes(name, Suffixes[..i])
    {
      assert Suffixes[..i + 1][..i] == Suffixes[..i];
      domain := StripSuffix(domain, Suffixes[i]);
    }
    assert Suffixes[..|Suffixes|] == Suffixes;
    domain := WithoutSpaces(StripSpecials(Trim(ToLower(domain)))) + ".com";
  }

  // Trimming does not change what is kept.

  lemma {:induction false} NameCoreCons(c: char, s: string)
    ensures NameCore([c] + s) == (if IsWordChar(c) || c == '-' then [c] else "") + NameCore(s)
    decreases |s|
  {
    if |s| == 0 {
      assert ([c] + s)[..0] == "";
    } else {
      assert ([c] + s)[..|[c] + s| - 1] == [c] + s[..|s| - 1];
      NameCoreCons(c, s[..|s| - 1]);
    }
  }

  lemma {:induction false} TrimStartKeepsCore(s: string)
    ensures NameCore(TrimStart(s)) == NameCore(s)
    decreases |s|
  {
    if |s| > 0 && IsSpace(s[0]) {
      TrimStartKeepsCore(s[1..]);
      assert s == [s[0]] + s[1..];
      NameCoreCons(s[0], s[1..]);
    }
  }

  lemma {:induction false} TrimEndKeepsCore(s: string)
    ensures NameCore(TrimEnd(s)) == NameCore(s)
    decreases |s|
  {
    if |s| > 0 && IsSpace(s[|s| - 1]) {
      TrimEndKeepsCore(s[..|s| - 1]);
    }
  }

  /**
   * The part before ".com" is exactly the letters, digits, `_` and `-` of
   * the lower-cased name once the suffixes are gone: trimming changes nothing.
   */
  lemma DomainStem(name: string)
    ensures DomainFromName(name) == NameCore(ToLower(StripSuffixes(name, Suffixes))) + ".com"
  {
    var lowered := ToLower(StripSuffixes(name, Suffixes));
    StripKeepsCore(Trim(lowered));
    TrimEndKeepsCore(TrimStart(lowered));
    TrimStartKeepsCore(lowered);
  }

  /**
   * The domain and the logo filename of the same suffix-free name agree
   * once the filename's dots are dropped.
   */
  lemma DomainMatchesLogoFilename(name: string)
    ensures DomainFromName(name) == WithoutDots(LogoFilename(StripSuffixes(name, Suffixes))) + ".com"
  {
    DomainStem(name);
    FilenameKeepsNameCore(StripSuffixes(name, Suffixes));
  }

  /** Trying one more suffix strips it from what the suffixes before it left. */
  lemma StripSuffixesStep(s: string, k: nat)
    requires 0 < k <= |Suffixes|
    ensures StripSuffixes(s, Suffixes[..k]) == StripSuffix(StripSuffixes(s, Suffixes[..k - 1]), Suffixes[k - 1])
  {
    assert Suffixes[..k][..k - 1] == Suffixes[..k - 1];
  }

  /** A suffix whose first character differs from the text's at its place does not match and strips nothing. */
  lemma SuffixMisses(s: string, k: nat, t: string)
    requires 0 < k <= |Suffixes|
    requires StripSuffixes(s, Suffixes[..k - 1]) == t
    requires |Suffixes[k - 1]| > |t| || t[|t| - |Suffixes[k - 1]|] != Suffixes[k - 1][0]
    ensures StripSuffixes(s, Suffixes[..k]) == t
  {
    StripSuffixesStep(s, k);
    var suffix := Suffixes[k - 1];
    assert |suffix| > |t| || t[|t| - |suffix|..][0] != suffix[0];
  }

  /** The first three suffixes on "Acme CorpInc": only "Inc" matches. */
  lemma FirstThreeSuffixes()
    ensures StripSuffixes("Acme CorpInc", Suffixes[..3]) == "Acme Corp"
  {
    var s := "Acme CorpInc";
    assert Suffixes[..0] == [];
    SuffixMisses(s, 1, s);
    SuffixMisses(s, 2, s);
    StripSuffixesStep(s, 3);
    assert s[9..] == "Inc" && s[..9] == "Acme Corp";
  }

  /** After "Inc" is stripped, none of the later suffixes matches "Acme Corp". */
  lemma {:induction false} LaterSuffixesMiss(k: nat)
    requires 3 <= k <= |Suffixes|
    ensures StripSuffixes("Acme CorpInc", Suffixes[..k]) == "Acme Corp"
    decreases k
  {
    if k == 3 {
      FirstThreeSuffixes();
    } else {
      LaterSuffixesMiss(k - 1);
      SuffixMisses("Acme CorpInc", k, "Acme Corp");
    }
  }

  /** The suffixes are tried in list order: "Corp" is tried before "Inc" uncovers it. */
  lemma SuffixOrder()
    ensures StripSuffixes("Acme CorpInc", Suffixes) == "Acme Corp"
  {
    LaterSuffixesMiss(|Suffixes|);
    assert Suffixes[..|Suffixes|] == Suffixes;
  }

  /** Matching is case-sensitive and needs no word boundary. */
  lemma SuffixMatching()
    ensures StripSuffix("Acme inc", "Inc") == "Acme inc"
    ensures StripSuffix("AcmeInc", "Inc") == "Acme"
  {
    assert "Acme inc"[5..] == "inc";
    assert "AcmeInc"[4..] == "Inc";
  }

  // ---------------------------------------------------------------------
  // extractLogoUrl

  /** One file of a logo: its format, its address and its width, if any. */
  datatype LogoFormat = LogoFormat(format: string, src: string, width: Option<real>)

  /** One logo of the brand: its type ("logo", "icon", ...), its theme and its files. */
  datatype LogoEntry = LogoEntry(kind: string, theme: string, formats: Option<seq<LogoFormat>>)

  /** The parts of a Brandfetch reply the script reads. */
  datatype BrandData = BrandData(logos: Option<seq<LogoEntry>>)

  /** What `extractLogoUrl` returns when it finds a file. */
  datatype LogoLink = LogoLink(url: string, format: string)

  /** `width || 0`: a missing width counts as 0. */
  function Width(f: LogoFormat): real
  {
    if f.width.Some? then f.width.value else 0.0
  }

  predicate IsLogo(e: LogoEntry)
  {
    e.kind == "logo"
  }

  predicate IsLightLogo(e: LogoEntry)
  {
    e.kind == "logo" && e.theme == "light"
  }

  /** `logos.find(...)` from position `from`: the first light-theme logo, or the first logo of any theme. */
  function FindLogo(logos: seq<LogoEntry>, lightOnly: bool, from: nat): (r: Option<nat>)
    decreases |logos| - from
    ensures r.Some? ==> from <= r.value < |logos| && IsLogo(logos[r.value])
    ensures r.Some? && lightOnly ==> IsLightLogo(logos[r.value])
    ensures r.Some? ==> forall j :: from <= j < r.value ==> !(if lightOnly then IsLightLogo(logos[j]) else IsLogo(logos[j]))
    ensures r.None? ==> forall j :: from <= j < |logos| ==> !(if lightOnly then IsLightLogo(logos[j]) else IsLogo(logos[j]))
  {
    if from >= |logos| then None
    else if (if lightOnly then IsLightLogo(logos[from]) else IsLogo(logos[from])) then Some(from)
    else FindLogo(logos, lightOnly, from + 1)
  }

  /**
   * The entry `extractLogoUrl` takes: the first light-theme logo when there
   * is one, otherwise the first logo of any theme; none without a logo.
   */
  function ChosenEntry(logos: seq<LogoEntry>): (r: Option<nat>)
    ensures r.None? <==> forall j :: 0 <= j < |logos| ==> !IsLogo(logos[j])
    ensures r.Some? ==> r.value < |logos| && IsLogo(logos[r.value])
    ensures r.Some? && IsLightLogo(logos[r.value]) ==> forall j :: 0 <= j < r.value ==> !IsLightLogo(logos[j])
    ensures r.Some? && !IsLightLogo(logos[r.value]) ==>
              (forall j :: 0 <= j < |logos| ==> !IsLightLogo(logos[j])) && forall j :: 0 <= j < r.value ==> !IsLogo(logos[j])
  {
    var light := FindLogo(logos, true, 0);
    if light.Some? then light else FindLogo(logos, false, 0)
  }

  /** `formats.filter(f => f.format === "png")`. */
  function PngFormats(formats: seq<LogoFormat>): (r: seq<LogoFormat>)
    ensures |r| <= |formats|
    ensures forall i :: 0 <= i < |r| ==> r[i].format == "png"
    ensures forall x :: x in r <==> x in formats && x.format == "png"
  {
    if |formats| == 0 then []
    else
      var front := PngFormats(formats[..|formats| - 1]);
      var last := formats[|formats| - 1];
      assert formats == formats[..|formats| - 1] + [last];
      if last.format == "png" then front + [last] else front
  }

  /** The comparator `(a, b) => (b.width || 0) - (a.width || 0)`: wider first. */
  function InsertByWidth(x: LogoFormat, sorted: seq<LogoFormat>): (r: seq<LogoFormat>)
    ensures |r| == |sorted| + 1
    ensures multiset(r) == multiset(sorted) + multiset{x}
    ensures r[0] == if |sorted| == 0 || Width(sorted[0]) <= Width(x) then x else sorted[0]
  {
    if |sorted| == 0 || Width(sorted[0]) <= Width(x) then [x] + sorted
    else
      assert sorted == [sorted[0]] + sorted[1..];
      [sorted[0]] + InsertByWidth(x, sorted[1..])
  }

  /**
   * The stable sort `pngFormats.sort(...)` performs: an element goes before
   * the later ones of the same width, after the strictly wider ones.
   */
  function SortByWidth(s: seq<LogoFormat>): (r: seq<LogoFormat>)
    ensures |r| == |s|
    ensures multiset(r) == multiset(s)
  {
    if |s| == 0 then []
    else
      assert s == [s[0]] + s[1..];
      InsertByWidth(s[0], SortByWidth(s[1..]))
  }

  /** `s[i]` is the widest element, and every element before it is strictly narrower. */
  predicate FirstWidest(s: seq<LogoFormat>, i: nat)
  {
    && i < |s|
    && (forall j :: 0 <= j < |s| ==> Width(s[j]) <= Width(s[i]))
    && (forall j :: 0 <= j < i ==> Width(s[j]) < Width(s[i]))
  }

  /** What `[0]` reads after the sort: the widest file, the earliest of equally wide ones. */
  lemma {:induction false} SortedHeadIsFirstWidest(s: seq<LogoFormat>)
    requires |s| > 0
    ensures exists i: nat :: FirstWidest(s, i) && SortByWidth(s)[0] == s[i]
  {
    var rest := s[1..];
    if |rest| == 0 {
      assert FirstWidest(s, 0);
    } else {
      SortedHeadIsFirstWidest(rest);
      var k: nat :| FirstWidest(rest, k) && SortByWidth(rest)[0] == rest[k];
      var sortedRest := SortByWidth(rest);
      var head := sortedRest[0];
      assert SortByWidth(s) == InsertByWidth(s[0], sortedRest);
      if Width(head) <= Width(s[0]) {
        assert SortByWidth(s)[0] == s[0];
        assert FirstWidest(s, 0) by {
          forall j | 1 <= j < |s|
            ensures Width(s[j]) <= Width(s[0])
          {
            assert s[j] == rest[j - 1];
          }
        }
      } else {
        assert s[k + 1] == rest[k] == head;
        assert SortByWidth(s)[0] == s[k + 1];
        assert FirstWidest(s, k + 1) by {
          forall j | 0 <= j < |s|
            ensures Width(s[j]) <= Width(s[k + 1]) && (j < k + 1 ==> Width(s[j]) < Width(s[k + 1]))
          {
            if j > 0 {
              assert s[j] == rest[j - 1];
            }
          }
        }
      }
    }
  }

  /** The chosen entry's files, when it has any (`logoEntry?.formats`). */
  function ChosenFormats(logos: seq<LogoEntry>): Option<seq<LogoFormat>>
  {
    match ChosenEntry(logos)
    case None => None
    case Some(k) => logos[k].formats
  }

  /**
   * `extractLogoUrl(data)`: null without logos, without a "logo" entry,
   * when the chosen entry has no formats and when it has no PNG file;
   * otherwise the address of the first widest PNG file of the chosen entry,
   * labelled "png".
   */
  function ExtractLogoUrl(data: BrandData): (r: Option<LogoLink>)
    ensures data.logos.None? || |data.logos.value| == 0 ==> r.None?
    ensures data.logos.Some? ==>
              (r.None? <==> ChosenFormats(data.logos.value).None? || |PngFormats(ChosenFormats(data.logos.value).value)| == 0)
    ensures r.Some? ==> r.value.format == "png"
    ensures r.Some? ==> var pngs := PngFormats(ChosenFormats(data.logos.value).value);
                        exists i: nat :: FirstWidest(pngs, i) && r.value.url == pngs[i].src
  {
    if data.logos.None? || |data.logos.value| == 0 then None
    else
      var formats := ChosenFormats(data.logos.value);
      if formats.None? then None
      else
        var pngs := PngFormats(formats.value);
        if |pngs| == 0 then None
        else
          SortedHeadIsFirstWidest(pngs);
          Some(LogoLink(SortByWidth(pngs)[0].src, "png"))
  }

  /** Without an entry of type "logo" there is nothing to take. */
  lemma NoLogoEntry(data: BrandData)
    requires data.logos.Some? && forall j :: 0 <= j < |data.logos.value| ==> !IsLogo(data.logos.value[j])
    ensures ExtractLogoUrl(data).None?
  {
  }

  // ---------------------------------------------------------------------
  // The logo mapping

  /** A successful download: the company and the file its logo was saved to. */
  datatype Fetched = Fetched(company: string, fileName: string)

  lemma EndsWithExtended(s: string, suffix: string, more: string)
    requires EndsWith(s, suffix)
    ensures EndsWith(s + more, suffix + more)
  {
    assert (s + more)[|s + more| - |suffix + more|..] == s[|s| - |suffix|..] + more;
  }

  /** The record `fetchLogo` returns for a company whose logo was saved: the domain plus ".png". */
  function FetchedRecord(company: string): (r: Fetched)
    ensures r.company == company && EndsWith(r.fileName, ".com.png")
  {
    var domain := DomainFromName(company);
    EndsWithExtended(domain, ".com", ".png");
    assert ".com" + ".png" == ".com.png";
    Fetched(company, domain + ".png")
  }

  /** The object the `reduce` builds: one assignment per successful download, in order. */
  function Mapping(successful: seq<Fetched>): map<string, string>
  {
    if |successful| == 0 then map[]
    else
      var last := successful[|successful| - 1];
      Mapping(successful[..|successful| - 1])[last.company := last.fileName]
  }

  /** Each successful company is mapped and nothing else is. */
  lemma {:induction false} MappingKeys(successful: seq<Fetched>)
    ensures forall c :: c in Mapping(successful) <==> exists i :: 0 <= i < |successful| && successful[i].company == c
  {
    if |successful| > 0 {
      var n := |successful| - 1;
      var front, last := successful[..n], successful[n];
      MappingKeys(front);
      assert Mapping(successful) == Mapping(front)[last.company := last.fileName];
      forall c
        ensures c in Mapping(successful) <==> exists i :: 0 <= i < |successful| && successful[i].company == c
      {
        if c in Mapping(front) {
          var i :| 0 <= i < |front| && front[i].company == c;
          assert successful[i].company == c;
        }
        if exists i :: 0 <= i < |successful| && successful[i].company == c {
          var i :| 0 <= i < |successful| && successful[i].company == c;
          if i < n {
            assert front[i].company == c;
          }
        }
      }
    }
  }

  /** A company listed more than once keeps the file of its last listing. */
  lemma {:induction false} MappingLastWins(successful: seq<Fetched>)
    ensures forall i :: 0 <= i < |successful| && (forall j :: i < j < |successful| ==> successful[j].company != successful[i].company) ==>
              successful[i].company in Mapping(successful) && Mapping(successful)[successful[i].company] == successful[i].fileName
  {
    if |successful| > 0 {
      var n := |successful| - 1;
      var front, last := successful[..n], successful[n];
      MappingLastWins(front);
      var m := Mapping(successful);
      assert m == Mapping(front)[last.company := last.fileName];
      forall i | 0 <= i < |successful| && (forall j :: i < j < |successful| ==> successful[j].company != successful[i].company)
        ensures successful[i].company in m && m[successful[i].company] == successful[i].fileName
      {
        if i < n {
          assert successful[i] == front[i];
          assert last.company != successful[i].company;
          assert forall j :: i < j < |front| ==> front[j] == successful[j];
        }
      }
    }
  }

  /** The `reduce` as it runs: one assignment to `acc` per successful download. */
  method BuildMapping(successful: seq<Fetched>) returns (acc: map<string, string>)
    ensures acc == Mapping(successful)
  {
    acc := map[];
    for i := 0 to |successful|
      invariant acc == Mapping(successful[..i])
    {
      assert successful[..i + 1][..i] == successful[..i];
      acc := acc[successful[i].company := successful[i].fileName];
    }
    assert successful[..|successful|] == successful;
  }
}
