/** The static star catalogue and the name matching of constellation_data.py:
    constellation colours, distances and line pairs, the Greek-letter table,
    star-name normalisation and the first-match search of the solved
    annotations. */
module StarCatalog {
  import opened PyValues

  // ---------------------------------------------------------------------------
  // Static tables
  // ---------------------------------------------------------------------------

  /** Line colour of each constellation. */
  const CONSTELLATION_COLORS: map<string, string> :=
    map["Ori" := "lime", "Lep" := "cyan", "Eri" := "magenta", "Ursa Major" := "yellow"]

  /** Approximate distance from Earth of each catalogue star, in light years. */
  const STAR_DISTANCES_LY: map<string, real> := map[
    "Alpha Ori" := 642.5, "Beta Ori" := 863.0, "Gamma Ori" := 250.0,
    "Delta Ori" := 1200.0, "Epsilon Ori" := 2000.0, "Zeta Ori" := 1260.0,
    "Kappa Ori" := 724.0, "Lambda Ori" := 1100.0, "Iota Ori" := 1300.0,
    "Eta Ori" := 900.0, "Mu Ori" := 150.0, "Xi Ori" := 1200.0, "Nu Ori" := 500.0,
    "Pi3 Ori" := 26.0, "Pi2 Ori" := 220.0, "Pi1 Ori" := 120.0, "Pi4 Ori" := 1000.0,
    "Pi5 Ori" := 1300.0, "Pi6 Ori" := 900.0,
    "Alpha Lep" := 2200.0, "Beta Lep" := 160.0, "Epsilon Lep" := 213.0,
    "Mu Lep" := 186.0, "Zeta Lep" := 70.0, "Gamma Lep" := 29.0, "Delta Lep" := 114.0,
    "Beta Eri" := 89.0, "Lambda Eri" := 58.0,
    "Alpha UMa" := 123.0, "Beta UMa" := 79.0, "Gamma UMa" := 83.0,
    "Delta UMa" := 80.0, "Epsilon UMa" := 82.0, "Zeta UMa" := 78.0, "Eta UMa" := 103.0]

  /** The stick figure of each constellation, as pairs of catalogue name
      patterns, in the order the overlay draws them. */
  const CONSTELLATION_LINES: seq<(string, seq<(string, string)>)> := [
    ("Ori", [
      ("Alpha Ori", "Lambda Ori"), ("Lambda Ori", "Gamma Ori"), ("Gamma Ori", "Delta Ori"),
      ("Delta Ori", "Epsilon Ori"), ("Epsilon Ori", "Zeta Ori"), ("Zeta Ori", "Kappa Ori"),
      ("Kappa Ori", "Beta Ori"), ("Beta Ori", "Eta Ori"), ("Eta Ori", "Delta Ori"),
      ("Alpha Ori", "Mu Ori"), ("Mu Ori", "Xi Ori"), ("Xi Ori", "Nu Ori"),
      ("Gamma Ori", "Pi3 Ori"), ("Pi3 Ori", "Pi2 Ori"), ("Pi2 Ori", "Pi1 Ori"),
      ("Pi3 Ori", "Pi4 Ori"), ("Pi4 Ori", "Pi5 Ori"), ("Pi5 Ori", "Pi6 Ori")]),
    ("Lep", [
      ("Alpha Lep", "Beta Lep"), ("Beta Lep", "Epsilon Lep"), ("Epsilon Lep", "Mu Lep"),
      ("Mu Lep", "Zeta Lep"), ("Zeta Lep", "Gamma Lep"), ("Gamma Lep", "Delta Lep"),
      ("Delta Lep", "Alpha Lep")]),
    ("Eri", [("Beta Eri", "Lambda Eri")]),
    ("Ursa Major", [
      ("Alpha UMa", "Beta UMa"), ("Beta UMa", "Gamma UMa"), ("Gamma UMa", "Delta UMa"),
      ("Delta UMa", "Epsilon UMa"), ("Epsilon UMa", "Zeta UMa"), ("Zeta UMa", "Eta UMa")])]

  /** Greek lowercase letters (U+03B1 to U+03C9, without the final sigma U+03C2)
      and their Latin names, in table order. */
  const GREEK_MAP: seq<(char, string)> := [
    ('\U{3B1}', "Alpha"), ('\U{3B2}', "Beta"), ('\U{3B3}', "Gamma"), ('\U{3B4}', "Delta"),
    ('\U{3B5}', "Epsilon"), ('\U{3B6}', "Zeta"), ('\U{3B7}', "Eta"), ('\U{3B8}', "Theta"),
    ('\U{3B9}', "Iota"), ('\U{3BA}', "Kappa"), ('\U{3BB}', "Lambda"), ('\U{3BC}', "Mu"),
    ('\U{3BD}', "Nu"), ('\U{3BE}', "Xi"), ('\U{3BF}', "Omicron"), ('\U{3C0}', "Pi"),
    ('\U{3C1}', "Rho"), ('\U{3C3}', "Sigma"), ('\U{3C4}', "Tau"), ('\U{3C5}', "Upsilon"),
    ('\U{3C6}', "Phi"), ('\U{3C7}', "Chi"), ('\U{3C8}', "Psi"), ('\U{3C9}', "Omega")]

  /** Every line endpoint has a known positive distance, and every
      constellation that has lines has a colour. */
  lemma StaticTablesConsistent()
    ensures forall k :: k in STAR_DISTANCES_LY ==> STAR_DISTANCES_LY[k] > 0.0
    ensures forall c, j :: 0 <= c < |CONSTELLATION_LINES| && 0 <= j < |CONSTELLATION_LINES[c].1| ==>
              CONSTELLATION_LINES[c].1[j].0 in STAR_DISTANCES_LY && CONSTELLATION_LINES[c].1[j].1 in STAR_DISTANCES_LY
    ensures forall c :: 0 <= c < |CONSTELLATION_LINES| ==> CONSTELLATION_LINES[c].0 in CONSTELLATION_COLORS
  {
    DistancesPositive();
    EndpointsKnown(0);
    EndpointsKnown(1);
    EndpointsKnown(2);
    EndpointsKnown(3);
  }

  lemma DistancesPositive()
    ensures forall k :: k in STAR_DISTANCES_LY ==> STAR_DISTANCES_LY[k] > 0.0
  {
  }

  /** The endpoints of constellation c's lines have distances, and c has a colour. */
  lemma EndpointsKnown(c: nat)
    requires c < 4
    ensures |CONSTELLATION_LINES| == 4
    ensures CONSTELLATION_LINES[c].0 in CONSTELLATION_COLORS
    ensures forall j :: 0 <= j < |CONSTELLATION_LINES[c].1| ==>
              CONSTELLATION_LINES[c].1[j].0 in STAR_DISTANCES_LY && CONSTELLATION_LINES[c].1[j].1 in STAR_DISTANCES_LY
  {
  }

  // ---------------------------------------------------------------------------
  // Greek-letter replacement
  // ---------------------------------------------------------------------------

  predicate IsAscii(w: string) {
    forall i :: 0 <= i < |w| ==> w[i] as int < 128
  }

  /** c is a key of the replacement table t. */
  predicate IsKey(t: seq<(char, string)>, c: char) {
    t != [] && (t[0].0 == c || IsKey(t[1..], c))
  }

  /** Every key lies outside ASCII and every replacement is ASCII, so no
      replacement can bring back a key. */
  predicate TableOk(t: seq<(char, string)>) {
    forall i :: 0 <= i < |t| ==> t[i].0 as int >= 128 && IsAscii(t[i].1)
  }

  predicate IsGreekKey(c: char) {
    IsKey(GREEK_MAP, c)
  }

  predicate GreekFree(s: string) {
    forall i :: 0 <= i < |s| ==> !IsGreekKey(s[i])
  }

  /** s.replace(c, w) for a one-character search string c. */
  function ReplaceChar(s: string, c: char, w: string): string {
    if s == [] then []
    else (if s[0] == c then w else [s[0]]) + ReplaceChar(s[1..], c, w)
  }

  /** The loop of normalize_name that applies s.replace(key, value) for every
      entry of the table in turn. */
  function ReplaceEach(s: string, t: seq<(char, string)>): string
    decreases |t|
  {
    if t == [] then s else ReplaceEach(ReplaceChar(s, t[0].0, t[0].1), t[1..])
  }

  /** The reference reading of the table: a key becomes its value, any other
      character stays. */
  function ExpandChar(t: seq<(char, string)>, c: char): string {
    if t == [] then [c] else if t[0].0 == c then t[0].1 else ExpandChar(t[1..], c)
  }

  /** Every character of s replaced by its expansion, in one left-to-right pass. */
  function Transliterate(t: seq<(char, string)>, s: string): string {
    if s == [] then [] else ExpandChar(t, s[0]) + Transliterate(t, s[1..])
  }

  lemma GreekTableOk()
    ensures TableOk(GREEK_MAP)
  {
    GreekRowsOkLow();
    GreekRowsOkHigh();
  }

  lemma GreekRowsOkLow()
    ensures forall i :: 0 <= i < 12 ==> GREEK_MAP[i].0 as int >= 128 && IsAscii(GREEK_MAP[i].1)
  {
  }

  lemma GreekRowsOkHigh()
    ensures forall i :: 12 <= i < 24 ==> GREEK_MAP[i].0 as int >= 128 && IsAscii(GREEK_MAP[i].1)
  {
  }

  lemma {:induction false} KeyIsNotAscii(t: seq<(char, string)>, c: char)
    requires TableOk(t) && IsKey(t, c)
    ensures c as int >= 128
  {
    if t[0].0 != c { KeyIsNotAscii(t[1..], c); }
  }

  lemma {:induction false} ExpandNonKey(t: seq<(char, string)>, c: char)
    requires !IsKey(t, c)
    ensures ExpandChar(t, c) == [c]
  {
    if t != [] { ExpandNonKey(t[1..], c); }
  }

  lemma {:induction false} ExpandKey(t: seq<(char, string)>, c: char)
    requires TableOk(t) && IsKey(t, c)
    ensures IsAscii(ExpandChar(t, c))
  {
    if t[0].0 != c { ExpandKey(t[1..], c); }
  }

  lemma {:induction false} TransliterateAppend(t: seq<(char, string)>, a: string, b: string)
    ensures Transliterate(t, a + b) == Transliterate(t, a) + Transliterate(t, b)
  {
    if a != [] {
      assert (a + b)[0] == a[0];
      assert (a + b)[1..] == a[1..] + b;
      TransliterateAppend(t, a[1..], b);
      calc {
        Transliterate(t, a + b);
        ExpandChar(t, a[0]) + Transliterate(t, a[1..] + b);
        ExpandChar(t, a[0]) + (Transliterate(t, a[1..]) + Transliterate(t, b));
        (ExpandChar(t, a[0]) + Transliterate(t, a[1..])) + Transliterate(t, b);
      }
    } else {
      assert a + b == b;
    }
  }

  /** A string without keys is left as it is. */
  lemma {:induction false} TransliterateKeyless(t: seq<(char, string)>, s: string)
    requires forall i :: 0 <= i < |s| ==> !IsKey(t, s[i])
    ensures Transliterate(t, s) == s
  {
    if s != [] {
      ExpandNonKey(t, s[0]);
      TransliterateKeyless(t, s[1..]);
      assert s == [s[0]] + s[1..];
    }
  }

  lemma {:induction false} AsciiIsKeyless(t: seq<(char, string)>, w: string)
    requires TableOk(t) && IsAscii(w)
    ensures forall i :: 0 <= i < |w| ==> !IsKey(t, w[i])
  {
    forall i | 0 <= i < |w| ensures !IsKey(t, w[i]) {
      if IsKey(t, w[i]) { KeyIsNotAscii(t, w[i]); }
    }
  }

  /** One replace followed by the rest of the table is a transliteration by the
      whole table. */
  lemma {:induction false} TransliterateReplace(k: char, w: string, t: seq<(char, string)>, s: string)
    requires IsAscii(w) && TableOk(t)
    ensures Transliterate(t, ReplaceChar(s, k, w)) == Transliterate([(k, w)] + t, s)
  {
    if s != [] {
      var head := if s[0] == k then w else [s[0]];
      TransliterateAppend(t, head, ReplaceChar(s[1..], k, w));
      TransliterateReplace(k, w, t, s[1..]);
      if s[0] == k {
        AsciiIsKeyless(t, w);
        TransliterateKeyless(t, w);
      } else {
        assert ([(k, w)] + t)[1..] == t;
        assert head[1..] == [];
      }
    }
  }

  /** Applying the replacements one key after another, as normalize_name does,
      is the same as replacing every character by its expansion in one pass. */
  lemma {:induction false} ReplaceEachIsTransliteration(s: string, t: seq<(char, string)>)
    requires TableOk(t)
    ensures ReplaceEach(s, t) == Transliterate(t, s)
    decreases |t|
  {
    if t == [] {
      TransliterateKeyless(t, s);
    } else {
      ReplaceEachIsTransliteration(ReplaceChar(s, t[0].0, t[0].1), t[1..]);
      TransliterateReplace(t[0].0, t[0].1, t[1..], s);
      assert [(t[0].0, t[0].1)] + t[1..] == t;
    }
  }

  /** A transliteration keeps no key of the table. */
  lemma {:induction false} TransliterateRemovesKeys(t: seq<(char, string)>, s: string)
    requires TableOk(t)
    ensures forall i :: 0 <= i < |Transliterate(t, s)| ==> !IsKey(t, Transliterate(t, s)[i])
  {
    if s != [] {
      var head := ExpandChar(t, s[0]);
      TransliterateRemovesKeys(t, s[1..]);
      if IsKey(t, s[0]) {
        ExpandKey(t, s[0]);
        AsciiIsKeyless(t, head);
      } else {
        ExpandNonKey(t, s[0]);
      }
      var r := Transliterate(t, s);
      forall i | 0 <= i < |r| ensures !IsKey(t, r[i]) {
        if i >= |head| { assert r[i] == Transliterate(t, s[1..])[i - |head|]; }
      }
    }
  }

  // ---------------------------------------------------------------------------
  // Whitespace collapsing: ' '.join(name.split())
  // ---------------------------------------------------------------------------

  /** The characters str.split() separates on (str.isspace). */
  predicate IsSpace(c: char) {
    c == ' ' || ('\t' <= c <= '\r') || ('\U{1C}' <= c <= '\U{1F}') || c == '\U{85}' || c == '\U{A0}'
    || c == '\U{1680}' || ('\U{2000}' <= c <= '\U{200A}') || c == '\U{2028}' || c == '\U{2029}'
    || c == '\U{202F}' || c == '\U{205F}' || c == '\U{3000}'
  }

  /** Length of the run of non-whitespace characters that starts s. */
  function TokenLen(s: string): (n: nat)
    ensures n <= |s|
    ensures forall i :: 0 <= i < n ==> !IsSpace(s[i])
    ensures n < |s| ==> IsSpace(s[n])
  {
    if s == [] || IsSpace(s[0]) then 0 else 1 + TokenLen(s[1..])
  }

  /** str.split() without a separator: the maximal runs of non-whitespace. */
  function Split(s: string): seq<string>
    decreases |s|
  {
    if s == [] then []
    else if IsSpace(s[0]) then Split(s[1..])
    else [s[..TokenLen(s)]] + Split(s[TokenLen(s)..])
  }

  /** ' '.join(words) */
  function Join(words: seq<string>): string {
    if words == [] then []
    else if |words| == 1 then words[0]
    else words[0] + " " + Join(words[1..])
  }

  function Collapse(s: string): string {
    Join(Split(s))
  }

  predicate IsWord(w: string) {
    w != [] && forall i :: 0 <= i < |w| ==> !IsSpace(w[i])
  }

  predicate AllWords(ws: seq<string>) {
    forall k :: 0 <= k < |ws| ==> IsWord(ws[k])
  }

  /** No whitespace other than single spaces between non-space characters. */
  predicate Collapsed(t: string) {
    && (forall i :: 0 <= i < |t| && IsSpace(t[i]) ==> t[i] == ' ')
    && (t != [] ==> !IsSpace(t[0]) && !IsSpace(t[|t| - 1]))
    && (forall i :: 0 <= i < |t| - 1 && IsSpace(t[i]) ==> !IsSpace(t[i + 1]))
  }

  /** The pieces str.split() returns are non-empty and hold no whitespace. */
  lemma {:induction false} SplitGivesWords(s: string)
    ensures AllWords(Split(s))
    decreases |s|
  {
    if s != [] {
      if IsSpace(s[0]) {
        SplitGivesWords(s[1..]);
      } else {
        SplitGivesWords(s[TokenLen(s)..]);
      }
    }
  }

  lemma {:induction false} JoinIsCollapsed(ws: seq<string>)
    requires AllWords(ws)
    ensures Collapsed(Join(ws))
    ensures ws != [] ==> Join(ws) != [] && !IsSpace(Join(ws)[0])
  {
    if |ws| > 1 {
      var w, j := ws[0], Join(ws[1..]);
      JoinIsCollapsed(ws[1..]);
      var t := w + " " + j;
      assert IsWord(w);
      assert forall i :: 0 <= i < |w| ==> t[i] == w[i];
      assert t[|w|] == ' ';
      assert forall i :: |w| < i < |t| ==> t[i] == j[i - |w| - 1];
    }
  }

  lemma {:induction false} TokenOfWord(w: string, rest: string)
    requires IsWord(w)
    requires rest == [] || IsSpace(rest[0])
    ensures TokenLen(w + rest) == |w|
    decreases |w|
  {
    var s := w + rest;
    assert s[0] == w[0];
    if |w| == 1 {
      assert s[1..] == rest;
    } else {
      assert s[1..] == w[1..] + rest;
      TokenOfWord(w[1..], rest);
    }
  }

  /** Splitting words joined by single spaces gives the words back. */
  lemma {:induction false} SplitJoin(ws: seq<string>)
    requires AllWords(ws)
    ensures Split(Join(ws)) == ws
  {
    if |ws| == 1 {
      TokenOfWord(ws[0], []);
      assert ws[0] + [] == ws[0];
      assert ws[0][..|ws[0]|] == ws[0];
      assert ws[0][|ws[0]|..] == [];
    } else if |ws| > 1 {
      var w, j := ws[0], Join(ws[1..]);
      var s := w + " " + j;
      TokenOfWord(w, " " + j);
      assert s == w + (" " + j);
      assert s[..|w|] == w;
      assert s[|w|..] == " " + j;
      assert (" " + j)[1..] == j;
      SplitJoin(ws[1..]);
      assert ws == [w] + ws[1..];
    }
  }

  /** Collapsing twice is collapsing once. */
  lemma CollapseIdempotent(s: string)
    ensures Collapse(Collapse(s)) == Collapse(s)
  {
    SplitGivesWords(s);
    SplitJoin(Split(s));
  }

  lemma {:induction false} SplitKeepsGreekFree(s: string)
    requires GreekFree(s)
    ensures forall k :: 0 <= k < |Split(s)| ==> GreekFree(Split(s)[k])
    decreases |s|
  {
    if s != [] {
      if IsSpace(s[0]) {
        SplitKeepsGreekFree(s[1..]);
      } else {
        var n := TokenLen(s);
        assert GreekFree(s[..n]);
        SplitKeepsGreekFree(s[n..]);
      }
    }
  }

  lemma SpaceIsNotGreek()
    ensures !IsGreekKey(' ')
  {
    GreekTableOk();
    if IsGreekKey(' ') { KeyIsNotAscii(GREEK_MAP, ' '); }
  }

  lemma {:induction false} JoinKeepsGreekFree(ws: seq<string>)
    requires forall k :: 0 <= k < |ws| ==> GreekFree(ws[k])
    ensures GreekFree(Join(ws))
  {
    if |ws| > 1 {
      JoinKeepsGreekFree(ws[1..]);
      SpaceIsNotGreek();
      var w, j := ws[0], Join(ws[1..]);
      var t := w + " " + j;
      assert GreekFree(w);
      forall i | 0 <= i < |t| ensures !IsGreekKey(t[i]) {
        if i < |w| {
          assert t[i] == w[i];
        } else if i == |w| {
          assert t[i] == ' ';
        } else {
          assert t[i] == j[i - |w| - 1];
        }
      }
    }
  }

  // ---------------------------------------------------------------------------
  // normalize_name
  // ---------------------------------------------------------------------------

  /** normalize_name: every Greek letter replaced by its Latin name, then runs
      of whitespace collapsed to single spaces. */
  function NormalizeName(name: string): (r: string)
    ensures r == Collapse(Transliterate(GREEK_MAP, name))
  {
    GreekTableOk();
    ReplaceEachIsTransliteration(name, GREEK_MAP);
    Collapse(ReplaceEach(name, GREEK_MAP))
  }

  /** No Greek letter of the table survives normalisation. */
  lemma NormalizeNameGreekFree(name: string)
    ensures GreekFree(NormalizeName(name))
  {
    GreekTableOk();
    TransliterateRemovesKeys(GREEK_MAP, name);
    var t := Transliterate(GREEK_MAP, name);
    SplitKeepsGreekFree(t);
    JoinKeepsGreekFree(Split(t));
  }

  /** The result has no leading or trailing whitespace, no whitespace but the
      single spaces that separate its words, and the same words as the
      transliterated input. */
  lemma NormalizeNameCollapsed(name: string)
    ensures Collapsed(NormalizeName(name))
    ensures Split(NormalizeName(name)) == Split(Transliterate(GREEK_MAP, name))
  {
    var t := Transliterate(GREEK_MAP, name);
    SplitGivesWords(t);
    JoinIsCollapsed(Split(t));
    SplitJoin(Split(t));
  }

  /** On a name without Greek letters normalisation only collapses whitespace. */
  lemma NormalizeNameWithoutGreek(name: string)
    requires GreekFree(name)
    ensures NormalizeName(name) == Collapse(name)
  {
    TransliterateKeyless(GREEK_MAP, name);
  }

  /** Normalising a normalised name changes nothing. */
  lemma NormalizeNameIdempotent(name: string)
    ensures NormalizeName(NormalizeName(name)) == NormalizeName(name)
  {
    var n := NormalizeName(name);
    NormalizeNameGreekFree(name);
    NormalizeNameWithoutGreek(n);
    CollapseIdempotent(ReplaceEach(name, GREEK_MAP));
  }

  // ---------------------------------------------------------------------------
  // find_star_in_annotations
  // ---------------------------------------------------------------------------

  /** One solved object as the plate solver reports it; a key missing from the
      reply is None. */
  datatype Annotation = Annotation(
    pixelx: real,
    pixely: real,
    kind: Option<string>,
    radius: Option<real>,
    names: Option<seq<string>>)

  /** Python's `needle in hay` on strings: needle occurs as a contiguous,
      case-sensitive substring. */
  predicate Contains(hay: string, needle: string)
    decreases |hay|
  {
    needle <= hay || (hay != [] && Contains(hay[1..], needle))
  }

  /** Some alias, normalised, contains the pattern; aliases are tried in order. */
  predicate AliasMatches(pattern: string, aliases: seq<string>) {
    aliases != [] && (Contains(NormalizeName(aliases[0]), pattern) || AliasMatches(pattern, aliases[1..]))
  }

  /** An annotation without a `names` key has no aliases and never matches. */
  predicate StarMatches(pattern: string, a: Annotation) {
    AliasMatches(pattern, a.names.GetOr([]))
  }

  /** The first element of s, in order, that satisfies p. */
  function FirstWhere<T>(p: T -> bool, s: seq<T>): Option<T> {
    if s == [] then None
    else if p(s[0]) then Some(s[0])
    else FirstWhere(p, s[1..])
  }

  lemma {:induction false} FirstWhereNone<T>(p: T -> bool, s: seq<T>)
    ensures FirstWhere(p, s).None? <==> forall i :: 0 <= i < |s| ==> !p(s[i])
  {
    if s != [] {
      FirstWhereNone(p, s[1..]);
      if !p(s[0]) && FirstWhere(p, s[1..]).None? {
        forall i | 0 <= i < |s| ensures !p(s[i]) {
          if i > 0 { assert s[i] == s[1..][i - 1]; }
        }
      }
    }
  }

  lemma {:induction false} FirstWhereFound<T>(p: T -> bool, s: seq<T>)
    ensures FirstWhere(p, s).Some? ==> FirstWhere(p, s).value in s && p(FirstWhere(p, s).value)
  {
    if s != [] && !p(s[0]) {
      FirstWhereFound(p, s[1..]);
    }
  }

  lemma {:induction false} FirstWhereIndex<T>(p: T -> bool, s: seq<T>) returns (i: nat)
    requires FirstWhere(p, s).Some?
    ensures i < |s| && FirstWhere(p, s) == Some(s[i]) && p(s[i])
    ensures forall j :: 0 <= j < i ==> !p(s[j])
  {
    if p(s[0]) {
      i := 0;
    } else {
      var k := FirstWhereIndex(p, s[1..]);
      i := k + 1;
      assert s[i] == s[1..][k];
      forall j | 0 <= j < i ensures !p(s[j]) {
        if j > 0 { assert s[j] == s[1..][j - 1]; }
      }
    }
  }

  /** find_star_in_annotations: the first annotation, in list order, one of
      whose aliases matches the pattern; None when no annotation matches. */
  function FindStar(pattern: string, annotations: seq<Annotation>): (r: Option<Annotation>)
    ensures r.Some? ==> r.value in annotations
    ensures annotations == [] ==> r.None?
  {
    var p := a => StarMatches(pattern, a);
    FirstWhereFound(p, annotations);
    FirstWhere(p, annotations)
  }

  /** FindStar returns None exactly when no annotation matches; otherwise it
      returns the annotation at some index i that matches, and no annotation
      before i matches. */
  lemma FindStarFirstMatch(pattern: string, annotations: seq<Annotation>)
    ensures FindStar(pattern, annotations).None? <==>
              forall i :: 0 <= i < |annotations| ==> !StarMatches(pattern, annotations[i])
    ensures FindStar(pattern, annotations).Some? ==>
              exists i :: 0 <= i < |annotations| && FindStar(pattern, annotations) == Some(annotations[i])
                && StarMatches(pattern, annotations[i])
                && forall j :: 0 <= j < i ==> !StarMatches(pattern, annotations[j])
  {
    var p := a => StarMatches(pattern, a);
    FirstWhereNone(p, annotations);
    if FindStar(pattern, annotations).Some? {
      var i := FirstWhereIndex(p, annotations);
    }
  }

  lemma {:induction false} ContainsFits(hay: string, needle: string)
    requires Contains(hay, needle)
    ensures |needle| <= |hay|
    decreases |hay|
  {
    if !(needle <= hay) { ContainsFits(hay[1..], needle); }
  }

  /** The transliteration of a Greek letter followed by ASCII text. */
  lemma TransliterateGreekThenAscii(g: char, rest: string)
    requires IsAscii(rest)
    ensures Transliterate(GREEK_MAP, [g] + rest) == ExpandChar(GREEK_MAP, g) + rest
  {
    GreekTableOk();
    TransliterateAppend(GREEK_MAP, [g], rest);
    AsciiIsKeyless(GREEK_MAP, rest);
    TransliterateKeyless(GREEK_MAP, rest);
  }

  /** Every replacement in the Greek table is a single word, and the keys
      are in increasing code-point order. */
  lemma GreekTableShape()
    ensures forall i :: 0 <= i < |GREEK_MAP| ==> IsWord(GREEK_MAP[i].1)
    ensures forall i :: 0 <= i < |GREEK_MAP| - 1 ==> GREEK_MAP[i].0 < GREEK_MAP[i + 1].0
  {
    GreekWordsLow();
    GreekWordsHigh();
  }

  lemma GreekWordsLow()
    ensures forall i :: 0 <= i < 12 ==> IsWord(GREEK_MAP[i].1)
  {
  }

  lemma GreekWordsHigh()
    ensures forall i :: 12 <= i < 24 ==> IsWord(GREEK_MAP[i].1)
  {
  }

  predicate Increasing(t: seq<(char, string)>) {
    forall i :: 0 <= i < |t| - 1 ==> t[i].0 < t[i + 1].0
  }

  lemma {:induction false} IncreasingHead(t: seq<(char, string)>, i: nat)
    requires Increasing(t) && 0 < i < |t|
    ensures t[0].0 < t[i].0
  {
    if i > 1 {
      assert Increasing(t[1..]) by {
        assert forall j :: 0 <= j < |t[1..]| ==> t[1..][j] == t[j + 1];
      }
      IncreasingHead(t[1..], i - 1);
    }
  }

  /** In a table with increasing keys, the i-th key expands to the i-th value. */
  lemma {:induction false} ExpandAt(t: seq<(char, string)>, i: nat)
    requires Increasing(t) && i < |t|
    ensures IsKey(t, t[i].0)
    ensures ExpandChar(t, t[i].0) == t[i].1
  {
    if i > 0 {
      IncreasingHead(t, i);
      assert Increasing(t[1..]) by {
        assert forall j :: 0 <= j < |t[1..]| ==> t[1..][j] == t[j + 1];
      }
      ExpandAt(t[1..], i - 1);
    }
  }

  /** Each Greek letter of the table is replaced by exactly its Latin name. */
  lemma GreekLetterExpands(i: nat)
    requires i < |GREEK_MAP|
    ensures IsGreekKey(GREEK_MAP[i].0)
    ensures ExpandChar(GREEK_MAP, GREEK_MAP[i].0) == GREEK_MAP[i].1
  {
    GreekTableShape();
    ExpandAt(GREEK_MAP, i);
  }

  /** An annotation with a single alias matches exactly when that alias,
      normalised, contains the pattern. */
  lemma SingleAliasMatches(pattern: string, alias: string)
    ensures StarMatches(pattern, Annotation(0.0, 0.0, None, None, Some([alias])))
            <==> Contains(NormalizeName(alias), pattern)
  {
    assert AliasMatches(pattern, [alias]) <==> Contains(NormalizeName(alias), pattern) by {
      assert [alias][1..] == [];
    }
    var a := Annotation(0.0, 0.0, None, None, Some([alias]));
    assert StarMatches(pattern, a) == AliasMatches(pattern, [alias]);
  }

  /** An annotation without a `names` key, or with no aliases, never matches. */
  lemma NamelessNeverMatches(pattern: string, a: Annotation)
    requires a.names.None? || a.names == Some([])
    ensures !StarMatches(pattern, a)
  {
  }

  /** Two words separated by one space are already collapsed. */
  lemma CollapseTwoWords(u: string, w: string)
    requires IsWord(u) && IsWord(w)
    ensures Collapse(u + " " + w) == u + " " + w
  {
    assert Join([u, w]) == u + " " + w by {
      assert [u, w][1..] == [w];
    }
    SplitJoin([u, w]);
  }

  /** An alias made of the i-th Greek letter, a space and an ASCII word
      normalises to the letter's Latin name, a space and the word, and so
      resolves exactly that pattern. */
  lemma GreekAliasResolves(i: nat, w: string)
    requires i < |GREEK_MAP| && IsWord(w) && IsAscii(w)
    ensures NormalizeName([GREEK_MAP[i].0] + " " + w) == GREEK_MAP[i].1 + " " + w
    ensures StarMatches(GREEK_MAP[i].1 + " " + w,
                        Annotation(0.0, 0.0, None, None, Some([[GREEK_MAP[i].0] + " " + w])))
  {
    var alias, name := [GREEK_MAP[i].0] + " " + w, GREEK_MAP[i].1 + " " + w;
    GreekAliasNormalizes(i, w);
    SingleAliasMatches(name, alias);
    assert Contains(name, name);
  }

  lemma GreekAliasNormalizes(i: nat, w: string)
    requires i < |GREEK_MAP| && IsWord(w) && IsAscii(w)
    ensures NormalizeName([GREEK_MAP[i].0] + " " + w) == GREEK_MAP[i].1 + " " + w
  {
    GreekLetterExpands(i);
    GreekTableShape();
    LetterWordNormalizes(GREEK_MAP[i].0, GREEK_MAP[i].1, w);
  }

  lemma LetterWordNormalizes(g: char, e: string, w: string)
    requires ExpandChar(GREEK_MAP, g) == e && IsWord(e) && IsWord(w) && IsAscii(w)
    ensures NormalizeName([g] + " " + w) == e + " " + w
  {
    var alias := [g] + " " + w;
    AppendAssoc([g], " ", w);
    AppendAssoc(e, " ", w);
    SpacedAscii(w);
    TransliterateGreekThenAscii(g, " " + w);
    CollapseTwoWords(e, w);
  }

  lemma AppendAssoc(a: string, b: string, c: string)
    ensures a + b + c == a + (b + c)
  {
  }

  lemma SpacedAscii(w: string)
    requires IsAscii(w)
    ensures IsAscii(" " + w)
  {
    assert forall i :: 1 <= i < |" " + w| ==> (" " + w)[i] == w[i - 1];
  }

  /** "\U{3B2} Ori" (beta), or beta before any other ASCII word, resolves the
      catalogue pattern "Beta Ori". */
  lemma BetaResolves(w: string)
    requires IsWord(w) && IsAscii(w)
    ensures NormalizeName(['\U{3B2}', ' '] + w) == "Beta " + w
    ensures StarMatches("Beta " + w, Annotation(0.0, 0.0, None, None, Some([['\U{3B2}', ' '] + w])))
  {
    assert GREEK_MAP[1] == ('\U{3B2}', "Beta");
    assert ['\U{3B2}', ' '] + w == ['\U{3B2}'] + " " + w;
    assert "Beta " + w == "Beta" + " " + w;
    GreekAliasResolves(1, w);
  }

  /** Matching is case-sensitive: "\U{3B8} Ori" (theta) normalises to
      "Theta Ori", which does not contain the pattern "Eta Ori"; the same holds
      for any other ASCII word in place of "Ori". */
  lemma ThetaIsNotEta(w: string)
    requires IsWord(w) && IsAscii(w)
    ensures NormalizeName(['\U{3B8}', ' '] + w) == "Theta " + w
    ensures !StarMatches("Eta " + w, Annotation(0.0, 0.0, None, None, Some([['\U{3B8}', ' '] + w])))
  {
    var alias := ['\U{3B8}', ' '] + w;
    var h, p := "Theta " + w, "Eta " + w;
    assert alias == ['\U{3B8}'] + " " + w;
    assert h == "Theta" + " " + w;
    assert p[0] == 'E';
    assert h[0] == 'T' && h[1] == 'h' && h[2] == 'e';
    assert !(p <= h);
    assert !(p <= h[1..]) by { assert h[1..][0] == 'h'; }
    assert !(p <= h[2..]) by { assert h[2..][0] == 'e'; }
    if Contains(h[2..][1..], p) { ContainsFits(h[2..][1..], p); }
    assert !Contains(h[2..], p);
    assert !Contains(h[1..], p);
    assert !Contains(h, p);
    assert GREEK_MAP[7] == ('\U{3B8}', "Theta");
    GreekAliasResolves(7, w);
    assert NormalizeName(alias) == h;
    SingleAliasMatches(p, alias);
  }
}
