/** The title-to-image-path derivation of the covers page
    (`slugifyTitle` in src/app/covers/page.tsx): lower-case the title, turn
    every ASCII apostrophe into a hyphen, then turn every maximal run of
    whitespace into a single hyphen. Nothing else is touched. */
module Slug {

  /** An ASCII upper-case letter: the only letters the model lower-cases. */
  predicate IsUpper(c: char) {
    'A' <= c <= 'Z'
  }

  /** One character of a lower-cased string (ASCII letters only). */
  function ToLowerChar(c: char): (r: char)
    ensures !IsUpper(r)
    ensures IsUpper(c) ==> 'a' <= r <= 'z' && r as int - c as int == 32
    ensures !IsUpper(c) ==> r == c
  {
    if IsUpper(c) then (c as int + 32) as char else c
  }

  /** The characters the ECMAScript class `\s` matches: white space and
      line terminators. */
  predicate IsSpace(c: char) {
    || c == '\t' || c == '\n' || c == '\U{000B}' || c == '\U{000C}' || c == '\r'
    || c == ' ' || c == '\U{00A0}' || c == '\U{1680}'
    || ('\U{2000}' <= c <= '\U{200A}')
    || c == '\U{2028}' || c == '\U{2029}' || c == '\U{202F}' || c == '\U{205F}'
    || c == '\U{3000}' || c == '\U{FEFF}'
  }

  /** `title.toLowerCase()`, restricted to ASCII letters. */
  function Lower(s: string): (r: string)
    ensures |r| == |s|
    ensures forall c :: c in r ==> !IsUpper(c)
    ensures forall i :: 0 <= i < |s| && IsUpper(s[i]) ==> r[i] == ToLowerChar(s[i])
    ensures forall i :: 0 <= i < |s| && !IsUpper(s[i]) ==> r[i] == s[i]
  {
    seq(|s|, i requires 0 <= i < |s| => ToLowerChar(s[i]))
  }

  /** `.replace(/'/g, "-")`: every ASCII apostrophe becomes one hyphen. */
  function ReplaceApostrophes(s: string): (r: string)
    ensures |r| == |s|
    ensures '\'' !in r
    ensures forall i :: 0 <= i < |s| ==> (r[i] == '-' <==> s[i] == '\'' || s[i] == '-')
    ensures forall i :: 0 <= i < |s| && s[i] != '\'' ==> r[i] == s[i]
  {
    seq(|s|, i requires 0 <= i < |s| => if s[i] == '\'' then '-' else s[i])
  }

  /** The suffix of `s` left after its leading whitespace. */
  function DropSpaces(s: string): (r: string)
    ensures |r| <= |s| && r == s[|s| - |r|..]
    ensures r == [] || !IsSpace(r[0])
    ensures forall i :: 0 <= i < |s| - |r| ==> IsSpace(s[i])
  {
    if s != [] && IsSpace(s[0]) then DropSpaces(s[1..]) else s
  }

  /** `.replace(/\s+/g, "-")`: each maximal whitespace run becomes one hyphen. */
  function CollapseWhitespace(s: string): (r: string)
    ensures |r| <= |s|
    ensures forall c :: c in r ==> !IsSpace(c)
    ensures forall c :: c in r ==> c == '-' || c in s
    decreases |s|
  {
    if s == [] then []
    else if IsSpace(s[0]) then "-" + CollapseWhitespace(DropSpaces(s[1..]))
    else [s[0]] + CollapseWhitespace(s[1..])
  }

  /** `slugifyTitle`. */
  function Slugify(title: string): (r: string)
  {
    CollapseWhitespace(ReplaceApostrophes(Lower(title)))
  }

  const ImageDir: string := "/images/covers/"
  const ImageSuffix: string := "-web-500x307.webp"

  /** The background image of a cover tile: the slug sits between a fixed
      directory and a fixed suffix, so it can be read back from the path. */
  function CoverImagePath(title: string): (p: string)
    ensures |p| == |ImageDir| + |Slugify(title)| + |ImageSuffix|
    ensures p[..|ImageDir|] == ImageDir
    ensures p[|p| - |ImageSuffix|..] == ImageSuffix
    ensures p[|ImageDir|..|p| - |ImageSuffix|] == Slugify(title)
  {
    ImageDir + Slugify(title) + ImageSuffix
  }

  /** Two titles share an image exactly when they share a slug. */
  lemma ImagePathsFollowSlugs(t1: string, t2: string)
    ensures CoverImagePath(t1) == CoverImagePath(t2) <==> Slugify(t1) == Slugify(t2)
  {
    var p1, p2 := CoverImagePath(t1), CoverImagePath(t2);
    if p1 == p2 {
      assert Slugify(t1) == p1[|ImageDir|..|p1| - |ImageSuffix|];
    }
  }

  // ---------------------------------------------------------------------------
  // What a slug looks like

  /** A string already in slug form: nothing for any of the three steps to do. */
  predicate IsSlug(s: string) {
    forall c :: c in s ==> !IsUpper(c) && c != '\'' && !IsSpace(c)
  }

  /** A slug has no upper-case letter, no apostrophe and no whitespace, and is
      never longer than the title. */
  lemma SlugShape(title: string)
    ensures IsSlug(Slugify(title))
    ensures |Slugify(title)| <= |title|
  {
    var lowered := ReplaceApostrophes(Lower(title));
    forall c | c in lowered ensures !IsUpper(c) && c != '\'' {
      var i :| 0 <= i < |lowered| && lowered[i] == c;
    }
  }

  lemma {:induction false} CollapseOfWord(s: string)
    requires forall c :: c in s ==> !IsSpace(c)
    ensures CollapseWhitespace(s) == s
  {
    if s != [] {
      assert s[0] in s;
      assert forall c :: c in s[1..] ==> c in s;
      CollapseOfWord(s[1..]);
    }
  }

  /** A string in slug form is its own slug. */
  lemma SlugifyFixesSlugs(s: string)
    requires IsSlug(s)
    ensures Slugify(s) == s
  {
    assert forall i :: 0 <= i < |s| ==> s[i] in s;
    assert ReplaceApostrophes(Lower(s)) == s;
    CollapseOfWord(s);
  }

  /** Slugifying twice is slugifying once. */
  lemma SlugifyIdempotent(title: string)
    ensures Slugify(Slugify(title)) == Slugify(title)
  {
    SlugShape(title);
    SlugifyFixesSlugs(Slugify(title));
  }

  // ---------------------------------------------------------------------------
  // Everything but the separators passes through, lower-cased and in order

  /** The characters the slug treats specially, on either side of the map. */
  predicate IsSeparator(c: char) {
    IsSpace(c) || c == '\'' || c == '-'
  }

  /** The characters of `s` that are neither whitespace, apostrophe nor hyphen. */
  function Letters(s: string): (r: string)
    ensures |r| <= |s|
    ensures forall c :: c in r ==> c in s && !IsSeparator(c)
  {
    if s == [] then []
    else if IsSeparator(s[0]) then Letters(s[1..])
    else [s[0]] + Letters(s[1..])
  }

  /** Lower-casing never turns a separator into something else, nor back. */
  lemma LowerKeepsSeparators(c: char)
    ensures IsSeparator(ToLowerChar(c)) == IsSeparator(c)
  {
  }

  lemma {:induction false} LettersOfLower(s: string)
    ensures Letters(Lower(s)) == Lower(Letters(s))
  {
    if s != [] {
      var c, t := s[0], s[1..];
      LowerKeepsSeparators(c);
      assert Lower(s) == [ToLowerChar(c)] + Lower(t);
      assert ([ToLowerChar(c)] + Lower(t))[1..] == Lower(t);
      LettersOfLower(t);
      if !IsSeparator(c) {
        assert Letters(s) == [c] + Letters(t);
        assert Lower([c] + Letters(t)) == [ToLowerChar(c)] + Lower(Letters(t));
      }
    }
  }

  lemma {:induction false} LettersOfReplace(s: string)
    ensures Letters(ReplaceApostrophes(s)) == Letters(s)
  {
    if s != [] {
      var c, t := s[0], s[1..];
      var c' := if c == '\'' then '-' else c;
      assert ReplaceApostrophes(s) == [c'] + ReplaceApostrophes(t);
      assert ([c'] + ReplaceApostrophes(t))[1..] == ReplaceApostrophes(t);
      LettersOfReplace(t);
    }
  }

  lemma {:induction false} LettersOfSpaces(s: string)
    ensures Letters(DropSpaces(s)) == Letters(s)
  {
    if s != [] && IsSpace(s[0]) {
      LettersOfSpaces(s[1..]);
    }
  }

  lemma {:induction false} LettersOfCollapse(s: string)
    ensures Letters(CollapseWhitespace(s)) == Letters(s)
    decreases |s|
  {
    if s != [] {
      if IsSpace(s[0]) {
        var rest := DropSpaces(s[1..]);
        LettersOfCollapse(rest);
        LettersOfSpaces(s[1..]);
        assert ("-" + CollapseWhitespace(rest))[1..] == CollapseWhitespace(rest);
      } else {
        LettersOfCollapse(s[1..]);
        assert ([s[0]] + CollapseWhitespace(s[1..]))[1..] == CollapseWhitespace(s[1..]);
      }
    }
  }

  /** Every character that is not a separator reaches the slug, lower-cased,
      in its original order; characters other than ASCII `A`-`Z` (digits,
      commas, and in this model every non-ASCII letter) are left exactly as
      they were. */
  lemma LettersPassThrough(title: string)
    ensures Letters(Slugify(title)) == Lower(Letters(title))
  {
    LettersOfLower(title);
    LettersOfReplace(Lower(title));
    LettersOfCollapse(ReplaceApostrophes(Lower(title)));
  }

  // ---------------------------------------------------------------------------
  // A whitespace run between a word and what follows becomes one hyphen

  /** No character of `s` is whitespace. */
  predicate IsWord(s: string) {
    forall c :: c in s ==> !IsSpace(c)
  }

  /** A non-empty run of whitespace. */
  predicate IsRun(s: string) {
    s != [] && forall c :: c in s ==> IsSpace(c)
  }

  /** Lower-casing and replacing apostrophes leave a word a word. */
  lemma WordStaysWord(w: string)
    requires IsWord(w)
    ensures IsWord(ReplaceApostrophes(Lower(w)))
  {
    var r := ReplaceApostrophes(Lower(w));
    forall c | c in r ensures !IsSpace(c) {
      var i :| 0 <= i < |r| && r[i] == c;
      assert w[i] in w;
    }
  }

  /** Lower-casing and replacing apostrophes leave a run as it was. */
  lemma RunStaysRun(sp: string)
    requires IsRun(sp)
    ensures ReplaceApostrophes(Lower(sp)) == sp
  {
    assert forall i :: 0 <= i < |sp| ==> sp[i] in sp;
  }

  lemma {:induction false} DropRun(sp: string, rest: string)
    requires forall c :: c in sp ==> IsSpace(c)
    requires rest == [] || !IsSpace(rest[0])
    ensures DropSpaces(sp + rest) == rest
  {
    if sp != [] {
      assert sp[0] in sp;
      assert (sp + rest)[1..] == sp[1..] + rest;
      assert forall c :: c in sp[1..] ==> c in sp;
      DropRun(sp[1..], rest);
    } else {
      assert sp + rest == rest;
    }
  }

  /** A run followed by a non-space collapses to one hyphen. */
  lemma CollapseRun(sp: string, rest: string)
    requires IsRun(sp)
    requires rest == [] || !IsSpace(rest[0])
    ensures CollapseWhitespace(sp + rest) == "-" + CollapseWhitespace(rest)
  {
    var s := sp + rest;
    assert sp[0] in sp && s[0] == sp[0];
    assert s[1..] == sp[1..] + rest;
    assert forall c :: c in sp[1..] ==> c in sp;
    DropRun(sp[1..], rest);
  }

  /** A character that is not whitespace is copied by the collapse. */
  lemma CollapseCons(c: char, t: string)
    requires !IsSpace(c)
    ensures CollapseWhitespace([c] + t) == [c] + CollapseWhitespace(t)
  {
    assert ([c] + t)[1..] == t;
  }

  lemma {:induction false} CollapseWordThenRun(w: string, sp: string, rest: string)
    requires IsWord(w) && IsRun(sp)
    requires rest == [] || !IsSpace(rest[0])
    ensures CollapseWhitespace(w + sp + rest) == w + "-" + CollapseWhitespace(rest)
  {
    if w == [] {
      assert w + sp + rest == sp + rest;
      CollapseRun(sp, rest);
    } else {
      var c, v := w[0], w[1..];
      assert c in w;
      assert IsWord(v) by {
        assert forall x :: x in v ==> x in w;
      }
      assert w + sp + rest == [c] + (v + sp + rest);
      CollapseCons(c, v + sp + rest);
      CollapseWordThenRun(v, sp, rest);
      assert [c] + (v + "-" + CollapseWhitespace(rest)) == w + "-" + CollapseWhitespace(rest);
    }
  }

  /** A word, a whitespace run of any length, then the rest: the slug is the
      word's slug, one hyphen, and the slug of the rest. */
  lemma SlugifyWordThenRun(w: string, sp: string, rest: string)
    requires IsWord(w) && IsRun(sp)
    requires rest == [] || !IsSpace(rest[0])
    ensures Slugify(w + sp + rest) == ReplaceApostrophes(Lower(w)) + "-" + Slugify(rest)
  {
    assert Lower(w + sp + rest) == Lower(w) + Lower(sp) + Lower(rest);
    assert ReplaceApostrophes(Lower(w + sp + rest))
      == ReplaceApostrophes(Lower(w)) + ReplaceApostrophes(Lower(sp)) + ReplaceApostrophes(Lower(rest));
    RunStaysRun(sp);
    WordStaysWord(w);
    CollapseWordThenRun(ReplaceApostrophes(Lower(w)), sp, ReplaceApostrophes(Lower(rest)));
  }

  // ---------------------------------------------------------------------------
  // Titles with single spaces: a character-by-character reference

  /** No whitespace character is followed by another. */
  predicate SingleSpaced(s: string) {
    forall k :: 0 <= k < |s| - 1 ==> !IsSpace(s[k]) || !IsSpace(s[k + 1])
  }

  /** The slug character of one title character. */
  function SlugChar(c: char): (r: char)
  {
    if IsSpace(c) || c == '\'' then '-' else ToLowerChar(c)
  }

  /** The slug of a single-spaced title, read off one character at a time. */
  function CharSlug(s: string): (r: string)
  {
    seq(|s|, i requires 0 <= i < |s| => SlugChar(s[i]))
  }

  /** Without adjacent whitespace, every whitespace character is a run of its own. */
  lemma {:induction false} CollapseSingleSpaced(s: string)
    requires SingleSpaced(s)
    ensures CollapseWhitespace(s) == seq(|s|, i requires 0 <= i < |s| => if IsSpace(s[i]) then '-' else s[i])
  {
    if s != [] {
      var t := s[1..];
      assert SingleSpaced(t) by {
        assert forall k :: 0 <= k < |t| ==> t[k] == s[k + 1];
      }
      CollapseSingleSpaced(t);
      if IsSpace(s[0]) {
        assert t == [] || !IsSpace(t[0]);
        assert DropSpaces(t) == t;
      }
    }
  }

  /** A single-spaced title slugifies character by character, to a slug of its
      own length. */
  lemma SlugifySingleSpaced(title: string)
    requires SingleSpaced(title)
    ensures Slugify(title) == CharSlug(title)
    ensures |Slugify(title)| == |title|
  {
    var r := ReplaceApostrophes(Lower(title));
    assert forall i :: 0 <= i < |r| ==> (IsSpace(r[i]) <==> IsSpace(title[i]));
    CollapseSingleSpaced(r);
  }

  // ---------------------------------------------------------------------------
  // Reading the slug of a printable ASCII title off character by character

  /** `t` is printable ASCII whose only whitespace are the single spaces at
      the positions `gaps`, and each of its characters slugifies to the
      character of `y` at the same position. */
  predicate SpelledAs(t: string, y: string, gaps: set<int>) {
    && |t| == |y|
    && forall k :: 0 <= k < |t| ==>
         (if k in gaps then t[k] == ' ' else '!' <= t[k] <= '~') && SlugChar(t[k]) == y[k]
  }

  /** No printable ASCII character other than the space is whitespace. */
  lemma PrintableNotSpace(c: char)
    requires '!' <= c <= '~'
    ensures !IsSpace(c)
  {
  }

  /** A printable title with no two spaces side by side slugifies to the
      string it is spelled as. */
  lemma SlugOfPrintableTitle(t: string, y: string, gaps: set<int>)
    requires SpelledAs(t, y, gaps)
    requires forall k :: k in gaps ==> k + 1 !in gaps
    ensures Slugify(t) == y
  {
    forall k | 0 <= k < |t| && k !in gaps
      ensures !IsSpace(t[k])
    {
      PrintableNotSpace(t[k]);
    }
    assert SingleSpaced(t);
    SlugifySingleSpaced(t);
  }
}
