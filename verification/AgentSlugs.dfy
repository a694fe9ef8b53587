/** Agent slugs: lower-case words of letters and digits joined by single dashes.
    Runes are Dafny characters. Lower-casing maps one rune to one rune; the table
    itself is a parameter, of which only GoodLowering is used. */
module AgentSlugs {
  import opened Text

  predicate IsSlugChar(c: char) {
    'a' <= c <= 'z' || '0' <= c <= '9'
  }

  predicate IsDash(c: char) { c == '-' }

  /** Lower-case letters, digits and the dash are their own lower case; a space never becomes a letter or digit. */
  ghost predicate GoodLowering(lower: char -> char) {
    forall c :: (IsSlugChar(c) || c == '-' ==> lower(c) == c) && (IsSpace(c) ==> !IsSlugChar(lower(c)))
  }

  function TrimLeft(s: string, cut: char -> bool): string {
    if s != "" && cut(s[0]) then TrimLeft(s[1..], cut) else s
  }

  function TrimRight(s: string, cut: char -> bool): string {
    if s != "" && cut(s[|s| - 1]) then TrimRight(s[..|s| - 1], cut) else s
  }

  function Trim(s: string, cut: char -> bool): string {
    TrimRight(TrimLeft(s, cut), cut)
  }

  function MapRunes(s: string, f: char -> char): (r: string)
    ensures |r| == |s|
  {
    seq(|s|, i requires 0 <= i < |s| => f(s[i]))
  }

  // ---- what a slug is, independently of the loop ----

  /** The maximal runs of letters and digits, in order. */
  function Words(s: string): (ws: seq<string>)
    ensures s != "" && IsSlugChar(s[|s| - 1]) ==> ws != []
  {
    if s == "" then []
    else
      var front, c := s[..|s| - 1], s[|s| - 1];
      if !IsSlugChar(c) then Words(front)
      else if front != "" && IsSlugChar(front[|front| - 1]) then
        var ws := Words(front);
        ws[..|ws| - 1] + [ws[|ws| - 1] + [c]]
      else Words(front) + [[c]]
  }

  function JoinWords(ws: seq<string>): string {
    if ws == [] then ""
    else if |ws| == 1 then ws[0]
    else JoinWords(ws[..|ws| - 1]) + "-" + ws[|ws| - 1]
  }

  /** The words of a text joined by dashes: what sanitizing is meant to give. */
  function SlugOf(s: string): string { JoinWords(Words(s)) }

  ghost predicate IsWord(w: string) { w != "" && forall j :: 0 <= j < |w| ==> IsSlugChar(w[j]) }

  ghost predicate AreWords(ws: seq<string>) { forall i :: 0 <= i < |ws| ==> IsWord(ws[i]) }

  /** Over [a-z0-9-], with no leading, trailing or doubled dash. */
  ghost predicate IsSlug(s: string) {
    && (forall i :: 0 <= i < |s| ==> IsSlugChar(s[i]) || s[i] == '-')
    && (s != "" ==> s[0] != '-' && s[|s| - 1] != '-')
    && (forall i :: 0 < i < |s| ==> s[i - 1] != '-' || s[i] != '-')
  }

  function SlugChars(s: string): string {
    if s == "" then ""
    else SlugChars(s[..|s| - 1]) + if IsSlugChar(s[|s| - 1]) then [s[|s| - 1]] else ""
  }

  /** A dash waits at the end of the text so far. */
  predicate DashPending(s: string) { s != "" && SlugOf(s) != "" && !IsSlugChar(s[|s| - 1]) }

  /** What the loop has built after the text so far. */
  function Built(s: string): string { SlugOf(s) + if DashPending(s) then "-" else "" }

  method SanitizeAgentSlug(value: string, lower: char -> char) returns (slug: string)
    requires GoodLowering(lower)
    ensures slug == SlugOf(MapRunes(value, lower))
  {
    var text := MapRunes(Trim(value, IsSpace), lower);
    var b := "";
    var lastDash := false;
    for i := 0 to |text|
      invariant b == Built(text[..i])
      invariant lastDash == DashPending(text[..i])
    {
      var r := text[i];
      assert text[..i + 1] == text[..i] + [r];
      BuiltStep(text[..i], r);
      if IsSlugChar(r) {
        b := b + [r];
        lastDash := false;
      } else if |b| > 0 && !lastDash {
        b := b + "-";
        lastDash := true;
      }
    }
    assert text[..|text|] == text;
    slug := Trim(b, IsDash);
    BuiltTrimmed(value, lower);
  }

  lemma BuiltStep(s: string, r: char)
    ensures Built(s + [r]) == if IsSlugChar(r) then Built(s) + [r]
                              else if Built(s) != "" && !DashPending(s) then Built(s) + "-" else Built(s)
    ensures DashPending(s + [r]) == (!IsSlugChar(r) && Built(s) != "")
  {
    SlugStep(s, r);
  }

  lemma BuiltTrimmed(value: string, lower: char -> char)
    requires GoodLowering(lower)
    ensures Trim(Built(MapRunes(Trim(value, IsSpace), lower)), IsDash) == SlugOf(MapRunes(value, lower))
  {
    var text := MapRunes(Trim(value, IsSpace), lower);
    SlugOfIsSlug(text);
    TrimNothing(SlugOf(text));
    TrimKeepsWords(value, lower);
  }

  lemma {:induction false} AreWordsWords(s: string)
    ensures AreWords(Words(s))
  {
    if s != "" {
      var front, c := s[..|s| - 1], s[|s| - 1];
      AreWordsWords(front);
      if IsSlugChar(c) {
        var ws := Words(front);
        assert IsWord([c]);
        assert ws != [] ==> IsWord(ws[|ws| - 1] + [c]);
      }
    }
  }

  lemma {:induction false} JoinWordsIsSlug(ws: seq<string>)
    requires AreWords(ws)
    ensures IsSlug(JoinWords(ws))
    ensures JoinWords(ws) == "" <==> ws == []
    ensures ws != [] ==> JoinWords(ws)[|JoinWords(ws)| - 1] == ws[|ws| - 1][|ws[|ws| - 1]| - 1]
  {
    if |ws| > 1 {
      JoinWordsIsSlug(ws[..|ws| - 1]);
    }
  }

  lemma SlugOfIsSlug(s: string)
    ensures AreWords(Words(s)) && IsSlug(SlugOf(s))
    ensures SlugOf(s) == "" <==> Words(s) == []
    ensures forall i :: 0 <= i < |SlugOf(s)| ==> var c := SlugOf(s)[i]; 'a' <= c <= 'z' || '0' <= c <= '9' || c == '-'
  {
    AreWordsWords(s);
    JoinWordsIsSlug(Words(s));
  }

  lemma JoinAppend(ws: seq<string>, w: string)
    ensures JoinWords(ws + [w]) == if ws == [] then w else JoinWords(ws) + "-" + w
  {
    assert (ws + [w])[..|ws|] == ws;
  }

  lemma JoinExtend(front: seq<string>, last: string, r: char)
    ensures JoinWords(front + [last + [r]]) == JoinWords(front + [last]) + [r]
  {
    JoinAppend(front, last + [r]);
    JoinAppend(front, last);
    var head := JoinWords(front) + "-";
    assert head + (last + [r]) == (head + last) + [r];
  }

  /** One more rune: a letter or digit is appended, after a dash if it starts
      a word that is not the first; anything else changes nothing. */
  lemma SlugStep(s: string, r: char)
    ensures !IsSlugChar(r) ==> SlugOf(s + [r]) == SlugOf(s)
    ensures IsSlugChar(r) ==>
              SlugOf(s + [r]) ==
              SlugOf(s) + (if SlugOf(s) != "" && !IsSlugChar(s[|s| - 1]) then "-" else "") + [r]
    ensures SlugOf(s) != "" ==> s != ""
  {
    var t, ws := s + [r], Words(s);
    assert t[..|t| - 1] == s;
    SlugOfIsSlug(s);
    if IsSlugChar(r) {
      if s != "" && IsSlugChar(s[|s| - 1]) {
        var front, last := ws[..|ws| - 1], ws[|ws| - 1];
        JoinExtend(front, last, r);
        assert front + [last] == ws;
      } else {
        JoinAppend(ws, [r]);
      }
    }
  }

  lemma TrimNothing(s: string)
    requires IsSlug(s)
    ensures Trim(s, IsDash) == s
    ensures s != "" ==> Trim(s + "-", IsDash) == s
  {
    if s != "" {
      var t := s + "-";
      assert t[0] == s[0] && t[|t| - 1] == '-' && t[..|t| - 1] == s;
      assert TrimLeft(t, IsDash) == t && TrimRight(t, IsDash) == TrimRight(s, IsDash) == s;
    }
  }

  // ---- trimming spaces first changes nothing ----

  lemma {:induction false} WordsDropFront(s: string)
    requires s != "" && !IsSlugChar(s[0])
    ensures Words(s) == Words(s[1..])
  {
    if |s| > 1 {
      var front := s[..|s| - 1];
      WordsDropFront(front);
      assert front[1..] == s[1..][..|s| - 2];
    }
  }

  lemma {:induction false} TrimLeftKeepsWords(s: string, lower: char -> char)
    requires GoodLowering(lower)
    ensures Words(MapRunes(TrimLeft(s, IsSpace), lower)) == Words(MapRunes(s, lower))
  {
    if s != "" && IsSpace(s[0]) {
      WordsDropFront(MapRunes(s, lower));
      assert MapRunes(s, lower)[1..] == MapRunes(s[1..], lower);
      TrimLeftKeepsWords(s[1..], lower);
    }
  }

  lemma {:induction false} TrimRightKeepsWords(s: string, lower: char -> char)
    requires GoodLowering(lower)
    ensures Words(MapRunes(TrimRight(s, IsSpace), lower)) == Words(MapRunes(s, lower))
  {
    if s != "" && IsSpace(s[|s| - 1]) {
      assert MapRunes(s, lower)[..|s| - 1] == MapRunes(s[..|s| - 1], lower);
      TrimRightKeepsWords(s[..|s| - 1], lower);
    }
  }

  lemma TrimKeepsWords(s: string, lower: char -> char)
    requires GoodLowering(lower)
    ensures Words(MapRunes(Trim(s, IsSpace), lower)) == Words(MapRunes(s, lower))
  {
    TrimLeftKeepsWords(s, lower);
    TrimRightKeepsWords(TrimLeft(s, IsSpace), lower);
  }

  // ---- what survives, and what is fixed ----

  lemma SlugCharsAppend(s: string, c: char)
    ensures SlugChars(s + [c]) == SlugChars(s) + if IsSlugChar(c) then [c] else ""
  {
    assert (s + [c])[..|s|] == s;
  }

  lemma SlugCharsStep(front: string, c: char)
    requires SlugChars(SlugOf(front)) == SlugChars(front)
    ensures SlugChars(SlugOf(front + [c])) == SlugChars(front + [c])
  {
    SlugStep(front, c);
    SlugCharsAppend(front, c);
    if IsSlugChar(c) {
      var slug := SlugOf(front);
      SlugCharsAppend(slug, '-');
      var dashed := if DashPending(front) then slug + "-" else slug;
      SlugCharsAppend(dashed, c);
      assert SlugOf(front + [c]) == dashed + [c];
    }
  }

  /** Which characters count: the letters a to z and the digits 0 to 9, in order, and no others. */
  lemma KeptCharacters(s: string, c: char)
    ensures SlugChars("") == ""
    ensures SlugChars(s + [c]) == SlugChars(s) + if 'a' <= c <= 'z' || '0' <= c <= '9' then [c] else ""
  {
    SlugCharsAppend(s, c);
  }

  lemma {:induction false} SlugCharsOfSlug(s: string)
    ensures SlugChars(SlugOf(s)) == SlugChars(s)
  {
    if s != "" {
      var front, c := s[..|s| - 1], s[|s| - 1];
      assert front + [c] == s;
      SlugCharsOfSlug(front);
      SlugCharsStep(front, c);
    }
  }

  /** A string is its own slug exactly when it has a slug's shape. */
  lemma SlugFixedPoint(s: string, lower: char -> char)
    requires GoodLowering(lower)
    ensures IsSlug(s) <==> SlugOf(MapRunes(s, lower)) == s
  {
    SlugOfIsSlug(MapRunes(s, lower));
    if IsSlug(s) {
      assert MapRunes(s, lower) == s;
      SlugOfSlugPrefix(s);
    }
  }

  ghost predicate SlugPrefix(s: string) {
    && (forall i :: 0 <= i < |s| ==> IsSlugChar(s[i]) || s[i] == '-')
    && (s != "" ==> s[0] != '-')
    && (forall i :: 0 < i < |s| ==> s[i - 1] != '-' || s[i] != '-')
  }

  function WithoutLastDash(s: string): string {
    if s != "" && s[|s| - 1] == '-' then s[..|s| - 1] else s
  }

  lemma SlugPrefixStep(front: string, c: char)
    requires SlugPrefix(front + [c])
    ensures SlugPrefix(front)
    ensures SlugOf(front) == WithoutLastDash(front) ==> SlugOf(front + [c]) == WithoutLastDash(front + [c])
  {
    var s := front + [c];
    assert forall i :: 0 <= i < |front| ==> s[i] == front[i];
    assert s[..|s| - 1] == front;
    assert s[|front|] == c;
    SlugStep(front, c);
  }

  lemma {:induction false} SlugOfSlugPrefix(s: string)
    requires SlugPrefix(s)
    ensures SlugOf(s) == WithoutLastDash(s)
  {
    if s != "" {
      var front, c := s[..|s| - 1], s[|s| - 1];
      assert front + [c] == s;
      SlugPrefixStep(front, c);
      SlugOfSlugPrefix(front);
    }
  }

  /** Sanitizing twice is sanitizing once. */
  lemma SlugIdempotent(value: string, lower: char -> char)
    requires GoodLowering(lower)
    ensures var slug := SlugOf(MapRunes(value, lower)); SlugOf(MapRunes(slug, lower)) == slug
  {
    SlugOfIsSlug(MapRunes(value, lower));
    SlugFixedPoint(SlugOf(MapRunes(value, lower)), lower);
  }
}
