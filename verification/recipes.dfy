/** The text handling of routes/recipes.js: normalising the ingredient (lines 22-24) and
    `formatRecipes` (lines 89-116), which cuts the model's text into numbered items and
    reads a title and a description from each. */
module Recipes {
  import opened JsValues
  import opened Seqs
  import opened Text

  // ---------------------------------------------------------------------------------------
  // The ingredient

  predicate IsUpper(c: char) {
    'A' <= c <= 'Z'
  }

  /** `toLowerCase` on the ASCII letters: a capital becomes the small letter at the same place
      in the alphabet, and every other character is left alone. */
  function LowerChar(c: char): (d: char)
    ensures !IsUpper(d)
    ensures d == c <==> !IsUpper(c)
    ensures IsUpper(c) ==> 'a' <= d <= 'z' && d as int - 'a' as int == c as int - 'A' as int
  {
    if IsUpper(c) then (c as int + 32) as char else c
  }

  /** `ingredient.toLowerCase()`: the same length, no capital left, each character lowered. */
  function Lower(s: string): (r: string)
    ensures |r| == |s|
    ensures forall i :: 0 <= i < |r| ==> !IsUpper(r[i])
    ensures forall i :: 0 <= i < |r| ==> r[i] == LowerChar(s[i])
  {
    seq(|s|, i requires 0 <= i < |s| => LowerChar(s[i]))
  }

  /** A text without capitals is its own lower case. */
  lemma LowerKeepsLowerCase(s: string)
    requires forall i :: 0 <= i < |s| ==> !IsUpper(s[i])
    ensures Lower(s) == s
  {
  }

  /** Lower-casing twice is lower-casing once. */
  lemma LowerIdempotent(s: string)
    ensures Lower(Lower(s)) == Lower(s)
  {
    LowerKeepsLowerCase(Lower(s));
  }

  /** `/\s+fruit$/` has a match: the text ends with "fruit" preceded by whitespace. */
  predicate EndsWithFruit(s: string) {
    |s| >= 6 && s[|s| - 5..] == "fruit" && IsSpace(s[|s| - 6])
  }

  /** `.replace(/\s+fruit$/, '')`: the leftmost match starts where the whitespace run before
      the final "fruit" starts, and runs to the end. */
  function StripFruit(s: string): (r: string)
    ensures !EndsWithFruit(s) ==> r == s
    ensures EndsWithFruit(s) ==>
      && |r| <= |s| - 6 && r == s[..|r|]
      && (forall k :: |r| <= k < |s| - 5 ==> IsSpace(s[k]))
      && (r == [] || !IsSpace(r[|r| - 1]))
  {
    if EndsWithFruit(s) then TrimEnd(s[..|s| - 5]) else s
  }

  /** The ingredient as the prompt uses it. */
  function Normalize(ingredient: string): string {
    Trim(StripFruit(Lower(ingredient)))
  }

  /** The normalised ingredient has no whitespace at either end and is no longer than the
      argument. */
  lemma NormalizeTrimmed(ingredient: string)
    ensures var r := Normalize(ingredient);
      && |r| <= |ingredient|
      && (r == [] || (!IsSpace(r[0]) && !IsSpace(r[|r| - 1])))
  {
    TrimSpec(StripFruit(Lower(ingredient)));
  }

  /** Trimming after cutting trailing whitespace is trimming. */
  lemma {:induction false} TrimAfterTrimEnd(s: string)
    ensures Trim(TrimEnd(s)) == Trim(s)
    decreases |s|
  {
    if s != [] && IsSpace(s[|s| - 1]) {
      var p, c := s[..|s| - 1], s[|s| - 1];
      assert s == p + [c];
      assert TrimEnd(s) == TrimEnd(p);
      TrimAfterTrimEnd(p);
      TrimStartSnoc(p, c);
    }
  }

  /** Trimming the start of a text with a whitespace character appended, then trimming its
      end, drops that character. */
  lemma {:induction false} TrimStartSnoc(p: string, c: char)
    requires IsSpace(c)
    ensures TrimEnd(TrimStart(p + [c])) == TrimEnd(TrimStart(p))
    decreases |p|
  {
    if p == [] {
    } else if IsSpace(p[0]) {
      assert (p + [c])[1..] == p[1..] + [c];
      TrimStartSnoc(p[1..], c);
    } else {
      assert (p + [c])[..|p|] == p;
    }
  }

  /** When the lowered text ends with whitespace and "fruit", the result is the trimmed text
      before that "fruit". */
  lemma NormalizeDropsFruit(ingredient: string)
    requires EndsWithFruit(Lower(ingredient))
    ensures Normalize(ingredient) == Trim(Lower(ingredient)[..|ingredient| - 5])
  {
    var l := Lower(ingredient);
    var p := l[..|l| - 5];
    assert StripFruit(l) == TrimEnd(p);
    TrimAfterTrimEnd(p);
  }

  /** The suffix is removed before trimming, so a text ending in whitespace keeps its
      "fruit": the result is only the lowered, trimmed text. */
  lemma TrailingSpaceKeepsFruit(ingredient: string)
    requires ingredient != [] && IsSpace(ingredient[|ingredient| - 1])
    ensures Normalize(ingredient) == Trim(Lower(ingredient))
  {
    var l := Lower(ingredient);
    assert l[|l| - 1] == ingredient[|ingredient| - 1];
    assert !EndsWithFruit(l);
  }

  // ---------------------------------------------------------------------------------------
  // `text.split(/\d\.\s+/)`

  /** A separator starts at q: a digit, a period and whitespace. */
  predicate SepAt(s: string, q: int) {
    0 <= q && q + 2 < |s| && IsDigit(s[q]) && s[q + 1] == '.' && IsSpace(s[q + 2])
  }

  /** Where the separator at q ends: `\s+` takes the whole whitespace run. */
  function SepEnd(s: string, q: nat): (e: nat)
    requires SepAt(s, q)
    ensures q + 3 <= e <= |s|
    ensures forall k :: q + 2 <= k < e ==> IsSpace(s[k])
    ensures e == |s| || !IsSpace(s[e])
  {
    var rest := TrimStart(s[q + 2..]);
    assert s[q + 2..][|s[q + 2..]| - |rest|..] == s[|s| - |rest|..];
    |s| - |rest|
  }

  /** The first separator at or after `from`. */
  function FirstSep(s: string, from: nat): (r: Option<nat>)
    ensures r.Some? ==> from <= r.value && SepAt(s, r.value) && forall k :: from <= k < r.value ==> !SepAt(s, k)
    ensures r.None? ==> forall k :: from <= k ==> !SepAt(s, k)
    decreases |s| - from
  {
    if from + 2 >= |s| then None
    else if SepAt(s, from) then Some(from)
    else FirstSep(s, from + 1)
  }

  /** The pieces between separators, in order; the text itself when it has none. */
  function Pieces(s: string): (ps: seq<string>)
    ensures |ps| >= 1
    decreases |s|
  {
    match FirstSep(s, 0)
    case None => [s]
    case Some(q) => [s[..q]] + Pieces(s[SepEnd(s, q)..])
  }

  /** The separators that `split` drops, in order. */
  function Seps(s: string): seq<string>
    decreases |s|
  {
    match FirstSep(s, 0)
    case None => []
    case Some(q) => [s[q..SepEnd(s, q)]] + Seps(s[SepEnd(s, q)..])
  }

  /** A whole separator: a digit, a period and one or more whitespace characters. */
  predicate IsSeparator(t: string) {
    |t| >= 3 && IsDigit(t[0]) && t[1] == '.' && forall k :: 2 <= k < |t| ==> IsSpace(t[k])
  }

  /** Pieces and separators taken alternately. */
  function Interleave(ps: seq<string>, ss: seq<string>): string
    requires |ps| == |ss| + 1
    decreases |ss|
  {
    if ss == [] then ps[0] else ps[0] + ss[0] + Interleave(ps[1..], ss[1..])
  }

  /** Splitting loses nothing: the pieces with the separators between them give back the
      text, and every separator is one. */
  lemma {:induction false} SplitRoundTrip(s: string)
    ensures |Pieces(s)| == |Seps(s)| + 1
    ensures Interleave(Pieces(s), Seps(s)) == s
    ensures forall t :: t in Seps(s) ==> IsSeparator(t)
    decreases |s|
  {
    match FirstSep(s, 0)
    case None =>
    case Some(q) =>
      var e := SepEnd(s, q);
      SplitRoundTrip(s[e..]);
      InterleaveCons(s[..q], s[q..e], Pieces(s[e..]), Seps(s[e..]));
      ThreeSlices(s, q, e);
      SeparatorSlice(s, q);
  }

  /** Interleaving after a first piece and a first separator. */
  lemma InterleaveCons(p: string, t: string, ps: seq<string>, ss: seq<string>)
    requires |ps| == |ss| + 1
    ensures Interleave([p] + ps, [t] + ss) == p + t + Interleave(ps, ss)
  {
    assert ([p] + ps)[1..] == ps && ([t] + ss)[1..] == ss;
  }

  /** What the separator at q spans is a separator. */
  lemma SeparatorSlice(s: string, q: nat)
    requires SepAt(s, q)
    ensures IsSeparator(s[q..SepEnd(s, q)])
  {
    var sep := s[q..SepEnd(s, q)];
    forall k | 2 <= k < |sep|
      ensures IsSpace(sep[k])
    {
      assert sep[k] == s[q + k];
    }
  }

  /** Cutting a text in three places and gluing the parts gives it back. */
  lemma ThreeSlices(s: string, i: nat, j: nat)
    requires i <= j <= |s|
    ensures s[..i] + s[i..j] + s[j..] == s
  {
    assert s[..i] + s[i..j] == s[..j];
  }

  /** No piece holds a separator: each stops at the first one. */
  lemma {:induction false} PiecesHaveNoSep(s: string)
    ensures forall p, k :: p in Pieces(s) ==> !SepAt(p, k)
    decreases |s|
  {
    match FirstSep(s, 0)
    case None =>
    case Some(q) =>
      var e := SepEnd(s, q);
      PiecesHaveNoSep(s[e..]);
      var head := s[..q];
      forall k
        ensures !SepAt(head, k)
      {
        if SepAt(head, k) {
          assert SepAt(s, k);
        }
      }
      assert Pieces(s) == [head] + Pieces(s[e..]);
  }

  // ---------------------------------------------------------------------------------------
  // `.filter(r => r.trim().length > 0)`

  /** `r.trim().length > 0` */
  predicate NonBlank(s: string) {
    Trim(s) != []
  }

  /** `xs.filter(keep)` */
  function Filter<T>(xs: seq<T>, keep: T -> bool): (r: seq<T>)
    ensures |r| <= |xs|
  {
    if xs == [] then []
    else Filter(xs[..|xs| - 1], keep) + (if keep(xs[|xs| - 1]) then [xs[|xs| - 1]] else [])
  }

  /** The filter keeps exactly the elements it is asked to keep. */
  lemma {:induction false} FilterMembers<T>(xs: seq<T>, keep: T -> bool)
    ensures forall x :: x in Filter(xs, keep) <==> x in xs && keep(x)
  {
    if xs != [] {
      var n := |xs| - 1;
      FilterMembers(xs[..n], keep);
      assert xs == xs[..n] + [xs[n]];
    }
  }

  /** The filter keeps order: filtering a concatenation is concatenating the filtered parts. */
  lemma {:induction false} FilterAppend<T>(a: seq<T>, b: seq<T>, keep: T -> bool)
    ensures Filter(a + b, keep) == Filter(a, keep) + Filter(b, keep)
    decreases |b|
  {
    if b != [] {
      var n := |b| - 1;
      var ab := a + b;
      assert ab[..|ab| - 1] == a + b[..n];
      assert ab[|ab| - 1] == b[n];
      FilterAppend(a, b[..n], keep);
      var last := if keep(b[n]) then [b[n]] else [];
      assert ab != [];
      calc {
        Filter(ab, keep);
        Filter(a + b[..n], keep) + last;
        Filter(a, keep) + Filter(b[..n], keep) + last;
        Filter(a, keep) + (Filter(b[..n], keep) + last);
      }
    } else {
      assert a + b == a;
    }
  }

  /** The pieces that are not blank, in order. */
  function KeepNonBlank(xs: seq<string>): seq<string> {
    Filter(xs, NonBlank)
  }

  // ---------------------------------------------------------------------------------------
  // `recipe.match(/^([^:.]+)[:.](.+)$/)`

  predicate IsMark(c: char) {
    c == ':' || c == '.'
  }

  /** The pattern matches s with its first group ending at k: a non-empty run without ':' or
      '.', then one of them, then a non-empty rest without a line terminator (`.` and `$`
      without the `s` and `m` flags). */
  predicate MatchesAt(s: string, k: int) {
    && 1 <= k && k + 1 < |s|
    && (forall j :: 0 <= j < k ==> !IsMark(s[j]))
    && IsMark(s[k])
    && (forall j :: k < j < |s| ==> !IsLineTerminator(s[j]))
  }

  /** Position of the first ':' or '.' at or after `from`. */
  function FirstMark(s: string, from: nat): (r: Option<nat>)
    ensures r.Some? ==> from <= r.value < |s| && IsMark(s[r.value]) && forall j :: from <= j < r.value ==> !IsMark(s[j])
    ensures r.None? ==> forall j :: from <= j < |s| ==> !IsMark(s[j])
    decreases |s| - from
  {
    if from >= |s| then None
    else if IsMark(s[from]) then Some(from)
    else FirstMark(s, from + 1)
  }

  predicate NoLineTerminator(s: string) {
    forall j :: 0 <= j < |s| ==> !IsLineTerminator(s[j])
  }

  /** The two groups of the match, or `None`. Since the first group cannot hold ':' or '.',
      the only candidate is the first mark. */
  function TitleMatch(s: string): Option<(string, string)> {
    match FirstMark(s, 0)
    case None => None
    case Some(k) =>
      if k >= 1 && k + 1 < |s| && NoLineTerminator(s[k + 1..]) then Some((s[..k], s[k + 1..])) else None
  }

  /** The scan agrees with the pattern: it matches exactly when some split point does, and its
      groups are cut at that point, which is unique. */
  lemma TitleMatchSpec(s: string)
    ensures TitleMatch(s).Some? <==> exists k :: MatchesAt(s, k)
    ensures forall k :: MatchesAt(s, k) ==> TitleMatch(s) == Some((s[..k], s[k + 1..]))
  {
    var m := FirstMark(s, 0);
    forall k | MatchesAt(s, k)
      ensures TitleMatch(s) == Some((s[..k], s[k + 1..]))
    {
      assert m == Some(k);
      var rest := s[k + 1..];
      assert NoLineTerminator(rest) by {
        forall j | 0 <= j < |rest|
          ensures !IsLineTerminator(rest[j])
        {
          assert rest[j] == s[k + 1 + j];
        }
      }
    }
    if TitleMatch(s).Some? {
      var k := m.value;
      assert forall j :: k < j < |s| ==> s[j] == s[k + 1..][j - k - 1];
      assert MatchesAt(s, k);
    }
  }

  // ---------------------------------------------------------------------------------------
  // `recipe.split('.')` and `.join('.')`

  /** `s.split(c)` for a one-character separator. */
  function SplitChar(s: string, c: char): (ps: seq<string>)
    ensures |ps| >= 1
    decreases |s|
  {
    match Find(s, c)
    case None => [s]
    case Some(i) => [s[..i]] + SplitChar(s[i + 1..], c)
  }

  /** `parts.join(c)`. */
  function JoinChar(parts: seq<string>, c: char): string {
    if parts == [] then []
    else if |parts| == 1 then parts[0]
    else parts[0] + [c] + JoinChar(parts[1..], c)
  }

  /** Joining the pieces of a split gives back the text, and no piece holds the separator. */
  lemma {:induction false} JoinSplit(s: string, c: char)
    ensures JoinChar(SplitChar(s, c), c) == s
    ensures forall p :: p in SplitChar(s, c) ==> c !in p
    decreases |s|
  {
    match Find(s, c)
    case None =>
    case Some(i) =>
      var rest := SplitChar(s[i + 1..], c);
      JoinSplit(s[i + 1..], c);
      JoinCons(s[..i], rest, c);
      CutAt(s, i);
  }

  /** Joining after a first piece. */
  lemma JoinCons(p: string, ps: seq<string>, c: char)
    requires ps != []
    ensures JoinChar([p] + ps, c) == p + [c] + JoinChar(ps, c)
  {
    assert ([p] + ps)[1..] == ps;
  }

  /** A text is what comes before position i, the character there, and what follows. */
  lemma CutAt(s: string, i: nat)
    requires i < |s|
    ensures s[..i] + [s[i]] + s[i + 1..] == s
  {
    assert s[..i] + [s[i]] == s[..i + 1];
  }

  // ---------------------------------------------------------------------------------------
  // `formatRecipes`

  datatype Recipe = Recipe(title: string, description: string)

  datatype Formatted = Formatted(ingredient: string, recipes: seq<Recipe>)

  /** One item: the groups of the pattern when it matches, else the first sentence and the
      rest. */
  function FormatOne(item: string): Recipe {
    match TitleMatch(item)
    case Some((t, d)) => Recipe(Trim(t), Trim(d))
    case None =>
      var sentences := SplitChar(item, '.');
      Recipe(Trim(sentences[0]), Trim(JoinChar(sentences[1..], '.')))
  }

  /** A piece of a text that lacks a character lacks it too. */
  lemma NotInTrim(s: string, c: char)
    requires c !in s
    ensures c !in Trim(s)
  {
    TrimSpec(s);
    var i := |s| - |TrimStart(s)|;
    assert Trim(s) == s[i..i + |Trim(s)|];
  }

  /** The fallback reads the text up to the first period as the title and the text after it
      as the description; a text without a period is all title. */
  lemma FallbackSpec(item: string)
    ensures var sentences := SplitChar(item, '.');
      match Find(item, '.')
      case None => sentences == [item] && JoinChar(sentences[1..], '.') == []
      case Some(i) => sentences[0] == item[..i] && JoinChar(sentences[1..], '.') == item[i + 1..]
  {
    match Find(item, '.')
    case None =>
    case Some(i) =>
      JoinSplit(item[i + 1..], '.');
  }

  /** The title never holds a period; when the pattern matched, it holds no colon either, and
      the description is the trimmed text after the first mark. */
  lemma FormatOneTitle(item: string)
    ensures '.' !in FormatOne(item).title
    ensures TitleMatch(item).Some? ==>
      && ':' !in FormatOne(item).title
      && FormatOne(item).description == Trim(item[FirstMark(item, 0).value + 1..])
  {
    match TitleMatch(item)
    case Some((t, d)) =>
      var k := FirstMark(item, 0).value;
      assert t == item[..k];
      assert '.' !in t && ':' !in t by {
        forall j | 0 <= j < |t|
          ensures !IsMark(t[j])
        {
          assert t[j] == item[j];
        }
      }
      NotInTrim(t, '.');
      NotInTrim(t, ':');
    case None =>
      JoinSplit(item, '.');
      NotInTrim(SplitChar(item, '.')[0], '.');
  }

  /** An item that starts with a mark, or whose text after its first mark breaks a line, takes
      the fallback. */
  lemma FallbackCases(item: string)
    ensures item != [] && IsMark(item[0]) ==> TitleMatch(item).None?
    ensures var m := FirstMark(item, 0);
      m.Some? && (exists j :: m.value < j < |item| && IsLineTerminator(item[j])) ==> TitleMatch(item).None?
  {
    var m := FirstMark(item, 0);
    if m.Some? && TitleMatch(item).Some? {
      var k := m.value;
      forall j | k < j < |item|
        ensures !IsLineTerminator(item[j])
      {
        assert item[j] == item[k + 1..][j - k - 1];
      }
    }
  }

  /** The first two items, formatted. */
  function FormatRecipes(text: string, ingredient: string): (r: Formatted)
    ensures r.ingredient == ingredient
    ensures var items := KeepNonBlank(Pieces(text));
      && |r.recipes| == (if |items| < 2 then |items| else 2)
      && forall i :: 0 <= i < |r.recipes| ==> r.recipes[i] == FormatOne(items[i])
  {
    var items := KeepNonBlank(Pieces(text));
    var recipes := seq(|items|, i requires 0 <= i < |items| => FormatOne(items[i]));
    Formatted(ingredient, if |recipes| < 2 then recipes else recipes[..2])
  }

  /** Every recipe comes from a non-blank piece of the text, and there are at most two. */
  lemma FormatRecipesFromPieces(text: string, ingredient: string)
    ensures var r := FormatRecipes(text, ingredient);
      && |r.recipes| <= 2
      && forall i :: 0 <= i < |r.recipes| ==>
           exists p :: p in Pieces(text) && NonBlank(p) && r.recipes[i] == FormatOne(p)
  {
    var items := KeepNonBlank(Pieces(text));
    var r := FormatRecipes(text, ingredient);
    FilterMembers(Pieces(text), NonBlank);
    forall i | 0 <= i < |r.recipes|
      ensures exists p :: p in Pieces(text) && NonBlank(p) && r.recipes[i] == FormatOne(p)
    {
      assert items[i] in items;
    }
  }
}
