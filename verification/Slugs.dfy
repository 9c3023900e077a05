/** `NormalizeSlug` against the language of `slugRegex`. */
module Slugs {

  predicate IsWordChar(c: char) { 'a' <= c <= 'z' || '0' <= c <= '9' }

  predicate IsSlugChar(c: char) { IsWordChar(c) || c == '-' }

  /** The Unicode tables: lower case and white space. */
  datatype Tables = Tables(lower: char -> char, isSpace: char -> bool)

  /** What is assumed of them: they leave slug characters alone, and slug characters are not white space. */
  ghost predicate Sane(t: Tables) {
    forall c :: IsSlugChar(c) ==> t.lower(c) == c && !t.isSpace(c)
  }

  // ---- the passes ------------------------------------------------------------------------------

  function Lowered(t: Tables, s: string): string {
    seq(|s|, i requires 0 <= i < |s| => t.lower(s[i]))
  }

  function TrimLeft(s: string, p: char -> bool): string {
    if s != [] && p(s[0]) then TrimLeft(s[1..], p) else s
  }

  function TrimRight(s: string, p: char -> bool): string {
    if s != [] && p(s[|s| - 1]) then TrimRight(s[..|s| - 1], p) else s
  }

  function Trim(s: string, p: char -> bool): string { TrimRight(TrimLeft(s, p), p) }

  function ReplaceChar(s: string, from: char, to: char): string {
    seq(|s|, i requires 0 <= i < |s| => if s[i] == from then to else s[i])
  }

  function Kept(s: string): string {
    if s == [] then [] else (if IsSlugChar(s[0]) then [s[0]] else []) + Kept(s[1..])
  }

  predicate IsHyphen(c: char) { c == '-' }

  predicate HasDouble(s: string) { exists i :: 0 <= i < |s| - 1 && s[i] == '-' && s[i + 1] == '-' }

  /** `strings.ReplaceAll(s, "--", "-")`: pairs from the left, without looking at what was put in. */
  function ReplaceDoubles(s: string): string {
    if |s| < 2 then s
    else if s[0] == '-' && s[1] == '-' then ['-'] + ReplaceDoubles(s[2..])
    else [s[0]] + ReplaceDoubles(s[1..])
  }

  /** Every run of hyphens made one: what the loop is for. */
  function Squeezed(s: string): string {
    if |s| < 2 then s
    else if s[0] == '-' && s[1] == '-' then Squeezed(s[1..])
    else [s[0]] + Squeezed(s[1..])
  }

  function Slug(t: Tables, s: string): string {
    Trim(Squeezed(Kept(ReplaceChar(ReplaceChar(Trim(Lowered(t, s), t.isSpace), ' ', '-'), '_', '-'))), IsHyphen)
  }

  // ---- the collapse loop -----------------------------------------------------------------------

  /** A pass leaves a first character that is a hyphen exactly if there was one. */
  lemma {:induction false} ReplaceDoublesHead(s: string)
    ensures |ReplaceDoubles(s)| <= |s|
    ensures s != [] ==> ReplaceDoubles(s) != [] && ReplaceDoubles(s)[0] == s[0]
    ensures HasDouble(s) ==> |ReplaceDoubles(s)| < |s|
  {
    if |s| >= 2 {
      if s[0] == '-' && s[1] == '-' {
        ReplaceDoublesHead(s[2..]);
      } else {
        ReplaceDoublesHead(s[1..]);
        if HasDouble(s) {
          var i :| 0 <= i < |s| - 1 && s[i] == '-' && s[i + 1] == '-';
          assert s[1..][i - 1] == '-' && s[1..][i] == '-';
        }
      }
    }
  }

  lemma {:induction false} SqueezedHead(s: string)
    ensures s != [] ==> Squeezed(s) != [] && Squeezed(s)[0] == s[0]
  {
    if |s| >= 2 {
      SqueezedHead(s[1..]);
    }
  }

  /** A pass does not change what squeezing gives. */
  lemma {:induction false} PassKeepsSqueezed(s: string)
    ensures Squeezed(ReplaceDoubles(s)) == Squeezed(s)
    decreases |s|
  {
    if |s| >= 2 {
      if s[0] == '-' && s[1] == '-' {
        PassKeepsSqueezed(s[2..]);
        ReplaceDoublesHead(s[2..]);
        assert s[1..] == ['-'] + s[2..];
      } else {
        PassKeepsSqueezed(s[1..]);
        ReplaceDoublesHead(s[1..]);
      }
    }
  }

  lemma {:induction false} NothingToSqueeze(s: string)
    requires !HasDouble(s)
    ensures Squeezed(s) == s
  {
    if |s| >= 2 {
      forall i | 0 <= i < |s[1..]| - 1 ensures !(s[1..][i] == '-' && s[1..][i + 1] == '-') {
        assert s[1..][i] == s[i + 1] && s[1..][i + 1] == s[i + 2];
      }
      NothingToSqueeze(s[1..]);
    }
  }

  lemma {:induction false} KeptSnoc(s: string, c: char)
    ensures Kept(s + [c]) == if IsSlugChar(c) then Kept(s) + [c] else Kept(s)
  {
    if s == [] {
      assert s + [c] == [c] && [c][1..] == [];
    } else {
      var whole, rest := s + [c], s[1..];
      var first := if IsSlugChar(s[0]) then [s[0]] else [];
      assert whole[0] == s[0] && whole[1..] == rest + [c];
      KeptSnoc(rest, c);
      assert first + (Kept(rest) + [c]) == (first + Kept(rest)) + [c];
    }
  }

  /** The builder loop. */
  method Keep(s: string) returns (result: string)
    ensures result == Kept(s)
  {
    result := "";
    for i := 0 to |s|
      invariant result == Kept(s[..i])
    {
      assert s[..i + 1] == s[..i] + [s[i]];
      KeptSnoc(s[..i], s[i]);
      if IsWordChar(s[i]) || s[i] == '-' {
        result := result + [s[i]];
      }
    }
    assert s[..|s|] == s;
  }

  /** The collapse loop; every pass shortens the string. */
  method CollapseHyphens(input: string) returns (s: string)
    ensures s == Squeezed(input)
  {
    s := input;
    while HasDouble(s)
      invariant Squeezed(s) == Squeezed(input)
      decreases |s|
    {
      ReplaceDoublesHead(s);
      PassKeepsSqueezed(s);
      s := ReplaceDoubles(s);
    }
    NothingToSqueeze(s);
  }

  method NormalizeSlug(t: Tables, input: string) returns (s: string)
    ensures s == Slug(t, input)
  {
    s := Lowered(t, input);
    s := Trim(s, t.isSpace);
    s := ReplaceChar(s, ' ', '-');
    s := ReplaceChar(s, '_', '-');
    s := Keep(s);
    s := CollapseHyphens(s);
    s := Trim(s, IsHyphen);
  }

  // ---- the language ----------------------------------------------------------------------------

  predicate IsWord(w: string) { w != [] && forall c :: c in w ==> IsWordChar(c) }

  function Join(words: seq<string>): string {
    if words == [] then []
    else if |words| == 1 then words[0]
    else words[0] + "-" + Join(words[1..])
  }

  /** The language of `^[a-z0-9]+(?:-[a-z0-9]+)*$`. */
  ghost predicate MatchesRegex(s: string) {
    exists words: seq<string> :: words != [] && (forall w :: w in words ==> IsWord(w)) && s == Join(words)
  }

  /** The same language character by character. */
  predicate IsSlug(s: string) {
    && s != [] && s[0] != '-' && s[|s| - 1] != '-' && !HasDouble(s)
    && forall c :: c in s ==> IsSlugChar(c)
  }

  lemma WordIsSlug(w: string)
    requires IsWord(w)
    ensures IsSlug(w)
  {
    forall i | 0 <= i < |w| ensures IsWordChar(w[i]) { assert w[i] in w; }
  }

  lemma HyphenJoins(w: string, rest: string)
    requires IsWord(w) && IsSlug(rest)
    ensures IsSlug(w + "-" + rest)
  {
    WordIsSlug(w);
    var s := w + "-" + rest;
    assert s[|s| - 1] == rest[|rest| - 1];
    forall i | 0 <= i < |s| - 1 ensures !(s[i] == '-' && s[i + 1] == '-') {
      if i < |w| {
        assert s[i] == w[i] && w[i] in w;
      } else if i == |w| {
        assert s[i + 1] == rest[0];
      } else {
        assert s[i] == rest[i - |w| - 1] && s[i + 1] == rest[i - |w|];
      }
    }
  }

  lemma {:induction false} JoinIsSlug(words: seq<string>)
    requires words != [] && forall w :: w in words ==> IsWord(w)
    ensures IsSlug(Join(words))
  {
    assert words[0] in words;
    if |words| > 1 {
      JoinIsSlug(words[1..]);
      HyphenJoins(words[0], Join(words[1..]));
    } else {
      WordIsSlug(words[0]);
    }
  }

  /** The length of the first word. */
  function FirstWord(s: string): (n: nat)
    ensures n <= |s| && (n < |s| ==> s[n] == '-') && forall i :: 0 <= i < n ==> s[i] != '-'
  {
    if s == [] || s[0] == '-' then 0 else 1 + FirstWord(s[1..])
  }

  lemma {:induction false} SlugSplits(s: string) returns (words: seq<string>)
    requires IsSlug(s)
    ensures words != [] && (forall w :: w in words ==> IsWord(w)) && s == Join(words)
    decreases |s|
  {
    var n := FirstWord(s);
    var w := s[..n];
    assert n > 0;
    forall c | c in w ensures IsWordChar(c) {
      var i :| 0 <= i < n && s[i] == c;
      assert s[i] in s;
    }
    if n == |s| {
      assert w == s;
      words := [s];
    } else {
      var rest := s[n + 1..];
      assert n + 1 < |s|;
      TailIsSlug(s, n);
      var more := SlugSplits(rest);
      words := [w] + more;
      assert words[1..] == more;
      assert s == w + "-" + rest;
    }
  }

  lemma TailIsSlug(s: string, n: nat)
    requires IsSlug(s) && n + 1 < |s| && s[n] == '-'
    ensures IsSlug(s[n + 1..])
  {
    var rest := s[n + 1..];
    forall i | 0 <= i < |rest| - 1 ensures !(rest[i] == '-' && rest[i + 1] == '-') {
      assert rest[i] == s[n + 1 + i] && rest[i + 1] == s[n + 1 + (i + 1)];
    }
  }

  lemma RegexMeans(s: string)
    ensures MatchesRegex(s) <==> IsSlug(s)
  {
    if words: seq<string> :| words != [] && (forall w :: w in words ==> IsWord(w)) && s == Join(words) {
      JoinIsSlug(words);
    }
    if IsSlug(s) {
      var words := SlugSplits(s);
    }
  }

  // ---- what the passes do ----------------------------------------------------------------------

  lemma {:induction false} TrimLeftIsSuffix(s: string, p: char -> bool) returns (k: nat)
    ensures k <= |s| && TrimLeft(s, p) == s[k..]
    ensures forall i :: 0 <= i < k ==> p(s[i])
    ensures k < |s| ==> !p(s[k])
  {
    if s != [] && p(s[0]) {
      var m := TrimLeftIsSuffix(s[1..], p);
      k := m + 1;
      assert s[1..][m..] == s[k..];
      assert forall i :: 0 < i < k ==> s[i] == s[1..][i - 1];
    } else {
      k := 0;
      assert s[0..] == s;
    }
  }

  lemma {:induction false} TrimRightIsPrefix(s: string, p: char -> bool) returns (k: nat)
    ensures k <= |s| && TrimRight(s, p) == s[..k]
    ensures forall i :: k <= i < |s| ==> p(s[i])
    ensures k > 0 ==> !p(s[k - 1])
    decreases |s|
  {
    if s != [] && p(s[|s| - 1]) {
      k := TrimRightIsPrefix(s[..|s| - 1], p);
      assert s[..|s| - 1][..k] == s[..k];
      assert forall i :: 0 <= i < |s| - 1 ==> s[i] == s[..|s| - 1][i];
    } else {
      k := |s|;
      assert s[..|s|] == s;
    }
  }

  /** Trimming cuts a middle part out, dropping only characters of the kind. */
  lemma TrimIsMiddle(s: string, p: char -> bool) returns (a: nat, b: nat)
    ensures a <= b <= |s| && Trim(s, p) == s[a..b]
    ensures forall i :: 0 <= i < a || b <= i < |s| ==> p(s[i])
    ensures a < b ==> !p(s[a]) && !p(s[b - 1])
  {
    a := TrimLeftIsSuffix(s, p);
    var m := TrimRightIsPrefix(s[a..], p);
    b := a + m;
    assert s[a..][..m] == s[a..b];
    assert forall i :: a <= i < |s| ==> s[i] == s[a..][i - a];
  }

  lemma {:induction false} KeptIsClean(s: string)
    ensures forall c :: c in Kept(s) ==> IsSlugChar(c)
  {
    if s != [] {
      KeptIsClean(s[1..]);
    }
  }

  lemma {:induction false} SqueezedIsSingle(s: string)
    ensures !HasDouble(Squeezed(s))
    ensures forall c :: c in Squeezed(s) ==> c in s
  {
    if |s| >= 2 {
      SqueezedIsSingle(s[1..]);
      SqueezedHead(s[1..]);
      var r, rest := Squeezed(s), Squeezed(s[1..]);
      if !(s[0] == '-' && s[1] == '-') {
        forall i | 0 <= i < |r| - 1 ensures !(r[i] == '-' && r[i + 1] == '-') {
          if i > 0 {
            assert r[i] == rest[i - 1] && r[i + 1] == rest[i];
          } else {
            assert r[1] == rest[0];
          }
        }
      }
    }
  }

  /** Whatever comes in, the slug is empty or a word of the expression. */
  lemma SlugIsNormal(t: Tables, s: string)
    ensures Slug(t, s) == "" || MatchesRegex(Slug(t, s))
  {
    var kept := Kept(ReplaceChar(ReplaceChar(Trim(Lowered(t, s), t.isSpace), ' ', '-'), '_', '-'));
    var single := Squeezed(kept);
    KeptIsClean(ReplaceChar(ReplaceChar(Trim(Lowered(t, s), t.isSpace), ' ', '-'), '_', '-'));
    SqueezedIsSingle(kept);
    var a, b := TrimIsMiddle(single, IsHyphen);
    var r := single[a..b];
    if r != [] {
      forall i | 0 <= i < |r| - 1 ensures !(r[i] == '-' && r[i + 1] == '-') {
        assert r[i] == single[a + i] && r[i + 1] == single[a + (i + 1)];
      }
      assert r[|r| - 1] == single[b - 1];
      RegexMeans(r);
    }
  }

  // ---- identity and idempotence ----------------------------------------------------------------

  lemma {:induction false} NothingToDrop(s: string)
    requires forall c :: c in s ==> IsSlugChar(c)
    ensures Kept(s) == s
  {
    if s != [] {
      assert s[0] in s;
      NothingToDrop(s[1..]);
    }
  }

  /** Words of the expression are left as they are. */
  lemma SlugsAreFixed(t: Tables, s: string)
    requires Sane(t) && MatchesRegex(s)
    ensures Slug(t, s) == s
  {
    RegexMeans(s);
    forall i | 0 <= i < |s| ensures IsSlugChar(s[i]) { assert s[i] in s; }
    assert Lowered(t, s) == s;
    assert ReplaceChar(s, ' ', '-') == s && ReplaceChar(s, '_', '-') == s;
    NothingToDrop(s);
    NothingToSqueeze(s);
  }

  lemma SlugIsIdempotent(t: Tables, s: string)
    requires Sane(t)
    ensures Slug(t, Slug(t, s)) == Slug(t, s)
  {
    SlugIsNormal(t, s);
    if Slug(t, s) != "" {
      SlugsAreFixed(t, Slug(t, s));
    }
  }

  // ---- what is kept ----------------------------------------------------------------------------

  function Alnums(s: string): string {
    if s == [] then [] else (if IsWordChar(s[0]) then [s[0]] else []) + Alnums(s[1..])
  }

  lemma {:induction false} AlnumsConcat(a: string, b: string)
    ensures Alnums(a + b) == Alnums(a) + Alnums(b)
    decreases |a|
  {
    if a == [] {
      assert a + b == b;
    } else {
      var first := if IsWordChar(a[0]) then [a[0]] else [];
      AlnumsConcat(a[1..], b);
      assert a + b == [a[0]] + (a[1..] + b);
      assert Alnums(a + b) == first + Alnums(a[1..] + b);
      assert first + (Alnums(a[1..]) + Alnums(b)) == (first + Alnums(a[1..])) + Alnums(b);
    }
  }

  lemma {:induction false} NoAlnums(s: string)
    requires forall i :: 0 <= i < |s| ==> !IsWordChar(s[i])
    ensures Alnums(s) == []
  {
    if s != [] {
      NoAlnums(s[1..]);
    }
  }

  lemma TrimKeepsAlnums(s: string, p: char -> bool)
    requires forall c :: IsWordChar(c) ==> !p(c)
    ensures Alnums(Trim(s, p)) == Alnums(s)
  {
    var a, b := TrimIsMiddle(s, p);
    assert s == s[..a] + s[a..b] + s[b..];
    AlnumsConcat(s[..a] + s[a..b], s[b..]);
    AlnumsConcat(s[..a], s[a..b]);
    NoAlnums(s[..a]);
    NoAlnums(s[b..]);
  }

  lemma {:induction false} ReplaceKeepsAlnums(s: string, from: char)
    requires !IsWordChar(from)
    ensures Alnums(ReplaceChar(s, from, '-')) == Alnums(s)
  {
    if s != [] {
      assert ReplaceChar(s, from, '-')[1..] == ReplaceChar(s[1..], from, '-');
      ReplaceKeepsAlnums(s[1..], from);
    }
  }

  lemma {:induction false} KeptKeepsAlnums(s: string)
    ensures Alnums(Kept(s)) == Alnums(s)
  {
    if s != [] {
      KeptKeepsAlnums(s[1..]);
      AlnumsConcat(if IsSlugChar(s[0]) then [s[0]] else [], Kept(s[1..]));
      assert [s[0]][1..] == [];
    }
  }

  lemma {:induction false} SqueezedKeepsAlnums(s: string)
    ensures Alnums(Squeezed(s)) == Alnums(s)
  {
    if |s| >= 2 {
      SqueezedKeepsAlnums(s[1..]);
      if !(s[0] == '-' && s[1] == '-') {
        AlnumsConcat([s[0]], Squeezed(s[1..]));
        assert [s[0]][1..] == [];
      }
    }
  }

  /** The letters and digits of the slug are those of the lowered input, in order; nothing else of it is kept. */
  lemma SlugKeepsAlnums(t: Tables, s: string)
    requires Sane(t)
    ensures Alnums(Slug(t, s)) == Alnums(Lowered(t, s))
  {
    var trimmed := Trim(Lowered(t, s), t.isSpace);
    var hyphened := ReplaceChar(ReplaceChar(trimmed, ' ', '-'), '_', '-');
    TrimKeepsAlnums(Lowered(t, s), t.isSpace);
    ReplaceKeepsAlnums(trimmed, ' ');
    ReplaceKeepsAlnums(ReplaceChar(trimmed, ' ', '-'), '_');
    KeptKeepsAlnums(hyphened);
    SqueezedKeepsAlnums(Kept(hyphened));
    TrimKeepsAlnums(Squeezed(Kept(hyphened)), IsHyphen);
  }

  /** So the slug is empty exactly when the lowered input has neither a letter nor a digit. */
  lemma EmptyExactlyWhen(t: Tables, s: string)
    requires Sane(t)
    ensures Slug(t, s) == "" <==> Alnums(Lowered(t, s)) == ""
  {
    SlugKeepsAlnums(t, s);
    SlugIsNormal(t, s);
    if Slug(t, s) != "" {
      RegexMeans(Slug(t, s));
      assert Slug(t, s)[0] in Slug(t, s);
    }
  }

  // ---- words stay apart ------------------------------------------------------------------------

  /** What the last two passes make of a string. */
  function Normal(x: string): string { Trim(Squeezed(x), IsHyphen) }

  function Right(x: string): string { TrimRight(Squeezed(x), IsHyphen) }

  /** Two slugs in a row. */
  function Glued(a: string, b: string): string { if a == "" then b else if b == "" then a else a + "-" + b }

  function Tail(b: string): string { if b == "" then "" else "-" + b }

  lemma {:induction false} TrimRightCons(c: char, x: string)
    ensures TrimRight([c] + x, IsHyphen) ==
      if TrimRight(x, IsHyphen) == "" && IsHyphen(c) then "" else [c] + TrimRight(x, IsHyphen)
    decreases |x|
  {
    var s := [c] + x;
    if x != "" && IsHyphen(x[|x| - 1]) {
      assert s[|s| - 1] == x[|x| - 1] && s[..|s| - 1] == [c] + x[..|x| - 1];
      TrimRightCons(c, x[..|x| - 1]);
    } else if x == "" {
      assert s == [c] && [c][..0] == "";
    } else {
      assert s[|s| - 1] == x[|x| - 1];
    }
  }

  /** A character that is no hyphen stays in front. */
  lemma CharStays(c: char, x: string)
    requires c != '-'
    ensures Normal([c] + x) == [c] + Right(x) && Right([c] + x) == [c] + Right(x)
  {
    var s := [c] + x;
    assert s[1..] == x;
    assert Squeezed(s) == [c] + Squeezed(x);
    TrimRightCons(c, Squeezed(x));
  }

  /** A hyphen in front goes, or becomes the one hyphen before what follows. */
  lemma HyphenGoes(x: string)
    ensures Normal(['-'] + x) == Normal(x) && Right(['-'] + x) == Tail(Normal(x))
  {
    var s, q := ['-'] + x, Squeezed(x);
    assert s[1..] == x;
    SqueezedHead(x);
    SqueezedIsSingle(x);
    if x != "" && x[0] == '-' {
      assert Squeezed(s) == q && q[0] == '-';
      var rest := q[1..];
      assert q == ['-'] + rest;
      if rest != "" {
        assert rest[0] == q[1] && !(q[0] == '-' && q[0 + 1] == '-');
      }
      assert TrimLeft(q, IsHyphen) == TrimLeft(rest, IsHyphen) == rest;
      TrimRightCons('-', rest);
    } else {
      assert Squeezed(s) == ['-'] + q;
      assert (['-'] + q)[1..] == q;
      assert TrimLeft(['-'] + q, IsHyphen) == TrimLeft(q, IsHyphen) == q;
      TrimRightCons('-', q);
    }
  }

  predicate KeepsApart(x: string, y: string, whole: string) {
    Normal(whole) == Glued(Normal(x), Normal(y)) && Right(whole) == Right(x) + Tail(Normal(y))
  }

  lemma ApartAfterHyphen(x: string, y: string, whole: string)
    requires KeepsApart(x, y, whole)
    ensures KeepsApart(['-'] + x, y, ['-'] + whole)
  {
    HyphenGoes(x);
    HyphenGoes(whole);
    TailOfGlued(Normal(x), Normal(y));
  }

  lemma ApartAfterChar(c: char, x: string, y: string, whole: string)
    requires KeepsApart(x, y, whole) && c != '-'
    ensures KeepsApart([c] + x, y, [c] + whole)
  {
    CharStays(c, x);
    CharStays(c, whole);
    var r, tail := Right(x), Tail(Normal(y));
    assert [c] + (r + tail) == ([c] + r) + tail;
    GluedIsTail([c] + r, Normal(y));
  }

  /** A hyphen between two strings keeps them apart. */
  lemma {:induction false} HyphenKeepsApart(x: string, y: string)
    ensures KeepsApart(x, y, x + "-" + y)
    decreases |x|
  {
    if x == "" {
      assert x + "-" + y == ['-'] + y;
      HyphenGoes(y);
    } else {
      var c, rest := x[0], x[1..];
      assert x == [c] + rest && x + "-" + y == [c] + (rest + "-" + y);
      HyphenKeepsApart(rest, y);
      if c == '-' {
        ApartAfterHyphen(rest, y, rest + "-" + y);
      } else {
        ApartAfterChar(c, rest, y, rest + "-" + y);
      }
    }
  }

  lemma GluedIsTail(a: string, b: string)
    requires a != ""
    ensures Glued(a, b) == a + Tail(b)
  {
    assert a + ("-" + b) == a + "-" + b;
  }

  lemma TailOfGlued(a: string, b: string)
    ensures Tail(Glued(a, b)) == Tail(a) + Tail(b)
  {
    if a == "" {
      assert Tail(a) + Tail(b) == Tail(b);
    } else if b == "" {
      assert Tail(a) + Tail(b) == Tail(a);
    } else {
      GluedIsTail(a, b);
      assert ['-'] + (a + Tail(b)) == (['-'] + a) + Tail(b);
    }
  }

  /** What the passes up to the last two make of a string that is lower-case already. */
  function Clean(u: string): string { Kept(ReplaceChar(ReplaceChar(u, ' ', '-'), '_', '-')) }

  lemma {:induction false} KeptConcat(a: string, b: string)
    ensures Kept(a + b) == Kept(a) + Kept(b)
    decreases |b|
  {
    if b == "" {
      assert a + b == a;
    } else {
      var init, c := b[..|b| - 1], b[|b| - 1];
      assert b == init + [c] && a + b == (a + init) + [c];
      KeptConcat(a, init);
      KeptSnoc(a + init, c);
      KeptSnoc(init, c);
    }
  }

  lemma CleanConcat(a: string, b: string)
    ensures Clean(a + b) == Clean(a) + Clean(b)
  {
    assert ReplaceChar(a + b, ' ', '-') == ReplaceChar(a, ' ', '-') + ReplaceChar(b, ' ', '-');
    var a', b' := ReplaceChar(a, ' ', '-'), ReplaceChar(b, ' ', '-');
    assert ReplaceChar(a' + b', '_', '-') == ReplaceChar(a', '_', '-') + ReplaceChar(b', '_', '-');
    KeptConcat(ReplaceChar(a', '_', '-'), ReplaceChar(b', '_', '-'));
  }

  lemma CleanOne(c: char)
    ensures Clean([c]) == if c in {' ', '_', '-'} then "-" else if IsWordChar(c) then [c] else ""
  {
    var d := if c in {' ', '_'} then '-' else c;
    var one := if c == ' ' then '-' else c;
    assert ReplaceChar([c], ' ', '-') == [one];
    assert ReplaceChar([one], '_', '-') == [d];
    KeptSnoc("", d);
    assert "" + [d] == [d];
  }

  /** White space comes to hyphens and nothing else. */
  lemma {:induction false} SpacesCleanToHyphens(t: Tables, u: string, x: string)
    requires Sane(t) && forall i :: 0 <= i < |u| ==> t.isSpace(u[i])
    ensures Normal(Clean(u) + x) == Normal(x) && Normal(x + Clean(u)) == Normal(x)
    ensures Normal(Clean(u)) == ""
    decreases |u|
  {
    if u == "" {
      assert Clean(u) == "" && Clean(u) + x == x && x + Clean(u) == x;
    } else {
      var c, rest := u[0], u[1..];
      assert u == [c] + rest;
      CleanConcat([c], rest);
      CleanOne(c);
      assert forall i :: 0 <= i < |rest| ==> rest[i] == u[i + 1];
      SpacesCleanToHyphens(t, rest, x);
      if Clean([c]) == "-" {
        assert Clean(u) + x == ['-'] + (Clean(rest) + x) && x + Clean(u) == x + "-" + Clean(rest);
        HyphenGoes(Clean(rest) + x);
        HyphenGoes(Clean(rest));
        HyphenKeepsApart(x, Clean(rest));
      } else {
        assert Clean(u) == Clean(rest);
      }
    }
  }

  lemma SpacesAround(t: Tables, u: string, x: string, v: string)
    requires Sane(t) && (forall i :: 0 <= i < |u| ==> t.isSpace(u[i])) && forall i :: 0 <= i < |v| ==> t.isSpace(v[i])
    ensures Normal(Clean(u) + x + Clean(v)) == Normal(x)
  {
    SpacesCleanToHyphens(t, u, x + Clean(v));
    SpacesCleanToHyphens(t, v, x);
    assert Clean(u) + x + Clean(v) == Clean(u) + (x + Clean(v));
  }

  /** Trimming white space first makes no difference. */
  lemma SlugIsClean(t: Tables, s: string)
    requires Sane(t)
    ensures Slug(t, s) == Normal(Clean(Lowered(t, s)))
  {
    var u := Lowered(t, s);
    var a, b := TrimIsMiddle(u, t.isSpace);
    var mid := u[a..b];
    assert u == (u[..a] + mid) + u[b..];
    CleanConcat(u[..a] + mid, u[b..]);
    CleanConcat(u[..a], mid);
    SpacesAround(t, u[..a], Clean(mid), u[b..]);
  }

  lemma CleanAround(t: Tables, a: string, c: char, b: string)
    ensures Clean(Lowered(t, a + [c] + b)) == Clean(Lowered(t, a)) + Clean([t.lower(c)]) + Clean(Lowered(t, b))
  {
    assert Lowered(t, a + [c] + b) == Lowered(t, a) + [t.lower(c)] + Lowered(t, b);
    CleanConcat(Lowered(t, a) + [t.lower(c)], Lowered(t, b));
    CleanConcat(Lowered(t, a), [t.lower(c)]);
  }

  /** A blank, an underscore or a hyphen keeps what is before and after it apart: the slugs of both with one hyphen between. */
  lemma WordsStayApart(t: Tables, a: string, c: char, b: string)
    requires Sane(t) && t.lower(' ') == ' ' && t.lower('_') == '_' && c in {' ', '_', '-'}
    ensures Slug(t, a + [c] + b) ==
      if Slug(t, a) == "" then Slug(t, b)
      else if Slug(t, b) == "" then Slug(t, a)
      else Slug(t, a) + "-" + Slug(t, b)
  {
    SlugIsClean(t, a + [c] + b);
    SlugIsClean(t, a);
    SlugIsClean(t, b);
    CleanAround(t, a, c, b);
    CleanOne(c);
    HyphenKeepsApart(Clean(Lowered(t, a)), Clean(Lowered(t, b)));
  }

  /** Whatever else is no letter and no digit vanishes, tabs and line breaks included. */
  lemma OthersVanish(t: Tables, a: string, c: char, b: string)
    requires Sane(t) && !IsWordChar(t.lower(c)) && t.lower(c) !in {' ', '_', '-'}
    ensures Slug(t, a + [c] + b) == Slug(t, a + b)
  {
    SlugIsClean(t, a + [c] + b);
    SlugIsClean(t, a + b);
    CleanAround(t, a, c, b);
    CleanOne(t.lower(c));
    assert Lowered(t, a + b) == Lowered(t, a) + Lowered(t, b);
    CleanConcat(Lowered(t, a), Lowered(t, b));
    assert Clean(Lowered(t, a)) + "" == Clean(Lowered(t, a));
  }

  lemma WordIsNormal(u: string)
    requires IsWord(u)
    ensures Normal(Clean(u)) == u
  {
    forall i | 0 <= i < |u| ensures IsWordChar(u[i]) { assert u[i] in u; }
    assert ReplaceChar(u, ' ', '-') == u;
    assert ReplaceChar(u, '_', '-') == u;
    NothingToDrop(u);
    WordIsSlug(u);
    NothingToSqueeze(u);
    assert TrimLeft(u, IsHyphen) == u && TrimRight(u, IsHyphen) == u;
  }

  /** And letters and digits are kept, in lower case. */
  lemma WordsAreLowered(t: Tables, s: string)
    requires Sane(t) && s != "" && forall i :: 0 <= i < |s| ==> IsWordChar(t.lower(s[i]))
    ensures |Slug(t, s)| == |s| && forall i :: 0 <= i < |s| ==> Slug(t, s)[i] == t.lower(s[i])
  {
    var u := Lowered(t, s);
    SlugIsClean(t, s);
    forall c | c in u ensures IsWordChar(c) {
      var i :| 0 <= i < |u| && u[i] == c;
      assert IsWordChar(t.lower(s[i]));
    }
    WordIsNormal(u);
  }
}
