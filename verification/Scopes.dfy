/** Splitting of root emails and OIDC scopes, and the stored form of the scopes. */
module Scopes {

  /** `unicode.IsSpace`, of which only this is assumed: blanks are white space and lower-case letters are not. */
  ghost predicate Sane(isSpace: char -> bool) {
    isSpace(' ') && forall c :: 'a' <= c <= 'z' ==> !isSpace(c)
  }

  predicate IsSeparator(isSpace: char -> bool, c: char) { c == ',' || c == ';' || isSpace(c) }

  /** The length of the run of other characters in front. */
  function Run(sp: char -> bool, s: string): (n: nat)
    ensures n <= |s| && (n < |s| ==> IsSeparator(sp, s[n])) && forall i :: 0 <= i < n ==> !IsSeparator(sp, s[i])
  {
    if s == [] || IsSeparator(sp, s[0]) then 0 else 1 + Run(sp, s[1..])
  }

  /** `strings.FieldsFunc`. */
  function Fields(sp: char -> bool, s: string): seq<string>
    decreases |s|
  {
    if s == [] then []
    else if IsSeparator(sp, s[0]) then Fields(sp, s[1..])
    else [s[..Run(sp, s)]] + Fields(sp, s[Run(sp, s)..])
  }

  /** Later copies are dropped. */
  function Dedupe(ts: seq<string>): seq<string> {
    if ts == [] then []
    else Dedupe(ts[..|ts| - 1]) + (if ts[|ts| - 1] in ts[..|ts| - 1] then [] else [ts[|ts| - 1]])
  }

  function Without(ts: seq<string>, t: string): seq<string> {
    if ts == [] then []
    else Without(ts[..|ts| - 1], t) + (if ts[|ts| - 1] == t then [] else [ts[|ts| - 1]])
  }

  const OPENID := "openid"
  const DEFAULT_SCOPES := "openid email profile"

  function RootEmails(sp: char -> bool, setting: string): seq<string> { Dedupe(Fields(sp, setting)) }

  function ScopesOf(sp: char -> bool, raw: string): seq<string> {
    [OPENID] + Without(RootEmails(sp, raw), OPENID)
  }

  function Join(ts: seq<string>): string {
    if ts == [] then [] else if |ts| == 1 then ts[0] else ts[0] + " " + Join(ts[1..])
  }

  /** The raw value a write path works from. */
  function Effective(sp: char -> bool, raw: string): string {
    if RootEmails(sp, raw) == [] then DEFAULT_SCOPES else raw
  }

  function ForStorage(sp: char -> bool, raw: string): string { Join(ScopesOf(sp, Effective(sp, raw))) }

  /** The scopes in force: the environment, else the database of an installed instance, else the default. */
  function Resolved(sp: char -> bool, env: string, installed: bool, stored: string): seq<string> {
    var raw := if env == "" && installed then stored else env;
    ScopesOf(sp, if raw == "" then DEFAULT_SCOPES else raw)
  }

  // ---- the loops -------------------------------------------------------------------------------

  lemma {:induction false} DedupeMembers(ts: seq<string>)
    ensures forall t :: t in Dedupe(ts) <==> t in ts
  {
    if ts != [] {
      var init, last := ts[..|ts| - 1], ts[|ts| - 1];
      DedupeMembers(init);
      assert ts == init + [last];
    }
  }

  method ParseRootEmails(sp: char -> bool, setting: string) returns (out: seq<string>)
    ensures out == RootEmails(sp, setting)
  {
    if setting == "" {
      return [];
    }
    var fields := Fields(sp, setting);
    var seen: set<string> := {};
    out := [];
    for i := 0 to |fields|
      invariant out == Dedupe(fields[..i])
      invariant forall t :: t in seen <==> t in fields[..i]
    {
      var e := fields[i];
      assert fields[..i + 1] == fields[..i] + [e] && fields[..i + 1][..i] == fields[..i];
      if e !in seen {
        seen := seen + {e};
        out := out + [e];
      }
    }
    assert fields[..|fields|] == fields;
  }

  method ParseScopes(sp: char -> bool, raw: string) returns (out: seq<string>)
    ensures out == ScopesOf(sp, raw)
  {
    var parsed := ParseRootEmails(sp, raw);
    out := [OPENID];
    for i := 0 to |parsed|
      invariant out == [OPENID] + Without(parsed[..i], OPENID)
    {
      assert parsed[..i + 1][..i] == parsed[..i];
      if parsed[i] != OPENID {
        out := out + [parsed[i]];
      }
    }
    assert parsed[..|parsed|] == parsed;
  }

  // ---- what the splitter finds -----------------------------------------------------------------

  predicate IsToken(sp: char -> bool, t: string) { t != [] && forall i :: 0 <= i < |t| ==> !IsSeparator(sp, t[i]) }

  /** `s[i..j]` is a token that cannot be made longer on either side. */
  predicate Maximal(sp: char -> bool, s: string, i: int, j: int) {
    && 0 <= i < j <= |s| && (forall k :: i <= k < j ==> !IsSeparator(sp, s[k]))
    && (i > 0 ==> IsSeparator(sp, s[i - 1])) && (j < |s| ==> IsSeparator(sp, s[j]))
  }

  lemma {:induction false} FieldsAreTokens(sp: char -> bool, s: string)
    ensures forall t :: t in Fields(sp, s) ==> IsToken(sp, t)
    decreases |s|
  {
    if s != [] {
      if IsSeparator(sp, s[0]) {
        FieldsAreTokens(sp, s[1..]);
      } else {
        FieldsAreTokens(sp, s[Run(sp, s)..]);
      }
    }
  }

  lemma {:induction false} RunOfConcat(sp: char -> bool, a: string, b: string)
    ensures Run(sp, a + b) == if Run(sp, a) < |a| then Run(sp, a) else |a| + Run(sp, b)
  {
    if a == "" {
      assert a + b == b;
    } else {
      assert (a + b)[0] == a[0] && (a + b)[1..] == a[1..] + b;
      RunOfConcat(sp, a[1..], b);
    }
  }

  /** A comma, a semicolon and any white space separate: the fields are those before it and those after it. */
  lemma {:induction false} SeparatorsSplit(sp: char -> bool, a: string, c: char, b: string)
    requires c == ',' || c == ';' || sp(c)
    ensures Fields(sp, a + [c] + b) == Fields(sp, a) + Fields(sp, b)
    decreases |a|
  {
    var s := a + [c] + b;
    if a == "" {
      assert s[0] == c && s[1..] == b;
    } else if IsSeparator(sp, a[0]) {
      assert s[0] == a[0] && s[1..] == a[1..] + [c] + b;
      SeparatorsSplit(sp, a[1..], c, b);
    } else {
      var n := Run(sp, a);
      assert s == a + ([c] + b) && s[0] == a[0];
      RunOfConcat(sp, a, [c] + b);
      assert Run(sp, [c] + b) == 0;
      assert s[..n] == a[..n] && s[n..] == a[n..] + [c] + b;
      SeparatorsSplit(sp, a[n..], c, b);
      assert [a[..n]] + (Fields(sp, a[n..]) + Fields(sp, b)) == ([a[..n]] + Fields(sp, a[n..])) + Fields(sp, b);
    }
  }

  /** Nothing else separates. */
  lemma OthersDoNotSplit(sp: char -> bool, s: string)
    requires s != "" && forall i :: 0 <= i < |s| ==> s[i] != ',' && s[i] != ';' && !sp(s[i])
    ensures Fields(sp, s) == [s]
  {
    assert Run(sp, s) == |s|;
    assert s[..|s|] == s && s[|s|..] == "";
  }

  lemma SliceOfTail(s: string, n: nat, i: nat, j: nat)
    requires n <= |s| && i <= j <= |s| - n
    ensures s[n..][i..j] == s[i + n..j + n]
  {
    assert |s[n..][i..j]| == |s[i + n..j + n]|;
    forall k | 0 <= k < j - i ensures s[n..][i..j][k] == s[i + n..j + n][k] {
      assert s[n..][i..j][k] == s[n..][i + k] == s[i + n + k];
    }
  }

  lemma MaximalShifts(sp: char -> bool, s: string, n: nat, i: nat, j: nat)
    requires n <= |s| && Maximal(sp, s[n..], i, j)
    requires i > 0 || n == 0 || IsSeparator(sp, s[n - 1])
    ensures Maximal(sp, s, i + n, j + n) && s[n..][i..j] == s[i + n..j + n]
  {
    var tail := s[n..];
    forall k | i + n <= k < j + n ensures !IsSeparator(sp, s[k]) { assert s[k] == tail[k - n]; }
    if i > 0 {
      assert s[i + n - 1] == tail[i - 1];
    }
    if j < |tail| {
      assert s[j + n] == tail[j];
    }
    SliceOfTail(s, n, i, j);
  }

  /** Every field is a maximal run. */
  lemma {:induction false} FieldIsMaximal(sp: char -> bool, s: string, t: string) returns (i: nat, j: nat)
    requires t in Fields(sp, s)
    ensures Maximal(sp, s, i, j) && t == s[i..j]
    decreases |s|
  {
    if !IsSeparator(sp, s[0]) && t == s[..Run(sp, s)] {
      i, j := 0, Run(sp, s);
    } else {
      var n := if IsSeparator(sp, s[0]) then 1 else Run(sp, s);
      i, j := FieldIsMaximal(sp, s[n..], t);
      MaximalShifts(sp, s, n, i, j);
      i, j := i + n, j + n;
    }
  }

  /** And every maximal run is a field. */
  lemma {:induction false} MaximalIsField(sp: char -> bool, s: string, i: nat, j: nat)
    requires Maximal(sp, s, i, j)
    ensures s[i..j] in Fields(sp, s)
    decreases |s|
  {
    if IsSeparator(sp, s[0]) {
      MaximalInTail(sp, s, 1, i, j);
      MaximalIsField(sp, s[1..], i - 1, j - 1);
    } else {
      var n := Run(sp, s);
      if i == 0 {
        assert j == n;
      } else {
        assert n <= i - 1;
        MaximalInTail(sp, s, n, i, j);
        MaximalIsField(sp, s[n..], i - n, j - n);
      }
    }
  }

  lemma MaximalInTail(sp: char -> bool, s: string, n: nat, i: nat, j: nat)
    requires Maximal(sp, s, i, j) && n <= i
    ensures Maximal(sp, s[n..], i - n, j - n) && s[i..j] == s[n..][i - n..j - n]
  {
    var tail := s[n..];
    forall k | i - n <= k < j - n ensures !IsSeparator(sp, tail[k]) { assert tail[k] == s[k + n]; }
    if i > n {
      assert tail[i - n - 1] == s[i - 1];
    }
    if j < |s| {
      assert tail[j - n] == s[j];
    }
    SliceOfTail(s, n, i - n, j - n);
  }

  // ---- order and duplicates --------------------------------------------------------------------

  predicate Distinct(ts: seq<string>) { forall i, j :: 0 <= i < j < |ts| ==> ts[i] != ts[j] }

  function FirstIndex(ts: seq<string>, t: string): (k: nat)
    requires t in ts
    ensures k < |ts| && ts[k] == t && t !in ts[..k]
  {
    if ts[0] == t then 0
    else
      assert t in ts[1..];
      assert ts[..1 + FirstIndex(ts[1..], t)] == [ts[0]] + ts[1..][..FirstIndex(ts[1..], t)];
      1 + FirstIndex(ts[1..], t)
  }

  lemma {:induction false} FirstIndexIs(ts: seq<string>, t: string, k: nat)
    requires k < |ts| && ts[k] == t && t !in ts[..k]
    ensures FirstIndex(ts, t) == k
  {
    if k > 0 {
      assert ts[..k][0] == ts[0] && ts[1..][..k - 1] == ts[..k][1..];
      FirstIndexIs(ts[1..], t, k - 1);
    }
  }

  lemma FirstIndexOfPrefix(a: seq<string>, b: seq<string>, t: string)
    requires t in a
    ensures FirstIndex(a + b, t) == FirstIndex(a, t)
  {
    var k := FirstIndex(a, t);
    assert (a + b)[..k] == a[..k];
    FirstIndexIs(a + b, t, k);
  }

  lemma {:induction false} DedupeOrder(ts: seq<string>, i: nat, j: nat)
    requires i < j < |Dedupe(ts)|
    ensures Dedupe(ts)[i] in ts && Dedupe(ts)[j] in ts
    ensures FirstIndex(ts, Dedupe(ts)[i]) < FirstIndex(ts, Dedupe(ts)[j])
    decreases |ts|
  {
    var init, last, d := ts[..|ts| - 1], ts[|ts| - 1], Dedupe(ts[..|ts| - 1]);
    DedupeMembers(ts);
    DedupeMembers(init);
    assert ts == init + [last] && Dedupe(ts)[i] == d[i];
    FirstIndexOfPrefix(init, [last], d[i]);
    if j < |d| {
      DedupeOrder(init, i, j);
      FirstIndexOfPrefix(init, [last], d[j]);
    } else {
      assert ts[..|init|] == init;
      FirstIndexIs(ts, last, |init|);
    }
  }

  /** Deduplication keeps each token once, in the order of first occurrence. */
  lemma DedupeKeepsFirsts(ts: seq<string>)
    ensures forall t :: t in Dedupe(ts) <==> t in ts
    ensures forall i, j :: 0 <= i < j < |Dedupe(ts)| ==>
      Dedupe(ts)[i] in ts && Dedupe(ts)[j] in ts && FirstIndex(ts, Dedupe(ts)[i]) < FirstIndex(ts, Dedupe(ts)[j])
  {
    DedupeMembers(ts);
    forall i, j | 0 <= i < j < |Dedupe(ts)|
      ensures Dedupe(ts)[i] in ts && Dedupe(ts)[j] in ts && FirstIndex(ts, Dedupe(ts)[i]) < FirstIndex(ts, Dedupe(ts)[j])
    {
      DedupeOrder(ts, i, j);
    }
  }

  lemma DedupeIsDistinct(ts: seq<string>)
    ensures Distinct(Dedupe(ts))
  {
    DedupeKeepsFirsts(ts);
  }

  lemma {:induction false} NothingToDedupe(ts: seq<string>)
    requires Distinct(ts)
    ensures Dedupe(ts) == ts
  {
    if ts != [] {
      var init := ts[..|ts| - 1];
      assert ts == init + [ts[|ts| - 1]];
      NothingToDedupe(init);
    }
  }

  lemma {:induction false} WithoutMembers(ts: seq<string>, t: string)
    ensures forall u :: u in Without(ts, t) <==> u in ts && u != t
    ensures Distinct(ts) ==> Distinct(Without(ts, t))
    ensures t !in ts ==> Without(ts, t) == ts
  {
    if ts != [] {
      var init, last := ts[..|ts| - 1], ts[|ts| - 1];
      assert ts == init + [last];
      WithoutMembers(init, t);
      if Distinct(ts) {
        assert last !in init;
      }
    }
  }

  lemma {:induction false} WithoutAt(ts: seq<string>, t: string, i: nat) returns (p: nat)
    requires i < |Without(ts, t)|
    ensures p < |ts| && ts[p] == Without(ts, t)[i] && |Without(ts[..p], t)| == i
  {
    var init := ts[..|ts| - 1];
    if i < |Without(init, t)| {
      p := WithoutAt(init, t, i);
      assert init[..p] == ts[..p];
    } else {
      p := |ts| - 1;
    }
  }

  lemma {:induction false} WithoutGrows(ts: seq<string>, t: string, p: nat, q: nat)
    requires p <= q <= |ts|
    ensures |Without(ts[..p], t)| <= |Without(ts[..q], t)|
    decreases q
  {
    if p < q {
      WithoutGrows(ts, t, p, q - 1);
      assert ts[..q][..q - 1] == ts[..q - 1];
    }
  }

  /** The parsed scopes: `openid` first, no duplicates, and otherwise the tokens that were given. */
  lemma ScopesAreCanonical(sp: char -> bool, raw: string)
    ensures var ss := ScopesOf(sp, raw);
      && ss[0] == OPENID && Distinct(ss)
      && (forall t :: t in ss <==> t == OPENID || t in Fields(sp, raw))
  {
    var fields := Fields(sp, raw);
    DedupeMembers(fields);
    DedupeIsDistinct(fields);
    WithoutMembers(Dedupe(fields), OPENID);
  }

  /** Both are there, and the first comes first. */
  predicate ComesBefore(ts: seq<string>, t: string, u: string) {
    t in ts && u in ts && FirstIndex(ts, t) < FirstIndex(ts, u)
  }

  lemma OrderIsKept(fields: seq<string>, i: nat, j: nat)
    requires i < j < |Without(Dedupe(fields), OPENID)|
    ensures ComesBefore(fields, Without(Dedupe(fields), OPENID)[i], Without(Dedupe(fields), OPENID)[j])
  {
    var p := WithoutAt(Dedupe(fields), OPENID, i);
    var q := WithoutAt(Dedupe(fields), OPENID, j);
    if q <= p {
      WithoutGrows(Dedupe(fields), OPENID, q, p);
      assert false;
    }
    DedupeOrder(fields, p, q);
  }

  lemma OrderAfterHead(fields: seq<string>, head: string, others: seq<string>, i: nat, j: nat)
    requires others == Without(Dedupe(fields), OPENID) && 0 < i < j <= |others|
    ensures ComesBefore(fields, ([head] + others)[i], ([head] + others)[j])
  {
    assert ([head] + others)[i] == others[i - 1] && ([head] + others)[j] == others[j - 1];
    OrderIsKept(fields, i - 1, j - 1);
  }

  /** In the order in which they were first given. */
  lemma ScopesKeepOrder(sp: char -> bool, raw: string, i: nat, j: nat, t: string, u: string)
    requires 0 < i < j < |ScopesOf(sp, raw)| && t == ScopesOf(sp, raw)[i] && u == ScopesOf(sp, raw)[j]
    ensures ComesBefore(Fields(sp, raw), t, u)
  {
    OrderAfterHead(Fields(sp, raw), OPENID, Without(Dedupe(Fields(sp, raw)), OPENID), i, j);
  }

  // ---- the stored form -------------------------------------------------------------------------

  lemma {:induction false} RunStops(sp: char -> bool, t: string, rest: string)
    requires (forall i :: 0 <= i < |t| ==> !IsSeparator(sp, t[i])) && (rest != [] ==> IsSeparator(sp, rest[0]))
    ensures Run(sp, t + rest) == |t|
  {
    if t == [] {
      assert t + rest == rest;
    } else {
      assert (t + rest)[1..] == t[1..] + rest;
      RunStops(sp, t[1..], rest);
    }
  }

  /** Splitting undoes joining. */
  lemma {:induction false} FieldsOfJoin(sp: char -> bool, ts: seq<string>)
    requires Sane(sp) && forall t :: t in ts ==> IsToken(sp, t)
    ensures Fields(sp, Join(ts)) == ts
  {
    assert forall i :: 0 <= i < |ts| ==> IsToken(sp, ts[i]);
    if |ts| == 1 {
      RunStops(sp, ts[0], []);
      assert ts[0] + [] == ts[0] && ts[0][..|ts[0]|] == ts[0];
    } else if |ts| > 1 {
      var t, rest := ts[0], Join(ts[1..]);
      var tail := " " + rest;
      assert Join(ts) == t + tail;
      RunStops(sp, t, tail);
      assert (t + tail)[..|t|] == t && (t + tail)[|t|..] == tail;
      assert tail[1..] == rest;
      FieldsOfJoin(sp, ts[1..]);
    }
  }

  lemma OpenidIsToken(sp: char -> bool)
    requires Sane(sp)
    ensures IsToken(sp, OPENID)
  {
  }

  /** A canonical list survives being joined and parsed. */
  lemma ScopesOfJoin(sp: char -> bool, raw: string)
    requires Sane(sp)
    ensures Fields(sp, Join(ScopesOf(sp, raw))) == ScopesOf(sp, raw)
    ensures ScopesOf(sp, Join(ScopesOf(sp, raw))) == ScopesOf(sp, raw)
  {
    var ss := ScopesOf(sp, raw);
    var others := Without(RootEmails(sp, raw), OPENID);
    ScopesAreCanonical(sp, raw);
    FieldsAreTokens(sp, raw);
    OpenidIsToken(sp);
    FieldsOfJoin(sp, ss);
    NothingToDedupe(ss);
    assert OPENID !in others by { WithoutMembers(RootEmails(sp, raw), OPENID); }
    WithoutHead(others);
  }

  lemma {:induction false} WithoutHead(others: seq<string>)
    requires OPENID !in others
    ensures Without([OPENID] + others, OPENID) == others
  {
    if others == [] {
      assert [OPENID][..0] == [];
    } else {
      var init := others[..|others| - 1];
      assert ([OPENID] + others)[..|others|] == [OPENID] + init;
      WithoutHead(init);
      assert others == init + [others[|others| - 1]];
    }
  }

  /** What is stored parses to what was given, or to the default when nothing was. */
  lemma StoredParsesBack(sp: char -> bool, raw: string)
    requires Sane(sp)
    ensures ScopesOf(sp, ForStorage(sp, raw)) == ScopesOf(sp, Effective(sp, raw))
    ensures ForStorage(sp, raw) != ""
  {
    ScopesOfJoin(sp, Effective(sp, raw));
    assert Fields(sp, "") == [];
  }

  lemma StorageIsIdempotent(sp: char -> bool, raw: string)
    requires Sane(sp)
    ensures ForStorage(sp, ForStorage(sp, raw)) == ForStorage(sp, raw)
  {
    var stored := ForStorage(sp, raw);
    ScopesOfJoin(sp, Effective(sp, raw));
    DedupeMembers(Fields(sp, stored));
    assert OPENID in RootEmails(sp, stored);
  }

  lemma DefaultTokens(sp: char -> bool)
    requires Sane(sp)
    ensures Fields(sp, DEFAULT_SCOPES) == [OPENID, "email", "profile"]
  {
    var ts := [OPENID, "email", "profile"];
    assert Join(["email", "profile"]) == "email profile" by { assert ["email", "profile"][1..] == ["profile"]; }
    assert ts[1..] == ["email", "profile"] && Join(ts) == DEFAULT_SCOPES;
    FieldsOfJoin(sp, ts);
  }

  /**
   * A stored value comes into force as bare `openid` exactly when that is what was asked for: there were tokens,
   * and all of them were `openid`. Saving an empty setting never narrows the default.
   */
  lemma BareOpenidExactlyWhen(sp: char -> bool, raw: string)
    requires Sane(sp)
    ensures Resolved(sp, "", true, ForStorage(sp, raw)) == [OPENID]
       <==> Fields(sp, raw) != [] && forall t :: t in Fields(sp, raw) ==> t == OPENID
  {
    StoredParsesBack(sp, raw);
    DedupeMembers(Fields(sp, raw));
    if Fields(sp, raw) == [] {
      DefaultTokens(sp);
      ScopesAreCanonical(sp, DEFAULT_SCOPES);
      assert "email" in Fields(sp, DEFAULT_SCOPES) && "email" != OPENID;
    } else {
      assert Fields(sp, raw)[0] in RootEmails(sp, raw);
      ScopesAreCanonical(sp, raw);
      OnlyOpenid(ScopesOf(sp, raw));
    }
  }

  lemma OnlyOpenid(ss: seq<string>)
    requires ss != [] && ss[0] == OPENID && Distinct(ss)
    ensures ss == [OPENID] <==> forall t :: t in ss ==> t == OPENID
  {
    if |ss| > 1 {
      assert ss[1] in ss && ss[1] != ss[0];
    }
  }

  /** What is stored where nothing was given, and which of the settings comes into force. */
  lemma EnvironmentComesFirst(sp: char -> bool, env: string, installed: bool, stored: string)
    ensures Fields(sp, stored) == [] ==> ForStorage(sp, stored) == ForStorage(sp, "openid email profile")
    ensures Resolved(sp, env, installed, stored) ==
      if env != "" then ScopesOf(sp, env)
      else if installed && stored != "" then ScopesOf(sp, stored)
      else ScopesOf(sp, "openid email profile")
  {
    DedupeMembers(Fields(sp, stored));
    DedupeMembers(Fields(sp, DEFAULT_SCOPES));
    if Fields(sp, stored) == [] {
      assert RootEmails(sp, stored) == [];
    }
    if RootEmails(sp, DEFAULT_SCOPES) == [] {
      assert Effective(sp, DEFAULT_SCOPES) == DEFAULT_SCOPES;
    }
  }
}
