/**
 * The handful of Python `str` operations the application relies on, over `string`
 * (a sequence of Unicode scalar values, as a Python `str` is a sequence of code points):
 * `lower()`, `strip()`, `in`, `startswith`, `rfind`, `<` on strings and `str(int)`.
 */
module Text {

  /** `c.lower()` for the ASCII letters; every other character is left alone. */
  function LowerChar(c: char): (r: char)
    ensures 'A' <= c <= 'Z' ==> 'a' <= r <= 'z'
    ensures !('A' <= c <= 'Z') ==> r == c
  {
    if 'A' <= c <= 'Z' then (c as int + 32) as char else c
  }

  /** `s.lower()`, character by character. */
  function Lower(s: string): (r: string)
    ensures |r| == |s|
    ensures forall i :: 0 <= i < |s| ==> r[i] == LowerChar(s[i])
  {
    seq(|s|, i requires 0 <= i < |s| => LowerChar(s[i]))
  }

  /** The characters for which Python's `str.isspace()` holds, hence what `strip()` removes. */
  predicate IsSpace(c: char) {
    || ('\t' <= c <= '\r') || ('\U{001C}' <= c <= ' ') || c == '\U{0085}' || c == '\U{00A0}'
    || c == '\U{1680}' || ('\U{2000}' <= c <= '\U{200A}') || c == '\U{2028}' || c == '\U{2029}'
    || c == '\U{202F}' || c == '\U{205F}' || c == '\U{3000}'
  }

  /** A string that `strip()` turns into the empty string. */
  predicate IsBlank(s: string) {
    forall i :: 0 <= i < |s| ==> IsSpace(s[i])
  }

  /** The end of the run of white space that starts at index `k` of `s`. */
  function SpacesFrom(s: string, k: nat): (n: nat)
    requires k <= |s|
    ensures k <= n <= |s|
    ensures forall i :: k <= i < n ==> IsSpace(s[i])
    ensures n < |s| ==> !IsSpace(s[n])
    decreases |s| - k
  {
    if k < |s| && IsSpace(s[k]) then SpacesFrom(s, k + 1) else k
  }

  /** The start of the run of white space that ends just before index `k` of `s`. */
  function SpacesBefore(s: string, k: nat): (n: nat)
    requires k <= |s|
    ensures n <= k
    ensures forall i :: n <= i < k ==> IsSpace(s[i])
    ensures n > 0 ==> !IsSpace(s[n - 1])
  {
    if k > 0 && IsSpace(s[k - 1]) then SpacesBefore(s, k - 1) else k
  }

  /** `s.lstrip()` */
  function StripLeft(s: string): (r: string)
    ensures |r| <= |s| && r == s[|s| - |r|..]
    ensures r != [] ==> !IsSpace(r[0])
    ensures IsBlank(s[..|s| - |r|])
  {
    s[SpacesFrom(s, 0)..]
  }

  /** `s.rstrip()` */
  function StripRight(s: string): (r: string)
    ensures |r| <= |s| && r == s[..|r|]
    ensures r != [] ==> !IsSpace(r[|r| - 1])
    ensures IsBlank(s[|r|..])
  {
    s[..SpacesBefore(s, |s|)]
  }

  /** `s.strip()`. */
  function Strip(s: string): string {
    StripRight(StripLeft(s))
  }

  lemma StripLeftEmptyIffBlank(s: string)
    ensures StripLeft(s) == [] <==> IsBlank(s)
  {
    var n := SpacesFrom(s, 0);
    if n < |s| {
      assert !IsSpace(s[n]);
    }
  }

  lemma StripRightEmptyIffBlank(s: string)
    ensures StripRight(s) == [] <==> IsBlank(s)
  {
    var n := SpacesBefore(s, |s|);
    if n > 0 {
      assert !IsSpace(s[n - 1]);
    }
  }

  /** `s.strip() == ""` exactly when every character of `s` is white space. */
  lemma StripEmptyIffBlank(s: string)
    ensures Strip(s) == [] <==> IsBlank(s)
  {
    var l := StripLeft(s);
    StripLeftEmptyIffBlank(s);
    StripRightEmptyIffBlank(l);
  }

  /** `pat` occurs in `s` starting at index `p`. */
  predicate OccursAt(s: string, p: int, pat: string) {
    0 <= p && p + |pat| <= |s| && s[p..p + |pat|] == pat
  }

  /** Python's `pat in s` for two strings. */
  predicate Contains(s: string, pat: string) {
    exists p :: 0 <= p <= |s| && OccursAt(s, p, pat)
  }

  /** Python's `s.startswith(pat)`: the sequence prefix relation. */
  predicate StartsWith(s: string, pat: string) {
    pat <= s
  }

  /** A prefix of `s` occurs at index 0, so `s.startswith(pat)` implies `pat in s`. */
  lemma StartsWithContains(s: string, pat: string)
    requires StartsWith(s, pat)
    ensures Contains(s, pat)
  {
    assert OccursAt(s, 0, pat);
  }

  /** The greatest index below `k` at which `pat` occurs in `s`, or -1. */
  function LastIndexBelow(s: string, pat: string, k: nat): (r: int)
    decreases k
    ensures -1 <= r < k
    ensures r == -1 ==> forall p :: 0 <= p < k ==> !OccursAt(s, p, pat)
    ensures r >= 0 ==> OccursAt(s, r, pat) && forall p :: r < p < k ==> !OccursAt(s, p, pat)
  {
    if k == 0 then -1
    else if OccursAt(s, k - 1, pat) then k - 1
    else LastIndexBelow(s, pat, k - 1)
  }

  /** Python's `s.rfind(pat)`: the last index where `pat` occurs, -1 when it does not occur. */
  function RFind(s: string, pat: string): (r: int)
    ensures r == -1 <==> !Contains(s, pat)
    ensures r >= 0 ==> OccursAt(s, r, pat) && forall p :: r < p ==> !OccursAt(s, p, pat)
  {
    LastIndexBelow(s, pat, |s| + 1)
  }

  /** Python's `a <= b` on strings: lexicographic order of the code points. */
  predicate StrLe(a: string, b: string)
    decreases |a|
  {
    if a == [] then true
    else if b == [] then false
    else if a[0] != b[0] then a[0] < b[0]
    else StrLe(a[1..], b[1..])
  }

  lemma {:induction false} StrLeTotal(a: string, b: string)
    ensures StrLe(a, b) || StrLe(b, a)
    decreases |a|
  {
    if a != [] && b != [] && a[0] == b[0] {
      StrLeTotal(a[1..], b[1..]);
    }
  }

  lemma {:induction false} StrLeTransitive(a: string, b: string, c: string)
    requires StrLe(a, b) && StrLe(b, c)
    ensures StrLe(a, c)
    decreases |a|
  {
    if a != [] && b != [] && c != [] && a[0] == b[0] && b[0] == c[0] {
      StrLeTransitive(a[1..], b[1..], c[1..]);
    }
  }

  function DigitChar(d: nat): (c: char)
    requires d < 10
    ensures '0' <= c <= '9'
  {
    "0123456789"[d]
  }

  /** `str(n)` for a non-negative integer: its decimal digits, most significant first. */
  function NatToString(n: nat): (r: string)
    ensures r != []
    ensures forall i :: 0 <= i < |r| ==> '0' <= r[i] <= '9'
  {
    if n < 10 then [DigitChar(n)] else NatToString(n / 10) + [DigitChar(n % 10)]
  }

  /** Some keyword of the list occurs in `name`: `any(k in name for k in keywords)`. */
  predicate AnyOccurs(keywords: seq<string>, name: string) {
    keywords != [] && (Contains(name, keywords[0]) || AnyOccurs(keywords[1..], name))
  }

  /** `any` holds exactly when one of the keywords occurs. */
  lemma {:induction false} AnyOccursMeaning(keywords: seq<string>, name: string)
    ensures AnyOccurs(keywords, name) <==> exists i :: 0 <= i < |keywords| && Contains(name, keywords[i])
    decreases |keywords|
  {
    if keywords != [] {
      AnyOccursMeaning(keywords[1..], name);
      assert forall i :: 1 <= i < |keywords| ==> keywords[i] == keywords[1..][i - 1];
      if exists i :: 0 <= i < |keywords| && Contains(name, keywords[i]) {
        var i :| 0 <= i < |keywords| && Contains(name, keywords[i]);
        if i > 0 {
          assert Contains(name, keywords[1..][i - 1]);
        }
      }
    }
  }

  /**
   * The value of the first table entry one of whose keywords occurs in `name`, or
   * `default` when none does: a dictionary walked in its literal order.
   */
  function FirstHit<V>(table: seq<(seq<string>, V)>, name: string, default: V): (r: V)
    ensures (forall i :: 0 <= i < |table| ==> !AnyOccurs(table[i].0, name)) ==> r == default
    ensures forall i :: (0 <= i < |table| && AnyOccurs(table[i].0, name)
              && forall j :: 0 <= j < i ==> !AnyOccurs(table[j].0, name)) ==> r == table[i].1
  {
    if table == [] then default
    else if AnyOccurs(table[0].0, name) then table[0].1
    else
      var r := FirstHit(table[1..], name, default);
      assert forall i :: 1 <= i < |table| ==> table[i] == table[1..][i - 1];
      r
  }

  /**
   * When no entry carries the default as its value, the default comes back exactly when
   * no keyword of the table occurs.
   */
  lemma {:induction false} FirstHitDefaultIff<V>(table: seq<(seq<string>, V)>, name: string, default: V)
    requires forall i :: 0 <= i < |table| ==> table[i].1 != default
    ensures FirstHit(table, name, default) == default <==> forall i :: 0 <= i < |table| ==> !AnyOccurs(table[i].0, name)
    decreases |table|
  {
    if table == [] {
    } else if AnyOccurs(table[0].0, name) {
      assert FirstHit(table, name, default) == table[0].1;
    } else {
      var rest := table[1..];
      assert FirstHit(table, name, default) == FirstHit(rest, name, default);
      FirstHitDefaultIff(rest, name, default);
      if forall i :: 0 <= i < |rest| ==> !AnyOccurs(rest[i].0, name) {
        forall i | 0 <= i < |table| ensures !AnyOccurs(table[i].0, name) {
          if i > 0 { assert table[i] == rest[i - 1]; }
        }
      } else {
        var i :| 0 <= i < |rest| && AnyOccurs(rest[i].0, name);
        assert table[i + 1] == rest[i];
      }
    }
  }
}
