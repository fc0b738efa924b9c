/** Text helpers shared by the oracle and the evidence store: the code-point order that
    `sorted()` uses, `str.strip()`, `str.rstrip("/")`, and the immutable-digest pattern. */
module Strings {

  /** The order of `str` values in Python: code point by code point, a prefix first. */
  predicate StrLe(a: string, b: string) {
    a == [] || (b != [] && (a[0] < b[0] || (a[0] == b[0] && StrLe(a[1..], b[1..]))))
  }

  lemma {:induction false} StrLeTotal(a: string, b: string)
    ensures StrLe(a, b) || StrLe(b, a)
  {
    if a != [] && b != [] && a[0] == b[0] { StrLeTotal(a[1..], b[1..]); }
  }

  lemma {:induction false} StrLeAntisymmetric(a: string, b: string)
    requires StrLe(a, b) && StrLe(b, a)
    ensures a == b
  {
    if a != [] && b != [] {
      StrLeAntisymmetric(a[1..], b[1..]);
      assert a == [a[0]] + a[1..] && b == [b[0]] + b[1..];
    }
  }

  lemma {:induction false} StrLeTransitive(a: string, b: string, c: string)
    requires StrLe(a, b) && StrLe(b, c)
    ensures StrLe(a, c)
  {
    if a != [] && b != [] && c != [] && a[0] == b[0] == c[0] { StrLeTransitive(a[1..], b[1..], c[1..]); }
  }

  predicate IsLeast(k: string, s: set<string>) {
    k in s && forall o :: o in s ==> StrLe(k, o)
  }

  lemma LeastExists(s: set<string>) returns (k: string)
    requires s != {}
    ensures IsLeast(k, s)
    ensures forall other :: IsLeast(other, s) ==> other == k
  {
    k :| k in s;
    if s == {k} {
      StrLeTotal(k, k);
    } else {
      var rest := s - {k};
      var least := LeastExists(rest);
      StrLeTotal(k, least);
      if StrLe(k, least) {
        StrLeTotal(k, k);
        forall o | o in s ensures StrLe(k, o) {
          if o != k { StrLeTransitive(k, least, o); }
        }
      } else {
        k := least;
      }
    }
    forall other | IsLeast(other, s) ensures other == k {
      StrLeAntisymmetric(other, k);
    }
  }

  lemma UniqueLeast(s: set<string>)
    requires s != {}
    ensures exists k :: IsLeast(k, s)
    ensures forall k, other :: IsLeast(k, s) && IsLeast(other, s) ==> k == other
  {
    var _ := LeastExists(s);
  }

  /** `sorted(set_of_strings)`: each element once, in code-point order. */
  function Sorted(s: set<string>): (r: seq<string>)
    ensures forall x :: x in r <==> x in s
    ensures |r| == |s|
    ensures forall i, j :: 0 <= i < j < |r| ==> r[i] != r[j] && StrLe(r[i], r[j])
    decreases |s|
  {
    if s == {} then []
    else
      UniqueLeast(s);
      var k :| k in s && IsLeast(k, s);
      [k] + Sorted(s - {k})
  }

  /** The characters `str.strip()` removes. */
  predicate IsSpace(c: char) {
    var n := c as int;
    || 9 <= n <= 13 || 28 <= n <= 32 || n == 0x85 || n == 0xA0 || n == 0x1680
    || 0x2000 <= n <= 0x200A || n == 0x2028 || n == 0x2029 || n == 0x202F || n == 0x205F || n == 0x3000
  }

  /** `not s.strip()` */
  predicate Blank(s: string) {
    forall i :: 0 <= i < |s| ==> IsSpace(s[i])
  }

  /** `s.rstrip("/")` */
  function StripSlashes(s: string): (r: string)
    ensures r <= s
    ensures r == [] || r[|r| - 1] != '/'
    ensures forall i :: |r| <= i < |s| ==> s[i] == '/'
  {
    if s != [] && s[|s| - 1] == '/' then StripSlashes(s[..|s| - 1]) else s
  }

  /** `part in s` */
  predicate Contains(s: string, part: string) {
    part <= s || (s != [] && Contains(s[1..], part))
  }

  predicate IsHex(c: char) { '0' <= c <= '9' || 'a' <= c <= 'f' }

  /** `re.compile(r"^sha256:[0-9a-f]{64}$").fullmatch` */
  predicate IsDigest(s: string) {
    |s| == 71 && s[..7] == "sha256:" && forall i :: 7 <= i < 71 ==> IsHex(s[i])
  }
}
