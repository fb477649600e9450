/** Text comparison as SQLite's default (binary) collation does it, and substring search. */
module Text {

  /** `a <= b` in SQLite's binary collation: lexicographic by character, a proper prefix first. */
  predicate LexLe(a: string, b: string)
    decreases |a|
  {
    if a == [] then true
    else if b == [] then false
    else if a[0] != b[0] then a[0] < b[0]
    else LexLe(a[1..], b[1..])
  }

  predicate LexLt(a: string, b: string) {
    LexLe(a, b) && a != b
  }

  lemma {:induction false} LexLeTotal(a: string, b: string)
    ensures LexLe(a, b) || LexLe(b, a)
    decreases |a|
  {
    if a != [] && b != [] && a[0] == b[0] { LexLeTotal(a[1..], b[1..]); }
  }

  lemma {:induction false} LexLeAntisym(a: string, b: string)
    requires LexLe(a, b) && LexLe(b, a)
    ensures a == b
    decreases |a|
  {
    if a != [] && b != [] {
      LexLeAntisym(a[1..], b[1..]);
      assert a == [a[0]] + a[1..] && b == [b[0]] + b[1..];
    }
  }

  lemma {:induction false} LexLeTrans(a: string, b: string, c: string)
    requires LexLe(a, b) && LexLe(b, c)
    ensures LexLe(a, c)
    decreases |a|
  {
    if a != [] && b != [] && c != [] && a[0] == b[0] && b[0] == c[0] {
      LexLeTrans(a[1..], b[1..], c[1..]);
    }
  }

  lemma LexLtTrans(a: string, b: string, c: string)
    requires LexLt(a, b) && LexLt(b, c)
    ensures LexLt(a, c)
  {
    LexLeTrans(a, b, c);
    if a == c { LexLeAntisym(a, b); }
  }

  lemma LexLtTotal(a: string, b: string)
    requires a != b
    ensures LexLt(a, b) || LexLt(b, a)
  {
    LexLeTotal(a, b);
  }

  /** `sub` occurs in `s` starting at index `i`. */
  predicate OccursAt(s: string, sub: string, i: int) {
    0 <= i && i + |sub| <= |s| && s[i..i + |sub|] == sub
  }

  /** Whether `sub` occurs in `s` at some position, as `LIKE '%sub%'` does once wildcards and case are set aside. */
  function Contains(s: string, sub: string): (r: bool)
    ensures r <==> exists i :: OccursAt(s, sub, i)
    decreases |s|
  {
    if sub <= s then
      assert OccursAt(s, sub, 0);
      true
    else if s == [] then
      assert forall i :: !OccursAt(s, sub, i);
      false
    else
      var r := Contains(s[1..], sub);
      assert forall i :: OccursAt(s[1..], sub, i) <==> OccursAt(s, sub, i + 1);
      assert !OccursAt(s, sub, 0);
      assert forall i :: OccursAt(s, sub, i) ==> i >= 1 && OccursAt(s[1..], sub, i - 1);
      r
  }

  /** Cutting both sides to the same length keeps the order. */
  lemma {:induction false} LexLePrefix(a: string, b: string, n: nat)
    requires LexLe(a, b) && n <= |a| && n <= |b|
    ensures LexLe(a[..n], b[..n])
    decreases n
  {
    if n > 0 && a[0] == b[0] {
      LexLePrefix(a[1..], b[1..], n - 1);
      assert a[..n][1..] == a[1..][..n - 1];
      assert b[..n][1..] == b[1..][..n - 1];
    }
  }
}
