/** Dotted keys, decimal numerals and their parsers. */
module Keys {

  predicate GoodKey(k: string) {
    k != "" && '.' !in k
  }

  ghost predicate GoodPath(p: seq<string>) {
    forall i :: 0 <= i < |p| ==> GoodKey(p[i])
  }

  /** The key that flattening builds for k below prefix: no dot after an empty prefix. */
  function Extend(prefix: string, k: string): string {
    if prefix != "" then prefix + "." + k else k
  }

  function Render(prefix: string, p: seq<string>): string
    decreases |p|
  {
    if p == [] then prefix else Render(Extend(prefix, p[0]), p[1..])
  }

  function Join(p: seq<string>): string
    requires p != []
  {
    if |p| == 1 then p[0] else p[0] + "." + Join(p[1..])
  }

  function Split(s: string): (p: seq<string>)
    ensures p != []
  {
    if s == "" then [""]
    else if s[0] == '.' then [""] + Split(s[1..])
    else var r := Split(s[1..]); [[s[0]] + r[0]] + r[1..]
  }

  lemma {:induction false} JoinHead(c: char, r: seq<string>)
    requires r != []
    ensures Join([[c] + r[0]] + r[1..]) == [c] + Join(r)
  {
    var q := [[c] + r[0]] + r[1..];
    if |r| == 1 {
      assert q == [[c] + r[0]];
    } else {
      assert q[1..] == r[1..];
      assert ([c] + r[0]) + "." + Join(r[1..]) == [c] + (r[0] + "." + Join(r[1..]));
    }
  }

  lemma {:induction false} JoinSplit(s: string)
    ensures Join(Split(s)) == s
  {
    if s != "" {
      var r := Split(s[1..]);
      JoinSplit(s[1..]);
      assert s == [s[0]] + s[1..];
      if s[0] == '.' {
        assert ([""] + r)[1..] == r;
        assert "" + "." + Join(r) == s;
      } else {
        JoinHead(s[0], r);
      }
    }
  }

  lemma {:induction false} SplitKey(k: string)
    requires '.' !in k
    ensures Split(k) == [k]
  {
    if k != "" {
      SplitKey(k[1..]);
      assert [k[0]] + k[1..] == k;
    }
  }

  lemma {:induction false} SplitDotted(k: string, s: string)
    requires '.' !in k
    ensures Split(k + "." + s) == [k] + Split(s)
  {
    var w := k + "." + s;
    if k == "" {
      assert w[0] == '.' && w[1..] == s;
    } else {
      SplitDotted(k[1..], s);
      assert w[1..] == k[1..] + "." + s;
      assert [k[0]] + k[1..] == k;
    }
  }

  /** Splitting undoes joining on non-empty paths of dot-free keys. */
  lemma {:induction false} SplitJoin(p: seq<string>)
    requires p != [] && GoodPath(p)
    ensures Split(Join(p)) == p
  {
    assert GoodKey(p[0]);
    if |p| == 1 {
      SplitKey(p[0]);
    } else {
      assert forall i :: 0 <= i < |p| - 1 ==> p[1..][i] == p[i + 1];
      SplitJoin(p[1..]);
      SplitDotted(p[0], Join(p[1..]));
    }
  }

  lemma {:induction false} RenderBelow(prefix: string, p: seq<string>)
    requires prefix != "" && p != []
    ensures Render(prefix, p) == prefix + "." + Join(p)
    decreases |p|
  {
    var next := prefix + "." + p[0];
    if |p| == 1 {
      assert Render(next, p[1..]) == next;
    } else {
      RenderBelow(next, p[1..]);
      assert next + "." + Join(p[1..]) == prefix + "." + (p[0] + "." + Join(p[1..]));
    }
  }

  /** On paths of non-empty keys, the incremental key is the joined path. */
  lemma RenderIsJoin(p: seq<string>)
    requires p != [] && p[0] != ""
    ensures Render("", p) == Join(p)
  {
    if |p| == 1 {
      assert Render(p[0], p[1..]) == p[0];
    } else {
      RenderBelow(p[0], p[1..]);
    }
  }

  predicate HasPrefix(s: string, prefix: string) {
    |prefix| <= |s| && s[..|prefix|] == prefix
  }

  // ---------- decimal numerals ----------

  function Digit(d: nat): char
    requires d < 10
  {
    '0' + d as char
  }

  function Decimal(n: nat): (s: string)
    ensures |s| > 0
    ensures forall i :: 0 <= i < |s| ==> '0' <= s[i] <= '9'
  {
    if n < 10 then [Digit(n)] else Decimal(n / 10) + [Digit(n % 10)]
  }

  function Parse(s: string): int {
    if s == "" then 0 else 10 * Parse(s[..|s| - 1]) + (s[|s| - 1] as int - '0' as int)
  }

  lemma {:induction false} ParseDecimal(n: nat)
    ensures Parse(Decimal(n)) == n
  {
    var s := Decimal(n);
    if n < 10 {
      assert s[..|s| - 1] == "";
    } else {
      ParseDecimal(n / 10);
      assert s[..|s| - 1] == Decimal(n / 10);
    }
  }

  lemma DecimalInjective(a: nat, b: nat)
    requires Decimal(a) == Decimal(b)
    ensures a == b
  {
    ParseDecimal(a);
    ParseDecimal(b);
  }

  /** Text before the first separator is determined by the whole text. */
  lemma CutUnique(c: char, a: string, x: string, b: string, y: string)
    requires c !in a && c !in b
    requires a + [c] + x == b + [c] + y
    ensures a == b && x == y
  {
    var w := a + [c] + x;
    assert w[|a|] == c && w[|b|] == c;
    assert forall i :: 0 <= i < |a| ==> w[i] == a[i];
    assert forall i :: 0 <= i < |b| ==> w[i] == b[i];
    assert |a| == |b|;
    assert a == w[..|a|] == b;
    assert x == w[|a| + 1..] == y;
  }
}
