// Strings taken apart at a separator, and their order.
module Texts {

  // The characters that count as white space.
  predicate IsSpace(c: char) {
    var n := c as int;
    9 <= n <= 13 || 0x1c <= n <= 0x20 || n == 0x85 || n == 0xa0 || n == 0x1680 || 0x2000 <= n <= 0x200a
    || n == 0x2028 || n == 0x2029 || n == 0x202f || n == 0x205f || n == 0x3000
  }

  /** The white space of the Unicode tables, each character by its code. */
  lemma SpaceExactly(c: char)
    ensures IsSpace(c) <==> c as int in {
              9, 10, 11, 12, 13, 28, 29, 30, 31, 32, 133, 160, 5760, 8192, 8193, 8194, 8195, 8196, 8197, 8198, 8199, 8200,
              8201, 8202, 8232, 8233, 8239, 8287, 12288}
  {
  }

  // Nothing is left of the text when white space is stripped from it.
  predicate Blank(s: string) {
    forall c <- s :: IsSpace(c)
  }

  function IndexOf(s: string, c: char): (i: nat)
    ensures i <= |s| && c !in s[..i] && (i < |s| ==> s[i] == c)
  {
    if s == "" || s[0] == c then 0 else 1 + IndexOf(s[1..], c)
  }

  function Split(s: string, c: char): (parts: seq<string>)
    ensures |parts| > 0
    decreases |s|
  {
    var i := IndexOf(s, c);
    if i == |s| then [s] else [s[..i]] + Split(s[i + 1..], c)
  }

  /** Splitting at a separator that joins two texts splits each of them. */
  lemma {:induction false} SplitJoined(a: string, c: char, b: string)
    ensures Split(a + [c] + b, c) == Split(a, c) + Split(b, c)
    decreases |a|
  {
    hide IndexOf, Split;
    var s, i := a + [c] + b, IndexOf(a, c);
    IndexIn(a, c, b);
    SplitStep(s, c);
    SplitStep(a, c);
    assert s[..i] == a[..i];
    if i == |a| {
      assert s[i + 1..] == b && a[..i] == a;
    } else {
      var rest := a[i + 1..];
      assert s[i + 1..] == rest + [c] + b;
      SplitJoined(rest, c, b);
      assert [a[..i]] + (Split(rest, c) + Split(b, c)) == [a[..i]] + Split(rest, c) + Split(b, c);
    }
  }

  lemma SplitStep(s: string, c: char)
    ensures var i := IndexOf(s, c); Split(s, c) == if i == |s| then [s] else [s[..i]] + Split(s[i + 1..], c)
  {
  }

  lemma {:induction false} IndexIn(a: string, c: char, b: string)
    ensures IndexOf(a + [c] + b, c) == IndexOf(a, c)
  {
    var s := a + [c] + b;
    if a != "" && a[0] != c {
      assert s[1..] == a[1..] + [c] + b;
      IndexIn(a[1..], c, b);
    }
  }

  lemma {:induction false} IndexIs(s: string, c: char, i: nat)
    requires i <= |s| && c !in s[..i] && (i < |s| ==> s[i] == c)
    ensures IndexOf(s, c) == i
  {
    if i > 0 {
      assert s[0] in s[..i] && s[1..][..i - 1] == s[..i][1..];
      IndexIs(s[1..], c, i - 1);
    }
  }

  // --- the order of names ---

  predicate Below(a: string, b: string) {
    a == "" || (b != "" && (a[0] < b[0] || (a[0] == b[0] && Below(a[1..], b[1..]))))
  }

  lemma {:induction false} BelowIsTotal(a: string, b: string)
    ensures Below(a, b) || Below(b, a)
    ensures Below(a, b) && Below(b, a) ==> a == b
  {
    if a != "" && b != "" && a[0] == b[0] {
      BelowIsTotal(a[1..], b[1..]);
      assert a == [a[0]] + a[1..] && b == [b[0]] + b[1..];
    }
  }

  lemma {:induction false} BelowIsTransitive(a: string, b: string, c: string)
    requires Below(a, b) && Below(b, c)
    ensures Below(a, c)
  {
    if a != "" && a[0] == b[0] && b[0] == c[0] { BelowIsTransitive(a[1..], b[1..], c[1..]); }
  }

  ghost predicate IsLeast(names: set<string>, least: string) {
    least in names && forall x <- names :: Below(least, x)
  }

  lemma {:induction false} LeastExists(names: set<string>)
    requires names != {}
    ensures exists least :: IsLeast(names, least)
  {
    var x :| x in names;
    var rest := names - {x};
    BelowIsTotal(x, x);
    assert forall z <- names :: z == x || z in rest;
    if rest == {} {
      assert IsLeast(names, x);
    } else {
      LeastExists(rest);
      var y :| IsLeast(rest, y);
      BelowIsTotal(x, y);
      if Below(x, y) {
        forall z <- rest ensures Below(x, z) { BelowIsTransitive(x, y, z); }
        assert IsLeast(names, x);
      } else {
        assert IsLeast(names, y);
      }
    }
  }

  ghost function Least(names: set<string>): (least: string)
    requires names != {}
    ensures IsLeast(names, least)
  {
    LeastExists(names);
    var least :| IsLeast(names, least);
    least
  }

  ghost function Ordered(names: set<string>): seq<string> {
    if names == {} then [] else [Least(names)] + Ordered(names - {Least(names)})
  }
}
