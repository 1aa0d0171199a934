/** Identifiers are strings, compared lexicographically.
    Ordered maps and sets iterate in this order, so iteration is modelled by
    `SortedSeq`, the strictly increasing enumeration of a finite set. */
module Names {

  datatype Option<+T> = None | Some(value: T)

  datatype Result<+T> = Ok(value: T) | Err

  predicate Before(a: string, b: string) {
    if b == [] then false
    else if a == [] then true
    else if a[0] != b[0] then a[0] < b[0]
    else Before(a[1..], b[1..])
  }

  lemma {:induction false} BeforeTotal(a: string, b: string)
    ensures a == b || Before(a, b) || Before(b, a)
    ensures !(Before(a, b) && Before(b, a))
    ensures !Before(a, a)
  {
    if a != [] && b != [] {
      BeforeTotal(a[1..], b[1..]);
      assert a == [a[0]] + a[1..] && b == [b[0]] + b[1..];
    } else if a != [] {
      BeforeTotal(a[1..], a[1..]);
    }
  }

  lemma {:induction false} BeforeTransitive(a: string, b: string, c: string)
    requires Before(a, b) && Before(b, c)
    ensures Before(a, c)
  {
    if a != [] && a[0] == b[0] == c[0] {
      BeforeTransitive(a[1..], b[1..], c[1..]);
    }
  }

  ghost predicate StrictlySorted(s: seq<string>) {
    forall i, j :: 0 <= i < j < |s| ==> Before(s[i], s[j])
  }

  function Elements<T>(s: seq<T>): set<T> {
    set x | x in s
  }

  ghost predicate LeastOf(m: string, s: set<string>) {
    m in s && forall x :: x in s ==> x == m || Before(m, x)
  }

  /** Adding one element moves the least one at most to that element. */
  lemma LeastOfBoth(m: string, y: string, s: set<string>)
    requires LeastOf(m, s - {y}) && y in s
    ensures LeastOf(if Before(y, m) then y else m, s)
  {
    BeforeTotal(m, y);
    forall x | x in s && x != y ensures x == m || Before(m, x) {
      assert x in s - {y};
    }
    if Before(y, m) {
      forall x | x in s ensures x == y || Before(y, x) {
        if x != y && x != m { BeforeTransitive(y, m, x); }
      }
    }
  }

  lemma {:induction false} LeastExists(s: set<string>)
    requires s != {}
    ensures exists m :: LeastOf(m, s)
  {
    var y :| y in s;
    var rest := s - {y};
    if rest == {} {
      assert s == {y};
      assert LeastOf(y, s);
    } else {
      LeastExists(rest);
      var m :| LeastOf(m, rest);
      LeastOfBoth(m, y, s);
    }
  }

  ghost function Least(s: set<string>): (m: string)
    requires s != {}
    ensures m in s && forall x :: x in s ==> x == m || Before(m, x)
  {
    LeastExists(s);
    var m :| LeastOf(m, s);
    m
  }

  ghost function SortedSeq(s: set<string>): (r: seq<string>)
    ensures |r| == |s|
    ensures forall x :: x in r <==> x in s
    ensures StrictlySorted(r)
  {
    if s == {} then []
    else
      var m := Least(s);
      var rest := SortedSeq(s - {m});
      assert |s - {m}| == |s| - 1;
      [m] + rest
  }

  lemma NoDuplicates(s: seq<string>, i: nat, j: nat)
    requires StrictlySorted(s) && i < |s| && j < |s| && s[i] == s[j]
    ensures i == j
  {
    BeforeTotal(s[i], s[j]);
  }

  lemma HeadIn<T>(s: seq<T>)
    requires s != []
    ensures s[0] in s
  {
  }

  /** A strictly sorted enumeration is determined by its elements. */
  lemma {:induction false} SortedUnique(a: seq<string>, b: seq<string>)
    requires StrictlySorted(a) && StrictlySorted(b)
    requires forall x :: x in a <==> x in b
    ensures a == b
  {
    if a == [] {
      if b != [] {
        HeadIn(b);
        assert false;
      }
    } else {
      assert a[0] in b;
      assert b != [] && b[0] in a;
      BeforeTotal(a[0], b[0]);
      assert a[0] == b[0];
      forall x ensures x in a[1..] <==> x in b[1..] {
        BeforeTotal(a[0], a[0]);
        if x in a[1..] { assert x in a && x != a[0]; }
        if x in b[1..] { assert x in b && x != b[0]; }
      }
      SortedUnique(a[1..], b[1..]);
      assert a == [a[0]] + a[1..] && b == [b[0]] + b[1..];
    }
  }

  /** Iteration over the keys of an ordered map. */
  method SortKeys(s: set<string>) returns (r: seq<string>)
    ensures r == SortedSeq(s)
  {
    r := [];
    var rest := s;
    while rest != {}
      invariant rest <= s
      invariant forall x :: x in r <==> x in s && x !in rest
      invariant StrictlySorted(r)
      invariant forall x, y :: x in r && y in rest ==> Before(x, y)
      decreases rest
    {
      LeastExists(rest);
      var m :| m in rest && forall x :: x in rest ==> x == m || Before(m, x);
      rest := rest - {m};
      r := r + [m];
    }
    SortedUnique(r, SortedSeq(s));
  }

  lemma SubsetSize<T>(a: set<T>, b: set<T>)
    requires a <= b
    ensures |a| <= |b|
  {
    assert |b| == |a| + |b - a| by { assert b == a + (b - a); }
  }
}
