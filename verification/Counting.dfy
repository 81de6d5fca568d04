/** Counting the elements of a sequence that satisfy a predicate. */
module Counting {

  function Count<T>(s: seq<T>, f: T -> bool): (n: nat)
    ensures n <= |s|
  {
    if s == [] then 0 else (if f(s[0]) then 1 else 0) + Count(s[1..], f)
  }

  lemma {:induction false} CountConcat<T>(s: seq<T>, t: seq<T>, f: T -> bool)
    ensures Count(s + t, f) == Count(s, f) + Count(t, f)
  {
    if s == [] {
      assert s + t == t;
    } else {
      assert (s + t)[1..] == s[1..] + t;
      CountConcat(s[1..], t, f);
    }
  }

  /** Taking one element out of a sequence lowers the count by that element's share. */
  lemma CountSplit<T>(s: seq<T>, i: nat, f: T -> bool)
    requires i < |s|
    ensures Count(s, f) == Count(s[..i] + s[i + 1..], f) + if f(s[i]) then 1 else 0
  {
    assert s == s[..i] + s[i..];
    CountConcat(s[..i], s[i..], f);
    CountConcat(s[..i], s[i + 1..], f);
    assert s[i..][1..] == s[i + 1..];
  }

  lemma CountUpdate<T>(s: seq<T>, i: nat, x: T, f: T -> bool)
    requires i < |s|
    ensures Count(s[i := x], f) + (if f(s[i]) then 1 else 0) == Count(s, f) + if f(x) then 1 else 0
  {
    CountSplit(s, i, f);
    CountSplit(s[i := x], i, f);
    assert s[i := x][..i] + s[i := x][i + 1..] == s[..i] + s[i + 1..];
  }

  lemma CountAppend<T>(s: seq<T>, x: T, f: T -> bool)
    ensures Count(s + [x], f) == Count(s, f) + if f(x) then 1 else 0
  {
    CountConcat(s, [x], f);
    assert Count([x], f) == if f(x) then 1 else 0;
  }

  lemma {:induction false} CountNone<T>(s: seq<T>, f: T -> bool)
    ensures Count(s, f) == 0 <==> forall i :: 0 <= i < |s| ==> !f(s[i])
  {
    if s != [] {
      CountNone(s[1..], f);
      assert forall i :: 1 <= i < |s| ==> s[i] == s[1..][i - 1];
      if Count(s, f) == 0 {
        forall i | 0 <= i < |s| ensures !f(s[i]) {
          if i > 0 { assert !f(s[1..][i - 1]); }
        }
      } else if Count(s[1..], f) > 0 {
        var j :| 0 <= j < |s[1..]| && f(s[1..][j]);
        assert f(s[j + 1]);
      }
    }
  }

  lemma {:induction false} CountWeaker<T>(s: seq<T>, f: T -> bool, g: T -> bool)
    requires forall i :: 0 <= i < |s| && f(s[i]) ==> g(s[i])
    ensures Count(s, f) <= Count(s, g)
  {
    if s != [] {
      forall i | 0 <= i < |s[1..]| && f(s[1..][i]) ensures g(s[1..][i]) {
        assert s[1..][i] == s[i + 1];
      }
      CountWeaker(s[1..], f, g);
    }
  }
}
