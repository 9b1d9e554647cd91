/** Least and greatest elements of finite sets of integers. */
module Extremes {
  ghost predicate IsLeast(x: int, s: set<int>) { x in s && forall y :: y in s ==> x <= y }

  ghost predicate IsGreatest(x: int, s: set<int>) { x in s && forall y :: y in s ==> y <= x }

  lemma {:induction false} Element<T>(s: set<T>) returns (x: T)
    requires s != {}
    ensures x in s
  {
    x :| x in s;
  }

  /** The next key of a map iteration: any one that is left. */
  method Next<T>(s: set<T>) returns (x: T)
    requires s != {}
    ensures x in s
  {
    x :| x in s;
  }

  lemma {:induction false} LeastExists(s: set<int>)
    requires s != {}
    ensures exists x :: IsLeast(x, s)
  {
    var a := Element(s);
    if s == {a} {
      assert IsLeast(a, s);
    } else {
      var rest := s - {a};
      assert s == rest + {a} && rest != {};
      LeastExists(rest);
      var b :| IsLeast(b, rest);
      assert IsLeast(if a < b then a else b, s);
    }
  }

  lemma {:induction false} GreatestExists(s: set<int>)
    requires s != {}
    ensures exists x :: IsGreatest(x, s)
  {
    var a := Element(s);
    if s == {a} {
      assert IsGreatest(a, s);
    } else {
      var rest := s - {a};
      assert s == rest + {a} && rest != {};
      GreatestExists(rest);
      var b :| IsGreatest(b, rest);
      assert IsGreatest(if a > b then a else b, s);
    }
  }

  ghost function Least(s: set<int>): (x: int)
    requires s != {}
    ensures IsLeast(x, s)
  {
    LeastExists(s);
    var x :| IsLeast(x, s);
    x
  }

  ghost function Greatest(s: set<int>): (x: int)
    requires s != {}
    ensures IsGreatest(x, s)
  {
    GreatestExists(s);
    var x :| IsGreatest(x, s);
    x
  }
}
