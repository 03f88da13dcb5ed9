/** Facts about finite sets that several modules share. */
module Sets {
  lemma Member<T>(s: set<T>) returns (x: T)
    requires s != {}
    ensures x in s
  {
    assert (forall y :: y !in s) ==> s == {};
    x :| x in s;
  }

  /** For use inside functions, where a lemma has no result. */
  lemma HasMember(s: set<int>)
    requires s != {}
    ensures exists x :: x in s
  {
    var x := Member(s);
  }

  lemma {:induction false} SubsetSize<T>(a: set<T>, b: set<T>)
    requires a <= b
    ensures |a| <= |b|
  {
    if a != {} {
      var x := Member(a);
      SubsetSize(a - {x}, b - {x});
    }
  }

  lemma {:induction false} LeastOf(s: set<int>) returns (m: int)
    requires s != {}
    ensures m in s && forall x :: x in s ==> m <= x
    decreases |s|
  {
    m := Member(s);
    assert forall x :: x in s ==> x == m || x in s - {m};
    if s - {m} != {} {
      var k := LeastOf(s - {m});
      if k < m { m := k; }
    }
  }

  lemma {:induction false} GreatestOf(s: set<int>) returns (m: int)
    requires s != {}
    ensures m in s && forall x :: x in s ==> x <= m
    decreases |s|
  {
    m := Member(s);
    assert forall x :: x in s ==> x == m || x in s - {m};
    if s - {m} != {} {
      var k := GreatestOf(s - {m});
      if k > m { m := k; }
    }
  }
}
