/** Finite sums of exact numbers. */
module Sums {

  ghost function Sum(s: set<nat>, f: nat -> real): real
  {
    if s == {} then 0.0 else
      var x :| x in s;
      f(x) + Sum(s - {x}, f)
  }

  /** Any element may be taken out first. */
  lemma {:induction false} SumRemove(s: set<nat>, f: nat -> real, x: nat)
    requires x in s
    ensures Sum(s, f) == f(x) + Sum(s - {x}, f)
    decreases |s|
  {
    var y :| y in s && Sum(s, f) == f(y) + Sum(s - {y}, f);
    if y == x {
    } else {
      SumRemove(s - {y}, f, x);
      SumRemove(s - {x}, f, y);
      assert s - {y} - {x} == s - {x} - {y};
    }
  }

  lemma SumEmpty(f: nat -> real)
    ensures Sum({}, f) == 0.0
  {
  }

  lemma SumInsert(s: set<nat>, f: nat -> real, x: nat)
    requires x !in s
    ensures Sum(s + {x}, f) == f(x) + Sum(s, f)
  {
    SumRemove(s + {x}, f, x);
    assert s + {x} - {x} == s;
  }

  lemma {:induction false} SumSame(s: set<nat>, f: nat -> real, g: nat -> real)
    requires forall x :: x in s ==> f(x) == g(x)
    ensures Sum(s, f) == Sum(s, g)
    decreases |s|
  {
    if s == {} {
    } else {
      var x :| x in s;
      SumRemove(s, f, x);
      SumRemove(s, g, x);
      SumSame(s - {x}, f, g);
    }
  }

  lemma {:induction false} SumPlus(s: set<nat>, f: nat -> real, g: nat -> real)
    ensures Sum(s, (x: nat) => f(x) + g(x)) == Sum(s, f) + Sum(s, g)
    decreases |s|
  {
    if s == {} {
    } else {
      var x :| x in s;
      var h := (x: nat) => f(x) + g(x);
      SumRemove(s, f, x);
      SumRemove(s, g, x);
      SumRemove(s, h, x);
      SumPlus(s - {x}, f, g);
    }
  }

  lemma {:induction false} SumScale(s: set<nat>, f: nat -> real, c: real)
    ensures Sum(s, (x: nat) => c * f(x)) == c * Sum(s, f)
    decreases |s|
  {
    if s == {} {
    } else {
      hide Sum;
      var x :| x in s;
      var h := (x: nat) => c * f(x);
      SumRemove(s, f, x);
      SumRemove(s, h, x);
      SumScale(s - {x}, f, c);
      Distribute(c, f(x), Sum(s - {x}, f));
    }
  }

  lemma Distribute(c: real, x: real, y: real)
    ensures c * (x + y) == c * x + c * y
  {
  }

  lemma {:induction false} SumConstant(s: set<nat>, c: real)
    ensures Sum(s, (x: nat) => c) == c * (|s| as real)
    decreases |s|
  {
    if s == {} {
    } else {
      var x :| x in s;
      SumRemove(s, (x: nat) => c, x);
      SumConstant(s - {x}, c);
    }
  }

  lemma {:induction false} SumZero(s: set<nat>, f: nat -> real)
    requires forall x :: x in s ==> f(x) == 0.0
    ensures Sum(s, f) == 0.0
    decreases |s|
  {
    if s == {} {
    } else {
      var x :| x in s;
      SumRemove(s, f, x);
      SumZero(s - {x}, f);
    }
  }

  /** Terms outside a subset that are zero may be left out. */
  lemma {:induction false} SumSubset(s: set<nat>, r: set<nat>, f: nat -> real)
    requires r <= s && forall x :: x in s && x !in r ==> f(x) == 0.0
    ensures Sum(s, f) == Sum(r, f)
    decreases |s|
  {
    if s == r {
    } else {
      var x :| x in s && x !in r;
      SumRemove(s, f, x);
      SumSubset(s - {x}, r, f);
    }
  }

  /** Rows first or columns first. */
  lemma {:induction false} SumExchange(s: set<nat>, r: set<nat>, f: (nat, nat) -> real, rows: nat -> real, columns: nat -> real)
    requires forall x :: x in s ==> rows(x) == Sum(r, Row(f, x))
    requires forall y :: y in r ==> columns(y) == Sum(s, Column(f, y))
    ensures Sum(s, rows) == Sum(r, columns)
    decreases |s|
  {
    hide Sum;
    if s == {} {
      SumEmpty(rows);
      forall y | y in r ensures columns(y) == 0.0 {
        SumEmpty(Column(f, y));
      }
      SumZero(r, columns);
    } else {
      var x :| x in s;
      var below := (y: nat) => Sum(s - {x}, Column(f, y));
      SumRemove(s, rows, x);
      SumExchange(s - {x}, r, f, rows, below);
      forall y | y in r ensures columns(y) == Row(f, x)(y) + below(y) {
        SumRemove(s, Column(f, y), x);
      }
      SumSame(r, columns, (y: nat) => Row(f, x)(y) + below(y));
      SumPlus(r, Row(f, x), below);
    }
  }

  function Row(f: (nat, nat) -> real, x: nat): nat -> real { (y: nat) => f(x, y) }

  function Column(f: (nat, nat) -> real, y: nat): nat -> real { (x: nat) => f(x, y) }
}
