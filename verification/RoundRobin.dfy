/** Which worker `notify_worker` unparks: LAST_NOTIFIED, advanced by one each time and
    wrapping with `usize`, modulo the number of unparkers. */
module RoundRobin {

  const USIZE: nat := 0x1_0000_0000_0000_0000

  class LastNotified {
    var counter: nat

    ghost predicate Valid()
      reads this
    {
      counter < USIZE
    }

    constructor ()
      ensures Valid() && counter == 0
    {
      counter := 0;
    }

    /** fetch_add(1) % unparkers.len(), or nothing if there are none. */
    method Select(m: nat) returns (found: bool, index: nat)
      requires Valid()
      modifies this
      ensures Valid() && (found <==> m > 0)
      ensures found ==> index == Selected(old(counter), 0, m) && index < m
      ensures counter == if found then CounterAfter(old(counter), 1) else old(counter)
    {
      found, index := m > 0, 0;
      if found {
        index := counter % m;
        counter := (counter + 1) % USIZE;
      }
    }
  }

  /** What the counter holds j selections after c. */
  function CounterAfter(c: nat, j: nat): nat { (c + j) % USIZE }

  /** The selection made then. */
  function Selected(c: nat, j: nat, m: nat): nat
    requires m > 0
  {
    CounterAfter(c, j) % m
  }

  lemma NextCounter(c: nat, j: nat)
    ensures CounterAfter(CounterAfter(c, j), 1) == CounterAfter(c, j + 1)
  {
  }

  /** Each call of `Select` takes the next selection of the same sequence. */
  lemma NextSelection(c: nat, j: nat, m: nat)
    requires m > 0
    ensures CounterAfter(CounterAfter(c, j), 1) == CounterAfter(c, j + 1)
    ensures Selected(CounterAfter(c, j), 1, m) == Selected(c, j + 1, m)
  {
    NextCounter(c, j);
  }

  /** How often index i is among the first k selections. */
  function Times(c: nat, k: nat, m: nat, i: nat): nat
    requires m > 0
  {
    if k == 0 then 0 else Times(c, k - 1, m, i) + if Selected(c, k - 1, m) == i then 1 else 0
  }

  lemma ModStep(a: nat, m: nat)
    requires m > 0
    ensures (a + 1) % m == if a % m == m - 1 then 0 else a % m + 1
  {
    var q, r := a / m, a % m;
    assert a + 1 == q * m + (r + 1);
    if r == m - 1 {
      assert a + 1 == (q + 1) * m;
      DivUnique(a + 1, m, q + 1, 0);
    } else {
      DivUnique(a + 1, m, q, r + 1);
    }
  }

  lemma DivUnique(x: nat, m: nat, q: nat, r: nat)
    requires m > 0 && r < m && x == q * m + r
    ensures x % m == r && x / m == q
  {
    var p, s := x / m, x % m;
    assert x == p * m + s && s < m;
    Spread(p, q, m);
    Spread(q, p, m);
  }

  lemma {:induction false} Spread(p: nat, q: nat, m: nat)
    ensures p > q ==> p * m >= q * m + m
    decreases p
  {
    if p > q + 1 {
      Spread(p - 1, q, m);
      assert p * m == (p - 1) * m + m;
    } else if p == q + 1 {
      assert p * m == q * m + m;
    }
  }

  /** Any m selections in a row are a permutation: every index exactly once. */
  lemma {:induction false} OneRoundFrom(c: nat, k: nat, m: nat, i: nat)
    requires m > 0 && i < m && k <= m && c + k <= USIZE
    ensures Times(c, k, m, i) == if (i + m - c % m) % m < k then 1 else 0
    decreases k
  {
    if k > 0 {
      OneRoundFrom(c, k - 1, m, i);
      WhenSelected(c, k - 1, m, i);
    }
  }

  /** Index i is selected at distance j < m exactly when j is its distance ahead. */
  lemma WhenSelected(c: nat, j: nat, m: nat, i: nat)
    requires m > 0 && i < m && j < m && c + j < USIZE
    ensures Selected(c, j, m) == i <==> j == (i + m - c % m) % m
  {
    var r := c % m;
    var d := if i >= r then i - r else i + m - r;
    DivUnique(i + m - r, m, if i >= r then 1 else 0, d);
    SelectedValue(c, j, m);
  }

  lemma SelectedValue(c: nat, j: nat, m: nat)
    requires m > 0 && j < m && c + j < USIZE
    ensures Selected(c, j, m) == if c % m + j < m then c % m + j else c % m + j - m
  {
    Unwrapped(c, j);
    Ahead(c, j, m, c / m, c % m);
  }

  lemma Unwrapped(c: nat, j: nat)
    requires c + j < USIZE
    ensures CounterAfter(c, j) == c + j
  {
  }

  lemma Ahead(c: nat, j: nat, m: nat, q: nat, r: nat)
    requires j < m && r < m && c == q * m + r
    ensures (c + j) % m == if r + j < m then r + j else r + j - m
  {
    if r + j < m {
      DivUnique(c + j, m, q, r + j);
    } else {
      assert (q + 1) * m == q * m + m;
      DivUnique(c + j, m, q + 1, r + j - m);
    }
  }

  lemma OneRound(c: nat, m: nat, i: nat)
    requires m > 0 && i < m && c + m <= USIZE
    ensures Times(c, m, m, i) == 1
  {
    OneRoundFrom(c, m, m, i);
  }

  lemma {:induction false} TimesSplit(c: nat, k: nat, l: nat, m: nat, i: nat)
    requires m > 0
    ensures Times(c, k + l, m, i) == Times(c, k, m, i) + Times(c + k, l, m, i)
    decreases l
  {
    if l > 0 {
      TimesSplit(c, k, l - 1, m, i);
      assert c + (k + l - 1) == c + k + (l - 1);
    }
  }

  /** As long as the counter does not wrap, after k notifications every index was selected
      floor(k/m) or ceil(k/m) times. */
  lemma {:induction false} Balanced(c: nat, k: nat, m: nat, i: nat)
    requires m > 0 && i < m && c + k <= USIZE
    ensures k / m <= Times(c, k, m, i) <= (k + m - 1) / m
    decreases k
  {
    if k < m {
      OneRoundFrom(c, k, m, i);
      DivUnique(k, m, 0, k);
      if k > 0 {
        DivUnique(k + m - 1, m, 1, k - 1);
      } else {
        DivUnique(m - 1, m, 0, m - 1);
      }
    } else {
      OneRound(c, m, i);
      TimesSplit(c, m, k - m, m, i);
      Balanced(c + m, k - m, m, i);
      LessOne(k, m);
      LessOne(k + m - 1, m);
    }
  }

  lemma LessOne(x: nat, m: nat)
    requires m > 0 && x >= m
    ensures x / m == (x - m) / m + 1
  {
    var q, r := x / m, x % m;
    assert x == q * m + r;
    assert q >= 1;
    assert x - m == (q - 1) * m + r;
    DivUnique(x - m, m, q - 1, r);
  }

  /** When the counter wraps, the selection goes to the next index as ever exactly if m
      divides 2^64. */
  lemma WrapKeepsRotation(m: nat)
    requires m > 0
    ensures Selected(USIZE - 1, 1, m) == (Selected(USIZE - 1, 0, m) + 1) % m <==> USIZE % m == 0
  {
    ModStep(USIZE - 1, m);
    DivUnique(0, m, 0, 0);
    var r := (USIZE - 1) % m;
    if r < m - 1 {
      DivUnique(r + 1, m, 0, r + 1);
    } else {
      DivUnique(m, m, 1, 0);
    }
  }
}
