/** Fresh profile keys: a base name, or the base with the first free number. */
module ProfileKeys {
  import opened Ids

  function Digit(d: nat): char
    requires d < 10
  {
    ['0', '1', '2', '3', '4', '5', '6', '7', '8', '9'][d]
  }

  function Decimal(n: nat): (r: string)
    ensures r != []
  {
    if n < 10 then [Digit(n)] else Decimal(n / 10) + [Digit(n % 10)]
  }

  lemma {:induction false} DecimalInjective(m: nat, n: nat)
    requires Decimal(m) == Decimal(n)
    ensures m == n
  {
    var a, b := Decimal(m), Decimal(n);
    assert a[|a| - 1] == Digit(m % 10) && b[|b| - 1] == Digit(n % 10);
    DigitInjective(m % 10, n % 10);
    if m >= 10 && n >= 10 {
      assert a[..|a| - 1] == b[..|b| - 1];
      DecimalInjective(m / 10, n / 10);
    }
  }

  lemma DigitInjective(c: nat, d: nat)
    requires c < 10 && d < 10 && Digit(c) == Digit(d)
    ensures c == d
  {
  }

  /** The `n`-th key tried for `base`, counting from 1. */
  function Candidate(base: string, n: nat): string { if n <= 1 then base else base + "-" + Decimal(n) }

  lemma CandidateInjective(base: string, m: nat, n: nat)
    requires 1 <= m < n
    ensures Candidate(base, m) != Candidate(base, n)
  {
    var c := Candidate(base, n);
    assert |c| > |base|;
    if m > 1 && Candidate(base, m) == c {
      var d := Candidate(base, m);
      assert c[|base| + 1..] == Decimal(n) && d[|base| + 1..] == Decimal(m);
      DecimalInjective(m, n);
    }
  }

  function Tried(base: string, n: nat): set<string> { set i | 1 <= i < n :: Candidate(base, i) }

  lemma InTried(base: string, i: nat, n: nat)
    requires 1 <= i < n
    ensures Candidate(base, i) in Tried(base, n)
  {
  }

  lemma NotTried(base: string, n: nat)
    ensures Candidate(base, n) !in Tried(base, n)
  {
    forall i: nat | 1 <= i < n ensures Candidate(base, i) != Candidate(base, n) { CandidateInjective(base, i, n); }
  }

  lemma TriedNext(base: string, n: nat)
    requires n >= 1
    ensures Tried(base, n + 1) == Tried(base, n) + {Candidate(base, n)}
  {
  }

  lemma {:induction false} TriedCount(base: string, n: nat)
    requires n >= 1
    ensures |Tried(base, n)| == n - 1
  {
    if n > 1 {
      TriedCount(base, n - 1);
      TriedNext(base, n - 1);
      NotTried(base, n - 1);
    }
  }

  /** Pigeonhole: no more candidates can be taken than there are keys. */
  lemma TakenBound(keys: set<string>, base: string, n: nat)
    requires n >= 1 && Tried(base, n) <= keys
    ensures n - 1 <= |keys|
  {
    TriedCount(base, n);
    SubsetSize(Tried(base, n), keys);
  }

  /** The number of the first free candidate from `n` on. */
  ghost function FirstFree(keys: set<string>, base: string, n: nat): (m: nat)
    requires n >= 1 && Tried(base, n) <= keys
    ensures n <= m <= |keys| + 1 && Candidate(base, m) !in keys && Tried(base, m) <= keys
    decreases |keys| + 1 - n
  {
    TakenBound(keys, base, n);
    if Candidate(base, n) !in keys then n
    else
      TriedNext(base, n);
      TakenBound(keys, base, n + 1);
      FirstFree(keys, base, n + 1)
  }

  ghost function UniqueKey(keys: set<string>, base: string): (r: string)
    ensures r !in keys
  {
    Candidate(base, FirstFree(keys, base, 1))
  }

  /** A fresh key starts like its base. */
  lemma UniqueKeyHead(keys: set<string>, base: string)
    requires base != []
    ensures UniqueKey(keys, base) != [] && UniqueKey(keys, base)[0] == base[0]
  {
  }

  lemma FirstFreeUnique(keys: set<string>, base: string, n: nat, m: nat)
    requires n >= 1 && Tried(base, n) <= keys
    requires m >= n && Candidate(base, m) !in keys && Tried(base, m) <= keys
    ensures FirstFree(keys, base, n) == m
  {
    assert FirstFree(keys, base, n) == m;
  }

  /** `unique_profile_key`: finds a free key within one more try than there are keys. */
  method UniqueProfileKey(keys: set<string>, base: string) returns (key: string, tries: nat)
    ensures key == UniqueKey(keys, base) && key !in keys
    ensures 1 <= tries <= |keys| + 1 && key == Candidate(base, tries)
    ensures forall i :: 1 <= i < tries ==> Candidate(base, i) in keys
  {
    key, tries := base, 1;
    while key in keys
      invariant 1 <= tries && key == Candidate(base, tries) && Tried(base, tries) <= keys
      decreases |keys| + 1 - tries
    {
      TriedNext(base, tries);
      TakenBound(keys, base, tries + 1);
      tries := tries + 1;
      key := Candidate(base, tries);
    }
    TakenBound(keys, base, tries);
    FirstFreeUnique(keys, base, 1, tries);
    forall i | 1 <= i < tries ensures Candidate(base, i) in keys { InTried(base, i, tries); }
  }
}
