/** Python's ordering of `str` values (code point by code point, a proper
    prefix first) and the ascending key sequence that `sorted(d.items())`
    walks through for a dictionary with string keys. */
module LexOrder {

  /** `a < b` on Python strings. */
  predicate Less(a: string, b: string)
    decreases |a|
  {
    if |a| == 0 then |b| > 0
    else if |b| == 0 then false
    else if a[0] != b[0] then a[0] < b[0]
    else Less(a[1..], b[1..])
  }

  lemma {:induction false} LessIrreflexive(a: string)
    ensures !Less(a, a)
    decreases |a|
  {
    if |a| > 0 { LessIrreflexive(a[1..]); }
  }

  lemma {:induction false} LessAsymmetric(a: string, b: string)
    ensures !(Less(a, b) && Less(b, a))
    decreases |a|
  {
    if |a| > 0 && |b| > 0 && a[0] == b[0] { LessAsymmetric(a[1..], b[1..]); }
  }

  lemma {:induction false} LessTransitive(a: string, b: string, c: string)
    requires Less(a, b) && Less(b, c)
    ensures Less(a, c)
    decreases |a|
  {
    if |a| > 0 && a[0] == b[0] && b[0] == c[0] {
      LessTransitive(a[1..], b[1..], c[1..]);
    }
  }

  lemma {:induction false} LessTotal(a: string, b: string)
    requires a != b
    ensures Less(a, b) || Less(b, a)
    decreases |a|
  {
    if |a| > 0 && |b| > 0 && a[0] == b[0] {
      assert a == [a[0]] + a[1..] && b == [b[0]] + b[1..];
      LessTotal(a[1..], b[1..]);
    }
  }

  /** `m` comes before every other element of `s`. */
  predicate IsLeast(m: string, s: set<string>)
  {
    m in s && forall k :: k in s && k != m ==> Less(m, k)
  }

  lemma LeastUnique(a: string, b: string, s: set<string>)
    requires IsLeast(a, s) && IsLeast(b, s)
    ensures a == b
  {
    if a != b { LessAsymmetric(a, b); }
  }

  lemma {:induction false} LeastExists(s: set<string>)
    requires s != {}
    ensures exists m :: IsLeast(m, s)
    decreases |s|
  {
    var x :| x in s;
    if s != {x} {
      LeastExists(s - {x});
      var m' :| IsLeast(m', s - {x});
      if x != m' { LessTotal(x, m'); }
      if Less(x, m') {
        forall k | k in s && k != x ensures Less(x, k) {
          if k != m' { LessTransitive(x, m', k); }
        }
        assert IsLeast(x, s);
      } else {
        assert IsLeast(m', s);
      }
    } else {
      assert IsLeast(x, s);
    }
  }

  /** Every element of `keys` comes strictly before every later one. */
  predicate StrictlyAscending(keys: seq<string>)
  {
    forall i, j :: 0 <= i < j < |keys| ==> Less(keys[i], keys[j])
  }

  /** The keys of a dictionary in the order `sorted(d.items())` yields them. */
  ghost function SortedKeys(s: set<string>): (keys: seq<string>)
    ensures |keys| == |s|
    ensures forall k :: k in keys <==> k in s
    ensures StrictlyAscending(keys)
    decreases |s|
  {
    if s == {} then []
    else
      LeastExists(s);
      var m :| IsLeast(m, s);
      [m] + SortedKeys(s - {m})
  }

  lemma SortedKeysUnfold(s: set<string>, m: string)
    requires IsLeast(m, s)
    ensures SortedKeys(s) == [m] + SortedKeys(s - {m})
  {
    var keys := SortedKeys(s);
    assert keys == [keys[0]] + SortedKeys(s - {keys[0]});
    forall k | k in s && k != keys[0] ensures Less(keys[0], k) {
      var j :| 0 <= j < |keys| && keys[j] == k;
    }
    LeastUnique(m, keys[0], s);
  }

  lemma SortedKeysStep(s: set<string>, done: seq<string>, rest: set<string>, m: string)
    requires done + SortedKeys(rest) == SortedKeys(s)
    requires IsLeast(m, rest)
    ensures (done + [m]) + SortedKeys(rest - {m}) == SortedKeys(s)
  {
    SortedKeysUnfold(rest, m);
    assert (done + [m]) + SortedKeys(rest - {m}) == done + ([m] + SortedKeys(rest - {m}));
  }

  /** Python's `sorted` applied to the keys of a dictionary. */
  method Sorted(s: set<string>) returns (keys: seq<string>)
    ensures keys == SortedKeys(s)
  {
    keys := [];
    var rest := s;
    while rest != {}
      invariant keys + SortedKeys(rest) == SortedKeys(s)
      decreases |rest|
    {
      LeastExists(rest);
      var m :| IsLeast(m, rest);
      SortedKeysStep(s, keys, rest, m);
      keys := keys + [m];
      rest := rest - {m};
    }
  }
}
