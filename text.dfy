/**
 * String utilities the accessor layer relies on: the decimal rendering of an
 * index inside a path (Swift's `"\(index)"`), the ordering Swift's
 * `sorted()` puts dictionary keys in, and joining lines with a separator.
 */
module Text {
  import opened Wrappers

  // ---------------------------------------------------------------------------
  // Decimal rendering of integers, and the parser that undoes it
  // ---------------------------------------------------------------------------

  predicate IsDigit(c: char) {
    '0' <= c <= '9'
  }

  predicate AllDigits(s: string) {
    forall i :: 0 <= i < |s| ==> IsDigit(s[i])
  }

  function DigitChar(d: nat): (c: char)
    requires d < 10
    ensures IsDigit(c)
  {
    "0123456789"[d]
  }

  function DigitValue(c: char): (d: nat)
    requires IsDigit(c)
    ensures d < 10
  {
    (c as int - '0' as int) as nat
  }

  /** Decimal digits of `n`, most significant first, without leading zeros. */
  function NatToString(n: nat): (s: string)
    ensures |s| >= 1 && AllDigits(s)
    ensures |s| > 1 ==> s[0] != '0'
  {
    if n < 10 then [DigitChar(n)] else NatToString(n / 10) + [DigitChar(n % 10)]
  }

  /** Swift's string interpolation of an `Int`: a minus sign for negatives, then the digits. */
  function IntToString(i: int): (s: string)
    ensures |s| >= 1
    ensures i < 0 <==> s[0] == '-'
  {
    if i < 0 then "-" + NatToString(-i) else NatToString(i)
  }

  /** The value of a non-empty run of decimal digits. */
  function ParseNat(s: string): nat
    requires |s| >= 1 && AllDigits(s)
  {
    if |s| == 1 then DigitValue(s[0])
    else ParseNat(s[..|s| - 1]) * 10 + DigitValue(s[|s| - 1])
  }

  /** Reads back an optionally negative decimal integer; `None` on anything else. */
  function ParseInt(s: string): Option<int> {
    if |s| >= 2 && s[0] == '-' && AllDigits(s[1..]) then var n: int := ParseNat(s[1..]); Some(-n)
    else if |s| >= 1 && AllDigits(s) then Some(ParseNat(s))
    else None
  }

  lemma {:induction false} ParseNatToString(n: nat)
    ensures ParseNat(NatToString(n)) == n
  {
    if n >= 10 {
      var s := NatToString(n);
      assert s[..|s| - 1] == NatToString(n / 10);
      ParseNatToString(n / 10);
    }
  }

  /** Rendering an index and reading it back gives the index again. */
  lemma IntToStringRoundTrip(i: int)
    ensures ParseInt(IntToString(i)) == Some(i)
  {
    var s := IntToString(i);
    if i < 0 {
      assert s[1..] == NatToString(-i);
      ParseNatToString(-i);
    } else {
      ParseNatToString(i);
    }
  }

  /** Distinct integers render to distinct strings. */
  lemma IntToStringInjective(i: int, j: int)
    requires IntToString(i) == IntToString(j)
    ensures i == j
  {
    IntToStringRoundTrip(i);
    IntToStringRoundTrip(j);
  }

  // ---------------------------------------------------------------------------
  // Lexicographic order of strings, as used by `sorted()` on dictionary keys
  // ---------------------------------------------------------------------------

  /** `a` sorts strictly before `b`: a proper prefix, or smaller at the first difference. */
  predicate Below(a: string, b: string) {
    if |a| == 0 then |b| > 0
    else if |b| == 0 then false
    else if a[0] == b[0] then Below(a[1..], b[1..])
    else a[0] < b[0]
  }

  lemma {:induction false} BelowIrreflexive(a: string)
    ensures !Below(a, a)
  {
    if |a| > 0 {
      BelowIrreflexive(a[1..]);
    }
  }

  lemma {:induction false} BelowTransitive(a: string, b: string, c: string)
    requires Below(a, b) && Below(b, c)
    ensures Below(a, c)
  {
    if |a| > 0 && a[0] == b[0] && b[0] == c[0] {
      BelowTransitive(a[1..], b[1..], c[1..]);
    }
  }

  lemma {:induction false} BelowTotal(a: string, b: string)
    requires a != b
    ensures Below(a, b) || Below(b, a)
  {
    if |a| > 0 && |b| > 0 && a[0] == b[0] {
      assert a == [a[0]] + a[1..] && b == [b[0]] + b[1..];
      BelowTotal(a[1..], b[1..]);
    }
  }

  lemma BelowAsymmetric(a: string, b: string)
    requires Below(a, b)
    ensures !Below(b, a)
  {
    if Below(b, a) {
      BelowTransitive(a, b, a);
      BelowIrreflexive(a);
    }
  }

  // ---------------------------------------------------------------------------
  // Sorting a set of keys
  // ---------------------------------------------------------------------------

  predicate IsLeast(k: string, keys: set<string>) {
    k in keys && forall j :: j in keys ==> !Below(j, k)
  }

  predicate StrictlySorted(ks: seq<string>) {
    forall i, j :: 0 <= i < j < |ks| ==> Below(ks[i], ks[j])
  }

  lemma {:induction false} LeastExists(keys: set<string>)
    requires keys != {}
    ensures exists k :: IsLeast(k, keys)
    decreases keys
  {
    var x :| x in keys;
    var rest := keys - {x};
    if rest == {} {
      assert keys == {x};
      BelowIrreflexive(x);
      assert IsLeast(x, keys);
    } else {
      LeastExists(rest);
      var m :| IsLeast(m, rest);
      if Below(x, m) {
        forall j | j in keys ensures !Below(j, x) {
          if j == x {
            BelowIrreflexive(x);
          } else if Below(j, x) {
            BelowTransitive(j, x, m);
          }
        }
        assert IsLeast(x, keys);
      } else {
        forall j | j in keys ensures !Below(j, m) { }
        assert IsLeast(m, keys);
      }
    }
  }

  lemma LeastUnique(keys: set<string>)
    ensures forall a, b :: IsLeast(a, keys) && IsLeast(b, keys) ==> a == b
  {
    forall a, b | IsLeast(a, keys) && IsLeast(b, keys) ensures a == b {
      if a != b {
        BelowTotal(a, b);
      }
    }
  }

  /** The keys of a set in ascending order: what `keys.sorted()` yields. */
  function SortedKeys(keys: set<string>): (ks: seq<string>)
    ensures StrictlySorted(ks)
    ensures forall k :: k in ks <==> k in keys
    ensures |ks| == |keys|
    decreases keys
  {
    if keys == {} then []
    else
      LeastExists(keys);
      LeastUnique(keys);
      var k :| IsLeast(k, keys);
      var tail := SortedKeys(keys - {k});
      assert forall j :: j in tail ==> Below(k, j) by {
        forall j | j in tail ensures Below(k, j) {
          BelowTotal(k, j);
        }
      }
      [k] + tail
  }

  /** The first key of a strictly sorted listing of a set is its least key, and the rest list the others. */
  lemma SortedHead(keys: set<string>, ks: seq<string>)
    requires StrictlySorted(ks) && ks != []
    requires forall k :: k in ks <==> k in keys
    ensures IsLeast(ks[0], keys)
    ensures StrictlySorted(ks[1..])
    ensures forall k :: k in ks[1..] <==> k in keys - {ks[0]}
  {
    forall j | j in keys ensures !Below(j, ks[0]) {
      var p :| 0 <= p < |ks| && ks[p] == j;
      if p > 0 {
        BelowAsymmetric(ks[0], ks[p]);
      } else {
        BelowIrreflexive(j);
      }
    }
    forall j ensures j in ks[1..] <==> j in keys - {ks[0]} {
      if j in ks[1..] {
        var p :| 1 <= p < |ks| && ks[p] == j;
        BelowAsymmetric(ks[0], ks[p]);
        BelowIrreflexive(j);
      }
      if j in keys - {ks[0]} {
        var p :| 0 <= p < |ks| && ks[p] == j;
        assert ks[1..][p - 1] == j;
      }
    }
  }

  /** A strictly sorted listing of a set is the sorted listing: the order of the keys is determined. */
  lemma {:induction false} SortedKeysUnique(keys: set<string>, ks: seq<string>)
    requires StrictlySorted(ks)
    requires forall k :: k in ks <==> k in keys
    ensures ks == SortedKeys(keys)
    decreases keys
  {
    var sk := SortedKeys(keys);
    if ks == [] {
      assert keys == {};
    } else {
      assert ks[0] in sk;
      SortedHead(keys, ks);
      SortedHead(keys, sk);
      LeastUnique(keys);
      assert ks[0] == sk[0];
      SortedKeysUnique(keys - {ks[0]}, ks[1..]);
      SortedKeysUnique(keys - {ks[0]}, sk[1..]);
      assert ks == [ks[0]] + ks[1..];
      assert sk == [sk[0]] + sk[1..];
    }
  }

  // ---------------------------------------------------------------------------
  // Joining lines
  // ---------------------------------------------------------------------------

  /** The lines separated by `sep`, with no separator after the last one. */
  function Join(lines: seq<string>, sep: string): string {
    if |lines| == 0 then ""
    else if |lines| == 1 then lines[0]
    else Join(lines[..|lines| - 1], sep) + sep + lines[|lines| - 1]
  }

  /** Joining one more line of a prefix adds the separator and that line. */
  lemma JoinPrefixStep(head: string, lines: seq<string>, k: nat, sep: string)
    requires 1 <= k < |lines|
    ensures head + Join(lines[..k + 1], sep) == head + Join(lines[..k], sep) + sep + lines[k]
  {
    assert lines[..k + 1][..k] == lines[..k];
  }

  /** Every line followed by `term`, the last one included. */
  function Terminated(lines: seq<string>, term: string): string {
    if |lines| == 0 then ""
    else Terminated(lines[..|lines| - 1], term) + lines[|lines| - 1] + term
  }

  /** Terminating one more line appends it and its terminator. */
  lemma TerminatedSnoc(lines: seq<string>, i: nat, term: string)
    requires i < |lines|
    ensures Terminated(lines[..i + 1], term) == Terminated(lines[..i], term) + (lines[i] + term)
  {
    assert lines[..i + 1][..i] == lines[..i];
  }

  /** Terminating every line is joining them and adding one more terminator at the end. */
  lemma {:induction false} TerminatedIsJoinPlusTerm(lines: seq<string>, term: string)
    requires |lines| >= 1
    ensures Terminated(lines, term) == Join(lines, term) + term
  {
    if |lines| > 1 {
      var init := lines[..|lines| - 1];
      TerminatedIsJoinPlusTerm(init, term);
    } else {
      assert lines[..0] == [];
    }
  }
}
