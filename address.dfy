/**
 * Account addresses and their canonical form.
 *
 * The account watcher passes both addresses through ethers' `utils.getAddress`
 * before comparing them, because the provider's `accountsChanged` event and
 * ethers report the same account in different letter case. Here the
 * canonical form is ASCII lower-casing, which maps two spellings to the same
 * string exactly when they differ only in letter case. For spellings of `0x`
 * followed by 40 hex digits, the ones the provider and ethers report, the
 * EIP-55 checksum form does the same. On other spellings the two differ:
 * `getAddress` also equates a spelling with and without `0x`, accepts ICAP
 * spellings, and throws on a mixed-case spelling with a wrong checksum.
 */
module Address {

  predicate IsUpper(c: char) { 'A' <= c <= 'Z' }

  function Lower(c: char): char
  {
    if IsUpper(c) then (c as int + 32) as char else c
  }

  /** `c` and `d` are the same character up to the case of an ASCII letter. */
  predicate SameCharIgnoringCase(c: char, d: char)
  {
    c == d
    || (IsUpper(c) && d as int == c as int + 32)
    || (IsUpper(d) && c as int == d as int + 32)
  }

  /** `a` and `b` spell the same address up to letter case, position by position. */
  predicate SameIgnoringCase(a: string, b: string)
    decreases |a|
  {
    |a| == |b| &&
    (a == [] || (SameCharIgnoringCase(a[0], b[0]) && SameIgnoringCase(a[1..], b[1..])))
  }

  /** The canonical spelling of an address (the role `utils.getAddress` plays). */
  function Canonical(a: string): (r: string)
    ensures |r| == |a|
    ensures forall i :: 0 <= i < |a| ==> !IsUpper(r[i])
  {
    if a == [] then [] else [Lower(a[0])] + Canonical(a[1..])
  }

  lemma LowerEqualIff(c: char, d: char)
    ensures Lower(c) == Lower(d) <==> SameCharIgnoringCase(c, d)
  {
  }

  /** Two addresses have the same canonical form exactly when they differ only in letter case. */
  lemma {:induction false} CanonicalEqualIff(a: string, b: string)
    ensures Canonical(a) == Canonical(b) <==> SameIgnoringCase(a, b)
    decreases |a|
  {
    if a != [] && b != [] {
      LowerEqualIff(a[0], b[0]);
      CanonicalEqualIff(a[1..], b[1..]);
      var ca, cb := Canonical(a), Canonical(b);
      assert ca == [Lower(a[0])] + Canonical(a[1..]);
      assert cb == [Lower(b[0])] + Canonical(b[1..]);
      if ca == cb {
        assert ca[0] == cb[0];
        assert ca[1..] == cb[1..];
      }
    }
  }

  /** Canonicalising twice changes nothing: the canonical form is its own canonical form. */
  lemma {:induction false} CanonicalIdempotent(a: string)
    ensures Canonical(Canonical(a)) == Canonical(a)
  {
    if a != [] {
      var c := Canonical(a);
      assert c == [Lower(a[0])] + Canonical(a[1..]);
      assert c[1..] == Canonical(a[1..]);
      CanonicalIdempotent(a[1..]);
    }
  }

  /** An address and its canonical form differ only in letter case. */
  lemma CanonicalIsCaseVariant(a: string)
    ensures SameIgnoringCase(a, Canonical(a))
  {
    CanonicalIdempotent(a);
    CanonicalEqualIff(a, Canonical(a));
  }

  /** Position-by-position case equivalence is the same as SameIgnoringCase. */
  lemma {:induction false} SameIgnoringCasePointwise(a: string, b: string)
    ensures SameIgnoringCase(a, b) <==>
      |a| == |b| && forall i :: 0 <= i < |a| ==> SameCharIgnoringCase(a[i], b[i])
    decreases |a|
  {
    if a != [] && b != [] {
      SameIgnoringCasePointwise(a[1..], b[1..]);
      if |a| == |b| && forall i :: 0 <= i < |a| ==> SameCharIgnoringCase(a[i], b[i]) {
        forall i | 0 <= i < |a| - 1
          ensures SameCharIgnoringCase(a[1..][i], b[1..][i])
        {
          assert a[1..][i] == a[i + 1] && b[1..][i] == b[i + 1];
        }
      }
      if SameIgnoringCase(a, b) {
        forall i | 0 <= i < |a|
          ensures SameCharIgnoringCase(a[i], b[i])
        {
          if i > 0 {
            assert a[1..][i - 1] == a[i] && b[1..][i - 1] == b[i];
          }
        }
      }
    }
  }

  /** Spellings whose characters at one position are different letters or symbols are different addresses. */
  lemma DifferAt(a: string, b: string, i: nat)
    requires i < |a| && i < |b| && !SameCharIgnoringCase(a[i], b[i])
    ensures !SameIgnoringCase(a, b)
  {
    SameIgnoringCasePointwise(a, b);
  }
}
