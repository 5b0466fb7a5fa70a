/** Strings: the order that Go's `<` gives them, prefixes, and the helpers of pkg/utils/strings. */
module Strings {

  /** Lexicographic order, by code point. */
  predicate Less(a: string, b: string) {
    if b == [] then false
    else if a == [] then true
    else if a[0] != b[0] then a[0] < b[0]
    else Less(a[1..], b[1..])
  }

  /** Up to `k` the strings agree. */
  predicate AgreeTo(a: string, b: string, k: nat) {
    k <= |a| && k <= |b| && forall j :: 0 <= j < k ==> a[j] == b[j]
  }

  lemma AgreeOneMore(a: string, b: string, k: nat)
    requires a != [] && b != [] && a[0] == b[0]
    ensures AgreeTo(a, b, k + 1) <==> AgreeTo(a[1..], b[1..], k)
  {
    if AgreeTo(a, b, k + 1) {
      assert forall j :: 0 <= j < k ==> a[1..][j] == a[j + 1] && b[1..][j] == b[j + 1];
    }
    if AgreeTo(a[1..], b[1..], k) {
      forall j | 0 <= j < k + 1
        ensures a[j] == b[j]
      {
        assert j > 0 ==> a[j] == a[1..][j - 1] && b[j] == b[1..][j - 1];
      }
    }
  }

  /** The order told without recursion: the first string ends first, or has the lesser character where they
      first differ. */
  lemma {:induction false} LessMeans(a: string, b: string)
    ensures Less(a, b) <==> exists k: nat :: AgreeTo(a, b, k) && k < |b| && (k == |a| || a[k] < b[k])
  {
    if b == [] {
    } else if a == [] || a[0] != b[0] {
      assert AgreeTo(a, b, 0);
      forall k: nat | AgreeTo(a, b, k) && a != []
        ensures k == 0
      {
      }
    } else {
      var a', b' := a[1..], b[1..];
      LessMeans(a', b');
      if Less(a', b') {
        var k: nat :| AgreeTo(a', b', k) && k < |b'| && (k == |a'| || a'[k] < b'[k]);
        AgreeOneMore(a, b, k);
        assert AgreeTo(a, b, k + 1);
      }
      if k: nat :| AgreeTo(a, b, k) && k < |b| && (k == |a| || a[k] < b[k]) {
        AgreeOneMore(a, b, k - 1);
        assert AgreeTo(a', b', k - 1);
      }
    }
  }

  lemma {:induction false} LessIrreflexive(a: string)
    ensures !Less(a, a)
  {
    if a != [] {
      LessIrreflexive(a[1..]);
    }
  }

  lemma {:induction false} LessTransitive(a: string, b: string, c: string)
    requires Less(a, b) && Less(b, c)
    ensures Less(a, c)
  {
    if a != [] && a[0] == b[0] && b[0] == c[0] {
      LessTransitive(a[1..], b[1..], c[1..]);
    }
  }

  lemma {:induction false} LessTotal(a: string, b: string)
    ensures a == b || Less(a, b) || Less(b, a)
  {
    if a != [] && b != [] && a[0] == b[0] {
      LessTotal(a[1..], b[1..]);
      assert a == [a[0]] + a[1..] && b == [b[0]] + b[1..];
    }
  }

  lemma LessAsymmetric(a: string, b: string)
    requires Less(a, b)
    ensures !Less(b, a)
  {
    if Less(b, a) {
      LessTransitive(a, b, a);
      LessIrreflexive(a);
    }
  }

  lemma LessLaws(a: string, b: string, c: string)
    ensures !Less(a, a)
    ensures Less(a, b) && Less(b, c) ==> Less(a, c)
    ensures Less(a, c) ==> Less(a, b) || Less(b, c)
    ensures a != b ==> Less(a, b) || Less(b, a)
    ensures !(Less(a, b) && Less(b, a))
  {
    LessIrreflexive(a);
    LessTotal(a, b);
    LessTotal(b, c);
    if Less(a, b) && Less(b, c) {
      LessTransitive(a, b, c);
    }
    if Less(a, b) {
      LessAsymmetric(a, b);
    }
    if Less(a, c) && Less(b, a) {
      LessTransitive(b, a, c);
    }
  }

  predicate HasPrefix(s: string, prefix: string) {
    |prefix| <= |s| && s[..|prefix|] == prefix
  }

  predicate HasSuffix(s: string, suffix: string) {
    |suffix| <= |s| && s[|s| - |suffix|..] == suffix
  }

  function TrimSuffix(s: string, suffix: string): string {
    if HasSuffix(s, suffix) then s[..|s| - |suffix|] else s
  }

  function SuppySuffix(text: string, suffix: string): string {
    if HasSuffix(text, suffix) then text else text + suffix
  }

  /** Neither string is a prefix of the other. */
  predicate PrefixFree(a: string, b: string) {
    !HasPrefix(a, b) && !HasPrefix(b, a)
  }

  /** Between prefix-free strings the first difference decides, whatever is appended. */
  lemma {:induction false} PrefixFreeOrder(a: string, b: string, x: string, y: string)
    requires PrefixFree(a, b)
    ensures Less(a + x, b + y) <==> Less(a, b)
  {
    if a[0] == b[0] {
      assert PrefixFree(a[1..], b[1..]) by {
        assert HasPrefix(a[1..], b[1..]) ==> HasPrefix(a, b);
        assert HasPrefix(b[1..], a[1..]) ==> HasPrefix(b, a);
      }
      PrefixFreeOrder(a[1..], b[1..], x, y);
      assert (a + x)[1..] == a[1..] + x && (b + y)[1..] == b[1..] + y;
    }
  }
}
