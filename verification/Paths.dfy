/** Mount paths: `pathOverlap` of pkg/domain/plan.go against the tree of directories. */
module Paths {
  import opened Strings

  /** `pathOverlap`; on the target system paths already have slashes. */
  predicate PathOverlap(a: string, b: string) {
    HasPrefix(SuppySuffix(a, "/"), b) || HasPrefix(SuppySuffix(b, "/"), a)
  }

  /** The path without one trailing slash. */
  function Trimmed(path: string): string {
    TrimSuffix(path, "/")
  }

  predicate IsAbs(path: string) {
    HasPrefix(path, "/")
  }

  function Split(s: string): (r: seq<string>)
    ensures r != []
  {
    if s == "" then [""]
    else
      var rest := Split(s[1..]);
      if s[0] == '/' then [""] + rest else [[s[0]] + rest[0]] + rest[1..]
  }

  /** The directories on the way from the root to the path. */
  function Components(path: string): seq<string>
    requires IsAbs(path)
  {
    if path == "/" then [] else Split(path[1..])
  }

  predicate AncestorOrSelf(a: string, b: string)
    requires IsAbs(a) && IsAbs(b)
  {
    Components(a) <= Components(b)
  }

  lemma FirstComponent(s: string)
    ensures Split(s)[0] == "" <==> s == "" || s[0] == '/'
    ensures s != "" && s[0] == '/' ==> |Split(s)| > 1
    ensures s != "" && s[0] != '/' ==> Split(s)[0][0] == s[0]
    ensures s == "" ==> |Split(s)| == 1
  {
  }

  lemma PrefixCons(s: string, prefix: string)
    requires s != "" && prefix != "" && s[0] == prefix[0] && HasPrefix(s[1..], prefix[1..])
    ensures HasPrefix(s, prefix)
  {
    assert s[..|prefix|] == [s[0]] + s[1..][..|prefix| - 1];
    assert prefix == [prefix[0]] + prefix[1..];
  }

  lemma {:induction false} SplitPrefix(a: string, b: string)
    requires Split(a) <= Split(b)
    ensures HasPrefix(b, a)
  {
    if a == "" {
      assert b[..0] == "";
    } else {
      assert Split(b)[0] == Split(a)[0];
      FirstComponent(a);
      FirstComponent(b);
      assert b != "" && b[0] == a[0];
      var ra, rb := Split(a[1..]), Split(b[1..]);
      if a[0] == '/' {
        assert Split(a)[1..] == ra && Split(b)[1..] == rb;
      } else {
        assert Split(a)[0][1..] == ra[0] && Split(b)[0][1..] == rb[0];
        assert Split(a)[1..] == ra[1..] && Split(b)[1..] == rb[1..];
        assert ra == [ra[0]] + ra[1..] && rb == [rb[0]] + rb[1..];
      }
      SplitPrefix(a[1..], b[1..]);
      PrefixCons(b, a);
    }
  }

  lemma AncestorsArePrefixes(a: string, b: string)
    requires IsAbs(a) && IsAbs(b) && AncestorOrSelf(a, b)
    ensures HasPrefix(b, a)
  {
    if a == "/" {
      assert b[..1] == "/";
    } else {
      SplitPrefix(a[1..], b[1..]);
      PrefixCons(b, a);
    }
  }

  lemma SupplyingKeepsPrefix(s: string, prefix: string)
    requires HasPrefix(s, prefix)
    ensures HasPrefix(SuppySuffix(s, "/"), prefix)
  {
    assert (s + "/")[..|prefix|] == s[..|prefix|];
  }

  /** `pathOverlap` misses no mountpoint that lies in another one, or is the same. */
  lemma AncestorsOverlap(a: string, b: string)
    requires IsAbs(a) && IsAbs(b) && AncestorOrSelf(a, b)
    ensures PathOverlap(a, b)
  {
    hide AncestorOrSelf, SuppySuffix;
    AncestorsArePrefixes(a, b);
    SupplyingKeepsPrefix(b, a);
  }

  /** It is textual: between paths without a trailing slash it asks whether one is a prefix of the other. */
  lemma OverlapIsTextual(a: string, b: string)
    requires !HasSuffix(a, "/") && !HasSuffix(b, "/")
    ensures PathOverlap(a, b) <==> !PrefixFree(a, b)
  {
    TextualPrefix(a, b);
    TextualPrefix(b, a);
  }

  /** The longer path goes on within the last component of the shorter one. */
  predicate RunsOn(a: string, b: string) {
    HasPrefix(b, a) && |a| < |b| && b[|a|] != '/'
  }

  lemma {:induction false} SplitPrefixIff(a: string, b: string)
    requires HasPrefix(b, a)
    ensures Split(a) <= Split(b) <==> !RunsOn(a, b)
  {
    if a == "" {
      FirstComponent(b);
    } else {
      var a', b' := a[1..], b[1..];
      assert b[..|a|] == [b[0]] + b'[..|a'|] && a == [a[0]] + a';
      SplitPrefixIff(a', b');
      var ra, rb := Split(a'), Split(b');
      assert RunsOn(a, b) <==> RunsOn(a', b');
      if a[0] == '/' {
        assert Split(a) == [""] + ra && Split(b) == [""] + rb;
        assert Split(a)[1..] == ra && Split(b)[1..] == rb;
        SameHead("", ra, rb);
      } else {
        SameFirst([a[0]], ra, rb);
      }
    }
  }

  lemma SameHead(head: string, ra: seq<string>, rb: seq<string>)
    ensures [head] + ra <= [head] + rb <==> ra <= rb
  {
    assert ([head] + ra)[1..] == ra && ([head] + rb)[1..] == rb;
    if [head] + ra <= [head] + rb {
      assert ([head] + rb)[..|ra| + 1][1..] == rb[..|ra|];
    }
  }

  lemma SameFirst(head: string, ra: seq<string>, rb: seq<string>)
    requires ra != [] && rb != []
    ensures [head + ra[0]] + ra[1..] <= [head + rb[0]] + rb[1..] <==> ra <= rb
  {
    var a, b := [head + ra[0]] + ra[1..], [head + rb[0]] + rb[1..];
    assert (head + ra[0])[|head|..] == ra[0] && (head + rb[0])[|head|..] == rb[0];
    assert forall i :: 1 <= i < |ra| ==> a[i] == ra[i];
    assert forall i :: 1 <= i < |rb| ==> b[i] == rb[i];
    if a <= b {
      assert a[0] == b[0];
      assert forall i :: 0 <= i < |ra| ==> a[i] == b[i];
    }
    if ra <= rb {
      assert forall i :: 0 <= i < |ra| ==> ra[i] == rb[i];
    }
  }

  /** Between absolute paths without a trailing slash, a prefix is an ancestor unless it runs on. */
  lemma PrefixIsAncestorOrRunsOn(a: string, b: string)
    requires IsAbs(a) && IsAbs(b) && !HasSuffix(a, "/") && !HasSuffix(b, "/")
    ensures AncestorOrSelf(a, b) <==> HasPrefix(b, a) && !RunsOn(a, b)
  {
    assert a[|a| - 1..] == [a[|a| - 1]] && b[|b| - 1..] == [b[|b| - 1]];
    assert a != "/" && b != "/";
    if HasPrefix(b, a) {
      assert b[1..][..|a| - 1] == a[1..];
      SplitPrefixIff(a[1..], b[1..]);
    }
    if AncestorOrSelf(a, b) {
      AncestorsArePrefixes(a, b);
    }
  }

  /** Main result: `pathOverlap` holds exactly if one path lies in the other, or is the other, or one runs on
      where the other ends. */
  lemma OverlapIsNestingOrRunningOn(a: string, b: string)
    requires IsAbs(a) && IsAbs(b) && !HasSuffix(a, "/") && !HasSuffix(b, "/")
    ensures PathOverlap(a, b) <==> AncestorOrSelf(a, b) || AncestorOrSelf(b, a) || RunsOn(a, b) || RunsOn(b, a)
  {
    hide AncestorOrSelf;
    TextualPrefix(a, b);
    TextualPrefix(b, a);
    PrefixIsAncestorOrRunsOn(a, b);
    PrefixIsAncestorOrRunsOn(b, a);
  }

  /** Main result: it rejects nothing but genuine nesting if and only if neither path runs on. */
  lemma NoFalseRejectionIffNeitherRunsOn(a: string, b: string)
    requires IsAbs(a) && IsAbs(b) && !HasSuffix(a, "/") && !HasSuffix(b, "/")
    ensures (PathOverlap(a, b) <==> AncestorOrSelf(a, b) || AncestorOrSelf(b, a)) <==> !RunsOn(a, b) && !RunsOn(b, a)
  {
    hide AncestorOrSelf, PathOverlap;
    OverlapIsNestingOrRunningOn(a, b);
    PrefixIsAncestorOrRunsOn(a, b);
    PrefixIsAncestorOrRunsOn(b, a);
    LongerIsNoPrefix(a, b);
    LongerIsNoPrefix(b, a);
  }

  lemma LongerIsNoPrefix(a: string, b: string)
    ensures RunsOn(a, b) ==> !HasPrefix(a, b)
  {
  }

  /** Siblings that it rejects. */
  lemma SiblingsRunOn()
    ensures IsAbs("/in") && IsAbs("/in2") && !HasSuffix("/in", "/") && !HasSuffix("/in2", "/")
    ensures PathOverlap("/in", "/in2") && !AncestorOrSelf("/in", "/in2") && !AncestorOrSelf("/in2", "/in")
  {
    assert "/in2"[..3] == "/in" && "/in"[2..] == "n" && "/in2"[3..] == "2";
    hide AncestorOrSelf, PathOverlap;
    OverlapIsNestingOrRunningOn("/in", "/in2");
    PrefixIsAncestorOrRunsOn("/in", "/in2");
    PrefixIsAncestorOrRunsOn("/in2", "/in");
  }

  lemma TextualPrefix(a: string, b: string)
    requires !HasSuffix(a, "/") && !HasSuffix(b, "/")
    ensures HasPrefix(SuppySuffix(a, "/"), b) <==> HasPrefix(a, b)
  {
    if |b| == |a| + 1 {
      assert b[|b| - 1..] == [b[|a|]];
    }
    if |b| <= |a| {
      assert (a + "/")[..|b|] == a[..|b|];
    }
  }

  lemma NoOverlapIsPrefixFree(a: string, b: string)
    requires !PathOverlap(a, b)
    ensures PrefixFree(a, b)
  {
    assert |b| <= |a| ==> SuppySuffix(a, "/")[..|b|] == a[..|b|];
    assert |a| <= |b| ==> SuppySuffix(b, "/")[..|a|] == b[..|a|];
  }

  /** Sorting by the path as given is sorting by the trimmed path, once overlaps are excluded. */
  lemma TrimmingKeepsOrder(a: string, b: string)
    requires !PathOverlap(Trimmed(a), Trimmed(b))
    ensures Less(a, b) <==> Less(Trimmed(a), Trimmed(b))
  {
    NoOverlapIsPrefixFree(Trimmed(a), Trimmed(b));
    PrefixFreeOrder(Trimmed(a), Trimmed(b), a[|Trimmed(a)|..], b[|Trimmed(b)|..]);
    assert a == Trimmed(a) + a[|Trimmed(a)|..];
    assert b == Trimmed(b) + b[|Trimmed(b)|..];
  }
}
