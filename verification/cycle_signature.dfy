/** The signature that tells one import cycle from another, wherever it is entered
    (canonicalCycleSignature of scripts/socraticode-graph-helper.js). */
module CycleSignature {

  // ---- text order ----

  /** Code by code; a proper prefix comes first. */
  predicate Less(a: string, b: string) {
    b != [] && (a == [] || a[0] < b[0] || (a[0] == b[0] && Less(a[1..], b[1..])))
  }

  lemma {:induction false} LessTotal(a: string, b: string)
    ensures a == b || Less(a, b) || Less(b, a)
    ensures !(Less(a, b) && Less(b, a)) && !Less(a, a)
  {
    if a != [] && b != [] && a[0] == b[0] {
      LessTotal(a[1..], b[1..]);
      assert a == [a[0]] + a[1..] && b == [b[0]] + b[1..];
    }
    LessIrreflexive(a);
  }

  lemma {:induction false} LessIrreflexive(a: string)
    ensures !Less(a, a)
  {
    if a != [] {
      LessIrreflexive(a[1..]);
    }
  }

  lemma {:induction false} LessTrans(a: string, b: string, c: string)
    requires Less(a, b) && Less(b, c)
    ensures Less(a, c)
  {
    if a != [] && a[0] == b[0] && b[0] == c[0] {
      LessTrans(a[1..], b[1..], c[1..]);
    }
  }

  // ---- joining names ----

  const ARROW := " -> "

  function Join(names: seq<string>): string {
    if names == [] then "" else if |names| == 1 then names[0] else names[0] + ARROW + Join(names[1..])
  }

  predicate Plain(name: string) { '>' !in name }

  lemma FirstHead(a: seq<string>)
    requires a != [] && forall x :: x in a ==> Plain(x)
    ensures |a| == 1 ==> '>' !in Join(a)
    ensures |a| > 1 ==>
              var n := |a[0]| + 2;
              && |Join(a)| >= n + 2 && Join(a)[n] == '>' && (forall k :: 0 <= k < n ==> Join(a)[k] != '>')
              && Join(a)[..|a[0]|] == a[0] && Join(a)[n + 2..] == Join(a[1..])
  {
    if |a| > 1 {
      var all, n := Join(a), |a[0]|;
      assert Plain(a[0]);
      assert all == a[0] + (ARROW + Join(a[1..]));
      assert all[n] == ' ' && all[n + 1] == '-' && all[n + 2] == '>';
      assert all[n + 4..] == Join(a[1..]);
    } else {
      assert Plain(a[0]) && Join(a) == a[0];
    }
  }

  /** The names are readable back from the joined text as long as none holds the arrow's head. */
  lemma {:induction false} JoinInjective(a: seq<string>, b: seq<string>)
    requires a != [] && b != [] && (forall x :: x in a ==> Plain(x)) && (forall x :: x in b ==> Plain(x))
    requires Join(a) == Join(b)
    ensures a == b
    decreases |a|
  {
    hide Plain;
    FirstHead(a);
    FirstHead(b);
    if |a| == 1 || |b| == 1 {
      assert |a| == 1 && |b| == 1 && Join(a) == a[0] && Join(b) == b[0];
    } else {
      var all := Join(a);
      assert |a[0]| == |b[0]| by {
        assert all[|a[0]| + 2] == '>' && all[|b[0]| + 2] == '>';
      }
      JoinInjective(a[1..], b[1..]);
      assert a == [a[0]] + a[1..] && b == [b[0]] + b[1..];
    }
  }

  // ---- rotations ----

  function Rotate(core: seq<string>, k: nat): seq<string>
    requires k <= |core|
  {
    core[k..] + core[..k]
  }

  ghost predicate IsRotation(a: seq<string>, b: seq<string>) {
    exists k :: 0 <= k <= |a| && Rotate(a, k) == b
  }

  lemma RotateTwice(a: seq<string>, k: nat, j: nat)
    requires k <= |a| && j <= |a|
    ensures Rotate(Rotate(a, k), j) == Rotate(a, if k + j <= |a| then k + j else k + j - |a|)
  {
    var once := Rotate(a, k);
    if k + j <= |a| {
      assert once[j..] == a[k + j..] + a[..k];
      assert once[..j] == a[k..k + j];
      assert a[..k + j] == a[..k] + a[k..k + j];
    } else {
      var m := k + j - |a|;
      assert once[j..] == a[m..k];
      assert once[..j] == a[k..] + a[..m];
      assert a[m..] == a[m..k] + a[k..];
    }
  }

  lemma RotationTrans(a: seq<string>, b: seq<string>, c: seq<string>)
    requires IsRotation(a, b) && IsRotation(b, c)
    ensures IsRotation(a, c)
  {
    hide Rotate;
    var k :| 0 <= k <= |a| && Rotate(a, k) == b;
    RotateLength(a, k);
    var j :| 0 <= j <= |b| && Rotate(b, j) == c;
    RotateTwice(a, k, j);
  }

  lemma RotateLength(a: seq<string>, k: nat)
    requires k <= |a|
    ensures |Rotate(a, k)| == |a| && (forall x :: x in Rotate(a, k) ==> x in a)
  {
  }

  lemma RotationSym(a: seq<string>, b: seq<string>)
    requires IsRotation(a, b)
    ensures IsRotation(b, a)
  {
    var k :| 0 <= k <= |a| && Rotate(a, k) == b;
    RotateTwice(a, k, |a| - k);
    assert Rotate(a, |a|) == a;
  }

  // ---- the signature ----

  ghost predicate IsJoinedRotation(core: seq<string>, s: string) {
    exists k :: 0 <= k <= |core| && Join(Rotate(core, k)) == s
  }

  /** The least text among the joined rotations. */
  ghost predicate IsSignature(core: seq<string>, s: string) {
    IsJoinedRotation(core, s) && forall k :: 0 <= k <= |core| ==> !Less(Join(Rotate(core, k)), s)
  }

  lemma SignatureUnique(core: seq<string>, s: string, t: string)
    requires IsSignature(core, s) && IsSignature(core, t)
    ensures s == t
  {
    hide Join, Rotate, Less;
    LessTotal(s, t);
  }

  /** Tries every offset and keeps the least text. */
  method CanonicalCycleSignature(cycle: seq<string>) returns (best: string)
    requires |cycle| > 1
    ensures best == Signature(cycle[..|cycle| - 1])
  {
    hide Join, Rotate, Less;
    var core := cycle[..|cycle| - 1];
    best := Join(Rotate(core, 0));
    LessTotal(best, best);
    var offset := 1;
    while offset < |core|
      invariant 1 <= offset <= |core|
      invariant exists k :: 0 <= k < offset && Join(Rotate(core, k)) == best
      invariant forall k :: 0 <= k < offset ==> !Less(Join(Rotate(core, k)), best)
    {
      var signature := Join(Rotate(core, offset));
      LessTotal(signature, signature);
      if Less(signature, best) {
        KeepsLeast(core, offset, best, signature);
        best := signature;
      }
      offset := offset + 1;
    }
    FullTurn(core);
    SignatureUnique(core, best, Signature(core));
  }

  lemma KeepsLeast(core: seq<string>, n: nat, best: string, better: string)
    requires n <= |core| && Less(better, best)
    requires forall k :: 0 <= k < n ==> !Less(Join(Rotate(core, k)), best)
    ensures forall k :: 0 <= k < n ==> !Less(Join(Rotate(core, k)), better)
  {
    hide Join, Rotate, Less;
    forall k | 0 <= k < n ensures !Less(Join(Rotate(core, k)), better) {
      if Less(Join(Rotate(core, k)), better) {
        LessTrans(Join(Rotate(core, k)), better, best);
      }
    }
  }

  lemma FullTurn(core: seq<string>)
    ensures Rotate(core, |core|) == Rotate(core, 0)
  {
  }

  ghost predicate LeastUpTo(core: seq<string>, n: nat, s: string)
    requires n <= |core|
  {
    && (exists k :: 0 <= k <= n && Join(Rotate(core, k)) == s)
    && forall k :: 0 <= k <= n ==> !Less(Join(Rotate(core, k)), s)
  }

  lemma {:induction false} SignatureExists(core: seq<string>, n: nat)
    requires n <= |core|
    ensures exists s :: LeastUpTo(core, n, s)
  {
    hide Join, Rotate, Less;
    var last := Join(Rotate(core, n));
    LessTotal(last, last);
    if n == 0 {
      assert LeastUpTo(core, n, last);
    } else {
      SignatureExists(core, n - 1);
      var before :| LeastUpTo(core, n - 1, before);
      LessTotal(before, last);
      if Less(last, before) {
        KeepsLeast(core, n, before, last);
        assert LeastUpTo(core, n, last);
      } else {
        assert LeastUpTo(core, n, before);
      }
    }
  }

  ghost function Signature(core: seq<string>): (s: string)
    ensures IsSignature(core, s)
  {
    SignatureExists(core, |core|);
    var s :| LeastUpTo(core, |core|, s);
    s
  }

  /** Entering a cycle elsewhere gives the same signature. */
  lemma RotatedSignature(a: seq<string>, b: seq<string>, s: string)
    requires IsRotation(a, b) && IsSignature(a, s)
    ensures IsSignature(b, s)
  {
    hide Join, Rotate, Less;
    var k :| 0 <= k <= |a| && Rotate(a, k) == b;
    RotateLength(a, k);
    forall j | 0 <= j <= |b| ensures !Less(Join(Rotate(b, j)), s) {
      RotateTwice(a, k, j);
    }
    var i :| 0 <= i <= |a| && Join(Rotate(a, i)) == s;
    RotationSym(a, b);
    var back :| 0 <= back <= |b| && Rotate(b, back) == a;
    RotateTwice(b, back, i);
  }

  /** Two cycles have one signature exactly when each is a rotation of the other. */
  lemma SameSignatureExactly(a: seq<string>, b: seq<string>, s: string, t: string)
    requires a != [] && b != [] && (forall x :: x in a ==> Plain(x)) && (forall x :: x in b ==> Plain(x))
    requires IsSignature(a, s) && IsSignature(b, t)
    ensures s == t <==> IsRotation(a, b)
  {
    hide Join, Rotate, Less, Plain, IsRotation;
    if s == t {
      var i :| 0 <= i <= |a| && Join(Rotate(a, i)) == s;
      var j :| 0 <= j <= |b| && Join(Rotate(b, j)) == s;
      RotateLength(a, i);
      RotateLength(b, j);
      JoinInjective(Rotate(a, i), Rotate(b, j));
      RotatesTo(a, i);
      RotatesTo(b, j);
      RotationSym(b, Rotate(b, j));
      RotationTrans(a, Rotate(a, i), b);
    } else if IsRotation(a, b) {
      RotatedSignature(a, b, s);
      SignatureUnique(b, s, t);
    }
  }

  lemma RotatesTo(a: seq<string>, k: nat)
    requires k <= |a|
    ensures IsRotation(a, Rotate(a, k))
  {
  }
}
