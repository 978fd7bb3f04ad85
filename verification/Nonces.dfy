/** Checking a nonce generator before it is trusted (encryption/nonce.go). */
module Nonces {
  import opened Wrappers
  import opened Http

  const DRAWS := 1000

  /** A generator, seen as the results of its successive draws. */
  type Generator = nat -> Result<Bytes>

  const HEX := "0123456789abcdef"

  function HexEncode(b: Bytes): (s: string)
    ensures |s| == 2 * |b|
    ensures forall i :: 0 <= i < |b| ==> s[2 * i] == HEX[b[i] / 16] && s[2 * i + 1] == HEX[b[i] % 16]
  {
    if b == [] then "" else [HEX[b[0] / 16], HEX[b[0] % 16]] + HexEncode(b[1..])
  }

  lemma HexDigitInjective(i: nat, j: nat)
    requires i < 16 && j < 16 && HEX[i] == HEX[j]
    ensures i == j
  {
  }

  lemma HexInjective(a: Bytes, b: Bytes)
    requires HexEncode(a) == HexEncode(b)
    ensures a == b
  {
    var s := HexEncode(a);
    forall i | 0 <= i < |a|
      ensures a[i] == b[i]
    {
      assert s[2 * i] == HEX[a[i] / 16] == HEX[b[i] / 16];
      assert s[2 * i + 1] == HEX[a[i] % 16] == HEX[b[i] % 16];
      HexDigitInjective(a[i] / 16, b[i] / 16);
      HexDigitInjective(a[i] % 16, b[i] % 16);
    }
  }

  /** The first n draws succeed and differ. */
  ghost predicate Fresh(g: Generator, n: nat) {
    && (forall i :: 0 <= i < n ==> g(i).Ok?)
    && (forall i, j :: 0 <= i < j < n ==> g(i) != g(j))
  }

  /** Accepts exactly the generators whose first thousand nonces succeed and are pairwise distinct. */
  method ValidateNonceGenerator(g: Generator) returns (fault: Option<Fault>)
    ensures fault.None? <==> Fresh(g, DRAWS)
    ensures fault.None? <==>
            (forall i :: 0 <= i < 1000 ==> g(i).Ok?) && (forall i, j :: 0 <= i < j < 1000 ==> g(i) != g(j))
    ensures fault.Some? ==> fault.value == NonceFailed || fault.value == NonceDuplicated
    ensures fault == Some(NonceFailed) ==> exists k: nat :: k < DRAWS && Fresh(g, k) && g(k).Err?
    ensures fault == Some(NonceDuplicated) ==>
              exists j: nat, k: nat :: j < k < DRAWS && Fresh(g, k) && g(k).Ok? && g(j) == g(k)
  {
    var nonces: set<string> := {};
    for i := 0 to DRAWS
      invariant Fresh(g, i)
      invariant forall s :: s in nonces <==> exists j :: 0 <= j < i && HexEncode(g(j).value) == s
    {
      var n := g(i);
      if n.Err? {
        return Some(NonceFailed);
      }
      var nStr := HexEncode(n.value);
      if nStr in nonces {
        ghost var j :| 0 <= j < i && HexEncode(g(j).value) == nStr;
        HexInjective(g(j).value, n.value);
        return Some(NonceDuplicated);
      }
      nonces := nonces + {nStr};
    }
    fault := None;
  }

  /** Pairwise distinct nonces drawn from a set need room in it. */
  lemma {:induction false} FreshNeedsRoom(g: Generator, n: nat, possible: set<Bytes>)
    requires Fresh(g, n)
    requires forall i :: 0 <= i < n ==> g(i).value in possible
    ensures n <= |possible|
    decreases n
  {
    if n > 0 {
      var last := g(n - 1).value;
      forall i | 0 <= i < n - 1
        ensures g(i).value in possible - {last}
      {
        assert g(i) != g(n - 1);
      }
      FreshNeedsRoom(g, n - 1, possible - {last});
    }
  }

  /** A generator with fewer than a thousand possible nonces is never accepted. */
  lemma FewNoncesRejected(g: Generator, possible: set<Bytes>)
    requires |possible| < DRAWS
    requires forall i: nat :: g(i).Ok? ==> g(i).value in possible
    ensures !Fresh(g, DRAWS)
  {
    if Fresh(g, DRAWS) {
      FreshNeedsRoom(g, DRAWS, possible);
    }
  }
}
