/**
 * `Opposite` (src/models/msoc_all.py:29-32): the label transform used to compute the
 * "fake-class" precision, recall and F1 from the "real-class" predictions and targets.
 * It adds one to every element and then overwrites with 0 every element above 1.5.
 * Labels are integers here: targets are the integer multimodal labels, and predictions
 * in threshold mode only take the values 0.0 and 1.0.
 */
module Labels {

  /** Every element is 0 or 1. */
  predicate IsBinary(s: seq<int>)
  {
    forall i :: 0 <= i < |s| ==> s[i] == 0 || s[i] == 1
  }

  /** What `Opposite` does to a single element: `x + 1`, unless that exceeds 1.5. */
  function OppositeElem(x: int): (y: int)
    ensures 1 <= x ==> y == 0
    ensures x <= 0 ==> y == x + 1
    ensures y <= 1
  {
    if (x + 1) as real > 1.5 then 0 else x + 1
  }

  /** The value `Opposite` returns: the element-wise transform of its argument. */
  function Opposed(s: seq<int>): (r: seq<int>)
    ensures |r| == |s|
    ensures forall i :: 0 <= i < |s| ==> r[i] == OppositeElem(s[i])
  {
    seq(|s|, i requires 0 <= i < |s| => OppositeElem(s[i]))
  }

  /**
   * `Opposite` as the source performs it: `a + 1` allocates a new tensor, then the
   * masked assignment zeroes, in that new tensor, every element above 1.5.
   * The argument itself is left alone.
   */
  method Opposite(a: seq<int>) returns (r: seq<int>)
    ensures r == Opposed(a)
  {
    var b := new int[|a|];
    for i := 0 to |a|
      invariant forall k :: 0 <= k < i ==> b[k] == a[k] + 1
    {
      b[i] := a[i] + 1;
    }
    for i := 0 to |a|
      invariant forall k :: 0 <= k < i ==> b[k] == OppositeElem(a[k])
      invariant forall k :: i <= k < |a| ==> b[k] == a[k] + 1
    {
      if b[i] as real > 1.5 {
        b[i] := 0;
      }
    }
    r := b[..];
  }

  /** On a 0/1 vector, `Opposite` swaps 0 and 1 element by element. */
  lemma OppositeSwapsBinary(s: seq<int>)
    requires IsBinary(s)
    ensures |Opposed(s)| == |s| && IsBinary(Opposed(s))
    ensures forall i :: 0 <= i < |s| ==> Opposed(s)[i] == 1 - s[i]
  {
  }

  /** Element-wise, `Opposite` agrees with the negation `1 - x` on 0 and 1 and nowhere else. */
  lemma OppositeIsNegationIffBinary(x: int)
    ensures OppositeElem(x) == 1 - x <==> x == 0 || x == 1
  {
  }

  /** Applying `Opposite` twice gives back exactly the 0/1 vectors, and nothing else. */
  lemma OppositeInvolutiveIffBinary(s: seq<int>)
    ensures Opposed(Opposed(s)) == s <==> IsBinary(s)
  {
  }

  /** Element-wise, applying `Opposite` twice is the identity on 0 and 1 only. */
  lemma OppositeElemInvolutiveIffBinary(x: int)
    ensures OppositeElem(OppositeElem(x)) == x <==> x == 0 || x == 1
  {
  }

  /**
   * Off {0, 1} `Opposite` is not a complement: 2 and -1 both become 0,
   * and -2 becomes -1.
   */
  lemma OppositeOffBinary()
    ensures Opposed([2, -1, -2]) == [0, 0, -1]
    ensures Opposed(Opposed([2])) == [1]
  {
  }
}
