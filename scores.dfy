/**
 * The scores the search compares: integers, and the two float infinities the source starts
 * its running best scores and its alpha-beta window from.
 */
module Scores {
  datatype Ext = NegInf | Fin(n: int) | PosInf

  /** `a <= b` on floats, where every integer lies strictly between the two infinities. */
  predicate Le(a: Ext, b: Ext)
  {
    match (a, b)
    case (NegInf, _) => true
    case (_, PosInf) => true
    case (Fin(x), Fin(y)) => x <= y
    case _ => false
  }

  predicate Lt(a: Ext, b: Ext)
  {
    Le(a, b) && a != b
  }

  lemma LeTotal(a: Ext, b: Ext)
    ensures Le(a, b) || Le(b, a)
    ensures Le(a, b) && Le(b, a) ==> a == b
    ensures !Le(a, b) <==> Lt(b, a)
  {
  }

  lemma LeTrans(a: Ext, b: Ext, c: Ext)
    requires Le(a, b) && Le(b, c)
    ensures Le(a, c)
  {
  }

  /** Python's max of two values: the larger one (on a tie both are the same value). */
  function Max(a: Ext, b: Ext): (m: Ext)
    ensures Le(a, m) && Le(b, m)
    ensures m == a || m == b
  {
    if Le(b, a) then a else b
  }

  function Min(a: Ext, b: Ext): (m: Ext)
    ensures Le(m, a) && Le(m, b)
    ensures m == a || m == b
  {
    if Le(a, b) then a else b
  }

  /** The starting value of a running best score: -inf for the maximizing side, +inf for the other. */
  function Worst(maximizing: bool): Ext
  {
    if maximizing then NegInf else PosInf
  }

  /** The side to move's preference: max for the maximizing side, min for the other. */
  function Pick(maximizing: bool, a: Ext, b: Ext): Ext
  {
    if maximizing then Max(a, b) else Min(a, b)
  }

  /** a is strictly better than b for the side to move: `a > b` when maximizing, `a < b` otherwise. */
  predicate Better(maximizing: bool, a: Ext, b: Ext)
  {
    if maximizing then Lt(b, a) else Lt(a, b)
  }
}
