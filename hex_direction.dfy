/** The six directions around a hexagon and the three kinds of seam between
    two neighbouring cells, with the rotational arithmetic on directions. */
module HexDirections {

  /** The six directions, in the enumeration's order: NE stands for 0, NW for 5. */
  datatype HexDirection = NE | E | SE | SW | W | NW

  /** How two neighbouring cells meet: at the same elevation, one step
      apart, or further apart. */
  datatype HexEdgeType = Flat | Slope | Cliff

  /** The integer an enumeration value stands for. */
  function Ord(d: HexDirection): (n: nat)
    ensures n < 6
  {
    match d
    case NE => 0
    case E => 1
    case SE => 2
    case SW => 3
    case W => 4
    case NW => 5
  }

  /** The enumeration value of an integer; only the six values 0..5 name a
      direction, so every caller must stay inside that domain. */
  function FromOrd(n: int): (d: HexDirection)
    requires 0 <= n < 6
    ensures Ord(d) == n
  {
    if n == 0 then NE
    else if n == 1 then E
    else if n == 2 then SE
    else if n == 3 then SW
    else if n == 4 then W
    else NW
  }

  /** Distinct directions stand for distinct integers. */
  lemma OrdInjective(a: HexDirection, b: HexDirection)
    requires Ord(a) == Ord(b)
    ensures a == b
  {
  }

  /** Going to an integer and back gives the same direction. */
  lemma FromOrdOrd(d: HexDirection)
    ensures FromOrd(Ord(d)) == d
  {
  }

  /** The direction across the hexagon: add 3 below 3, subtract 3 from 3 on. */
  function Opposite(d: HexDirection): (r: HexDirection)
    ensures Ord(r) == (Ord(d) + 3) % 6
  {
    if Ord(d) < 3 then FromOrd(Ord(d) + 3) else FromOrd(Ord(d) - 3)
  }

  /** One step counter-clockwise, wrapping from NE to NW. */
  function Previous(d: HexDirection): (r: HexDirection)
    ensures Ord(r) == (Ord(d) + 5) % 6
  {
    if d == NE then NW else FromOrd(Ord(d) - 1)
  }

  /** One step clockwise, wrapping from NW to NE. */
  function Next(d: HexDirection): (r: HexDirection)
    ensures Ord(r) == (Ord(d) + 1) % 6
  {
    if d == NW then NE else FromOrd(Ord(d) + 1)
  }

  /** Next applied k times. */
  function Rotate(d: HexDirection, k: nat): HexDirection
  {
    if k == 0 then d else Next(Rotate(d, k - 1))
  }

  lemma OppositeInvolutive(d: HexDirection)
    ensures Opposite(Opposite(d)) == d
    ensures Opposite(d) != d
  {
  }

  lemma NextPreviousInverse(d: HexDirection)
    ensures Next(Previous(d)) == d
    ensures Previous(Next(d)) == d
  {
  }

  /** Only NW and NE wrap; every other direction moves by exactly one. */
  lemma NextPreviousWrap(d: HexDirection)
    ensures Next(NW) == NE && Previous(NE) == NW
    ensures d != NW ==> Ord(Next(d)) == Ord(d) + 1
    ensures d != NE ==> Ord(Previous(d)) == Ord(d) - 1
  {
  }

  /** k steps clockwise add k modulo 6. */
  lemma {:induction false} RotateOrd(d: HexDirection, k: nat)
    ensures Ord(Rotate(d, k)) == (Ord(d) + k) % 6
  {
    if k > 0 {
      RotateOrd(d, k - 1);
    }
  }

  lemma NextThriceIsOpposite(d: HexDirection)
    ensures Next(Next(Next(d))) == Opposite(d)
  {
  }

  lemma NextSixIsIdentity(d: HexDirection)
    ensures Rotate(d, 6) == d
  {
    RotateOrd(d, 6);
    OrdInjective(Rotate(d, 6), d);
  }
}
