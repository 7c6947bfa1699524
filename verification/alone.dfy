/** A subsystem without parents and children, and without anything else around it. */
module Alone {
  import opened SubsystemModel
  import opened Network

  const ALONE: Topology := [{}]
  const NOBODY := Neighbours(map[], map[])

  lemma SeesNobody(n: Net)
    requires |n| == 1
    ensures View(ALONE, n, 0) == NOBODY
  {
    assert Parents(ALONE, 0) == {};
  }
}
