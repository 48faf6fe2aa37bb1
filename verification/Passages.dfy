/** How the rooms are connected: mostly in both directions, with few exceptions. */
module Passages {
  import opened Options
  import opened WorldData

  /** From the first room "left" leads to the second, and "right" does not lead back. */
  predicate LeftOnly(p: RoomId, q: RoomId) {
    (p == R_BY_391LAB && q == R_BY_ZAS) || (p == R_ALMAMATER && q == R_EAST_EVRT) ||
    (p == R_EAST_EVRT && q == R_ALMAMATER) || (p == R_WEST_BONE && q == R_CIRCLE_SW) ||
    (p == R_LIB_BACK && q == R_DCL) || (p == R_TALBOT_NW && q == R_CIRCLE_SW) ||
    (p == R_KENNEY_E && q == R_DCL) || (p == R_NEWMARK && q == R_MNTL_NW) ||
    (p == R_MNTL_NW && q == R_NEWMARK) || (p == R_MNTL_SW && q == R_MNTL_NW) ||
    (p == R_CSL_DOOR && q == R_BECK_LOT) || (p == R_BECK_DOOR && q == R_MNTL_SW) ||
    (p == R_GARAGE && q == R_BECK_LOT)
  }

  predicate RightOnly(p: RoomId, q: RoomId) {
    (p == R_EVRT_BSMT && q == R_CIRCLE_SW) || (p == R_CIRCLE_SW && q == R_CIRCLE_N) ||
    (p == R_BARDEEN && q == R_TALBOT_SW) || (p == R_RESERVE && q == R_LIB_FRONT) ||
    (p == R_LIB_FRONT && q == R_TALBOT_SW) || (p == R_KENNEY_E && q == R_NEWMARK) ||
    (p == R_NEWMARK && q == R_KENNEY_E) || (p == R_MNTL_NW && q == R_CSL_VIEW) ||
    (p == R_CSL_VIEW && q == R_MNTL_NW) || (p == R_CSL_DOOR && q == R_MNTL_NW) ||
    (p == R_BECK_DOOR && q == R_BECK_LOT) || (p == R_BECKLOBBY && q == R_BECK_DOOR) ||
    (p == R_WILL_SIDE && q == R_WILLARD)
  }

  /** Entering leads from the first room to the second, and not back. */
  predicate InOnly(p: RoomId, q: RoomId) {
    (p == R_IN_395LAB && q == R_BY_395LAB) || (p == R_IN_CLEANR && q == R_BY_CLEANR) ||
    (p == R_ALMAMATER && q == R_EAST_EVRT) || (p == R_CIRCLE_N && q == R_TALBOT_NW) ||
    (p == R_CIRCLE_SW && q == R_EVRT_BSMT) || (p == R_BARDEEN && q == R_EAST_BONE) ||
    (p == R_TALBOT_SW && q == R_TALBOT) || (p == R_LIB_FRONT && q == R_RESERVE) ||
    (p == R_MNTL_NW && q == R_MNTLLOBBY) || (p == R_CSL_VIEW && q == R_CSL_DOOR) ||
    (p == R_CSL_LOBBY && q == R_CSL_DOOR) || (p == R_BECK_LOT && q == R_GARAGE) ||
    (p == R_BECKMAN && q == R_BECK_DOOR) || (p == R_WILLARD && q == R_WILL_SIDE) ||
    (p == R_OVER_WILL && q == R_COCKPIT)
  }

  /** Left and right lead back and forth, ... */
  lemma LeftLeadsBack(p: RoomId, q: RoomId)
    ensures LeftOf(p) == Some(q) && RightOf(q) != Some(p) <==> LeftOnly(p, q)
  {
  }

  lemma RightLeadsBack(p: RoomId, q: RoomId)
    ensures RightOf(p) == Some(q) && LeftOf(q) != Some(p) <==> RightOnly(p, q)
  {
  }

  /** ... and so does entering, but for these. */
  lemma EnteringLeadsBack(p: RoomId, q: RoomId)
    ensures EnterOf(p) == Some(q) && EnterOf(q) != Some(p) <==> InOnly(p, q)
  {
  }
}
