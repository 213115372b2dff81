/** Sanitising of the scripts' command-line counts: each count above its
    ceiling is replaced by the ceiling. */
module Params {

  /** first.cc: at most five clients and five packets per client. */
  const FIRST_MAX_CLIENTS: nat := 5
  const FIRST_MAX_PACKETS: nat := 5
  /** second.cc and third.cc: at most twenty echo packets. */
  const ECHO_MAX_PACKETS: nat := 20
  /** third.cc: at most nine stations per wifi network (larger is refused). */
  const THIRD_MAX_WIFI: nat := 9

  /** `if (x > ceiling) x = ceiling`: the smaller of the two. */
  function ClampAtMost(x: nat, ceiling: nat): (r: nat)
    ensures r <= x && r <= ceiling
    ensures r == x || r == ceiling
  {
    if x > ceiling then ceiling else x
  }

  /** A count within the ceiling passes unchanged; one above it becomes the
      ceiling itself. */
  lemma ClampKeepsSmallValues(x: nat, ceiling: nat)
    ensures x <= ceiling ==> ClampAtMost(x, ceiling) == x
    ensures x > ceiling ==> ClampAtMost(x, ceiling) == ceiling
  {
  }

  /** Clamping a clamped count changes nothing. */
  lemma ClampIdempotent(x: nat, ceiling: nat)
    ensures ClampAtMost(ClampAtMost(x, ceiling), ceiling) == ClampAtMost(x, ceiling)
  {
  }
}
