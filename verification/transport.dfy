/** Normalisation of the congestion-control variant name given on the
    command line (tcp-variants-comparison-1-a.cc and -1-b.cc): the ns-3 type
    lookup needs the fully qualified `ns3::` name. */
module Transport {
  import opened Strings

  const NS3_PREFIX: string := "ns3::"

  /** `if (name.find("ns3::") == npos) name = "ns3::" + name`. */
  function Normalize(name: string): (r: string)
    ensures Contains(r, NS3_PREFIX)
    ensures Contains(name, NS3_PREFIX) ==> r == name
    ensures !Contains(name, NS3_PREFIX) ==> r == NS3_PREFIX + name
  {
    FindFailsIffAbsent(name, NS3_PREFIX);
    if Find(name, NS3_PREFIX, 0).None? then
      assert OccursAt(NS3_PREFIX + name, NS3_PREFIX, 0);
      NS3_PREFIX + name
    else
      name
  }

  /** Normalising an already normalised name changes nothing. */
  lemma NormalizeIdempotent(name: string)
    ensures Normalize(Normalize(name)) == Normalize(name)
  {
  }

  /** The given name always survives as the tail of the result. */
  lemma NormalizeKeepsName(name: string)
    ensures var r := Normalize(name); |name| <= |r| && r[|r| - |name|..] == name
  {
  }
}
