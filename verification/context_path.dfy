/** The node id a congestion-window notification carries in its context
    path, as `GetNodeIdFromContext` (tcp-variants-comparison-1-a.cc) reads it:
    the text between the first '/' found from index 1 and the '/' after it,
    read as an unsigned decimal and narrowed to 32 bits. */
module ContextPath {
  import opened Wrappers
  import opened Strings
  import Decimal

  /** Number of `uint32_t` values: the function's result type. */
  const UINT32_MODULUS: nat := 0x1_0000_0000

  /** Number of `unsigned long` values: the range `std::stoul` accepts. */
  const ULONG_MODULUS: nat := 0x1_0000_0000_0000_0000

  /** The text `substr(n1 + 1, n2 - n1 - 1)` extracts; when there is no '/'
      after `n1` the length wraps to npos and the segment runs to the end. */
  function IdSegment(context: string): string
    requires FindFirstOf(context, '/', 1).Some?
  {
    var n1 := FindFirstOf(context, '/', 1).value;
    match FindFirstOf(context, '/', n1 + 1)
    case Some(n2) => context[n1 + 1 .. n2]
    case None => context[n1 + 1 ..]
  }

  /** The contexts the parser reads without throwing: a '/' after index 0
      and, after it, a non-empty run of decimal digits that fits an
      `unsigned long`. */
  predicate Parsable(context: string) {
    && FindFirstOf(context, '/', 1).Some?
    && |IdSegment(context)| > 0
    && Decimal.IsDigits(IdSegment(context))
    && Decimal.Value(IdSegment(context)) < ULONG_MODULUS
  }

  function NodeIdFromContext(context: string): (id: nat)
    requires Parsable(context)
    ensures id < UINT32_MODULUS
  {
    Decimal.Value(IdSegment(context)) % UINT32_MODULUS
  }

  /** Whatever precedes and follows it, the segment is the text between the
      second and the third '/' of `[lead] + a + "/" + seg + "/" + rest`. */
  lemma {:induction false} SegmentBetweenSlashes(lead: char, a: string, seg: string, rest: string)
    requires '/' !in a && '/' !in seg
    ensures var c := [lead] + a + "/" + seg + "/" + rest;
      FindFirstOf(c, '/', 1).Some? && IdSegment(c) == seg
  {
    var c := [lead] + a + "/" + seg + "/" + rest;
    var n1 := 1 + |a|;
    var n2 := n1 + 1 + |seg|;
    assert c[n1] == '/';
    forall j | 1 <= j < n1
      ensures c[j] != '/'
    {
      assert c[j] == a[j - 1];
    }
    FindFirstOfIs(c, '/', 1, n1);
    assert c[n2] == '/';
    forall j | n1 + 1 <= j < n2
      ensures c[j] != '/'
    {
      assert c[j] == seg[j - n1 - 1];
    }
    FindFirstOfIs(c, '/', n1 + 1, n2);
    assert c[n1 + 1 .. n2] == seg;
  }

  /** Without a third '/', the segment runs to the end of the context. */
  lemma {:induction false} SegmentRunsToEnd(lead: char, a: string, seg: string)
    requires '/' !in a && '/' !in seg
    ensures var c := [lead] + a + "/" + seg;
      FindFirstOf(c, '/', 1).Some? && IdSegment(c) == seg
  {
    var c := [lead] + a + "/" + seg;
    var n1 := 1 + |a|;
    assert c[n1] == '/';
    forall j | 1 <= j < n1
      ensures c[j] != '/'
    {
      assert c[j] == a[j - 1];
    }
    FindFirstOfIs(c, '/', 1, n1);
    forall j | n1 + 1 <= j < |c|
      ensures c[j] != '/'
    {
      assert c[j] == seg[j - n1 - 1];
    }
    assert FindFirstOf(c, '/', n1 + 1).None?;
    assert c[n1 + 1 ..] == seg;
  }

  /** The parsed id is the segment's value narrowed to 32 bits, and nothing
      after the third '/' changes it. */
  lemma NodeIdIsSegmentValue(lead: char, a: string, seg: string, rest: string)
    requires '/' !in a
    requires |seg| > 0 && Decimal.IsDigits(seg) && Decimal.Value(seg) < ULONG_MODULUS
    ensures var c := [lead] + a + "/" + seg + "/" + rest;
      Parsable(c) && NodeIdFromContext(c) == Decimal.Value(seg) % UINT32_MODULUS
  {
    assert '/' !in seg by {
      forall i | 0 <= i < |seg|
        ensures seg[i] != '/'
      {
        assert Decimal.IsDigit(seg[i]);
      }
    }
    SegmentBetweenSlashes(lead, a, seg, rest);
  }

  /** Two contexts that agree up to the third '/' name the same node. */
  lemma NodeIdIgnoresRest(lead: char, a: string, seg: string, rest1: string, rest2: string)
    requires '/' !in a
    requires |seg| > 0 && Decimal.IsDigits(seg) && Decimal.Value(seg) < ULONG_MODULUS
    ensures Parsable([lead] + a + "/" + seg + "/" + rest1)
    ensures Parsable([lead] + a + "/" + seg + "/" + rest2)
    ensures NodeIdFromContext([lead] + a + "/" + seg + "/" + rest1)
         == NodeIdFromContext([lead] + a + "/" + seg + "/" + rest2)
  {
    NodeIdIsSegmentValue(lead, a, seg, rest1);
    NodeIdIsSegmentValue(lead, a, seg, rest2);
  }

  /** The ns-3 path of a trace source below node `k`. */
  function NodeListPath(k: nat, rest: string): string {
    "/NodeList/" + Decimal.Show(k) + "/" + rest
  }

  /** Parsing the path of node `k` gives back `k`, for every 32-bit id. */
  lemma NodeListPathRoundTrip(k: nat, rest: string)
    requires k < UINT32_MODULUS
    ensures Parsable(NodeListPath(k, rest)) && NodeIdFromContext(NodeListPath(k, rest)) == k
  {
    Decimal.ValueOfShow(k);
    Decimal.ShowHasNoSeparator(k, '/');
    assert NodeListPath(k, rest) == ['/'] + "NodeList" + "/" + Decimal.Show(k) + "/" + rest;
    NodeIdIsSegmentValue('/', "NodeList", Decimal.Show(k), rest);
  }
}
