/** The least and greatest value of a sample series, as the min/max loops
    of src/MetricsPanel.c and src/SparkLine.c compute them. Samples are
    C floats, modelled as exact reals. */
module Series {

  function RealMin(a: real, b: real): real {
    if a <= b then a else b
  }

  function RealMax(a: real, b: real): real {
    if a >= b then a else b
  }

  /** The least and the greatest of a non-empty series. */
  function SeqMin(s: seq<real>): (m: real)
    requires |s| >= 1
    ensures m in s && forall v :: v in s ==> m <= v
  {
    if |s| == 1 then s[0]
    else
      assert s == [s[0]] + s[1..];
      RealMin(s[0], SeqMin(s[1..]))
  }

  function SeqMax(s: seq<real>): (m: real)
    requires |s| >= 1
    ensures m in s && forall v :: v in s ==> v <= m
  {
    if |s| == 1 then s[0]
    else
      assert s == [s[0]] + s[1..];
      RealMax(s[0], SeqMax(s[1..]))
  }
}
