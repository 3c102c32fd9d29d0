/**
 * The process-wide User-Agent string (`monitoring/user_agent.py`): a class
 * attribute that `add` extends in place and `get` reads.  The SDK version
 * and the Python version are parameters of the initial value.
 */
module UserAgents {

  /** The initial value, `'Valid&GO for Python ({}); Python ({})'` filled with both versions. */
  function InitialValue(sdkVersion: string, pythonVersion: string): (r: string)
    ensures "Valid&GO for Python (" <= r
    ensures |r| == |sdkVersion| + |pythonVersion| + 33
  {
    "Valid&GO for Python (" + sdkVersion + "); Python (" + pythonVersion + ")"
  }

  /** What one `add(segment, version)` appends: `'; {segment} ({version})'`. */
  function Segment(segment: string, version: string): (r: string)
    ensures |r| == |segment| + |version| + 5
    ensures r[..2] == "; " && r[|r| - 1] == ')'
  {
    "; " + segment + " (" + version + ")"
  }

  /** The value after the calls `add(s, v)` for each `(s, v)` in `adds`, one after the other. */
  function Accumulate(value: string, adds: seq<(string, string)>): (r: string)
    ensures value <= r
    ensures |r| >= |value| + 5 * |adds|
    decreases |adds|
  {
    if adds == [] then value
    else Accumulate(value + Segment(adds[0].0, adds[0].1), adds[1..])
  }

  /** The segments of `adds`, in order. */
  function Segments(adds: seq<(string, string)>): string {
    if adds == [] then [] else Segment(adds[0].0, adds[0].1) + Segments(adds[1..])
  }

  /** Successive `add` calls accumulate in call order. */
  lemma {:induction false} AccumulateInOrder(value: string, adds: seq<(string, string)>)
    ensures Accumulate(value, adds) == value + Segments(adds)
    decreases |adds|
  {
    if adds == [] {
      assert value + [] == value;
    } else {
      var seg := Segment(adds[0].0, adds[0].1);
      AccumulateInOrder(value + seg, adds[1..]);
      assert (value + seg) + Segments(adds[1..]) == value + (seg + Segments(adds[1..]));
    }
  }

  class UserAgent {
    var value: string

    constructor(sdkVersion: string, pythonVersion: string)
      ensures value == InitialValue(sdkVersion, pythonVersion)
    {
      value := InitialValue(sdkVersion, pythonVersion);
    }

    /** `UserAgent.get()`: the current value; nothing changes. */
    method Get() returns (v: string)
      ensures v == value
    {
      v := value;
    }

    /** `UserAgent.add(segment, version)`. */
    method Add(segment: string, version: string)
      modifies this
      ensures value == Accumulate(old(value), [(segment, version)])
      ensures old(value) <= value
      ensures |value| == |old(value)| + |segment| + |version| + 5
    {
      value := value + Segment(segment, version);
    }
  }
}
