/** The volume codec of the SOF mixer controls: a UI step is quantised to a device value through
    the control's volume table (`mixer_to_ipc`), and a device value is mapped back to the first
    step whose table entry reaches it (`ipc_to_mixer`). */
module Volume {
  import opened Common

  /** Topology builds volume tables that never decrease. */
  ghost predicate NonDecreasing(table: seq<u32>)
  {
    forall i, j :: 0 <= i <= j < |table| ==> table[i] <= table[j]
  }

  /** mixer_to_ipc: the table entry of a UI step, clamped to the last entry. */
  function MixerToIpc(value: u32, table: seq<u32>): (r: u32)
    requires |table| >= 1
    ensures r in table
  {
    if value >= |table| then table[|table| - 1] else table[value]
  }

  /** What ipc_to_mixer computes: the least index whose entry is at least `value`,
      the last index when there is none, and -1 for an empty table. */
  ghost predicate FirstAtLeast(table: seq<u32>, value: u32, r: int)
  {
    if |table| == 0 then r == -1
    else
      && 0 <= r < |table|
      && (forall j :: 0 <= j < r ==> table[j] < value)
      && (table[r] >= value || (r == |table| - 1 && forall j :: 0 <= j < |table| ==> table[j] < value))
  }

  /** ipc_to_mixer: linear scan for the first entry that is at least `value`. */
  method IpcToMixer(value: u32, table: seq<u32>) returns (r: int)
    ensures FirstAtLeast(table, value, r)
  {
    var i := 0;
    while i < |table|
      invariant 0 <= i <= |table|
      invariant forall j :: 0 <= j < i ==> table[j] < value
    {
      if table[i] >= value {
        return i;
      }
      i := i + 1;
    }
    return i - 1;
  }

  /** FirstAtLeast names one index only, so ipc_to_mixer is a function of its inputs. */
  lemma FirstAtLeastUnique(table: seq<u32>, value: u32, r1: int, r2: int)
    requires FirstAtLeast(table, value, r1) && FirstAtLeast(table, value, r2)
    ensures r1 == r2
  {
  }

  /** Every UI step at or beyond the last index yields the last entry. */
  lemma MixerToIpcClamps(value: u32, table: seq<u32>)
    requires |table| >= 1 && value >= |table| - 1
    ensures MixerToIpc(value, table) == table[|table| - 1]
  {
  }

  /** On a non-decreasing table quantisation is monotone and stays between the table's ends. */
  lemma MixerToIpcMonotone(a: u32, b: u32, table: seq<u32>)
    requires |table| >= 1 && NonDecreasing(table) && a <= b
    ensures MixerToIpc(a, table) <= MixerToIpc(b, table)
    ensures table[0] <= MixerToIpc(a, table) <= table[|table| - 1]
  {
  }

  /** The quantisation is idempotent: mapping a quantised value back to a step and through the
      table again gives the same device value, at a step no higher than the clamped original. */
  lemma {:induction false} QuantizationIdempotent(value: u32, table: seq<u32>, r: int)
    requires |table| >= 1 && NonDecreasing(table)
    requires FirstAtLeast(table, MixerToIpc(value, table), r)
    ensures 0 <= r < |table| && table[r] == MixerToIpc(value, table)
    ensures r <= value
  {
    var k := if value >= |table| then |table| - 1 else value as int;
    var x := MixerToIpc(value, table);
    assert table[k] == x;
    assert table[r] <= table[k];
  }

  /** ipc_to_mixer is the lower adjoint of mixer_to_ipc: for a device value the table can
      reach, a UI step reaches it exactly when the step is at least the returned one. */
  lemma {:induction false} IpcToMixerAdjoint(x: u32, table: seq<u32>, r: int, u: u32)
    requires |table| >= 1 && NonDecreasing(table)
    requires x <= table[|table| - 1]
    requires FirstAtLeast(table, x, r)
    ensures 0 <= r < |table|
    ensures MixerToIpc(u, table) >= x <==> u >= r
  {
    if u >= r {
      var k := if u >= |table| then |table| - 1 else u as int;
      assert table[r] <= table[k];
    }
  }

  /** The worked example of the volume codec: table [0, 10, 10, 50, 100]. */
  lemma ExampleTable(r: int)
    requires FirstAtLeast([0, 10, 10, 50, 100], 10, r)
    ensures MixerToIpc(1, [0, 10, 10, 50, 100]) == 10
    ensures MixerToIpc(5, [0, 10, 10, 50, 100]) == 100
    ensures r == 1
  {
    var t: seq<u32> := [0, 10, 10, 50, 100];
    assert FirstAtLeast(t, 10, 1);
    FirstAtLeastUnique(t, 10, r, 1);
  }
}
