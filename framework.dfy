/** A minimal model of the framework objects that a plugin's setup talks to:
    datasets with their shape, axis labels and pattern registry, and the
    per-plugin bindings of a dataset to a pattern and a frame count.
    Every method only records the arguments it is handed; the framework's
    own checks, storage and frame iteration are not part of this model. */
module Framework {

  datatype Option<T> = None | Some(value: T)

  /** One decomposition of a dataset's axes: the axes held in full for one
      processing unit (core) and the axes iterated over (slice). */
  datatype Pattern = Pattern(coreDir: seq<int>, sliceDir: seq<int>)

  /** What a dataset holds after setup: its shape, one label per axis and
      its registry of named patterns. */
  datatype DatasetRecord = DatasetRecord(shape: seq<int>, axisLabels: seq<string>, patterns: map<string, Pattern>)

  /** What a plugin-data binding holds: the selected pattern and the frame count. */
  datatype Binding = Binding(patternName: string, maxFrames: seq<int>)

  /** The axis indices a pattern mentions, core first. */
  function Axes(p: Pattern): seq<int> {
    p.coreDir + p.sliceDir
  }

  /** True when the tuple names no axis twice. */
  predicate Distinct(s: seq<int>) {
    forall i, j :: 0 <= i < j < |s| ==> s[i] != s[j]
  }

  /** True when p names every axis 0 .. rank-1 and nothing else, each once. */
  predicate PartitionsAxes(p: Pattern, rank: nat) {
    && Distinct(Axes(p))
    && (forall a :: a in Axes(p) ==> 0 <= a < rank)
    && (forall a :: 0 <= a < rank ==> a in Axes(p))
  }

  /** The invariant every dataset keeps: one label per axis, positive
      extents, and every registered pattern partitions the axes. */
  predicate WellFormed(d: DatasetRecord) {
    && |d.axisLabels| == |d.shape|
    && (forall i :: 0 <= i < |d.shape| ==> d.shape[i] > 0)
    && (forall name :: name in d.patterns ==> PartitionsAxes(d.patterns[name], |d.shape|))
  }

  /** A tuple that names no axis twice has as many distinct elements as entries. */
  lemma {:induction false} DistinctElementCount(s: seq<int>)
    requires Distinct(s)
    ensures |set x | x in s| == |s|
  {
    if s != [] {
      assert Distinct(s[1..]) by {
        forall i, j | 0 <= i < j < |s[1..]| ensures s[1..][i] != s[1..][j] {
          assert s[1..][i] == s[i + 1] && s[1..][j] == s[j + 1];
        }
      }
      DistinctElementCount(s[1..]);
      assert s[0] !in s[1..];
      assert (set x | x in s) == (set x | x in s[1..]) + {s[0]};
    }
  }

  /** The axis indices 0 .. rank-1 as a set. */
  function AxisSet(rank: nat): (r: set<int>)
    ensures |r| == rank
    ensures forall a :: a in r <==> 0 <= a < rank
  {
    if rank == 0 then {} else AxisSet(rank - 1) + {rank - 1}
  }

  /** A partitioning pattern splits the axes: no axis is both core and
      slice, and together the two tuples are exactly as long as the rank. */
  lemma PartitionSplitsAxes(p: Pattern, rank: nat)
    requires PartitionsAxes(p, rank)
    ensures forall a :: a in p.coreDir ==> a !in p.sliceDir
    ensures |p.coreDir| + |p.sliceDir| == rank
  {
    var axes := Axes(p);
    forall i, j | 0 <= i < |p.coreDir| && 0 <= j < |p.sliceDir|
      ensures p.coreDir[i] != p.sliceDir[j]
    {
      assert axes[i] == p.coreDir[i] && axes[|p.coreDir| + j] == p.sliceDir[j];
    }
    DistinctElementCount(axes);
    assert (set x | x in axes) == AxisSet(rank);
  }

  /** A dataset slot that plugin setup fills in. */
  class Dataset {
    var shape: seq<int>
    var axisLabels: seq<string>
    var patterns: map<string, Pattern>

    /** The dataset's state as a value. */
    function Record(): DatasetRecord
      reads this
    {
      DatasetRecord(shape, axisLabels, patterns)
    }

    /** A dataset slot before anything is created in it. */
    constructor ()
      ensures Record() == DatasetRecord([], [], map[])
    {
      shape, axisLabels, patterns := [], [], map[];
    }

    /** create_dataset(template): takes the template's shape, axis labels
        and patterns. The copy is a value, so later changes to this dataset
        leave the template as it was. */
    method CreateFromTemplate(template: Dataset)
      modifies this
      ensures Record() == old(template.Record())
    {
      shape, axisLabels, patterns := template.shape, template.axisLabels, template.patterns;
    }

    /** create_dataset(shape=..., axis_labels=...): a fresh allocation with
        no patterns registered yet. */
    method Create(newShape: seq<int>, labels: seq<string>)
      modifies this
      ensures Record() == DatasetRecord(newShape, labels, map[])
    {
      shape, axisLabels, patterns := newShape, labels, map[];
    }

    /** set_shape: replaces the shape and nothing else. */
    method SetShape(newShape: seq<int>)
      modifies this`shape
      ensures shape == newShape
    {
      shape := newShape;
    }

    /** add_pattern: registers the pattern under its name and nothing else. */
    method AddPattern(name: string, coreDir: seq<int>, sliceDir: seq<int>)
      modifies this`patterns
      ensures patterns == old(patterns)[name := Pattern(coreDir, sliceDir)]
    {
      patterns := patterns[name := Pattern(coreDir, sliceDir)];
    }
  }

  /** One plugin's view of one dataset. */
  class PluginData {
    var binding: Option<Binding>

    /** Unbound until plugin_data_setup is called. */
    constructor ()
      ensures binding == None
    {
      binding := None;
    }

    /** plugin_data_setup: records the pattern name and the frame count. */
    method PluginDataSetup(patternName: string, maxFrames: seq<int>)
      modifies this
      ensures binding == Some(Binding(patternName, maxFrames))
    {
      binding := Some(Binding(patternName, maxFrames));
    }
  }
}
