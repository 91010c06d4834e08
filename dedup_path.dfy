/**
 * `DedupPath`: where each deduplication stage reads and writes. Every
 * directory is built with POSIX `os.path.join` from one of three base
 * directories and the target name (`sft` or `dpo`).
 */
module DedupPath {
  import opened Common

  /** Whether a path starts at the root. */
  predicate Absolute(p: string)
  {
    p != [] && p[0] == '/'
  }

  /** POSIX `os.path.join(a, b)`: an absolute `b` replaces `a`; otherwise one `/` separates them unless `a` is empty or already ends in one. */
  function PathJoin(a: string, b: string): string
  {
    if Absolute(b) then b
    else if a == [] || a[|a| - 1] == '/' then a + b
    else a + "/" + b
  }

  /** The directory part a relative component is appended to: empty, or ending in `/`. */
  function DirPrefix(a: string): (r: string)
    ensures r == [] || r[|r| - 1] == '/'
  {
    if a == [] || a[|a| - 1] == '/' then a else a + "/"
  }

  /** Joining a relative component appends it after the directory prefix. */
  lemma JoinRelative(a: string, b: string)
    requires !Absolute(b)
    ensures PathJoin(a, b) == DirPrefix(a) + b
  {
  }

  /** `os.path.basename`: the text after the last `/`. */
  function Basename(p: string): (r: string)
    ensures |r| <= |p| && r == p[|p| - |r|..]
    ensures forall i :: 0 <= i < |r| ==> r[i] != '/'
    ensures |r| < |p| ==> p[|p| - |r| - 1] == '/'
  {
    if p == [] || p[|p| - 1] == '/' then []
    else
      var init := Basename(p[..|p| - 1]);
      assert p[..|p| - 1][|p| - 1 - |init|..] == p[|p| - 1 - |init|..|p| - 1];
      init + [p[|p| - 1]]
  }

  /** A name without `/` is its own basename. */
  lemma {:induction false} BasenameOfName(name: string)
    requires forall i :: 0 <= i < |name| ==> name[i] != '/'
    ensures Basename(name) == name
  {
    if name != [] {
      BasenameOfName(name[..|name| - 1]);
      assert name[..|name| - 1] + [name[|name| - 1]] == name;
    }
  }

  /** The basename of a file in a directory is the file's name. */
  lemma BasenameOfJoin(dir: string, name: string)
    requires name != [] && forall i :: 0 <= i < |name| ==> name[i] != '/'
    ensures Basename(PathJoin(dir, name)) == name
  {
    var p := PathJoin(dir, name);
    JoinRelative(dir, name);
    var r := Basename(p);
    BasenameOfName(name);
    assert p[|p| - |name|..] == name;
  }

  /** The four directory settings of one deduplication run. */
  datatype DedupPaths = DedupPaths(baseInput: string, baseIntermediate: string, baseOutput: string, target: string)
  {
    /** The exact stage reads the base input as it is. */
    function HardInput(): string
    {
      baseInput
    }

    /** The exact stage writes one directory per target under the intermediate base. */
    function HardOutput(): (r: string)
      ensures !Absolute(target) ==> r == DirPrefix(baseIntermediate) + target
    {
      PathJoin(baseIntermediate, target)
    }

    /** `join(base_output, stage, target)`. */
    function Stage(stage: string): string
    {
      PathJoin(PathJoin(baseOutput, stage), target)
    }

    function Signatures(): string { Stage("signatures") }

    function Buckets(): string { Stage("buckets") }

    function Clusters(): string { Stage("clusters") }

    function Removed(): string { Stage("removed") }

    /** The final outputs of every target share one directory. */
    function FinalOutput(): (r: string)
      ensures r == DirPrefix(baseOutput) + "outputs"
    {
      PathJoin(baseOutput, "outputs")
    }

    /** The writer's file name template, with `${rank}` left for the writer to fill. */
    function OutputPattern(): string
    {
      target + "_${rank}.jsonl"
    }

    /** The reader's glob. */
    function InputPattern(): string
    {
      target + "*.jsonl"
    }
  }

  /** A stage directory is the stage's name and the target under the output base. */
  lemma StageShape(p: DedupPaths, stage: string)
    requires stage != [] && stage[0] != '/' && stage[|stage| - 1] != '/'
    requires !Absolute(p.target)
    ensures p.Stage(stage) == DirPrefix(p.baseOutput) + stage + "/" + p.target
  {
    var d := PathJoin(p.baseOutput, stage);
    JoinRelative(p.baseOutput, stage);
    assert d[|d| - 1] == stage[|stage| - 1];
  }

  /** Different stages never share a directory, for a relative target. */
  lemma StagesDistinct(p: DedupPaths)
    requires !Absolute(p.target)
    ensures var all := [p.Signatures(), p.Buckets(), p.Clusters(), p.Removed()];
            forall i, j :: 0 <= i < j < 4 ==> all[i] != all[j]
  {
    var names := ["signatures", "buckets", "clusters", "removed"];
    var all := [p.Signatures(), p.Buckets(), p.Clusters(), p.Removed()];
    assert forall i :: 0 <= i < 4 ==> names[i] != [] && names[i][0] != '/' && names[i][|names[i]| - 1] != '/';
    assert forall i, j :: 0 <= i < j < 4 ==> names[i] != names[j];
    forall i, j | 0 <= i < j < 4
      ensures all[i] != all[j]
    {
      StageShape(p, names[i]);
      StageShape(p, names[j]);
      StageInjective(DirPrefix(p.baseOutput), names[i], names[j], p.target);
      assert all[i] == p.Stage(names[i]) && all[j] == p.Stage(names[j]);
    }
  }

  /** Equal stage directories under one prefix have equal stage names. */
  lemma StageInjective(prefix: string, s1: string, s2: string, t: string)
    ensures prefix + s1 + "/" + t == prefix + s2 + "/" + t ==> s1 == s2
  {
    var a, b := prefix + s1 + "/" + t, prefix + s2 + "/" + t;
    if a == b {
      assert |s1| == |s2|;
      assert s1 == a[|prefix|..|prefix| + |s1|];
      assert s2 == b[|prefix|..|prefix| + |s2|];
    }
  }

  /** Whether a file name matches a glob `head*tail` with one star. */
  predicate StarMatch(head: string, tail: string, name: string)
  {
    |name| >= |head| + |tail| && name[..|head|] == head && name[|name| - |tail|..] == tail
  }

  /**
   * The files a stage writes for a target are the files the next stage
   * reads for it: whatever the writer puts for `${rank}`, the name matches
   * `target*.jsonl`.
   */
  lemma OutputMatchesInput(p: DedupPaths, rank: string)
    ensures StarMatch(p.target, ".jsonl", p.target + "_" + rank + ".jsonl")
  {
    var name := p.target + "_" + rank + ".jsonl";
    assert name[..|p.target|] == p.target;
    assert name[|name| - 6..] == ".jsonl";
  }
}
