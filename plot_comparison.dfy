/// The branch-comparison plot script: per build agent, the latest master
/// build is the baseline, and every other branch's latest build is given
/// a percentage throughput gain over it.
module PlotComparison {
  import opened Wrappers
  import PlotHelper

  /// One benchmark result row. The mean throughput is taken as given
  /// (the script reduces a list of measurements to it).
  datatype Row = Row(slavename: string, branch: string, buildnumber: int,
                     benchmark: string, testcase: string, symbols: int, mean: real)

  /// The plot labels the script attaches to each row.
  datatype LabelledRow = LabelledRow(row: Row, field: Option<string>, algorithm: Option<string>)

  /// A gain is a finite percentage, or not finite when the master mean is
  /// zero (numpy yields inf or nan there instead of raising).
  datatype Gain = Finite(percent: real) | NonFinite

  /// A compared row with its gain; its plot labels are `Label(row)`.
  datatype GainRow = GainRow(row: Row, gain: Gain)

  /// What a run of the script produces: the agents skipped for lack of
  /// master results, and the gain rows per agent and branch.
  datatype Comparison = Comparison(skipped: set<string>, gains: map<string, map<string, seq<GainRow>>>)

  const MASTER: string := "master"

  function Label(r: Row): LabelledRow
  {
    LabelledRow(r, PlotHelper.GetField(r.benchmark), PlotHelper.GetAlgorithm(r.testcase))
  }

  /// Boolean-mask row selection; keeps the rows' order.
  function Filter<T>(xs: seq<T>, p: T -> bool): (r: seq<T>)
    ensures |r| <= |xs|
  {
    if xs == [] then [] else (if p(xs[0]) then [xs[0]] else []) + Filter(xs[1..], p)
  }

  /// The selection keeps exactly the rows that satisfy the mask.
  lemma {:induction false} FilterMembers<T>(xs: seq<T>, p: T -> bool)
    ensures forall x :: x in Filter(xs, p) <==> x in xs && p(x)
  {
    if xs != [] {
      FilterMembers(xs[1..], p);
      var head := if p(xs[0]) then [xs[0]] else [];
      assert Filter(xs, p) == head + Filter(xs[1..], p);
      forall x
        ensures x in Filter(xs, p) <==> x in xs && p(x)
      {
        assert x in xs <==> x == xs[0] || x in xs[1..];
      }
    }
  }

  lemma {:induction false} FilterIdempotent<T>(xs: seq<T>, p: T -> bool)
    ensures Filter(Filter(xs, p), p) == Filter(xs, p)
  {
    if xs != [] {
      FilterIdempotent(xs[1..], p);
      if p(xs[0]) {
        assert Filter(xs, p) == [xs[0]] + Filter(xs[1..], p);
        assert Filter(xs, p)[1..] == Filter(xs[1..], p);
      } else {
        assert Filter(xs, p) == Filter(xs[1..], p);
      }
    }
  }

  /// The largest build number among the rows.
  function MaxBuild(rows: seq<Row>): int
    requires |rows| > 0
  {
    if |rows| == 1 then rows[0].buildnumber
    else
      var rest := MaxBuild(rows[1..]);
      if rows[0].buildnumber < rest then rest else rows[0].buildnumber
  }

  /// Python's `max` over the build numbers: one of them, and no smaller
  /// than any.
  lemma {:induction false} MaxBuildIsMax(rows: seq<Row>)
    requires |rows| > 0
    ensures exists i :: 0 <= i < |rows| && rows[i].buildnumber == MaxBuild(rows)
    ensures forall i :: 0 <= i < |rows| ==> rows[i].buildnumber <= MaxBuild(rows)
  {
    if |rows| == 1 {
      assert rows[0].buildnumber == MaxBuild(rows);
    } else {
      MaxBuildIsMax(rows[1..]);
      var j :| 0 <= j < |rows[1..]| && rows[1..][j].buildnumber == MaxBuild(rows[1..]);
      if rows[0].buildnumber < MaxBuild(rows[1..]) {
        assert rows[j + 1].buildnumber == MaxBuild(rows);
      } else {
        assert rows[0].buildnumber == MaxBuild(rows);
      }
      forall i | 0 <= i < |rows|
        ensures rows[i].buildnumber <= MaxBuild(rows)
      {
        if i > 0 { assert rows[i] == rows[1..][i - 1]; }
      }
    }
  }

  /// The rows of the latest build.
  function Latest(rows: seq<Row>): (r: seq<Row>)
    requires |rows| > 0
    ensures |r| > 0
  {
    var m := MaxBuild(rows);
    LatestMembers(rows);
    MaxBuildIsMax(rows);
    Filter(rows, (x: Row) => x.buildnumber == m)
  }

  /// The latest-build selection keeps exactly the rows of the largest
  /// build number.
  lemma LatestMembers(rows: seq<Row>)
    requires |rows| > 0
    ensures forall x :: x in Filter(rows, (x: Row) => x.buildnumber == MaxBuild(rows)) <==>
      x in rows && x.buildnumber == MaxBuild(rows)
  {
    var m := MaxBuild(rows);
    FilterMembers(rows, (x: Row) => x.buildnumber == m);
  }

  function SlaveRows(rows: seq<Row>, s: string): seq<Row>
  {
    Filter(rows, (r: Row) => r.slavename == s)
  }

  function BranchRows(group: seq<Row>, b: string): seq<Row>
  {
    Filter(group, (r: Row) => r.branch == b)
  }

  /// The agents that have master results: the ones that get compared.
  function Compared(rows: seq<Row>): set<string>
  {
    if rows == [] then {}
    else (if rows[0].branch == MASTER then {rows[0].slavename} else {}) + Compared(rows[1..])
  }

  lemma {:induction false} ComparedMembers(rows: seq<Row>, s: string)
    ensures s in Compared(rows) <==> exists r :: r in rows && r.branch == MASTER && r.slavename == s
  {
    if rows != [] {
      ComparedMembers(rows[1..], s);
      if s in Compared(rows[1..]) {
        var r :| r in rows[1..] && r.branch == MASTER && r.slavename == s;
        assert r in rows;
      }
      if exists r :: r in rows && r.branch == MASTER && r.slavename == s {
        var r :| r in rows && r.branch == MASTER && r.slavename == s;
        if r != rows[0] { assert r in rows[1..]; }
      }
    }
  }

  predicate HasMaster(rows: seq<Row>, s: string)
  {
    s in Compared(rows)
  }

  function GainOf(master: real, branch: real): (g: Gain)
    ensures master != 0.0 ==> g.Finite? && g.percent * master == (branch - master) * 100.0
    ensures master == 0.0 ==> g.NonFinite?
  {
    if master == 0.0 then NonFinite else Finite((branch - master) / master * 100.0)
  }

  /// Element-wise gain of two mean columns. numpy pairs the columns by
  /// position, broadcasts a single master value, and otherwise raises
  /// (None) when the lengths differ.
  function PairGains(master: seq<Row>, branch: seq<Row>): Option<seq<GainRow>>
    requires |master| > 0
  {
    if |master| == |branch| || |master| == 1 then
      Some(seq(|branch|, i requires 0 <= i < |branch| =>
        GainRow(branch[i],
                GainOf(master[if |master| == 1 then 0 else i].mean, branch[i].mean))))
    else None
  }

  function Agents(rows: seq<Row>): set<string>
  {
    if rows == [] then {} else {rows[0].slavename} + Agents(rows[1..])
  }

  lemma {:induction false} AgentsMembers(rows: seq<Row>, s: string)
    ensures s in Agents(rows) <==> exists r :: r in rows && r.slavename == s
  {
    if rows != [] {
      AgentsMembers(rows[1..], s);
      if s in Agents(rows[1..]) {
        var r :| r in rows[1..] && r.slavename == s;
        assert r in rows;
      }
      if exists r :: r in rows && r.slavename == s {
        var r :| r in rows && r.slavename == s;
        if r != rows[0] { assert r in rows[1..]; }
      }
    }
  }

  /// The non-master branches an agent has results for.
  function Branches(rows: seq<Row>, s: string): set<string>
  {
    if rows == [] then {}
    else
      var here := if rows[0].slavename == s && rows[0].branch != MASTER then {rows[0].branch} else {};
      here + Branches(rows[1..], s)
  }

  lemma {:induction false} BranchesMembers(rows: seq<Row>, s: string, b: string)
    ensures b in Branches(rows, s) <==> exists r :: r in rows && r.slavename == s && r.branch != MASTER && r.branch == b
  {
    if rows != [] {
      BranchesMembers(rows[1..], s, b);
      if b in Branches(rows[1..], s) {
        var r :| r in rows[1..] && r.slavename == s && r.branch != MASTER && r.branch == b;
        assert r in rows;
      }
      if exists r :: r in rows && r.slavename == s && r.branch != MASTER && r.branch == b {
        var r :| r in rows && r.slavename == s && r.branch != MASTER && r.branch == b;
        if r != rows[0] { assert r in rows[1..]; }
      }
    }
  }

  /// Every agent with master results is an agent.
  lemma {:induction false} ComparedAreAgents(rows: seq<Row>)
    ensures Compared(rows) <= Agents(rows)
  {
    if rows != [] {
      ComparedAreAgents(rows[1..]);
    }
  }

  /// The agents the script skips for lack of master results.
  function Skipped(rows: seq<Row>): set<string>
  {
    Agents(rows) - Compared(rows)
  }

  lemma MasterRowsExist(rows: seq<Row>, s: string)
    ensures |BranchRows(SlaveRows(rows, s), MASTER)| > 0 <==> HasMaster(rows, s)
  {
    var m := BranchRows(SlaveRows(rows, s), MASTER);
    FilterMembers(rows, (r: Row) => r.slavename == s);
    FilterMembers(SlaveRows(rows, s), (r: Row) => r.branch == MASTER);
    ComparedMembers(rows, s);
    if HasMaster(rows, s) {
      var r :| r in rows && r.slavename == s && r.branch == MASTER;
      assert r in m;
    }
    if |m| > 0 {
      var r := m[0];
      assert r in m;
      assert r in SlaveRows(rows, s) && r.branch == MASTER;
      assert r in rows && r.slavename == s;
    }
  }

  lemma BranchRowsExist(rows: seq<Row>, s: string, b: string)
    requires b in Branches(rows, s)
    ensures |BranchRows(SlaveRows(rows, s), b)| > 0
  {
    BranchesMembers(rows, s, b);
    var r :| r in rows && r.slavename == s && r.branch != MASTER && r.branch == b;
    FilterMembers(rows, (r: Row) => r.slavename == s);
    FilterMembers(SlaveRows(rows, s), (r: Row) => r.branch == b);
    assert r in BranchRows(SlaveRows(rows, s), b);
  }

  /// The gains of one branch of one agent: its latest build against the
  /// latest master build of the same agent.
  function BranchGains(rows: seq<Row>, s: string, b: string): Option<seq<GainRow>>
  {
    var group := SlaveRows(rows, s);
    var master := BranchRows(group, MASTER);
    var branch := BranchRows(group, b);
    if |master| == 0 || |branch| == 0 then None
    else PairGains(Latest(master), Latest(branch))
  }

  /// Every branch of the agent broadcasts against master.
  predicate AgentOk(rows: seq<Row>, s: string)
  {
    forall b :: b in Branches(rows, s) ==> BranchGains(rows, s, b).Some?
  }

  /// `m` holds, for exactly the agent's non-master branches, their gains.
  predicate IsAgentGains(rows: seq<Row>, s: string, m: map<string, seq<GainRow>>)
  {
    m.Keys == Branches(rows, s) && forall b :: b in m ==> BranchGains(rows, s, b) == Some(m[b])
  }

  /// The script runs to the end: no compared branch fails to broadcast.
  predicate PlotOk(rows: seq<Row>)
  {
    forall s :: s in Compared(rows) ==> AgentOk(rows, s)
  }

  /// The gains of every branch of an agent that broadcasts.
  function AgentGains(rows: seq<Row>, s: string): map<string, seq<GainRow>>
  {
    map b | b in Branches(rows, s) && BranchGains(rows, s, b).Some? :: BranchGains(rows, s, b).value
  }

  /// A map that holds exactly the gains of the agent's branches is that
  /// agent's gains.
  lemma AgentGainsExact(rows: seq<Row>, s: string, m: map<string, seq<GainRow>>)
    requires IsAgentGains(rows, s, m)
    ensures m == AgentGains(rows, s)
  {
    forall b | b in m
      ensures b in AgentGains(rows, s) && m[b] == AgentGains(rows, s)[b]
    {
      assert BranchGains(rows, s, b) == Some(m[b]);
    }
  }

  /// The script's output: None when it aborts; otherwise the skipped agents
  /// and the gains of every compared agent.
  function Compare(rows: seq<Row>): Option<Comparison>
  {
    if PlotOk(rows) then
      Some(Comparison(Skipped(rows), map s | s in Compared(rows) :: AgentGains(rows, s)))
    else None
  }

  /// The inner loop of the script: every non-master branch of one agent
  /// that has master results, against that agent's latest master build;
  /// a branch that does not broadcast aborts.
  method CompareBranches(rows: seq<Row>, s: string) returns (ok: bool, gains: map<string, seq<GainRow>>)
    requires HasMaster(rows, s)
    ensures ok == AgentOk(rows, s)
    ensures ok ==> gains == AgentGains(rows, s)
  {
    var branches := Branches(rows, s);
    var todo := branches;
    gains := map[];
    while todo != {}
      invariant todo <= branches
      invariant gains.Keys == branches - todo
      invariant forall b :: b in gains ==> BranchGains(rows, s, b) == Some(gains[b])
      decreases |todo|
    {
      var b :| b in todo;
      var g := BranchGains(rows, s, b);
      if g.None? {
        return false, gains;
      }
      gains := gains[b := g.value];
      todo := todo - {b};
    }
    AgentGainsExact(rows, s, gains);
    ok := true;
  }

  /// The script's outer loop over agents, skipping those without master
  /// results.
  method Plot(rows: seq<Row>) returns (result: Option<Comparison>)
    ensures result.None? ==> !PlotOk(rows)
    ensures result.Some? ==> IsComparison(rows, result.value)
  {
    var slaves := Agents(rows);
    var todo := slaves;
    ComparedAreAgents(rows);
    var skipped: set<string> := {};
    var gains: map<string, map<string, seq<GainRow>>> := map[];
    while todo != {}
      invariant todo <= slaves
      invariant skipped == Skipped(rows) - todo
      invariant gains.Keys == Compared(rows) - todo
      invariant GainsSoFar(rows, gains)
      decreases |todo|
    {
      var s :| s in todo;
      var ok;
      ok, skipped, gains := VisitAgent(rows, todo, s, skipped, gains);
      if !ok {
        return None;
      }
      todo := todo - {s};
    }
    result := Some(Comparison(skipped, gains));
  }

  /// `c` holds the skipped agents and, for exactly the compared agents,
  /// their gains, each agent broadcasting.
  predicate IsComparison(rows: seq<Row>, c: Comparison)
  {
    c.skipped == Skipped(rows) && c.gains.Keys == Compared(rows) && GainsSoFar(rows, c.gains)
  }

  /// Every agent in `gains` broadcasts and has its gains there.
  predicate GainsSoFar(rows: seq<Row>, gains: map<string, map<string, seq<GainRow>>>)
  {
    forall s :: s in gains ==> AgentOk(rows, s) && gains[s] == AgentGains(rows, s)
  }

  /// One pass of the outer loop: skip the agent, or compare its branches.
  method VisitAgent(rows: seq<Row>, ghost todo: set<string>, s: string, skipped: set<string>,
                    gains: map<string, map<string, seq<GainRow>>>)
    returns (ok: bool, skipped': set<string>, gains': map<string, map<string, seq<GainRow>>>)
    requires s in todo && todo <= Agents(rows)
    requires skipped == Skipped(rows) - todo
    requires gains.Keys == Compared(rows) - todo
    requires GainsSoFar(rows, gains)
    ensures !ok ==> !PlotOk(rows)
    ensures ok ==> skipped' == Skipped(rows) - (todo - {s})
    ensures ok ==> gains'.Keys == Compared(rows) - (todo - {s})
    ensures ok ==> GainsSoFar(rows, gains')
  {
    VisitOne(Skipped(rows), skipped, todo, s);
    VisitOne(Compared(rows), gains.Keys, todo, s);
    skipped', gains' := skipped, gains;
    if !HasMaster(rows, s) {
      skipped' := skipped + {s};
      ok := true;
    } else {
      var agentGains;
      ok, agentGains := CompareBranches(rows, s);
      if ok {
        gains' := gains[s := agentGains];
      } else {
        assert s in Compared(rows);
      }
    }
  }

  /// Visiting one more element of a set adds it to the visited part.
  lemma VisitOne<T>(all: set<T>, visited: set<T>, todo: set<T>, x: T)
    requires visited == all - todo && x in todo
    ensures (if x in all then visited + {x} else visited) == all - (todo - {x})
  {
  }

  /// What the script's loop collects characterises its output: a
  /// comparison holding the skipped agents and every compared agent's
  /// gains is what the script produces.
  lemma PlotIsCompare(rows: seq<Row>, c: Comparison)
    requires IsComparison(rows, c)
    ensures Compare(rows) == Some(c)
  {
    forall s | s in Compared(rows)
      ensures AgentOk(rows, s)
    {
      assert s in c.gains;
    }
    var expected := map s | s in Compared(rows) :: AgentGains(rows, s);
    forall s | s in c.gains
      ensures c.gains[s] == expected[s]
    {
    }
    assert c.gains == expected;
  }

  /// The master branch is never compared with itself.
  lemma NeverSelfCompared(rows: seq<Row>, s: string)
    requires Compare(rows).Some? && s in Compare(rows).value.gains
    ensures MASTER !in Compare(rows).value.gains[s]
  {
    BranchesMembers(rows, s, MASTER);
  }

  /// An agent without master rows contributes no gains.
  lemma SkippedContributesNothing(rows: seq<Row>, s: string)
    requires Compare(rows).Some? && s in Compare(rows).value.skipped
    ensures s !in Compare(rows).value.gains
  {
  }

  /// Each compared agent's entry holds exactly its branches, each with its
  /// gains.
  lemma ComparedAgentsComplete(rows: seq<Row>, s: string)
    requires Compare(rows).Some? && s in Compare(rows).value.gains
    ensures IsAgentGains(rows, s, Compare(rows).value.gains[s])
  {
    var m := Compare(rows).value.gains[s];
    assert AgentOk(rows, s);
    forall b | b in Branches(rows, s)
      ensures b in m
    {
      assert BranchGains(rows, s, b).Some?;
    }
  }

  /// Comparisons stay within one agent: the gains of a branch are the same
  /// when only that agent's rows are given.
  lemma AgentIsolation(rows: seq<Row>, s: string, b: string)
    requires HasMaster(rows, s) && b in Branches(rows, s)
    ensures HasMaster(SlaveRows(rows, s), s) && b in Branches(SlaveRows(rows, s), s)
    ensures BranchGains(rows, s, b) == BranchGains(SlaveRows(rows, s), s, b)
  {
    var own := SlaveRows(rows, s);
    FilterIdempotent(rows, (r: Row) => r.slavename == s);
    FilterMembers(rows, (r: Row) => r.slavename == s);
    BranchesMembers(rows, s, b);
    ComparedMembers(rows, s);
    var r :| r in rows && r.slavename == s && r.branch != MASTER && r.branch == b;
    var m :| m in rows && m.slavename == s && m.branch == MASTER;
    assert m in own;
    assert r in own;
    BranchesMembers(own, s, b);
    ComparedMembers(own, s);
  }

  /// Every gain row kept for a branch belongs to that branch's latest build.
  lemma GainRowsAreLatest(rows: seq<Row>, s: string, b: string, i: nat)
    requires BranchGains(rows, s, b).Some?
    requires i < |BranchGains(rows, s, b).value|
    ensures var row := BranchGains(rows, s, b).value[i].row;
      row.slavename == s && row.branch == b &&
      row.buildnumber == MaxBuild(BranchRows(SlaveRows(rows, s), b))
  {
    var group := SlaveRows(rows, s);
    var branch := BranchRows(group, b);
    var bs := Latest(branch);
    assert BranchGains(rows, s, b).value[i].row == bs[i];
    assert bs[i] in bs;
    LatestMembers(branch);
    FilterMembers(group, (r: Row) => r.branch == b);
    FilterMembers(rows, (r: Row) => r.slavename == s);
  }

  /// With a positive master mean the gain is positive exactly when the
  /// branch is faster.
  lemma GainSign(master: real, branch: real)
    requires master > 0.0
    ensures GainOf(master, branch).percent > 0.0 <==> branch > master
  {
    var p := GainOf(master, branch).percent;
    assert p * master == (branch - master) * 100.0;
    if p > 0.0 { assert p * master > 0.0; }
    if p <= 0.0 { assert p * master <= 0.0; }
  }

  /// The rows whose test case is one of the given codes (the dense and
  /// sparse split of the plots).
  function CodeRows(gains: seq<GainRow>, codes: set<string>): (r: seq<GainRow>)
    ensures forall g :: g in r <==> g in gains && g.row.testcase in codes
  {
    FilterMembers(gains, (g: GainRow) => g.row.testcase in codes);
    Filter(gains, (g: GainRow) => g.row.testcase in codes)
  }
}
