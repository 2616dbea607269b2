/** The greedy matching of internal/server/subagents_api.go, which joins the subagents that a parent
    session spawned with the child sessions found on disk. */
module SubagentMatch {

  /** Times are nanoseconds since the zero time. */
  datatype Summary = Summary(
    title: string, status: string, childSession: string, childProject: string, spawnCWD: string,
    spawned: int, header: int, activity: int, resultStatus: string, childRunning: bool)

  const Window: int := 5 * 60 * 1_000_000_000
  const MinDuration: int := -0x8000_0000_0000_0000
  const MaxDuration: int := 0x7FFF_FFFF_FFFF_FFFF

  /** The difference of two times, which saturates. */
  function Sub(a: int, b: int): int {
    if a - b < MinDuration then MinDuration else if a - b > MaxDuration then MaxDuration else a - b
  }

  /** 64-bit negation, which leaves the least duration negative. */
  function Negate(d: int): int {
    if d == MinDuration then MinDuration else -d
  }

  function TimeGap(parent: Summary, child: Summary): int {
    var gap := Sub(child.header, parent.spawned);
    if gap < 0 then Negate(gap) else gap
  }

  predicate Matches(parent: Summary, child: Summary) {
    && parent.title != "" && parent.title == child.title && parent.spawned != 0 && child.header != 0
    && (parent.spawnCWD != "" ==> parent.spawnCWD == child.childProject)
    && TimeGap(parent, child) <= Window
  }

  function Distance(parent: Summary, child: Summary): nat {
    if child.header < parent.spawned then parent.spawned - child.header else child.header - parent.spawned
  }

  /** A match lies within the window exactly when its times are not so far apart that the duration
      between them saturates below, and then the gap is the distance. */
  lemma MatchIsWithinWindow(parent: Summary, child: Summary)
    requires Matches(parent, child)
    ensures Distance(parent, child) <= Window <==> child.header - parent.spawned > MinDuration
    ensures child.header - parent.spawned > MinDuration ==> TimeGap(parent, child) == Distance(parent, child)
  {}

  /** Such a pair matches although its times are centuries apart. */
  lemma DistantPastMatches()
    ensures exists parent, child :: Matches(parent, child) && Distance(parent, child) > Window
  {
    var child := Summary("task", "", "", "", "", 0, 1, 0, "", false);
    var parent := Summary("task", "", "", "", "", 2 - MinDuration, 0, 0, "", false);
    assert Matches(parent, child) && Distance(parent, child) > Window;
  }

  // ---------------------------------------------------------------- the choice of children

  /** The nearest unused match among the first `n` children, the earlier one of equals; -1 if none. */
  function Nearest(parent: Summary, children: seq<Summary>, used: set<int>, n: nat): (r: int)
    requires n <= |children|
    ensures -1 <= r < n
  {
    if n == 0 then -1
    else
      var best, i := Nearest(parent, children, used, n - 1), n - 1;
      if i in used || !Matches(parent, children[i]) then best
      else if best == -1 || TimeGap(parent, children[i]) < TimeGap(parent, children[best]) then i
      else best
  }

  function Used(choices: seq<int>): set<int> {
    set i | 0 <= i < |choices| && choices[i] != -1 :: choices[i]
  }

  /** The child chosen for each parent in turn. */
  function Choices(parents: seq<Summary>, children: seq<Summary>): (r: seq<int>)
    ensures |r| == |parents|
    ensures forall i :: 0 <= i < |r| ==> -1 <= r[i] < |children|
  {
    if parents == [] then []
    else
      var earlier := Choices(parents[..|parents| - 1], children);
      earlier + [Nearest(parents[|parents| - 1], children, Used(earlier), |children|)]
  }

  ghost predicate Candidate(parent: Summary, children: seq<Summary>, used: set<int>, c: int) {
    0 <= c < |children| && c !in used && Matches(parent, children[c])
  }

  ghost predicate IsNearest(parent: Summary, children: seq<Summary>, used: set<int>, c: int) {
    && Candidate(parent, children, used, c)
    && forall other :: Candidate(parent, children, used, other) ==>
      TimeGap(parent, children[c]) <= TimeGap(parent, children[other])
  }

  lemma {:induction false} NearestIs(parent: Summary, children: seq<Summary>, used: set<int>, n: nat)
    requires n <= |children|
    ensures var r := Nearest(parent, children, used, n);
            if r == -1 then forall c :: 0 <= c < n ==> !Candidate(parent, children, used, c)
            else
              && Candidate(parent, children, used, r)
              && forall c :: 0 <= c < n && Candidate(parent, children, used, c) ==>
                   TimeGap(parent, children[r]) <= TimeGap(parent, children[c])
  {
    if n > 0 { NearestIs(parent, children, used, n - 1); }
  }

  /** Each parent gets the nearest child that its predecessors left, and none only if they left none
      that matches. */
  lemma {:induction false} ChoicesAreGreedy(parents: seq<Summary>, children: seq<Summary>, i: nat)
    requires i < |parents|
    ensures var choices := Choices(parents, children);
            if choices[i] == -1 then forall c :: !Candidate(parents[i], children, Used(choices[..i]), c)
            else IsNearest(parents[i], children, Used(choices[..i]), choices[i])
  {
    var n, choices := |parents| - 1, Choices(parents, children);
    assert choices[..n] == Choices(parents[..n], children);
    if i < n {
      ChoicesAreGreedy(parents[..n], children, i);
      assert choices[..n][..i] == choices[..i];
    } else {
      NearestIs(parents[n], children, Used(choices[..n]), |children|);
    }
  }

  /** No child is used twice. */
  lemma NoChildTwice(parents: seq<Summary>, children: seq<Summary>, i: nat, j: nat)
    requires i < j < |parents| && Choices(parents, children)[j] != -1
    ensures Choices(parents, children)[i] != Choices(parents, children)[j]
  {
    var choices := Choices(parents, children);
    ChoicesAreGreedy(parents, children, j);
    assert choices[..j][i] == choices[i];
  }

  /** The matching is maximal: a parent left alone and a child left over never match. */
  lemma MatchingIsMaximal(parents: seq<Summary>, children: seq<Summary>, i: nat, c: nat)
    requires i < |parents| && Choices(parents, children)[i] == -1
    requires c < |children| && c !in Used(Choices(parents, children))
    ensures !Matches(parents[i], children[c])
  {
    var choices := Choices(parents, children);
    ChoicesAreGreedy(parents, children, i);
    assert c !in Used(choices[..i]) by {
      forall k | 0 <= k < i ensures choices[..i][k] == choices[k] {}
    }
    assert !Candidate(parents[i], children, Used(choices[..i]), c);
  }

  // ---------------------------------------------------------------- the merged list

  function Join(parent: Summary, child: Summary): Summary {
    parent.(
      childSession := child.childSession, childProject := child.childProject, childRunning := child.childRunning,
      activity := if child.activity > parent.activity then child.activity else parent.activity,
      status := if parent.resultStatus == "" && child.childRunning then "running" else parent.status)
  }

  function Joined(parent: Summary, children: seq<Summary>, choice: int): Summary {
    if 0 <= choice < |children| then Join(parent, children[choice]) else parent
  }

  /** The first `n` children that are not used. */
  function Leftover(children: seq<Summary>, used: set<int>, n: nat): seq<Summary>
    requires n <= |children|
  {
    if n == 0 then []
    else Leftover(children, used, n - 1) + if n - 1 in used then [] else [children[n - 1]]
  }

  function AllJoined(parents: seq<Summary>, children: seq<Summary>): (r: seq<Summary>)
    ensures |r| == |parents|
  {
    seq(|parents|, i requires 0 <= i < |parents| => Joined(parents[i], children, Choices(parents, children)[i]))
  }

  function Merged(parents: seq<Summary>, children: seq<Summary>): seq<Summary> {
    AllJoined(parents, children) + Leftover(children, Used(Choices(parents, children)), |children|)
  }

  /** The i-th entry of the list is the i-th parent, with the session and project of its child and the
      later of both activities if it has one, and unchanged otherwise. */
  lemma MergedAt(parents: seq<Summary>, children: seq<Summary>, i: nat)
    requires i < |parents|
    ensures var merged, c, parent := Merged(parents, children)[i], Choices(parents, children)[i], parents[i];
            if c == -1 then merged == parent
            else
              && merged.childSession == children[c].childSession && merged.childProject == children[c].childProject
              && merged.activity >= parent.activity && merged.activity >= children[c].activity
              && merged.activity in {parent.activity, children[c].activity}
              && (merged.status != parent.status ==>
                    merged.status == "running" && children[c].childRunning && parent.resultStatus == "")
              && (children[c].childRunning && parent.resultStatus == "" ==> merged.status == "running")
              && merged.title == parent.title && merged.spawned == parent.spawned
              && merged.resultStatus == parent.resultStatus
  {}

  function Matched(choices: seq<int>): nat {
    if choices == [] then 0
    else Matched(choices[..|choices| - 1]) + if choices[|choices| - 1] == -1 then 0 else 1
  }

  lemma {:induction false} LeftoverCount(children: seq<Summary>, used: set<int>, n: nat)
    requires n <= |children| && forall c :: c in used ==> 0 <= c
    ensures |Leftover(children, used, n)| + |set c | c in used && c < n| == n
  {
    var below := set c | c in used && c < n;
    if n == 0 {
      assert below == {};
    } else {
      LeftoverCount(children, used, n - 1);
      var shorter := set c | c in used && c < n - 1;
      assert below == if n - 1 in used then shorter + {n - 1} else shorter;
    }
  }

  lemma {:induction false} UsedCount(parents: seq<Summary>, children: seq<Summary>, n: nat)
    requires n <= |parents|
    ensures |Used(Choices(parents, children)[..n])| == Matched(Choices(parents, children)[..n])
  {
    if n > 0 {
      var choices := Choices(parents, children);
      var shorter, longer := choices[..n - 1], choices[..n];
      assert longer[..n - 1] == shorter && longer[n - 1] == choices[n - 1];
      UsedCount(parents, children, n - 1);
      ChoiceAt(parents, children, n - 1);
      ChoicesAreGreedy(parents, children, n - 1);
      assert Matched(longer) == Matched(shorter) + if choices[n - 1] == -1 then 0 else 1;
    }
  }

  /** Every parent and every child is accounted for once: the list has the parents, in order, and the
      children, less one for each match. */
  lemma MergedLength(parents: seq<Summary>, children: seq<Summary>)
    ensures |Merged(parents, children)| + Matched(Choices(parents, children)) == |parents| + |children|
  {
    var choices := Choices(parents, children);
    UsedCount(parents, children, |parents|);
    assert choices[..|parents|] == choices;
    LeftoverCount(children, Used(choices), |children|);
    assert (set c | c in Used(choices) && c < |children|) == Used(choices);
  }

  /** A child is listed on its own exactly when no parent uses it. */
  lemma {:induction false} LeftoverAt(children: seq<Summary>, used: set<int>, n: nat, c: nat)
    requires c < n <= |children|
    ensures c !in used ==>
              && |Leftover(children, used, c)| < |Leftover(children, used, n)|
              && Leftover(children, used, n)[|Leftover(children, used, c)|] == children[c]
    ensures |Leftover(children, used, c)| <= |Leftover(children, used, n)|
  {
    if c < n - 1 { LeftoverAt(children, used, n - 1, c); }
  }

  lemma {:induction false} LeftoverOnlyUnused(children: seq<Summary>, used: set<int>, n: nat, k: nat)
    requires n <= |children| && k < |Leftover(children, used, n)|
    ensures exists c ::
              && 0 <= c < n && c !in used && children[c] == Leftover(children, used, n)[k]
              && |Leftover(children, used, c)| == k
  {
    if k < |Leftover(children, used, n - 1)| {
      LeftoverOnlyUnused(children, used, n - 1, k);
    } else {
      assert children[n - 1] == Leftover(children, used, n)[k] && |Leftover(children, used, n - 1)| == k;
    }
  }

  /** Which children the array marks as used. */
  ghost predicate Marks(usedChildren: array<bool>, used: set<int>)
    reads usedChildren
  {
    forall c :: 0 <= c < usedChildren.Length ==> (usedChildren[c] <==> c in used)
  }

  method MergeSubagentSummaries(parents: seq<Summary>, children: seq<Summary>) returns (merged: seq<Summary>)
    ensures merged == Merged(parents, children)
  {
    merged := [];
    ghost var choices, all := Choices(parents, children), AllJoined(parents, children);
    ghost var used: set<int> := {};
    var usedChildren := new bool[|children|](_ => false);
    for p := 0 to |parents|
      invariant merged == all[..p]
      invariant used == Used(choices[..p]) && Marks(usedChildren, used)
    {
      ChoiceAt(parents, children, p);
      var nearest := FindMatch(parents[p], children, usedChildren, used);
      assert all[p] == Joined(parents[p], children, nearest) && all[..p + 1] == all[..p] + [all[p]];
      if nearest >= 0 {
        usedChildren[nearest] := true;
        used := used + {nearest};
        merged := merged + [Join(parents[p], children[nearest])];
      } else {
        merged := merged + [parents[p]];
      }
    }
    assert choices[..|parents|] == choices;
    var rest := Unused(children, usedChildren, used);
    merged := merged + rest;
  }

  method FindMatch(parent: Summary, children: seq<Summary>, usedChildren: array<bool>, ghost used: set<int>)
    returns (nearest: int)
    requires usedChildren.Length == |children| && Marks(usedChildren, used)
    ensures nearest == Nearest(parent, children, used, |children|)
  {
    nearest := -1;
    for i := 0 to |children|
      invariant nearest == Nearest(parent, children, used, i)
    {
      if usedChildren[i] || !Matches(parent, children[i]) {
        continue;
      }
      if nearest == -1 || TimeGap(parent, children[i]) < TimeGap(parent, children[nearest]) {
        nearest := i;
      }
    }
  }

  method Unused(children: seq<Summary>, usedChildren: array<bool>, ghost used: set<int>) returns (rest: seq<Summary>)
    requires usedChildren.Length == |children| && Marks(usedChildren, used)
    ensures rest == Leftover(children, used, |children|)
  {
    rest := [];
    for i := 0 to |children|
      invariant rest == Leftover(children, used, i)
    {
      if !usedChildren[i] {
        rest := rest + [children[i]];
      }
    }
  }

  lemma {:induction false} ChoiceAt(parents: seq<Summary>, children: seq<Summary>, p: nat)
    requires p < |parents|
    ensures var choices := Choices(parents, children);
            && choices[p] == Nearest(parents[p], children, Used(choices[..p]), |children|)
            && Used(choices[..p + 1]) == Used(choices[..p]) + if choices[p] == -1 then {} else {choices[p]}
  {
    var n, choices := |parents| - 1, Choices(parents, children);
    assert choices[..n] == Choices(parents[..n], children);
    if p < n {
      ChoiceAt(parents[..n], children, p);
      assert choices[..n][..p] == choices[..p] && choices[..n][..p + 1] == choices[..p + 1];
    } else {
      var now := choices[..p + 1];
      assert now[..p] == choices[..p] && now[p] == choices[p];
    }
  }
}
