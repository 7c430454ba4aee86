/** The mislabelled-ball filter: in a baseball or tennis scene without a soccer field, the
    soccer balls are grouped by overlap, the representative of each group is dropped (always,
    or only when it overlaps a baseball), and so are the relationships that reference it. */
module Mislabel {
  import opened Text
  import opened Scene
  import opened Geometry

  /** `BASEBALL_SET`: the baseball and tennis signals. */
  const BaseballSet: set<string> :=
    {"bóng chày", "quả bóng chày", "gậy bóng chày", "găng bóng chày", "vợt tennis", "quả bóng tennis"}

  /** `SOCCER_BALL_SET`. */
  const SoccerBallSet: set<string> := {"bóng đá", "quả bóng đá"}

  /** The labels of a baseball ball. */
  const BaseballBallSet: set<string> := {"bóng chày", "quả bóng chày"}

  /** `is_baseball_tennis_context`: a baseball or tennis field, or some baseball or tennis signal. */
  predicate BaseballTennisContext(names: set<string>) {
    "sân bóng chày" in names || "sân tennis" in names || BaseballSet * names != {}
  }

  /** `has_soccer_field`. */
  predicate HasSoccerField(names: set<string>) {
    "sân bóng đá" in names
  }

  // ---------------------------------------------------------------------------
  // `dedupe_soccer_balls`: greedy grouping by overlap

  /** Every index of `g` is an index of `balls`. */
  predicate InRange(g: seq<nat>, n: nat) {
    forall q | 0 <= q < |g| :: g[q] < n
  }

  /** The position in `g` of `max(group, key=area)`. */
  function MaxAreaPos(balls: seq<Obj>, g: seq<nat>): (p: nat)
    requires |g| > 0 && InRange(g, |balls|)
    ensures p < |g|
  {
    if |g| == 1 then 0
    else
      var p := MaxAreaPos(balls, DropLast(g));
      if Area(balls[Last(g)].box) > Area(balls[g[p]].box) then |g| - 1 else p
  }

  /** `max` picks a ball of largest area, the first one on ties. */
  lemma {:induction false} MaxAreaPosSpec(balls: seq<Obj>, g: seq<nat>)
    requires |g| > 0 && InRange(g, |balls|)
    ensures var p := MaxAreaPos(balls, g);
      && (forall q | 0 <= q < |g| :: Area(balls[g[q]].box) <= Area(balls[g[p]].box))
      && (forall q | 0 <= q < p :: Area(balls[g[q]].box) < Area(balls[g[p]].box))
  {
    if |g| > 1 {
      MaxAreaPosSpec(balls, DropLast(g));
    }
  }

  /** The indices `j < hi` the inner loop adds to the group of ball `i`: after `i`, not yet
      used, and overlapping ball `i` by at least `t`. */
  function Absorbed(balls: seq<Obj>, t: real, used: seq<bool>, i: nat, hi: nat): (g: seq<nat>)
    requires i < |balls| == |used| && hi <= |balls|
    ensures forall q | 0 <= q < |g| :: i < g[q] < hi && !used[g[q]]
  {
    if hi == 0 then []
    else
      var j := hi - 1;
      Absorbed(balls, t, used, i, j) + (if j > i && !used[j] && IoU(balls[i].box, balls[j].box) >= t then [j] else [])
  }

  /** The group the outer loop opens at an unused ball `i`: `i` first, then every later unused
      ball that overlaps it by at least `t`. */
  function Group(balls: seq<Obj>, t: real, used: seq<bool>, i: nat): (g: seq<nat>)
    requires i < |balls| == |used|
    ensures |g| > 0 && g[0] == i && InRange(g, |balls|)
    ensures forall q | 1 <= q < |g| :: i < g[q] && !used[g[q]]
  {
    [i] + Absorbed(balls, t, used, i, |balls|)
  }

  /** The inner loop absorbs exactly the later unused balls that overlap ball `i` by at
      least `t`. */
  lemma {:induction false} AbsorbedSpec(balls: seq<Obj>, t: real, used: seq<bool>, i: nat, hi: nat)
    requires i < |balls| == |used| && hi <= |balls|
    ensures forall j :: j in Absorbed(balls, t, used, i, hi) <==>
      i < j < hi && !used[j] && IoU(balls[i].box, balls[j].box) >= t
  {
    if hi > 0 {
      AbsorbedSpec(balls, t, used, i, hi - 1);
    }
  }

  /** A group is its opening ball followed by every later unused ball that overlaps it by at
      least `t`. */
  lemma GroupSpec(balls: seq<Obj>, t: real, used: seq<bool>, i: nat)
    requires i < |balls| == |used|
    ensures var g := Group(balls, t, used, i);
      && g[0] == i
      && forall j | j != i :: j in g <==> i < j < |balls| && !used[j] && IoU(balls[i].box, balls[j].box) >= t
  {
    AbsorbedSpec(balls, t, used, i, |balls|);
  }

  /** `used` after `for idx in group: used[idx] = True`. */
  function Mark(used: seq<bool>, g: seq<nat>): (r: seq<bool>)
    ensures |r| == |used|
  {
    seq(|used|, k requires 0 <= k < |used| => used[k] || k in g)
  }

  /** The `used` flags and the groups opened so far. */
  datatype Scan = Scan(used: seq<bool>, groups: seq<seq<nat>>)

  predicate GroupsInRange(gs: seq<seq<nat>>, n: nat) {
    forall m | 0 <= m < |gs| :: |gs[m]| > 0 && InRange(gs[m], n)
  }

  /** `[False] * n`. */
  function Unused(n: nat): seq<bool> {
    seq(n, _ => false)
  }

  /** The state of `dedupe_soccer_balls` once the outer loop has visited the balls before `i`. */
  function ScanTo(balls: seq<Obj>, t: real, i: nat): (s: Scan)
    requires i <= |balls|
    ensures |s.used| == |balls| && GroupsInRange(s.groups, |balls|)
  {
    if i == 0 then Scan(Unused(|balls|), [])
    else
      var s := ScanTo(balls, t, i - 1);
      if s.used[i - 1] then s
      else
        var g := Group(balls, t, s.used, i - 1);
        Scan(Mark(s.used, g), s.groups + [g])
  }

  /** The groups of the whole scan. */
  function Groups(balls: seq<Obj>, t: real): (gs: seq<seq<nat>>)
    ensures GroupsInRange(gs, |balls|)
  {
    ScanTo(balls, t, |balls|).groups
  }

  /** The ball that represents a group. */
  function Representative(balls: seq<Obj>, g: seq<nat>): Obj
    requires |g| > 0 && InRange(g, |balls|)
  {
    balls[g[MaxAreaPos(balls, g)]]
  }

  /** The representatives of the groups, in order. */
  function Representatives(balls: seq<Obj>, gs: seq<seq<nat>>): (r: seq<Obj>)
    requires GroupsInRange(gs, |balls|)
    ensures |r| == |gs|
    ensures forall m | 0 <= m < |gs| :: r[m] == Representative(balls, gs[m])
  {
    if gs == [] then []
    else Representatives(balls, DropLast(gs)) + [Representative(balls, Last(gs))]
  }

  /** What `dedupe_soccer_balls` returns. */
  function Dedupe(balls: seq<Obj>, t: real): seq<Obj> {
    if |balls| <= 1 then balls else Representatives(balls, Groups(balls, t))
  }

  /** One more step of the inner loop adds ball `j` or nothing. */
  lemma AbsorbedStep(balls: seq<Obj>, t: real, used: seq<bool>, i: nat, j: nat, group: seq<nat>)
    requires i < |balls| == |used| && j < |balls| && group == [i] + Absorbed(balls, t, used, i, j)
    ensures [i] + Absorbed(balls, t, used, i, j + 1) ==
      group + if j > i && !used[j] && IoU(balls[i].box, balls[j].box) >= t then [j] else []
  {
    var extra := if j > i && !used[j] && IoU(balls[i].box, balls[j].box) >= t then [j] else [];
    assert Absorbed(balls, t, used, i, j + 1) == Absorbed(balls, t, used, i, j) + extra;
    assert [i] + (Absorbed(balls, t, used, i, j) + extra) == ([i] + Absorbed(balls, t, used, i, j)) + extra;
  }

  /** The inner loop of `dedupe_soccer_balls`: the group opened at ball `i`. */
  method CollectGroup(balls: seq<Obj>, t: real, used: seq<bool>, i: nat) returns (group: seq<nat>)
    requires i < |balls| == |used|
    ensures group == Group(balls, t, used, i)
  {
    group := [i];
    for j := 0 to |balls|
      invariant group == [i] + Absorbed(balls, t, used, i, j)
    {
      AbsorbedStep(balls, t, used, i, j, group);
      if j <= i || used[j] {
        continue;
      }
      if IoU(balls[i].box, balls[j].box) >= t {
        group := group + [j];
      }
    }
  }

  /** `for idx in group: used[idx] = True`. */
  method MarkGroup(used: seq<bool>, group: seq<nat>) returns (marked: seq<bool>)
    requires InRange(group, |used|)
    ensures marked == Mark(used, group)
  {
    marked := used;
    for q := 0 to |group|
      invariant marked == Mark(used, group[..q])
    {
      marked := marked[group[q] := true];
    }
    assert group[..|group|] == group;
  }

  /** One more group adds its representative. */
  lemma RepresentativesSnoc(balls: seq<Obj>, gs: seq<seq<nat>>, g: seq<nat>)
    requires GroupsInRange(gs, |balls|) && |g| > 0 && InRange(g, |balls|)
    ensures GroupsInRange(gs + [g], |balls|)
    ensures Representatives(balls, gs + [g]) == Representatives(balls, gs) + [Representative(balls, g)]
  {
    assert DropLast(gs + [g]) == gs && Last(gs + [g]) == g;
  }

  /** Visiting a used ball changes nothing. */
  lemma ScanSkip(balls: seq<Obj>, t: real, i: nat, s: Scan)
    requires i < |balls| && s == ScanTo(balls, t, i) && s.used[i]
    ensures ScanTo(balls, t, i + 1) == s
  {
  }

  /** Visiting an unused ball marks its group used and adds the group's representative. */
  lemma ScanOpen(balls: seq<Obj>, t: real, i: nat, s: Scan, g: seq<nat>)
    requires i < |balls| && s == ScanTo(balls, t, i) && !s.used[i] && g == Group(balls, t, s.used, i)
    ensures ScanTo(balls, t, i + 1).used == Mark(s.used, g)
    ensures Representatives(balls, ScanTo(balls, t, i + 1).groups) ==
      Representatives(balls, s.groups) + [Representative(balls, g)]
  {
    RepresentativesSnoc(balls, s.groups, g);
  }

  /** One pass of the outer loop at an unused ball `i`: collect its group, mark the group
      used, and return the group's representative; this takes the scan one ball further. */
  method OpenGroupAt(balls: seq<Obj>, t: real, used: seq<bool>, i: nat, ghost s: Scan)
    returns (rep: Obj, marked: seq<bool>)
    requires i < |balls| && s == ScanTo(balls, t, i) && used == s.used && !used[i]
    ensures marked == ScanTo(balls, t, i + 1).used
    ensures Representatives(balls, ScanTo(balls, t, i + 1).groups) == Representatives(balls, s.groups) + [rep]
  {
    var group := CollectGroup(balls, t, used, i);
    ScanOpen(balls, t, i, s, group);
    rep := balls[group[MaxAreaPos(balls, group)]];
    marked := MarkGroup(used, group);
  }

  /** What the loop variables `used` and `kept` hold in a scan state. */
  function Vars(balls: seq<Obj>, s: Scan): (seq<bool>, seq<Obj>)
    requires GroupsInRange(s.groups, |balls|)
  {
    (s.used, Representatives(balls, s.groups))
  }

  /** One pass of the outer loop: a used ball is skipped; an unused one opens a group and
      contributes its representative. */
  method VisitBall(balls: seq<Obj>, t: real, i: nat, used: seq<bool>, kept: seq<Obj>)
    returns (used': seq<bool>, kept': seq<Obj>)
    requires i < |balls| && (used, kept) == Vars(balls, ScanTo(balls, t, i))
    ensures (used', kept') == Vars(balls, ScanTo(balls, t, i + 1))
  {
    ghost var s := ScanTo(balls, t, i);
    if used[i] {
      ScanSkip(balls, t, i, s);
      return used, kept;
    }
    var rep;
    rep, used' := OpenGroupAt(balls, t, used, i, s);
    kept' := kept + [rep];
  }

  /** `dedupe_soccer_balls` with its `used` flags. */
  method DedupeSoccerBalls(balls: seq<Obj>, t: real) returns (kept: seq<Obj>)
    ensures kept == Dedupe(balls, t)
  {
    var n := |balls|;
    if n <= 1 {
      return balls;
    }
    var used := Unused(n);
    kept := [];
    assert (used, kept) == Vars(balls, ScanTo(balls, t, 0));
    for i := 0 to n
      invariant (used, kept) == Vars(balls, ScanTo(balls, t, i))
    {
      used, kept := VisitBall(balls, t, i, used, kept);
    }
  }

  /** How many groups hold index `k`. */
  function Occurrences(gs: seq<seq<nat>>, k: nat): nat {
    if gs == [] then 0 else Occurrences(DropLast(gs), k) + (if k in Last(gs) then 1 else 0)
  }

  lemma OccurrencesSnoc(gs: seq<seq<nat>>, g: seq<nat>, k: nat)
    ensures Occurrences(gs + [g], k) == Occurrences(gs, k) + if k in g then 1 else 0
  {
    assert DropLast(gs + [g]) == gs && Last(gs + [g]) == g;
  }

  /** Opening a group at an unused ball adds exactly one occurrence for each of its members,
      which were all unused, and marks them used. */
  lemma OpenGroup(balls: seq<Obj>, t: real, s: Scan, i: nat, k: nat)
    requires i < |balls| == |s.used| && !s.used[i] && k < |balls|
    requires Occurrences(s.groups, k) == if s.used[k] then 1 else 0
    ensures var g := Group(balls, t, s.used, i);
      Occurrences(s.groups + [g], k) == if Mark(s.used, g)[k] then 1 else 0
  {
    var g := Group(balls, t, s.used, i);
    OccurrencesSnoc(s.groups, g, k);
    if k in g {
      var q :| 0 <= q < |g| && g[q] == k;
    }
  }

  /** `OpenGroup` for every ball at once. */
  lemma OpenGroupAll(balls: seq<Obj>, t: real, s: Scan, i: nat)
    requires i < |balls| == |s.used| && !s.used[i]
    requires forall k {:trigger Occurrences(s.groups, k)} | 0 <= k < |balls| ::
      Occurrences(s.groups, k) == if s.used[k] then 1 else 0
    ensures var g := Group(balls, t, s.used, i);
      forall k | 0 <= k < |balls| :: Occurrences(s.groups + [g], k) == if Mark(s.used, g)[k] then 1 else 0
  {
    var g := Group(balls, t, s.used, i);
    forall k | 0 <= k < |balls|
      ensures Occurrences(s.groups + [g], k) == if Mark(s.used, g)[k] then 1 else 0
    {
      OpenGroup(balls, t, s, i, k);
    }
  }

  /** The partition invariant of the outer loop: every ball before `i` is used, each used
      ball lies in exactly one group and each unused ball in none, and at most one group has
      been opened per ball visited. */
  predicate Partitioned(s: Scan, n: nat, i: nat) {
    && |s.used| == n && i <= n
    && (forall k | 0 <= k < i :: s.used[k])
    && (forall k {:trigger Occurrences(s.groups, k)} | 0 <= k < n :: Occurrences(s.groups, k) == if s.used[k] then 1 else 0)
    && |s.groups| <= i
  }

  /** One step of the outer loop keeps the partition invariant: a used ball is skipped, and
      opening a group at an unused ball adds one occurrence of each of its members. */
  lemma PartitionStep(balls: seq<Obj>, t: real, i: nat)
    requires 0 < i <= |balls| && Partitioned(ScanTo(balls, t, i - 1), |balls|, i - 1)
    ensures Partitioned(ScanTo(balls, t, i), |balls|, i)
  {
    var s := ScanTo(balls, t, i - 1);
    if !s.used[i - 1] {
      var g := Group(balls, t, s.used, i - 1);
      OpenGroupAll(balls, t, s, i - 1);
      PartitionedOpen(s, g, |balls|, i - 1);
    }
  }

  /** Opening group `g` at the first unused ball `i` extends the partition past `i`. */
  lemma PartitionedOpen(s: Scan, g: seq<nat>, n: nat, i: nat)
    requires |s.used| == n && i < n && Partitioned(s, n, i) && !s.used[i]
    requires |g| > 0 && g[0] == i && InRange(g, n)
    requires forall k | 0 <= k < n :: Occurrences(s.groups + [g], k) == if Mark(s.used, g)[k] then 1 else 0
    ensures Partitioned(Scan(Mark(s.used, g), s.groups + [g]), n, i + 1)
  {
    assert Mark(s.used, g)[i];
  }

  /** Every prefix of the scan is partitioned. */
  lemma {:induction false} ScanPartition(balls: seq<Obj>, t: real, i: nat)
    requires i <= |balls|
    ensures Partitioned(ScanTo(balls, t, i), |balls|, i)
  {
    if i > 0 {
      ScanPartition(balls, t, i - 1);
      PartitionStep(balls, t, i);
    }
  }

  /** The groups partition the balls: every index lies in exactly one group; so there are
      no more groups than balls. */
  lemma GroupsPartition(balls: seq<Obj>, t: real)
    ensures forall k | 0 <= k < |balls| :: Occurrences(Groups(balls, t), k) == 1
    ensures |Groups(balls, t)| <= |balls|
  {
    ScanPartition(balls, t, |balls|);
  }

  /** A list of at most one ball comes back as it is; otherwise each kept ball is the ball of
      largest area in its group, the first one on ties, and the output is no longer than the
      input. */
  lemma DedupeSpec(balls: seq<Obj>, t: real)
    ensures |balls| <= 1 ==> Dedupe(balls, t) == balls
    ensures |Dedupe(balls, t)| <= |balls|
    ensures |balls| > 1 ==>
      var gs, r := Groups(balls, t), Dedupe(balls, t);
      && |r| == |gs|
      && forall m | 0 <= m < |r| ::
           && r[m] == balls[gs[m][MaxAreaPos(balls, gs[m])]]
           && forall k | k in gs[m] :: Area(balls[k].box) <= Area(r[m].box)
  {
    GroupsPartition(balls, t);
    if |balls| > 1 {
      var gs, r := Groups(balls, t), Dedupe(balls, t);
      forall m, k | 0 <= m < |r| && k in gs[m] ensures Area(balls[k].box) <= Area(r[m].box) {
        MaxAreaPosSpec(balls, gs[m]);
        var q :| 0 <= q < |gs[m]| && gs[m][q] == k;
      }
    }
  }

  /** Every kept ball is one of the input balls. */
  lemma DedupeFromInput(balls: seq<Obj>, t: real)
    ensures forall x | x in Dedupe(balls, t) :: x in balls
  {
    if |balls| > 1 {
      var gs, r := Groups(balls, t), Dedupe(balls, t);
      forall x | x in r ensures x in balls {
        var m :| 0 <= m < |r| && r[m] == x;
        assert x == balls[gs[m][MaxAreaPos(balls, gs[m])]];
      }
    }
  }

  /** The group opened at the first of two balls holds the second exactly when they overlap
      by at least `t`. */
  lemma PairGroup(a: Obj, b: Obj, t: real)
    ensures Group([a, b], t, [false, false], 0) == if IoU(a.box, b.box) >= t then [0, 1] else [0]
  {
    assert Absorbed([a, b], t, [false, false], 0, 1) == [];
  }

  /** The scan of two balls after the first one. */
  lemma PairScan(a: Obj, b: Obj, t: real)
    ensures var g := Group([a, b], t, [false, false], 0);
      ScanTo([a, b], t, 1) == Scan(Mark([false, false], g), [g])
  {
    var s0 := ScanTo([a, b], t, 0);
    assert s0.used == [false, false];
    ScanOpen([a, b], t, 0, s0, Group([a, b], t, s0.used, 0));
  }

  /** Two balls that overlap enough collapse into the larger one, the first on ties. */
  lemma DedupePairOverlap(a: Obj, b: Obj, t: real)
    requires IoU(a.box, b.box) >= t
    ensures Dedupe([a, b], t) == [if Area(b.box) > Area(a.box) then b else a]
  {
    var balls := [a, b];
    PairGroup(a, b, t);
    PairScan(a, b, t);
    var s1 := ScanTo(balls, t, 1);
    assert s1 == Scan([true, true], [[0, 1]]);
    ScanSkip(balls, t, 1, s1);
    assert DropLast([0, 1]) == [0];
  }

  /** The second of two balls, visited unused, opens a group of its own. */
  lemma LastGroupOfPair(a: Obj, b: Obj, t: real)
    ensures Group([a, b], t, [true, false], 1) == [1]
  {
    assert Absorbed([a, b], t, [true, false], 1, 1) == [];
  }

  /** Once the first of two balls has opened a group on its own, the second opens its own. */
  lemma SecondGroupOfPair(a: Obj, b: Obj, t: real)
    requires ScanTo([a, b], t, 1) == Scan([true, false], [[0]])
    ensures Dedupe([a, b], t) == [a, b]
  {
    var balls := [a, b];
    LastGroupOfPair(a, b, t);
    ScanOpen(balls, t, 1, Scan([true, false], [[0]]), [1]);
    assert Representatives(balls, [[0]]) == [a] by {
      assert DropLast([[0]]) == [];
    }
  }

  /** Two balls that do not overlap enough are both kept. */
  lemma DedupePairApart(a: Obj, b: Obj, t: real)
    requires IoU(a.box, b.box) < t
    ensures Dedupe([a, b], t) == [a, b]
  {
    PairGroup(a, b, t);
    PairScan(a, b, t);
    assert ScanTo([a, b], t, 1) == Scan([true, false], [[0]]);
    SecondGroupOfPair(a, b, t);
  }

  // ---------------------------------------------------------------------------
  // The drop rule

  /** `[o for o in objs if obj_name(o) in labels]`. */
  function WithLabels(objs: seq<Obj>, labels: set<string>): (r: seq<Obj>)
    ensures forall o :: o in r <==> o in objs && Name(o) in labels
  {
    if objs == [] then []
    else
      assert objs == DropLast(objs) + [Last(objs)];
      WithLabels(DropLast(objs), labels) + (if Name(Last(objs)) in labels then [Last(objs)] else [])
  }

  /** `any(iou(sb, bbox(bb)) >= iou_conflict for bb in baseball_balls)`. */
  predicate Conflicts(s: Obj, bbs: seq<Obj>, t: real) {
    exists b | b in bbs :: IoU(s.box, b.box) >= t
  }

  /** The ids of the representatives that overlap some baseball ball by at least `t`. */
  function ConflictIds(reps: seq<Obj>, bbs: seq<Obj>, t: real): set<int> {
    set s | s in reps && Conflicts(s, bbs, t) :: s.id
  }

  /** `drop_ids`: with `require_overlap` and some baseball ball, the conflicting
      representatives; otherwise every representative. */
  function DropSet(reps: seq<Obj>, bbs: seq<Obj>, requireOverlap: bool, t: real): set<int> {
    if requireOverlap && |bbs| > 0 then ConflictIds(reps, bbs, t) else Ids(reps)
  }

  lemma ConflictIdsStep(reps: seq<Obj>, bbs: seq<Obj>, t: real, i: nat)
    requires i < |reps|
    ensures ConflictIds(reps[..i + 1], bbs, t) ==
      ConflictIds(reps[..i], bbs, t) + (if Conflicts(reps[i], bbs, t) then {reps[i].id} else {})
  {
    assert reps[..i + 1] == reps[..i] + [reps[i]];
  }

  lemma IdsStep(reps: seq<Obj>, i: nat)
    requires i < |reps|
    ensures Ids(reps[..i + 1]) == Ids(reps[..i]) + {reps[i].id}
  {
    assert reps[..i + 1] == reps[..i] + [reps[i]];
  }

  /** The two loops that fill `drop_ids`. */
  method DropIdsLoop(reps: seq<Obj>, bbs: seq<Obj>, requireOverlap: bool, t: real) returns (drop: set<int>)
    ensures drop == DropSet(reps, bbs, requireOverlap, t)
  {
    drop := {};
    if requireOverlap && |bbs| > 0 {
      for i := 0 to |reps|
        invariant drop == ConflictIds(reps[..i], bbs, t)
      {
        var s := reps[i];
        ConflictIdsStep(reps, bbs, t, i);
        if exists b | b in bbs :: IoU(s.box, b.box) >= t {
          drop := drop + {s.id};
        }
      }
    } else {
      for i := 0 to |reps|
        invariant drop == Ids(reps[..i])
      {
        IdsStep(reps, i);
        drop := drop + {reps[i].id};
      }
    }
    assert reps[..|reps|] == reps;
  }

  // ---------------------------------------------------------------------------
  // `filter_mislabel_in_one`

  /** The filter applies: a baseball or tennis scene without a soccer field. */
  predicate InContext(objs: seq<Obj>) {
    var names := AllNames(objs);
    BaseballTennisContext(names) && !HasSoccerField(names)
  }

  /** The de-duplicated soccer balls of the objects. */
  function SoccerReps(objs: seq<Obj>, tDup: real): seq<Obj> {
    Dedupe(WithLabels(objs, SoccerBallSet), tDup)
  }

  /** The ids the filter removes; none outside its context. */
  function Dropped(objs: seq<Obj>, tDup: real, tConflict: real, requireOverlap: bool): set<int> {
    if !InContext(objs) then {}
    else DropSet(SoccerReps(objs, tDup), WithLabels(objs, BaseballBallSet), requireOverlap, tConflict)
  }

  /** What `filter_mislabel_in_one` leaves in an annotation. */
  function FilterImage(img: Image, tDup: real, tConflict: real, requireOverlap: bool): Image {
    var drop := Dropped(img.objects, tDup, tConflict, requireOverlap);
    var objs := if drop != {} then KeepObjects(img.objects, drop) else img.objects;
    var rels := if drop != {} then KeepRelations(img.relationships, drop) else img.relationships;
    Image(img.imageId, objs, rels, Triplets(objs, rels))
  }

  /** The middle of `filter_mislabel_in_one`: split off the soccer and baseball balls,
      de-duplicate the soccer balls, and collect the ids to drop. */
  method FindDropIds(objs: seq<Obj>, tDup: real, tConflict: real, requireOverlap: bool) returns (drop: set<int>)
    requires InContext(objs)
    ensures drop == Dropped(objs, tDup, tConflict, requireOverlap)
  {
    var soccer := WithLabels(objs, SoccerBallSet);
    var baseballBalls := WithLabels(objs, BaseballBallSet);
    soccer := DedupeSoccerBalls(soccer, tDup);
    drop := DropIdsLoop(soccer, baseballBalls, requireOverlap, tConflict);
  }

  /** `filter_mislabel_in_one` on the annotation's current image. */
  method FilterSteps(img: Image, tDup: real, tConflict: real, requireOverlap: bool) returns (r: Image)
    ensures r.imageId == img.imageId
    ensures r == FilterImage(img, tDup, tConflict, requireOverlap)
  {
    var objs, rels := img.objects, img.relationships;
    if !InContext(objs) {
      var triplets := RebuildTriplets(objs, rels);
      r := img.(triplets := triplets);
      FilterOutsideContext(img, tDup, tConflict, requireOverlap);
      return;
    }
    var drop := FindDropIds(objs, tDup, tConflict, requireOverlap);
    if drop != {} {
      objs := KeepObjects(objs, drop);
      rels := KeepRelations(rels, drop);
    }
    var triplets := RebuildTriplets(objs, rels);
    r := Image(img.imageId, objs, rels, triplets);
  }

  /** The per-annotation pass: `ann`'s objects and relationships are filtered and its
      triplets rebuilt. */
  method FilterOne(ann: Annotation, tDup: real, tConflict: real, requireOverlap: bool)
    modifies ann
    ensures ann.View() == FilterImage(old(ann.View()), tDup, tConflict, requireOverlap)
  {
    var r := FilterSteps(ann.View(), tDup, tConflict, requireOverlap);
    ann.SetView(r);
  }

  /** Outside a baseball or tennis scene, or with a soccer field, only the triplets are rebuilt. */
  lemma FilterOutsideContext(img: Image, tDup: real, tConflict: real, requireOverlap: bool)
    requires !InContext(img.objects)
    ensures var r := FilterImage(img, tDup, tConflict, requireOverlap);
      r == img.(triplets := Triplets(img.objects, img.relationships))
  {
  }

  /** The removed ids are ids of soccer-ball representatives. */
  lemma DroppedAreRepresentatives(objs: seq<Obj>, tDup: real, tConflict: real, requireOverlap: bool)
    ensures forall id | id in Dropped(objs, tDup, tConflict, requireOverlap) ::
      exists s | s in SoccerReps(objs, tDup) :: s.id == id
  {
  }

  /** With unique ids only de-duplication representatives are removed: a soccer ball absorbed
      into another ball's group, like every other object, stays. */
  lemma OnlyRepresentativesDropped(img: Image, tDup: real, tConflict: real, requireOverlap: bool)
    requires UniqueIds(img.objects)
    ensures var r := FilterImage(img, tDup, tConflict, requireOverlap);
      forall o | o in img.objects && o !in SoccerReps(img.objects, tDup) :: o in r.objects
  {
    var objs := img.objects;
    var drop := Dropped(objs, tDup, tConflict, requireOverlap);
    var reps := SoccerReps(objs, tDup);
    DroppedAreRepresentatives(objs, tDup, tConflict, requireOverlap);
    DedupeFromInput(WithLabels(objs, SoccerBallSet), tDup);
    forall o | o in objs && o !in reps ensures o.id !in drop {
      if o.id in drop {
        var s :| s in reps && s.id == o.id;
        SameIdSameObject(objs, s, o);
      }
    }
  }

  /** In context, with unique ids, a representative is removed exactly when it conflicts with
      some baseball ball under `require_overlap`, and always otherwise; so without a baseball
      ball `require_overlap` falls back to removing every representative. */
  lemma RepresentativeDropped(img: Image, tDup: real, tConflict: real, requireOverlap: bool)
    requires UniqueIds(img.objects) && InContext(img.objects)
    ensures var r, bbs := FilterImage(img, tDup, tConflict, requireOverlap), WithLabels(img.objects, BaseballBallSet);
      forall s | s in SoccerReps(img.objects, tDup) ::
        s !in r.objects <==> !requireOverlap || |bbs| == 0 || Conflicts(s, bbs, tConflict)
  {
    var objs := img.objects;
    var reps, bbs := SoccerReps(objs, tDup), WithLabels(objs, BaseballBallSet);
    var drop := Dropped(objs, tDup, tConflict, requireOverlap);
    DedupeFromInput(WithLabels(objs, SoccerBallSet), tDup);
    forall s | s in reps
      ensures s.id in drop <==> !requireOverlap || |bbs| == 0 || Conflicts(s, bbs, tConflict)
    {
      if requireOverlap && |bbs| > 0 && s.id in drop {
        var s' :| s' in reps && Conflicts(s', bbs, tConflict) && s'.id == s.id;
        SameIdSameObject(objs, s, s');
      }
    }
  }

  /** The filter keeps the surviving objects and relationships in order, leaves no
      relationship that references a removed id, creates no dangling reference, and rebuilds
      the triplets from what is left. */
  lemma FilterIntegrity(img: Image, tDup: real, tConflict: real, requireOverlap: bool)
    ensures var r, drop := FilterImage(img, tDup, tConflict, requireOverlap), Dropped(img.objects, tDup, tConflict, requireOverlap);
      && r.objects == KeepObjects(img.objects, drop)
      && r.relationships == KeepRelations(img.relationships, drop)
      && (forall x | x in r.relationships :: x.subjectId !in drop && x.objectId !in drop)
      && (NoDangling(img.objects, img.relationships) ==> NoDangling(r.objects, r.relationships))
      && r.triplets == Triplets(r.objects, r.relationships)
      && |r.triplets| <= |r.relationships|
  {
    var drop := Dropped(img.objects, tDup, tConflict, requireOverlap);
    if drop == {} {
      KeepObjectsNothing(img.objects, drop);
      KeepRelationsNothing(img.relationships, drop);
    }
    PruneCreatesNoDangling(img.objects, img.relationships, drop);
  }

  // ---------------------------------------------------------------------------
  // `process`

  /** The loop of `process` over the annotations it found. */
  method FilterAll(anns: seq<Annotation>, tDup: real, tConflict: real, requireOverlap: bool)
    requires Distinct(anns)
    modifies AnnotationSet(anns)
    ensures forall k | 0 <= k < |anns| ::
      anns[k].View() == FilterImage(old(anns[k].View()), tDup, tConflict, requireOverlap)
  {
    ghost var before := Views(anns);
    for i := 0 to |anns|
      invariant forall k | 0 <= k < i :: anns[k].View() == FilterImage(before[k], tDup, tConflict, requireOverlap)
      invariant forall k | i <= k < |anns| :: anns[k].View() == before[k]
    {
      label Before:
      FilterOne(anns[i], tDup, tConflict, requireOverlap);
      forall k | 0 <= k < |anns| && k != i ensures anns[k].View() == old@Before(anns[k].View()) {
        assert anns[k] != anns[i];
      }
    }
  }

  /** `process`: each annotation of a per-image list, or of a dict's "annotations" list, is
      filtered in place and the document returned; any other input is rejected. */
  method Process(doc: Document, tDup: real, tConflict: real, requireOverlap: bool) returns (r: Result<Document>)
    requires Distinct(Annotations(doc))
    modifies AnnotationSet(Annotations(doc))
    ensures r.Failure? <==> DetectFormat(doc) == Unknown
    ensures r.Failure? ==> r.error == UnsupportedFormat
    ensures r.Ok? ==> r.value == doc
    ensures r.Ok? ==> forall k | 0 <= k < |Annotations(doc)| ::
      Annotations(doc)[k].View() == FilterImage(old(Annotations(doc)[k].View()), tDup, tConflict, requireOverlap)
    ensures r.Failure? ==> unchanged(AnnotationSet(Annotations(doc)))
  {
    if DetectFormat(doc) == Unknown {
      return Failure(UnsupportedFormat);
    }
    FilterAll(Annotations(doc), tDup, tConflict, requireOverlap);
    r := Ok(doc);
  }
}
