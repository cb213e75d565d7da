/** The parallel branch of a wave: workers take groups from a shared counter and
    run them side by side, in any interleaving. */
module WavePool {
  import opened Options
  import opened Nodes
  import opened WaveRun
  import opened WaveExec
  import P = WavePlan

  /** A worker about to take a group, inside one, or out of groups. */
  datatype Worker = Asking | At(group: nat, pos: nat) | Finished

  /** How far each group has run. */
  ghost predicate Progress(c: Conf, tags: seq<P.Tag<Id>>, end: nat, steps: seq<nat>, done: set<nat>)
    requires c.first <= end <= |c.ops|
  {
    && |steps| == |tags| && (forall p :: p in done ==> c.first <= p < end)
    && forall g :: 0 <= g < |tags| ==> GroupAt(c, tags[g], end, steps[g], done)
  }

  ghost predicate GroupAt(c: Conf, tag: P.Tag<Id>, end: nat, n: nat, done: set<nat>)
    requires c.first <= end <= |c.ops|
  {
    var hs := Members(c, tag, end);
    n <= |hs| && forall i :: 0 <= i < |hs| ==> (hs[i] in done <==> i < n)
  }

  lemma NothingRun(c: Conf, tags: seq<P.Tag<Id>>, end: nat)
    requires c.first <= end <= |c.ops|
    ensures Progress(c, tags, end, seq(|tags|, _ => 0), {})
  {
  }

  /** The next member of a group is the next update of its leaf. */
  lemma GroupNext(c: Conf, end: nat, tag: P.Tag<Id>, n: nat, done: set<nat>)
    requires c.first <= end <= |c.ops| && GroupAt(c, tag, end, n, done) && n < |Members(c, tag, end)|
    requires Members(c, tag, end)[n] < |c.ops| && tag == P.AtLeaf(c.LeafAt(Members(c, tag, end)[n]))
    ensures Next(c, end, done, Members(c, tag, end)[n])
  {
    hide Members;
    var hs := Members(c, tag, end);
    var rest := done - Firsts(hs, n);
    assert done == rest + Firsts(hs, n);
    NextMember(c, end, tag, rest, done, n);
  }

  lemma GroupStep(c: Conf, end: nat, tag: P.Tag<Id>, n: nat, done: set<nat>)
    requires c.first <= end <= |c.ops| && GroupAt(c, tag, end, n, done) && n < |Members(c, tag, end)|
    ensures GroupAt(c, tag, end, n + 1, done + {Members(c, tag, end)[n]})
  {
    hide P.Hits;
    P.HitsAre(c.Routing(), c.ops, c.first, end, tag);
  }

  lemma GroupOther(c: Conf, end: nat, tag: P.Tag<Id>, n: nat, done: set<nat>, p: nat)
    requires c.first <= end <= |c.ops| && GroupAt(c, tag, end, n, done)
    requires p < |c.ops| && c.Routing().Tag(c.ops[p].key) != tag
    ensures GroupAt(c, tag, end, n, done + {p})
  {
    hide Members;
    MembersIn(c, end, tag, p);
    var hs := Members(c, tag, end);
    assert forall i :: 0 <= i < |hs| ==> hs[i] in hs;
  }

  lemma ProgressStep(c: Conf, tags: seq<P.Tag<Id>>, end: nat, steps: seq<nat>, done: set<nat>, g: nat)
    requires c.first <= end <= |c.ops| && Progress(c, tags, end, steps, done)
    requires g < |tags| && steps[g] < |Members(c, tags[g], end)|
    requires forall k, l :: 0 <= k < l < |tags| ==> tags[k] != tags[l]
    ensures Progress(c, tags, end, steps[g := steps[g] + 1], done + {Members(c, tags[g], end)[steps[g]]})
  {
    hide Members, GroupAt;
    var p := Members(c, tags[g], end)[steps[g]];
    MembersIn(c, end, tags[g], p);
    forall k | 0 <= k < |tags| ensures GroupAt(c, tags[k], end, steps[g := steps[g] + 1][k], done + {p}) {
      if k == g {
        GroupStep(c, end, tags[g], steps[g], done);
      } else {
        GroupOther(c, end, tags[k], steps[k], done, p);
      }
    }
  }

  lemma ProgressDone(c: Conf, batch: seq<P.Task>, groups: seq<P.Group<Id>>, tags: seq<P.Tag<Id>>, end: nat, steps: seq<nat>, done: set<nat>)
    requires Plan(c, batch, groups, tags, end) && c.first <= end <= |c.ops| && Progress(c, tags, end, steps, done)
    requires forall g :: 0 <= g < |tags| ==> steps[g] == |Members(c, tags[g], end)|
    ensures done == All(c.first, end)
  {
    hide Members, Plan;
    TagsApart(c, batch, groups, tags, end);
    forall p: nat | c.first <= p < end ensures p in done {
      var g :| 0 <= g < |tags| && tags[g] == c.Routing().Tag(c.ops[p].key);
      MembersIn(c, end, tags[g], p);
      var i :| 0 <= i < |Members(c, tags[g], end)| && Members(c, tags[g], end)[i] == p;
      assert GroupAt(c, tags[g], end, steps[g], done);
    }
    assert forall p :: p in All(c.first, end) <==> c.first <= p < end;
  }

  ghost predicate Claimed(held: seq<Worker>, g: nat) {
    exists w :: 0 <= w < |held| && held[w].At? && held[w].group == g
  }

  /** Which worker is where: groups are handed out in order, once each. */
  ghost predicate Handed(c: Conf, tags: seq<P.Tag<Id>>, end: nat, steps: seq<nat>, held: seq<Worker>, next: nat)
    requires c.first <= end <= |c.ops| && |steps| == |tags|
  {
    && (forall g :: 0 <= g < |tags| && next <= g ==> steps[g] == 0)
    && (forall w :: 0 <= w < |held| && held[w].At? ==> WorkerAt(c, tags, end, steps, held[w], next))
    && (forall w, x :: 0 <= w < x < |held| && held[w].At? && held[x].At? ==> held[w].group != held[x].group)
    && (forall w :: 0 <= w < |held| && held[w].Finished? ==> next >= |tags|)
    && (forall g :: 0 <= g < |tags| && g < next ==> steps[g] == |Members(c, tags[g], end)| || Claimed(held, g))
  }

  ghost predicate WorkerAt(c: Conf, tags: seq<P.Tag<Id>>, end: nat, steps: seq<nat>, h: Worker, next: nat)
    requires c.first <= end <= |c.ops| && |steps| == |tags| && h.At?
  {
    h.group < |tags| && h.group < next && steps[h.group] < |Members(c, tags[h.group], end)| && h.pos == Members(c, tags[h.group], end)[steps[h.group]]
  }

  lemma StillClaimed(held: seq<Worker>, w: nat, h: Worker, g: nat)
    requires w < |held| && Claimed(held, g) && (held[w].At? && held[w].group == g ==> h.At? && h.group == g)
    ensures Claimed(held[w := h], g)
  {
    var x :| 0 <= x < |held| && held[x].At? && held[x].group == g;
    assert held[w := h][x].At? && held[w := h][x].group == g;
  }

  lemma TakesGroup(c: Conf, tags: seq<P.Tag<Id>>, end: nat, steps: seq<nat>, held: seq<Worker>, next: nat, w: nat, pos: nat)
    requires c.first <= end <= |c.ops| && |steps| == |tags| && Handed(c, tags, end, steps, held, next)
    requires w < |held| && held[w].Asking? && next < |tags| && |Members(c, tags[next], end)| > 0 && pos == Members(c, tags[next], end)[0]
    ensures Handed(c, tags, end, steps, held[w := At(next, pos)], next + 1)
  {
    hide Members;
    var after := held[w := At(next, pos)];
    forall g | 0 <= g < |tags| && g < next + 1 ensures steps[g] == |Members(c, tags[g], end)| || Claimed(after, g) {
      if g == next {
        assert after[w].At? && after[w].group == g;
      } else if Claimed(held, g) {
        StillClaimed(held, w, At(next, pos), g);
      }
    }
  }

  lemma FindsNone(c: Conf, tags: seq<P.Tag<Id>>, end: nat, steps: seq<nat>, held: seq<Worker>, next: nat, w: nat)
    requires c.first <= end <= |c.ops| && |steps| == |tags| && Handed(c, tags, end, steps, held, next)
    requires w < |held| && held[w].Asking? && next >= |tags|
    ensures Handed(c, tags, end, steps, held[w := Finished], next + 1)
  {
    hide Members;
    forall g | 0 <= g < |tags| ensures steps[g] == |Members(c, tags[g], end)| || Claimed(held[w := Finished], g) {
      if Claimed(held, g) { StillClaimed(held, w, Finished, g); }
    }
  }

  lemma TakesTurn(c: Conf, tags: seq<P.Tag<Id>>, end: nat, steps: seq<nat>, held: seq<Worker>, next: nat, w: nat, h: Worker)
    requires c.first <= end <= |c.ops| && |steps| == |tags| && Handed(c, tags, end, steps, held, next)
    requires w < |held| && held[w].At?
    requires held[w].group < |tags| && steps[held[w].group] < |Members(c, tags[held[w].group], end)|
    requires var hs, n := Members(c, tags[held[w].group], end), steps[held[w].group] + 1;
             h == if n < |hs| then At(held[w].group, hs[n]) else Asking
    ensures Handed(c, tags, end, steps[held[w].group := steps[held[w].group] + 1], held[w := h], next)
  {
    hide Members;
    var g0 := held[w].group;
    var later, after := steps[g0 := steps[g0] + 1], held[w := h];
    assert WorkerAt(c, tags, end, steps, held[w], next);
    forall x | 0 <= x < |after| && after[x].At? ensures WorkerAt(c, tags, end, later, after[x], next) {
      if x != w {
        assert WorkerAt(c, tags, end, steps, held[x], next);
        Apart(held, w, x);
      }
    }
    forall x, y | 0 <= x < y < |after| && after[x].At? && after[y].At? ensures after[x].group != after[y].group {
      assert held[x].At? && held[y].At? && held[x].group == after[x].group && held[y].group == after[y].group;
    }
    forall g | 0 <= g < |tags| && g < next ensures later[g] == |Members(c, tags[g], end)| || Claimed(after, g) {
      if g == g0 {
        if h.At? { assert after[w].At? && after[w].group == g; }
      } else if Claimed(held, g) {
        StillClaimed(held, w, h, g);
      }
    }
  }

  lemma Apart(held: seq<Worker>, w: nat, x: nat)
    requires w < |held| && x < |held| && w != x && held[w].At? && held[x].At?
    requires forall y, z :: 0 <= y < z < |held| && held[y].At? && held[z].At? ==> held[y].group != held[z].group
    ensures held[w].group != held[x].group
  {
  }

  lemma AllFinished(c: Conf, tags: seq<P.Tag<Id>>, end: nat, steps: seq<nat>, held: seq<Worker>, next: nat)
    requires c.first <= end <= |c.ops| && |steps| == |tags| && Handed(c, tags, end, steps, held, next)
    requires |held| > 0 && forall w :: 0 <= w < |held| ==> held[w].Finished?
    ensures forall g :: 0 <= g < |tags| ==> steps[g] == |Members(c, tags[g], end)|
  {
    hide Members;
    assert held[0].Finished?;
  }

  function Unfinished(held: seq<Worker>): set<nat> {
    set w | 0 <= w < |held| && !held[w].Finished?
  }

  function Idle(held: seq<Worker>): set<nat> {
    set w | 0 <= w < |held| && held[w].Asking?
  }

  lemma FewerIdle(held: seq<Worker>, w: nat, h: Worker)
    requires w < |held| && held[w].Asking? && !h.Asking?
    ensures if h.Finished? then Unfinished(held[w := h]) < Unfinished(held)
            else Unfinished(held[w := h]) == Unfinished(held) && Idle(held[w := h]) < Idle(held)
  {
    assert w in Unfinished(held) && w in Idle(held);
    assert w !in Idle(held[w := h]);
    if h.Finished? { assert w !in Unfinished(held[w := h]); }
  }

  lemma FewerLeft(c: Conf, end: nat, done: set<nat>, p: nat)
    requires c.first <= p < end && p !in done
    ensures All(c.first, end) - (done + {p}) < All(c.first, end) - done
  {
    assert p in All(c.first, end);
  }

  /** One operation of a worker's group, with what the plan says of it. */
  method Turn(e: Executor, g: nat, pos: nat, ghost n: nat) returns (ok: bool, next: Option<nat>)
    requires e.Valid() && g < |e.groups| == |e.tags| && e.c.first <= e.end <= |e.c.ops|
    requires n < |Members(e.c, e.tags[g], e.end)| && pos == Members(e.c, e.tags[g], e.end)[n]
    requires GroupAt(e.c, e.tags[g], e.end, n, e.run.done)
    modifies e
    ensures e.Valid() && ok && e.run.done == old(e.run.done) + {pos} && pos !in old(e.run.done) && e.c.first <= pos < e.end
    ensures next == if n + 1 < |Members(e.c, e.tags[g], e.end)| then Some(Members(e.c, e.tags[g], e.end)[n+1]) else None
  {
    hide Settled, Plan, P.Hits, P.GroupIs, Next, P.Ops, Members;
    PlanFacts(e.c, e.batch, e.groups, e.tags, e.end, g);
    GroupFacts(e.c, e.batch, e.groups, e.tags, e.end, g, n);
    GroupNext(e.c, e.end, e.tags[g], n, e.run.done);
    forall k | 0 <= k < |e.groups| && e.groups[k].last == pos ensures k == g {
      OneLast(e.c, e.batch, e.groups, e.tags, e.end, g, k, pos);
    }
    ok := e.Execute(g, pos);
    next := e.batch[pos].next;
  }

  /** worker_main on every worker, in any interleaving of their turns. */
  method RunParallel(e: Executor, workers: nat) returns (ok: bool)
    requires e.Valid() && e.run.done == {} && workers > 0
    modifies e
    ensures e.Valid() && ok && e.run.done == All(e.c.first, e.end)
  {
    hide Settled, Plan, P.Hits, P.GroupIs, Next, P.Ops, Members, Handed, Progress;
    TagsApart(e.c, e.batch, e.groups, e.tags, e.end);
    PlanIn(e.c, e.batch, e.groups, e.tags, e.end);
    var held := seq(workers, _ => Asking);
    var nextGroup := 0;
    ghost var steps := seq(|e.groups|, _ => 0);
    NothingRun(e.c, e.tags, e.end);
    NoneHanded(e.c, e.tags, e.end, workers);
    ok := true;
    while exists w :: 0 <= w < workers && !held[w].Finished?
      invariant e.Valid() && ok && |held| == workers && |steps| == |e.groups|
      invariant Progress(e.c, e.tags, e.end, steps, e.run.done) && Handed(e.c, e.tags, e.end, steps, held, nextGroup)
      decreases All(e.c.first, e.end) - e.run.done, Unfinished(held), Idle(held)
    {
      var w :| 0 <= w < workers && !held[w].Finished?;
      if held[w].Asking? {
        var index := nextGroup;
        if index >= |e.groups| {
          FewerIdle(held, w, Finished);
          FindsNone(e.c, e.tags, e.end, steps, held, nextGroup, w);
          held := held[w := Finished];
        } else {
          FewerIdle(held, w, At(index, e.groups[index].first));
          FirstMember(e.c, e.batch, e.groups, e.tags, e.end, index);
          TakesGroup(e.c, e.tags, e.end, steps, held, nextGroup, w, e.groups[index].first);
          held := held[w := At(index, e.groups[index].first)];
        }
        nextGroup := nextGroup + 1;
      } else {
        var g, pos := held[w].group, held[w].pos;
        WorkerIs(e.c, e.tags, e.end, steps, held, nextGroup, w, e.run.done);
        ProgressStep(e.c, e.tags, e.end, steps, e.run.done, g);
        var next;
        ghost var done := e.run.done;
        ok, next := Turn(e, g, pos, steps[g]);
        FewerLeft(e.c, e.end, done, pos);
        var h := if next.Some? then At(g, next.value) else Asking;
        TakesTurn(e.c, e.tags, e.end, steps, held, nextGroup, w, h);
        held := held[w := h];
        steps := steps[g := steps[g] + 1];
      }
    }
    AllFinished(e.c, e.tags, e.end, steps, held, nextGroup);
    ProgressDone(e.c, e.batch, e.groups, e.tags, e.end, steps, e.run.done);
  }

  lemma NoneHanded(c: Conf, tags: seq<P.Tag<Id>>, end: nat, workers: nat)
    requires c.first <= end <= |c.ops|
    ensures Handed(c, tags, end, seq(|tags|, _ => 0), seq(workers, _ => Asking), 0)
  {
  }

  lemma FirstMember(c: Conf, batch: seq<P.Task>, groups: seq<P.Group<Id>>, tags: seq<P.Tag<Id>>, end: nat, g: nat)
    requires Plan(c, batch, groups, tags, end) && g < |groups| == |tags| && c.first <= end <= |c.ops|
    ensures |Members(c, tags[g], end)| > 0 && groups[g].first == Members(c, tags[g], end)[0]
  {
    hide P.Hits, P.GroupIs, Plan, P.Ops, Members;
    PlanFacts(c, batch, groups, tags, end, g);
    NotEmpty(batch, groups[g], Members(c, tags[g], end), c.Routing().available(P.LeafOf(tags[g])));
    GroupFacts(c, batch, groups, tags, end, g, 0);
  }

  lemma WorkerIs(c: Conf, tags: seq<P.Tag<Id>>, end: nat, steps: seq<nat>, held: seq<Worker>, next: nat, w: nat, done: set<nat>)
    requires c.first <= end <= |c.ops| && Progress(c, tags, end, steps, done) && Handed(c, tags, end, steps, held, next) && w < |held| && held[w].At?
    ensures var g := held[w].group;
            g < |tags| && steps[g] < |Members(c, tags[g], end)| && held[w].pos == Members(c, tags[g], end)[steps[g]] && GroupAt(c, tags[g], end, steps[g], done)
  {
    hide Members, GroupAt;
    assert WorkerAt(c, tags, end, steps, held[w], next);
  }

  /** run_wave: inline when there is little to share out, else on all workers. */
  method RunWave(e: Executor, workers: nat, minGroups: nat) returns (ok: bool, parallel: bool)
    requires e.Valid() && e.run.done == {} && workers > 0
    modifies e
    ensures e.Valid() && ok && e.run.done == All(e.c.first, e.end)
    ensures parallel <==> |e.groups| != 1 && workers != 1 && |e.groups| >= minGroups
  {
    parallel := !(|e.groups| == 1 || workers == 1 || |e.groups| < minGroups);
    if parallel {
      ok := RunParallel(e, workers);
    } else {
      ok := e.RunInline();
    }
  }
}
