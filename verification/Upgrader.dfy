/**
  The checkpoint upgrader's scheduling: which migrations to apply to a
  checkpoint and in which order, given what each depends on.  Every known tag is
  an upgrade.
 */
module Upgrader {
  import opened Options
  import opened Collections

  type Tag = string

  /** What each upgrader says about itself. */
  datatype Script = Script(depends: seq<Tag>, fwdDepends: seq<Tag>)

  type Scripts = map<Tag, Script>

  type Depends = map<Tag, seq<Tag>>

  datatype Loaded = Loaded(deps: Depends) | Nonexistent(tag: Tag)

  datatype Outcome = Upgraded(order: seq<Tag>, tags: set<Tag>) | Aborted(stuck: set<Tag>)

  // ---------- Loading ----------

  ghost predicate DependsExist(scripts: Scripts, t: Tag)
    requires t in scripts
  {
    forall d | d in scripts[t].depends || d in scripts[t].fwdDepends :: d in scripts
  }

  /** t depends on u: t says so, or u is among `from` and says t comes after it. */
  ghost predicate Needs(scripts: Scripts, from: set<Tag>, t: Tag, u: Tag)
    requires t in scripts
  {
    u in scripts[t].depends || (u in from && u in scripts && t in scripts[u].fwdDepends)
  }

  /** The forward dependencies of `from` have been turned round. */
  ghost predicate Resolved(scripts: Scripts, from: set<Tag>, deps: Depends) {
    && deps.Keys == scripts.Keys
    && forall t, u | t in scripts :: u in deps[t] <==> Needs(scripts, from, t, u)
  }

  /** While those of `tag` are being turned round. */
  ghost predicate Resolving(scripts: Scripts, from: set<Tag>, deps: Depends, tag: Tag, fwd: seq<Tag>) {
    && deps.Keys == scripts.Keys
    && forall t, u | t in scripts :: u in deps[t] <==> Needs(scripts, from, t, u) || (u == tag && t in fwd)
  }

  lemma ResolvingStep(scripts: Scripts, from: set<Tag>, deps: Depends, tag: Tag, fwd: seq<Tag>, x: Tag)
    requires Resolving(scripts, from, deps, tag, fwd) && x in scripts
    ensures Resolving(scripts, from, deps[x := deps[x] + [tag]], tag, fwd + [x])
  {
    hide Needs;
  }

  lemma ResolvingDone(scripts: Scripts, from: set<Tag>, deps: Depends, tag: Tag)
    requires tag in scripts && Resolving(scripts, from, deps, tag, scripts[tag].fwdDepends)
    ensures Resolved(scripts, from + {tag}, deps)
  {
  }

  /** Turn round the forward dependencies of one script. */
  method ResolveForward(scripts: Scripts, ghost from: set<Tag>, deps0: Depends, tag: Tag)
    returns (deps: Depends, bad: Option<Tag>)
    requires Resolved(scripts, from, deps0) && tag in scripts
    ensures bad.Some? ==> bad.value !in scripts && bad.value in scripts[tag].fwdDepends
    ensures bad.None? ==> Resolved(scripts, from + {tag}, deps)
    ensures bad.None? ==> forall d | d in scripts[tag].fwdDepends :: d in scripts
  {
    hide Resolving;
    var fwd := scripts[tag].fwdDepends;
    deps, bad := deps0, None;
    ResolvingStart(scripts, from, deps, tag);
    for i := 0 to |fwd|
      invariant deps.Keys == scripts.Keys && Resolving(scripts, from, deps, tag, fwd[..i])
      invariant forall k | 0 <= k < i :: fwd[k] in scripts
    {
      if fwd[i] !in deps {
        bad := Some(fwd[i]);
        return;
      }
      ResolvingStep(scripts, from, deps, tag, fwd[..i], fwd[i]);
      assert fwd[..i + 1] == fwd[..i] + [fwd[i]];
      deps := deps[fwd[i] := deps[fwd[i]] + [tag]];
    }
    assert fwd[..|fwd|] == fwd;
    ResolvingDone(scripts, from, deps, tag);
  }

  lemma ResolvingStart(scripts: Scripts, from: set<Tag>, deps: Depends, tag: Tag)
    requires Resolved(scripts, from, deps)
    ensures Resolving(scripts, from, deps, tag, [])
  {
  }

  /** Every dependency must name a known tag. */
  method Audit(scripts: Scripts, depends: seq<Tag>) returns (bad: Option<Tag>)
    ensures bad.Some? ==> bad.value in depends && bad.value !in scripts
    ensures bad.None? ==> forall d | d in depends :: d in scripts
  {
    for i := 0 to |depends|
      invariant forall k | 0 <= k < i :: depends[k] in scripts
    {
      if depends[i] !in scripts {
        return Some(depends[i]);
      }
    }
    return None;
  }

  /** Resolve forward dependencies and audit all of them, visiting the scripts
      in any order. */
  method LoadAll(scripts: Scripts) returns (r: Loaded)
    ensures r.Loaded? <==> forall t | t in scripts :: DependsExist(scripts, t)
    ensures r.Loaded? ==> Resolved(scripts, scripts.Keys, r.deps) && Closed(r.deps)
    ensures r.Nonexistent? ==> r.tag !in scripts
  {
    hide Resolved;
    var deps: Depends := map t | t in scripts :: scripts[t].depends;
    var todo := scripts.Keys;
    ghost var done := {};
    assert Resolved(scripts, {}, deps) by { ResolvedStart(scripts, deps); }
    while todo != {}
      invariant done + todo == scripts.Keys && done !! todo && deps.Keys == scripts.Keys
      invariant Resolved(scripts, done, deps)
      invariant forall t | t in done :: DependsExist(scripts, t)
      decreases todo
    {
      var tag :| tag in todo;
      todo := todo - {tag};
      var bad;
      deps, bad := ResolveForward(scripts, done, deps, tag);
      if bad.Some? {
        assert !DependsExist(scripts, tag);
        return Nonexistent(bad.value);
      }
      done := done + {tag};
      ResolvedNeeds(scripts, done, deps);
      bad := Audit(scripts, deps[tag]);
      if bad.Some? {
        assert !DependsExist(scripts, tag);
        return Nonexistent(bad.value);
      }
    }
    ResolvedNeeds(scripts, done, deps);
    return Loaded(deps);
  }

  lemma ResolvedStart(scripts: Scripts, deps: Depends)
    requires deps == map t | t in scripts :: scripts[t].depends
    ensures Resolved(scripts, {}, deps)
  {
  }

  lemma ResolvedNeeds(scripts: Scripts, from: set<Tag>, deps: Depends)
    requires Resolved(scripts, from, deps)
    ensures deps.Keys == scripts.Keys
    ensures forall t, u | t in scripts && u in deps[t] :: u in scripts[t].depends || u in scripts
    ensures forall t, u | t in scripts && u in scripts[t].depends :: u in deps[t]
  {
  }

  /** Every dependency is a known tag. */
  ghost predicate Closed(deps: Depends) { forall t, d | t in deps && d in deps[t] :: d in deps }

  // ---------- Scheduling ----------

  /** All dependencies are among the checkpoint's tags. */
  predicate Ready(deps: Depends, t: Tag, tags: set<Tag>) {
    t in deps ==> forall d | d in deps[t] :: d in tags
  }

  /** Everything that an upgrade depends on is in the checkpoint or comes before it. */
  ghost predicate AfterDepends(deps: Depends, tags: set<Tag>, order: seq<Tag>) {
    forall i, d | 0 <= i < |order| && order[i] in deps && d in deps[order[i]] :: d in tags || d in order[..i]
  }

  /** A way to bring a checkpoint with `tags` up to date: each missing upgrade once,
      after all that it depends on. */
  ghost predicate Schedule(deps: Depends, tags: set<Tag>, order: seq<Tag>) {
    && NoRepeats(order) && (forall t :: t in order <==> t in deps && t !in tags) && AfterDepends(deps, tags, order)
  }

  /** Missing tags each of which depends on another of them, or on something that is
      neither in the checkpoint nor known. */
  ghost predicate Knot(deps: Depends, tags: set<Tag>, knot: set<Tag>) {
    && knot != {} && knot <= deps.Keys - tags
    && forall t | t in knot :: exists d | d in deps[t] :: d !in tags && (d in knot || d !in deps)
  }

  /** With a knot no order will do: the first of its members would come before
      something that it depends on. */
  lemma KnotBlocks(deps: Depends, tags: set<Tag>, knot: set<Tag>, order: seq<Tag>)
    requires Knot(deps, tags, knot)
    ensures !Schedule(deps, tags, order)
  {
    if Schedule(deps, tags, order) {
      var t :| t in knot;
      assert t in order;
      var j := FirstIn(order, knot);
      var d :| d in deps[order[j]] && d !in tags && (d in knot || d !in deps);
      var k := DependsBefore(deps, tags, order, j, d);
      assert false;
    }
  }

  lemma DependsBefore(deps: Depends, tags: set<Tag>, order: seq<Tag>, j: nat, d: Tag) returns (k: nat)
    requires Schedule(deps, tags, order) && j < |order| && order[j] in deps && d in deps[order[j]] && d !in tags
    ensures k < j && order[k] == d && d in deps
  {
    k :| 0 <= k < j && order[..j][k] == d;
    assert order[k] in order;
  }

  lemma {:induction false} FirstIn(order: seq<Tag>, knot: set<Tag>) returns (j: nat)
    requires exists t :: t in order && t in knot
    ensures j < |order| && order[j] in knot && forall k | 0 <= k < j :: order[k] !in knot
  {
    if order[0] in knot {
      j := 0;
    } else {
      var rest := FirstIn(order[1..], knot);
      j := rest + 1;
    }
  }

  lemma AppendReady(deps: Depends, tags0: set<Tag>, order: seq<Tag>, tags: set<Tag>, t: Tag)
    requires AfterDepends(deps, tags0, order) && NoRepeats(order) && t !in order
    requires (forall d | d in tags :: d in tags0 || d in order) && Ready(deps, t, tags)
    ensures AfterDepends(deps, tags0, order + [t]) && NoRepeats(order + [t])
  {
    forall i, d | 0 <= i <= |order| && (order + [t])[i] in deps && d in deps[(order + [t])[i]]
      ensures d in tags0 || d in (order + [t])[..i]
    {
      assert (order + [t])[..i] == order[..i];
      if i == |order| { assert order[..i] == order; }
    }
  }

  /** The order so far, and the tags that the checkpoint has then. */
  ghost predicate Progress(deps: Depends, tags0: set<Tag>, order: seq<Tag>, tags: set<Tag>) {
    && NoRepeats(order) && AfterDepends(deps, tags0, order)
    && (forall t :: t in tags <==> t in tags0 || t in order)
    && (forall t | t in order :: t in deps && t !in tags0)
  }

  lemma ProgressStep(deps: Depends, tags0: set<Tag>, order: seq<Tag>, tags: set<Tag>, t: Tag)
    requires Progress(deps, tags0, order, tags) && t in deps && t !in tags && Ready(deps, t, tags)
    ensures Progress(deps, tags0, order + [t], tags + {t})
  {
    hide AfterDepends, NoRepeats, Ready;
    AppendReady(deps, tags0, order, tags, t);
  }

  /** Apply all of a round's ready upgrades, in any order. */
  method ApplyRound(deps: Depends, ghost tags0: set<Tag>, order0: seq<Tag>, tags1: set<Tag>, ready: set<Tag>)
    returns (order: seq<Tag>, tags: set<Tag>)
    requires Progress(deps, tags0, order0, tags1)
    requires ready <= deps.Keys - tags1 && forall t, d | t in ready && d in deps[t] :: d in tags1
    ensures Progress(deps, tags0, order, tags) && tags == tags1 + ready
  {
    hide Progress;
    order, tags := order0, tags1;
    var todo := ready;
    while todo != {}
      invariant todo <= ready && tags == tags1 + (ready - todo)
      invariant Progress(deps, tags0, order, tags)
      decreases todo
    {
      var t :| t in todo;
      todo := todo - {t};
      ProgressStep(deps, tags0, order, tags, t);
      order := order + [t];
      tags := tags + {t};
    }
  }

  /** Bring a checkpoint's tags up to date.  Either every missing upgrade is
      applied once, after all it depends on, or no order at all would do. */
  method Migrate(deps: Depends, tags0: set<Tag>) returns (r: Outcome)
    ensures r.Upgraded? ==> r.tags == tags0 + deps.Keys && NoRepeats(r.order)
    ensures r.Upgraded? ==> forall t :: t in r.order <==> t in deps && t !in tags0
    ensures r.Upgraded? ==> forall i, d | 0 <= i < |r.order| && r.order[i] in deps && d in deps[r.order[i]] ::
      d in tags0 || d in r.order[..i]
    ensures r.Aborted? ==> Knot(deps, tags0, r.stuck)
    ensures r.Aborted? ==> !exists order :: Schedule(deps, tags0, order)
  {
    hide Progress, Schedule, Knot;
    var tags, order := tags0, [];
    var toApply := deps.Keys - tags;
    ProgressStart(deps, tags0);
    while toApply != {}
      invariant Progress(deps, tags0, order, tags) && toApply == deps.Keys - tags
      decreases toApply
    {
      var ready := set t | t in toApply && Ready(deps, t, tags);
      if ready == {} {
        forall t | t in toApply ensures exists d | d in deps[t] :: d !in tags { assert t !in ready; }
        StuckIsKnot(deps, tags0, order, tags, toApply);
        forall o ensures !Schedule(deps, tags0, o) {
          KnotBlocks(deps, tags0, toApply, o);
        }
        return Aborted(toApply);
      }
      order, tags := ApplyRound(deps, tags0, order, tags, ready);
      toApply := toApply - ready;
    }
    AllApplied(deps, tags0, order, tags);
    return Upgraded(order, tags);
  }

  lemma AllApplied(deps: Depends, tags0: set<Tag>, order: seq<Tag>, tags: set<Tag>)
    requires Progress(deps, tags0, order, tags) && deps.Keys - tags == {}
    ensures NoRepeats(order) && AfterDepends(deps, tags0, order) && tags == tags0 + deps.Keys
    ensures forall t :: t in order <==> t in deps && t !in tags0
  {
    forall t | t in deps ensures t in tags { assert t !in deps.Keys - tags; }
  }

  lemma ProgressStart(deps: Depends, tags: set<Tag>)
    ensures Progress(deps, tags, [], tags)
  {
  }

  lemma StuckIsKnot(deps: Depends, tags0: set<Tag>, order: seq<Tag>, tags: set<Tag>, toApply: set<Tag>)
    requires Progress(deps, tags0, order, tags) && toApply != {} && toApply == deps.Keys - tags
    requires forall t | t in toApply :: exists d | d in deps[t] :: d !in tags
    ensures Knot(deps, tags0, toApply)
  {
  }
}
