// Snapshot and restore of a VFS workspace (_vfs/_base.py), and the workdir swap
// of the checkpoint bridge (checkpoint.py), as ordered filesystem mutations
// any of which may fail.
module VfsModel {
  import opened Wrappers

  type Tree = map<string, seq<bv8>>
  type Tag = string

  // snapshots: the entries of the snapshots root.  work, aside: the workdir and
  // its `.aside` sibling, if they exist.
  datatype Files = Files(snapshots: map<Tag, Tree>, work: Option<Tree>, aside: Option<Tree>)

  // What goes wrong in one snapshot, in the order it can.
  datatype SnapshotFault = NoFault | CopyFails | RemoveFails(left: Tree) | RenameFails

  datatype RestoreFault =
    | Clean | RestoreCopyFails | ClearAsideFails | FirstRenameFails | SecondRenameFails | RollbackFails

  datatype Outcome = Done | RuntimeError | ValueError | KeyError | OSError

  predicate ValidTag(tag: Tag) {
    tag != "" && '/' !in tag && tag != "." && tag != ".."
  }

  // The entries `snapshot(tag)` takes for leftovers of an earlier crash.
  predicate Stale(tag: Tag, entry: string) {
    tag + ".tmp." <= entry || tag + ".obsolete." <= entry
  }

  function Cleaned(m: map<Tag, Tree>, tag: Tag): map<Tag, Tree> {
    map t | t in m && !Stale(tag, t) :: m[t]
  }

  // snapshot: copy the workdir to a temporary sibling, remove the old entry,
  // rename the copy into place; a copy that fails is removed again.
  function Snapshot(f: Files, tag: Tag, fault: SnapshotFault): (Files, Outcome) {
    if !ValidTag(tag) then (f, ValueError)
    else
      var m := Cleaned(f.snapshots, tag);
      if f.work.None? || fault.CopyFails? then (f.(snapshots := m), OSError)
      else if fault.RemoveFails? && tag in m then (f.(snapshots := m[tag := fault.left]), OSError)
      else if fault.RenameFails? then (f.(snapshots := m - {tag}), OSError)
      else (f.(snapshots := m[tag := f.work.value]), Done)
  }

  // restore: copy the entry beside the workdir, move the workdir aside, rename
  // the copy into place, and move the workdir back if that fails.
  function Restore(f: Files, tag: Tag, fault: RestoreFault): (Files, Outcome) {
    if tag !in f.snapshots then (f, KeyError)
    else if fault.RestoreCopyFails? then (f, OSError)
    else if fault.ClearAsideFails? && f.aside.Some? then (f, OSError)
    else if f.work.None? || fault.FirstRenameFails? then (f.(aside := None), OSError)
    else if fault.SecondRenameFails? then (f.(aside := None), OSError)
    else if fault.RollbackFails? then (f.(work := None, aside := f.work), OSError)
    else (f.(work := Some(f.snapshots[tag]), aside := None), Done)
  }

  // ---- what a snapshot does to the entries ----

  lemma TagIsNotStale(tag: Tag)
    ensures !Stale(tag, tag)
  {
    assert |tag + ".tmp."| > |tag| && |tag + ".obsolete."| > |tag|;
  }

  // Another entry survives a snapshot under `tag`, failing or not, exactly when
  // its name does not begin like a leftover of `tag`; a survivor is unchanged.
  lemma OthersSurviveIff(f: Files, tag: Tag, fault: SnapshotFault, other: Tag)
    requires ValidTag(tag) && other in f.snapshots && other != tag
    ensures var q := Snapshot(f, tag, fault).0;
      && (other in q.snapshots <==> !Stale(tag, other))
      && (other in q.snapshots ==> q.snapshots[other] == f.snapshots[other])
      && q.work == f.work
  {
  }

  // A snapshot that fails leaves the tag's earlier entry as it was exactly when
  // it failed before starting to remove it.
  lemma FailedSnapshotKeepsIff(f: Files, tag: Tag, fault: SnapshotFault)
    requires tag in f.snapshots && Snapshot(f, tag, fault).1.OSError?
    requires fault.RemoveFails? ==> fault.left != f.snapshots[tag]
    ensures var q := Snapshot(f, tag, fault).0;
      (tag in q.snapshots && q.snapshots[tag] == f.snapshots[tag]) <==> f.work.None? || fault.CopyFails?
  {
    TagIsNotStale(tag);
  }

  lemma RestoreUndoesMutation(f: Files, tag: Tag, mutated: Tree, later: RestoreFault)
    requires ValidTag(tag) && f.work.Some? && later.Clean?
    ensures var (q, done) := Snapshot(f, tag, NoFault);
      done.Done? && Restore(q.(work := Some(mutated)), tag, later) == (q.(aside := None), Done)
  {
  }

  // The workdir a failed restore leaves is the one it found, exactly when the
  // rollback worked; otherwise it is in the aside copy.
  lemma FailedRestoreKeepsIff(f: Files, tag: Tag, fault: RestoreFault)
    requires f.work.Some? && Restore(f, tag, fault).1 != Done
    ensures var q := Restore(f, tag, fault).0;
      && q.snapshots == f.snapshots
      && (q.work == f.work <==> !(tag in f.snapshots && fault.RollbackFails?))
      && (q.work != f.work ==> q.work == None && q.aside == f.work)
  {
  }

  // After a rollback that failed, the workdir's tree is only in the aside copy,
  // and the next restore deletes it before it fails in turn.
  lemma NextRestoreLosesAside(f: Files, tag: Tag)
    requires f.work.Some? && tag in f.snapshots
    ensures var q := Restore(f, tag, RollbackFails).0;
      q.aside == f.work && Restore(q, tag, Clean) == (q.(aside := None), OSError)
  {
  }

  // ---- the checkpoint bridge's swap of a restored tree into the workdir ----

  function Swap(f: Files, tree: Tree, fault: RestoreFault): (Files, Outcome) {
    var f1 := f.(aside := None);
    if f.work.None? then
      if fault.SecondRenameFails? || fault.RollbackFails? then (f1, OSError) else (f1.(work := Some(tree)), Done)
    else if fault.FirstRenameFails? then (f1, OSError)
    else if fault.SecondRenameFails? then (f1, OSError)
    else if fault.RollbackFails? then (f1.(work := None, aside := f.work), OSError)
    else (f1.(work := Some(tree)), Done)
  }

  // The swap succeeds or leaves the workdir alone, unless the rollback fails;
  // over an existing workdir it ends as a restore of the same tree does.
  lemma SwapIsAtomicIff(f: Files, tree: Tree, fault: RestoreFault)
    ensures var (q, done) := Swap(f, tree, fault);
      && (done.Done? ==> q.work == Some(tree) && q.aside == None)
      && (!done.Done? ==> (q.work == f.work <==> f.work.None? || !fault.RollbackFails?))
      && q.snapshots == f.snapshots
  {
  }

  lemma SwapIsRestore(f: Files, tag: Tag, fault: RestoreFault)
    requires f.work.Some? && tag in f.snapshots && !fault.RestoreCopyFails? && !fault.ClearAsideFails?
    ensures Swap(f, f.snapshots[tag], fault) == Restore(f, tag, fault)
  {
  }

  // ---- refinement of a plain map over any run ----

  datatype Event =
    | Save(tag: Tag, saveFault: SnapshotFault)
    | Mutate(tree: Tree)
    | Load(tag: Tag, loadFault: RestoreFault)

  function Apply(f: Files, e: Event): Files {
    match e
    case Save(tag, fault) => Snapshot(f, tag, fault).0
    case Mutate(tree) => if f.work.Some? then f.(work := Some(tree)) else f
    case Load(tag, fault) => Restore(f, tag, fault).0
  }

  function Run(f: Files, es: seq<Event>): Files {
    if es == [] then f else Apply(Run(f, es[..|es| - 1]), es[|es| - 1])
  }

  // Tags none of which is taken for a leftover of another.
  ghost predicate Compatible(tags: iset<Tag>) {
    forall t, u :: t in tags && u in tags ==> !Stale(t, u)
  }

  // Every save goes to one of the tags.
  predicate Saves(es: seq<Event>, tags: iset<Tag>) {
    forall e :: e in es && e.Save? ==> e.tag in tags
  }

  // The plain map: a tag has the tree of its last save, unless a later save
  // failed after removing it.
  function Step(m: map<Tag, Tree>, f: Files, e: Event): map<Tag, Tree> {
    if !e.Save? then m
    else
      var done := Snapshot(f, e.tag, e.saveFault).1;
      if done.Done? then m[e.tag := f.work.value]
      else if done.ValueError? || f.work.None? || e.saveFault.CopyFails? then m
      else if e.saveFault.RemoveFails? && e.tag in m then m[e.tag := e.saveFault.left]
      else m - {e.tag}
  }

  function Plain(f: Files, es: seq<Event>): map<Tag, Tree> {
    if es == [] then map[]
    else
      var front := es[..|es| - 1];
      Step(Plain(f, front), Run(f, front), es[|es| - 1])
  }

  ghost predicate Represents(f: Files, m: map<Tag, Tree>, tags: iset<Tag>) {
    forall t :: t in tags ==> (t in f.snapshots <==> t in m) && (t in m ==> f.snapshots[t] == m[t])
  }

  lemma StepRefines(f: Files, m: map<Tag, Tree>, e: Event, tags: iset<Tag>)
    requires Compatible(tags) && Represents(f, m, tags) && (e.Save? ==> e.tag in tags)
    ensures Represents(Apply(f, e), Step(m, f, e), tags)
  {
    if e.Save? {
      forall t | t in tags
        ensures !Stale(e.tag, t)
      {
      }
    }
  }

  lemma {:induction false} RunRefines(f: Files, es: seq<Event>, tags: iset<Tag>)
    requires f.snapshots == map[] && Compatible(tags) && Saves(es, tags)
    ensures Represents(Run(f, es), Plain(f, es), tags)
  {
    if es == [] {
    } else {
      var front, e := es[..|es| - 1], es[|es| - 1];
      assert es == front + [e];
      RunRefines(f, front, tags);
      StepRefines(Run(f, front), Plain(f, front), e, tags);
    }
  }

  // Over any run of saves, mutations and restores, including failing ones,
  // restoring a tag brings back what the plain map holds for it, or KeyError.
  lemma RestoreBringsBack(f: Files, es: seq<Event>, tags: iset<Tag>, tag: Tag)
    requires f.snapshots == map[] && Compatible(tags) && Saves(es, tags) && tag in tags
    ensures var s, m := Run(f, es), Plain(f, es);
      var (q, done) := Restore(s, tag, Clean);
      && (done.KeyError? <==> tag !in m)
      && (tag in m && s.work.Some? ==> done.Done? && q.work == Some(m[tag]) && q.snapshots == s.snapshots)
  {
    RunRefines(f, es, tags);
  }

  // The save of event j got as far as removing the tag's entry.
  predicate Reaches(f: Files, es: seq<Event>, j: nat, tag: Tag)
    requires j < |es|
  {
    && es[j].Save? && es[j].tag == tag && ValidTag(tag)
    && Run(f, es[..j]).work.Some? && !es[j].saveFault.CopyFails?
  }

  function EntryOf(f: Files, tag: Tag): Option<Tree> {
    if tag in f.snapshots then Some(f.snapshots[tag]) else None
  }

  lemma StepKeepsEntry(f: Files, es: seq<Event>, j: nat, tags: iset<Tag>, tag: Tag)
    requires j < |es| && Compatible(tags) && Saves(es, tags) && tag in tags && !Reaches(f, es, j, tag)
    ensures EntryOf(Run(f, es[..j + 1]), tag) == EntryOf(Run(f, es[..j]), tag)
  {
    assert es[..j + 1][..j] == es[..j] && es[j] in es;
    if es[j].Save? {
      assert !Stale(es[j].tag, tag);
    }
  }

  // Between two saves that get that far, the tag's entry stays.
  lemma {:induction false} EntryIsKept(f: Files, es: seq<Event>, i: nat, k: nat, tags: iset<Tag>, tag: Tag)
    requires i <= k <= |es| && Compatible(tags) && Saves(es, tags) && tag in tags
    requires forall j :: i <= j < k ==> !Reaches(f, es, j, tag)
    ensures EntryOf(Run(f, es[..k]), tag) == EntryOf(Run(f, es[..i]), tag)
  {
    if i < k {
      EntryIsKept(f, es, i, k - 1, tags, tag);
      StepKeepsEntry(f, es, k - 1, tags, tag);
    }
  }

  // However a run goes on, a restore brings back the workdir of the tag's last
  // save that got past its copy, if that save succeeded; what its removal left,
  // if the removal failed; and nothing, if the rename did.
  lemma RestoreIsLastSave(f: Files, es: seq<Event>, i: nat, tags: iset<Tag>, tag: Tag)
    requires Compatible(tags) && Saves(es, tags) && tag in tags && i < |es| && Reaches(f, es, i, tag)
    requires forall j :: i < j < |es| ==> !Reaches(f, es, j, tag)
    requires Run(f, es).work.Some?
    ensures var start, fault := Run(f, es[..i]), es[i].saveFault;
      Restore(Run(f, es), tag, Clean) ==
        if fault.RemoveFails? && tag in start.snapshots then
          (Run(f, es).(work := Some(fault.left), aside := None), Done)
        else if fault.RenameFails? then (Run(f, es), KeyError)
        else (Run(f, es).(work := start.work, aside := None), Done)
  {
    EntryIsKept(f, es, i + 1, |es|, tags, tag);
    assert es[..|es|] == es && es[..i + 1][..i] == es[..i];
    TagIsNotStale(tag);
  }

  // Without such a save there is nothing to restore.
  lemma RestoreWithoutSave(f: Files, es: seq<Event>, tags: iset<Tag>, tag: Tag)
    requires Compatible(tags) && Saves(es, tags) && tag in tags && tag !in f.snapshots
    requires forall j :: 0 <= j < |es| ==> !Reaches(f, es, j, tag)
    ensures Restore(Run(f, es), tag, Clean) == (Run(f, es), KeyError)
  {
    EntryIsKept(f, es, 0, |es|, tags, tag);
    assert es[..|es|] == es && es[..0] == [];
  }

  // ---- the classes' methods ----

  class VfsWorkspace {
    var provisioned: bool
    var files: Files

    constructor (work: Tree)
      ensures provisioned && files == Files(map[], Some(work), None)
    {
      provisioned, files := true, Files(map[], Some(work), None);
    }

    method CleanupStale(tag: Tag)
      modifies this`files
      ensures files == old(files).(snapshots := Cleaned(old(files).snapshots, tag))
    {
      var todo := files.snapshots.Keys;
      while todo != {}
        invariant todo <= old(files).snapshots.Keys
        invariant files.work == old(files).work && files.aside == old(files).aside
        invariant files.snapshots == map t | t in old(files).snapshots && (t in todo || !Stale(tag, t)) ::
                                       old(files).snapshots[t]
        decreases |todo|
      {
        var entry :| entry in todo;
        todo := todo - {entry};
        if Stale(tag, entry) {
          files := files.(snapshots := files.snapshots - {entry});
        }
      }
    }

    // `stamp` makes the temporary sibling's name.
    method TakeSnapshot(tag: Tag, stamp: string, fault: SnapshotFault) returns (r: Outcome)
      modifies this`files
      ensures !provisioned ==> r.RuntimeError? && files == old(files)
      ensures provisioned ==> (files, r) == Snapshot(old(files), tag, fault)
    {
      if !provisioned {
        return RuntimeError;
      }
      if !ValidTag(tag) {
        return ValueError;
      }
      CleanupStale(tag);
      var tmp := tag + ".tmp." + stamp;
      ghost var clean := files.snapshots;
      assert tag + ".tmp." <= tmp && tmp != tag && tmp !in clean;
      if files.work.None? || fault.CopyFails? {
        files := files.(snapshots := files.snapshots - {tmp});
        assert files.snapshots == clean;
        return OSError;
      }
      files := files.(snapshots := files.snapshots[tmp := files.work.value]);
      if tag in files.snapshots {
        if fault.RemoveFails? {
          files := files.(snapshots := files.snapshots[tag := fault.left] - {tmp});
          assert files.snapshots == clean[tag := fault.left];
          return OSError;
        }
        files := files.(snapshots := files.snapshots - {tag});
      }
      if fault.RenameFails? {
        files := files.(snapshots := files.snapshots - {tmp});
        assert files.snapshots == clean - {tag};
        return OSError;
      }
      files := files.(snapshots := (files.snapshots - {tmp})[tag := files.snapshots[tmp]]);
      assert files.snapshots == clean[tag := files.work.value];
      return Done;
    }

    method RestoreTag(tag: Tag, fault: RestoreFault) returns (r: Outcome)
      modifies this`files
      ensures !provisioned ==> r.RuntimeError? && files == old(files)
      ensures provisioned ==> (files, r) == Restore(old(files), tag, fault)
    {
      if !provisioned {
        return RuntimeError;
      }
      if tag !in files.snapshots {
        return KeyError;
      }
      if fault.RestoreCopyFails? {
        return OSError;
      }
      var copy := files.snapshots[tag];
      if files.aside.Some? {
        if fault.ClearAsideFails? {
          return OSError;
        }
        files := files.(aside := None);
      }
      if files.work.None? || fault.FirstRenameFails? {
        return OSError;
      }
      files := files.(work := None, aside := files.work);
      if fault.SecondRenameFails? || fault.RollbackFails? {
        if !fault.RollbackFails? {
          files := files.(work := files.aside, aside := None);
        }
        return OSError;
      }
      files := files.(work := Some(copy), aside := None);
      return Done;
    }

    method SwapWorkdir(tree: Tree, fault: RestoreFault) returns (r: Outcome)
      modifies this`files
      ensures (files, r) == Swap(old(files), tree, fault)
    {
      files := files.(aside := None);
      var moved := files.work.Some?;
      if moved {
        if fault.FirstRenameFails? {
          return OSError;
        }
        files := files.(work := None, aside := files.work);
      }
      if fault.SecondRenameFails? || fault.RollbackFails? {
        if moved && !fault.RollbackFails? {
          files := files.(work := files.aside, aside := None);
        }
        return OSError;
      }
      files := files.(work := Some(tree), aside := None);
      return Done;
    }
  }
}
