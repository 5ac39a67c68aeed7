/** Archiving and pruning old release directories. */
module Retention {
  import opened Base
  import opened Sorting
  import opened Slots

  const MIN_KEEP := 3
  const MIN_FILES := 100

  predicate IsDigit(c: char) { '0' <= c <= '9' }

  /** `YYYYMMDD_HHMMSS` */
  predicate IsRelease(s: string)
  {
    |s| == 15 && s[8] == '_' && forall i :: 0 <= i < 15 && i != 8 ==> IsDigit(s[i])
  }

  /** Eight digits, an underscore, six digits. */
  lemma {:induction false} ReleaseIs(s: string)
    ensures IsRelease(s) <==> |s| == 15 && s[8..9] == "_" && forall c :: c in s[..8] || c in s[9..] ==> c in "0123456789"
  {
    forall c ensures IsDigit(c) <==> c in "0123456789" {
      if '0' <= c <= '9' { assert "0123456789"[c as int - '0' as int] == c; }
    }
    hide IsDigit;
    if |s| == 15 {
      assert forall i :: 0 <= i < 8 ==> s[..8][i] == s[i];
      assert forall i :: 9 <= i < 15 ==> s[9..][i - 9] == s[i];
    }
  }

  function NameKey(s: string): Key { Key(0, s, "", "") }

  /** The releases with fewer than `keep` later ones. */
  ghost function Newest(names: set<string>, keep: nat): set<string>
  {
    set s | s in names && |Later(names, s)| < keep
  }

  ghost function Later(names: set<string>, s: string): set<string>
  {
    set t | t in names && TextLess(s, t)
  }

  // ----- listing -----

  lemma {:induction false} NamesDiffer(xs: seq<string>)
    requires Distinct(xs)
    ensures KeysDiffer(NameKey, xs)
  {
  }

  /** The release directories, in the order of their names. */
  method SortedReleases(dirs: set<string>) returns (names: seq<string>)
    ensures Sorted(NameKey, names) && Distinct(names)
    ensures forall s :: s in names <==> s in dirs && IsRelease(s)
  {
    hide IsRelease, Sorted, Sort, KeyLess, NameKey;
    var rest, listed: seq<string> := dirs, [];
    while rest != {}
      invariant rest <= dirs && Distinct(listed)
      invariant forall s :: s in listed <==> s in dirs && s !in rest && IsRelease(s)
      decreases |rest|
    {
      var s := PickOne(rest);
      DistinctAppend(listed, s);
      if IsRelease(s) { listed := listed + [s]; }
      rest := rest - {s};
    }
    NamesDiffer(listed);
    SortSorted(NameKey, listed);
    SortMembers(NameKey, listed);
    names := Sort(NameKey, listed);
    SortedDistinct(names);
  }

  lemma {:induction false} SortedDistinct(names: seq<string>)
    requires Sorted(NameKey, names)
    ensures Distinct(names)
  {
    forall i, j | 0 <= i < j < |names| ensures names[i] != names[j] {
      KeyOrder(NameKey(names[i]), NameKey(names[j]));
      KeyOrder(NameKey(names[i]), NameKey(names[i]));
    }
  }

  ghost function SetOf(xs: seq<string>): set<string> { set s | s in xs }

  lemma {:induction false} SizeOfDistinct(xs: seq<string>)
    requires Distinct(xs)
    ensures |SetOf(xs)| == |xs|
  {
    if xs != [] {
      var l := |xs| - 1;
      SizeOfDistinct(xs[..l]);
      assert xs[l] !in SetOf(xs[..l]);
      SameSet(SetOf(xs), SetOf(xs[..l]) + {xs[l]});
    }
  }

  /** In a sorted list the later names are those behind. */
  lemma {:induction false} LaterAreBehind(names: seq<string>, i: nat)
    requires Sorted(NameKey, names) && Distinct(names) && i < |names|
    ensures |Later(SetOf(names), names[i])| == |names| - 1 - i
  {
    var behind := names[i + 1..];
    forall t ensures t in Later(SetOf(names), names[i]) <==> t in SetOf(behind) {
      if t in names {
        var j :| 0 <= j < |names| && names[j] == t;
        if j > i { assert behind[j - i - 1] == t && KeyLess(NameKey(names[i]), NameKey(t)); TextOrder(names[i], names[i]); }
        if j <= i {
          if j < i { assert KeyLess(NameKey(t), NameKey(names[i])); }
          TextOrder(t, names[i]);
          forall k | 0 <= k < |behind| ensures behind[k] != t { assert behind[k] == names[i + 1 + k]; }
        }
      }
    }
    SameSet(Later(SetOf(names), names[i]), SetOf(behind));
    SizeOfDistinct(behind);
  }

  /** `releases[-keep:]` */
  function LastOf(names: seq<string>, keep: nat): seq<string>
  {
    if |names| <= keep then names else names[|names| - keep..]
  }

  /** The last `keep` of the sorted names are the newest ones. */
  lemma {:induction false} LastAreNewest(names: seq<string>, keep: nat)
    requires Sorted(NameKey, names) && Distinct(names)
    ensures forall s :: s in LastOf(names, keep) <==> s in Newest(SetOf(names), keep)
  {
    var tail := LastOf(names, keep);
    var skip := |names| - |tail|;
    forall i | 0 <= i < |names| ensures names[i] in tail <==> names[i] in Newest(SetOf(names), keep) {
      LaterAreBehind(names, i);
      hide Newest, Later, Sorted;
      assert forall k :: 0 <= k < |tail| ==> tail[k] == names[skip + k];
      if i >= skip { assert tail[i - skip] == names[i]; }
      InNewest(names, i, keep);
    }
    forall s | s in tail ensures s in names {}
  }

  lemma {:induction false} InNewest(names: seq<string>, i: nat, keep: nat)
    requires i < |names| && |Later(SetOf(names), names[i])| == |names| - 1 - i
    ensures names[i] in Newest(SetOf(names), keep) <==> |names| - 1 - i < keep
  {
  }

  // ----- what is protected -----

  ghost function ReleaseDirs(dirs: set<string>): set<string> { set s | s in dirs && IsRelease(s) }

  /** The releases the state record names. */
  predicate Recorded(record: Option<Record>, s: string)
  {
    record.Some? && (record.value.active.release == s || (record.value.rollback.Some? && record.value.rollback.value.release == s))
  }

  ghost predicate IsProtected(dirs: set<string>, keep: nat, record: Option<Record>, current: Option<string>, s: string)
  {
    s in Newest(ReleaseDirs(dirs), keep) || current == Some(s) || (IsRelease(s) && Recorded(record, s))
  }

  ghost function LaterReleases(dirs: set<string>, s: string): set<string> { set t | t in dirs && IsRelease(t) && TextLess(s, t) }

  /** Protected are the releases with fewer than `keep` later ones, the current directory, and
      the releases of the recorded active and rollback pairs. */
  lemma {:induction false} ProtectedMeans(dirs: set<string>, keep: nat, record: Option<Record>, current: Option<string>, s: string)
    ensures IsProtected(dirs, keep, record, current, s) <==>
      (s in dirs && IsRelease(s) && |LaterReleases(dirs, s)| < keep) || current == Some(s)
      || (IsRelease(s) && record.Some?
          && (record.value.active.release == s || (record.value.rollback.Some? && record.value.rollback.value.release == s)))
  {
    hide IsRelease;
    SameSet(Later(ReleaseDirs(dirs), s), LaterReleases(dirs, s));
  }

  /** `protected_releases`: the last `keep`, the current one, and those the record names. */
  method ProtectedReleases(dirs: set<string>, keep: nat, record: Option<Record>, current: Option<string>) returns (names: seq<string>, protected: set<string>)
    ensures Sorted(NameKey, names) && Distinct(names) && forall s :: s in names <==> s in dirs && IsRelease(s)
    ensures forall s :: s in protected <==> IsProtected(dirs, keep, record, current, s)
  {
    hide IsRelease, Sorted, KeyLess, NameKey, Newest;
    names := SortedReleases(dirs);
    var last := LastOf(names, keep);
    SameSet(SetOf(names), ReleaseDirs(dirs));
    LastAreNewest(names, keep);
    protected := set s | s in last;
    if current.Some? { protected := protected + {current.value}; }
    if record.Some? {
      var active := record.value.active.release;
      if IsRelease(active) { protected := protected + {active}; }
      if record.value.rollback.Some? {
        var rollback := record.value.rollback.value.release;
        if IsRelease(rollback) { protected := protected + {rollback}; }
      }
    }
  }

  // ----- the pruning -----

  datatype Row = Kept(name: string) | Skipped(name: string) | WouldRemove(name: string, files: nat) | Removed(name: string, files: nat)

  /** The number of files of a source manifest that checked out; None if it did not. */
  type Manifests = string -> Option<nat>

  predicate Valid(manifests: Manifests, s: string) { manifests(s).Some? && manifests(s).value >= MIN_FILES }

  function RowFor(protected: set<string>, manifests: Manifests, again: Manifests, apply: bool, s: string): Row
  {
    if s in protected then Kept(s)
    else if !Valid(manifests, s) then Skipped(s)
    else if apply then Removed(s, if again(s).Some? then again(s).value else 0)
    else WouldRemove(s, manifests(s).value)
  }

  /** What is reported of a release: kept if protected, skipped if its manifest does not check
      out or lists fewer than a hundred files, else removed, or only listed on a dry run. */
  lemma {:induction false} RowMeans(protected: set<string>, manifests: Manifests, again: Manifests, apply: bool, s: string)
    ensures var row, sound := RowFor(protected, manifests, again, apply, s), manifests(s).Some? && manifests(s).value >= 100;
      && row.name == s && (row.Kept? <==> s in protected) && (row.Skipped? <==> s !in protected && !sound)
      && (row.Removed? <==> s !in protected && sound && apply) && (row.Removed? && again(s).Some? ==> row.files == again(s).value)
      && (row.WouldRemove? <==> s !in protected && sound && !apply) && (row.WouldRemove? ==> row.files == manifests(s).value)
  {
  }

  /** The archive has as many members as there are files in the manifest, and one for the
      manifest itself; of an archive that existed before, only the number is compared. */
  predicate ArchiveCounts(archives: map<string, nat>, again: Manifests, s: string)
  {
    Valid(again, s) && s in archives && archives[s] == again(s).value + 1
  }

  /** How removing a directory ends; a removal that breaks off may have emptied it. */
  datatype Removal = Complete | Broken(vanished: bool)

  /** What the file system answers: whether an archive can be written, and how a removal ends. */
  datatype Answers = Answers(writes: string -> bool, removal: string -> Removal)

  predicate Archivable(archives: map<string, nat>, again: Manifests, x: Answers, s: string)
  {
    Valid(again, s) && if s in archives then archives[s] == again(s).value + 1 else x.writes(s)
  }

  /** The release is one the tool is to remove. */
  ghost predicate Prunes(dirs: set<string>, keep: nat, record: Option<Record>, current: Option<string>, manifests: Manifests, s: string)
  {
    s in dirs && IsRelease(s) && !IsProtected(dirs, keep, record, current, s) && Valid(manifests, s)
  }

  /** To be removed is what has the name of a release, is none of the newest, nor current, nor
      recorded, and has a manifest that checks out with at least a hundred files. */
  lemma {:induction false} PrunesMeans(dirs: set<string>, keep: nat, record: Option<Record>, current: Option<string>, manifests: Manifests, s: string)
    ensures Prunes(dirs, keep, record, current, manifests, s) <==>
      && s in dirs && IsRelease(s) && |LaterReleases(dirs, s)| >= keep && current != Some(s)
      && (record.Some? ==> record.value.active.release != s && (record.value.rollback.Some? ==> record.value.rollback.value.release != s))
      && manifests(s).Some? && manifests(s).value >= 100
  {
    ProtectedMeans(dirs, keep, record, current, s);
    hide IsRelease, IsProtected, LaterReleases;
  }

  predicate CanGo(archives: map<string, nat>, again: Manifests, x: Answers, s: string)
  {
    Archivable(archives, again, x, s) && x.removal(s).Complete?
  }

  ghost predicate AllCanGo(dirs: set<string>, archives: map<string, nat>, keep: nat, record: Option<Record>, current: Option<string>,
                           manifests: Manifests, again: Manifests, x: Answers)
  {
    forall s :: Prunes(dirs, keep, record, current, manifests, s) ==> CanGo(archives, again, x, s)
  }

  /** No archive is replaced, and at most that of `s` is new. */
  predicate Grown(before: map<string, nat>, now: map<string, nat>, s: string)
  {
    (forall a :: a in before ==> a in now && now[a] == before[a]) && forall a :: a in now ==> a in before || a == s
  }

  class Store {
    var dirs: set<string>
    var archives: map<string, nat>

    constructor (dirs: set<string>, archives: map<string, nat>)
      ensures this.dirs == dirs && this.archives == archives
    {
      this.dirs, this.archives := dirs, archives;
    }

    /** An existing archive is reused; either way the number of its members must be that of
        the files and the manifest. */
    method ArchiveRelease(s: string, again: Manifests, x: Answers) returns (ok: bool)
      modifies this`archives
      ensures ok <==> Archivable(old(archives), again, x, s)
      ensures ok <==> again(s).Some? && again(s).value >= 100 && if s in old(archives) then old(archives)[s] == again(s).value + 1 else x.writes(s)
      ensures ok ==> ArchiveCounts(archives, again, s)
      ensures archives == if ok && s !in old(archives) then old(archives)[s := again(s).value + 1] else old(archives)
    {
      if again(s).None? || again(s).value < MIN_FILES { return false; }
      if s !in archives {
        if !x.writes(s) { return false; }
        archives := archives[s := again(s).value + 1];
      }
      ok := archives[s] == again(s).value + 1;
    }

    /** One release is archived and its directory removed. */
    method RemoveRelease(s: string, again: Manifests, x: Answers) returns (ok: bool)
      modifies this
      ensures ok <==> CanGo(old(archives), again, x, s)
      ensures ok <==> again(s).Some? && again(s).value >= 100 && (if s in old(archives) then old(archives)[s] == again(s).value + 1 else x.writes(s)) && x.removal(s) == Complete
      ensures dirs == old(dirs) || (dirs == old(dirs) - {s} && ArchiveCounts(archives, again, s))
      ensures ok ==> dirs == old(dirs) - {s}
      ensures Grown(old(archives), archives, s)
    {
      hide Archivable, ArchiveCounts;
      var archived := ArchiveRelease(s, again, x);
      if !archived { return false; }
      var removal := x.removal(s);
      if removal.Complete? || removal.vanished { dirs := dirs - {s}; }
      ok := removal.Complete?;
    }

    /** The loop of the tool. `manifests` are the checks before archiving, `again` those made
        while archiving. It goes through exactly when it may start and every release it is to
        remove can be archived and removed; else it stops at the first that cannot. */
    method Prune(keep: nat, apply: bool, confirmed: bool, record: Option<Record>, current: Option<string>,
                 manifests: Manifests, again: Manifests, x: Answers)
      returns (names: seq<string>, protected: set<string>, rows: seq<Row>, ok: bool)
      modifies this
      ensures dirs <= old(dirs) && (!apply ==> dirs == old(dirs) && archives == old(archives))
      ensures ok <==> (keep >= MIN_KEEP && (apply ==> confirmed && AllCanGo(old(dirs), old(archives), keep, record, current, manifests, again, x)))
      ensures keep < MIN_KEEP || (apply && !confirmed) ==> rows == [] && dirs == old(dirs) && archives == old(archives)
      ensures !ok && keep >= MIN_KEEP && (apply ==> confirmed) ==>
        |rows| < |names| && Prunes(old(dirs), keep, record, current, manifests, names[|rows|]) && !CanGo(old(archives), again, x, names[|rows|])
      ensures forall s :: s in old(dirs) && IsProtected(old(dirs), keep, record, current, s) ==> s in dirs
      ensures forall s :: s in old(dirs) && s !in dirs ==>
        (Prunes(old(dirs), keep, record, current, manifests, s) && ArchiveCounts(archives, again, s))
      ensures forall a :: a in old(archives) ==> a in archives && archives[a] == old(archives)[a]
      ensures ok && apply ==> forall s :: s in dirs <==> s in old(dirs) && !Prunes(old(dirs), keep, record, current, manifests, s)
      ensures keep >= MIN_KEEP && (apply ==> confirmed) ==> Sorted(NameKey, names) && forall s :: s in names <==> s in old(dirs) && IsRelease(s)
      ensures keep >= MIN_KEEP && (apply ==> confirmed) ==> forall s :: s in protected <==> IsProtected(old(dirs), keep, record, current, s)
      ensures |rows| <= |names| && (ok ==> |rows| == |names|) && forall k :: 0 <= k < |rows| ==> rows[k] == RowFor(protected, manifests, again, apply, names[k])
    {
      hide IsRelease, Sorted, KeyLess, NameKey, IsProtected, Valid, ArchiveCounts, CanGo, Grown;
      names, protected, rows, ok := [], {}, [], false;
      if keep < MIN_KEEP || (apply && !confirmed) { return; }
      names, protected := ProtectedReleases(dirs, keep, record, current);
      for i := 0 to |names|
        invariant |rows| == i && forall k :: 0 <= k < i ==> rows[k] == RowFor(protected, manifests, again, apply, names[k])
        invariant !apply ==> dirs == old(dirs) && archives == old(archives)
        invariant apply ==> forall s :: s in dirs <==> s in old(dirs) && !(s in names[..i] && Prunes(old(dirs), keep, record, current, manifests, s))
        invariant apply ==> forall s :: s in names[..i] && Prunes(old(dirs), keep, record, current, manifests, s) ==> CanGo(old(archives), again, x, s)
        invariant forall s :: s in old(dirs) && s !in dirs ==> ArchiveCounts(archives, again, s)
        invariant forall a :: a in old(archives) ==> a in archives && archives[a] == old(archives)[a]
        invariant forall a :: a in archives && a !in old(archives) ==> a in names[..i]
      {
        var s := names[i];
        assert forall y :: y in names[..i + 1] <==> y in names[..i] || y == s;
        assert s !in names[..i];
        assert s in names;
        if s in protected {
          rows := rows + [Kept(s)];
        } else if !IsValid(manifests, s) {
          rows := rows + [Skipped(s)];
        } else if apply {
          SameArchive(old(archives), archives, again, x, s);
          ghost var before := archives;
          var removed := RemoveRelease(s, again, x);
          GrownKeeps(before, archives, again, s);
          if !removed {
            assert !AllCanGo(old(dirs), old(archives), keep, record, current, manifests, again, x);
            return;
          }
          rows := rows + [Removed(s, CountOf(again, s))];
        } else {
          rows := rows + [WouldRemove(s, CountOf(manifests, s))];
        }
      }
      assert names[..|names|] == names;
      ok := true;
    }
  }

  lemma {:induction false} SameArchive(before: map<string, nat>, now: map<string, nat>, again: Manifests, x: Answers, s: string)
    requires s in now <==> s in before
    requires s in before ==> now[s] == before[s]
    ensures CanGo(now, again, x, s) <==> CanGo(before, again, x, s)
  {
  }

  lemma {:induction false} GrownKeeps(before: map<string, nat>, now: map<string, nat>, again: Manifests, s: string)
    requires Grown(before, now, s)
    ensures forall a :: a in before ==> a in now && now[a] == before[a]
    ensures forall a :: a in now ==> a in before || a == s
    ensures forall a :: ArchiveCounts(before, again, a) ==> ArchiveCounts(now, again, a)
  {
  }

  function CountOf(manifests: Manifests, s: string): (n: nat)
    ensures manifests(s).Some? ==> n == manifests(s).value
    ensures manifests(s).None? ==> n == 0
  {
    if manifests(s).Some? then manifests(s).value else 0
  }

  function IsValid(manifests: Manifests, s: string): (b: bool)
    ensures b <==> Valid(manifests, s)
    ensures b ==> manifests(s).Some?
  {
    Valid(manifests, s)
  }

  // ----- runs of the host -----

  /** The application host: slots, release directories and the current link. */
  datatype Site = Site(host: Host, dirs: set<string>, current: Option<string>)

  datatype SiteEvent =
    | Switch(event: Event)
    | Publish(name: string)
    | Point(name: string)
    | Pruned(keep: nat)

  function ReleaseOf(e: Event): Option<string>
  {
    if e.Install? || e.Activate? then Some(e.release) else None
  }

  /** Slots are only switched, and the link only pointed, to releases that are there. */
  ghost predicate SiteStep(s: Site, e: SiteEvent, after: Site)
  {
    match e
    case Switch(event) =>
      Step(s.host, event, after.host) && after.dirs == s.dirs && after.current == s.current
      && (ReleaseOf(event).Some? ==> ReleaseOf(event).value in s.dirs)
    case Publish(name) => after == s.(dirs := s.dirs + {name})
    case Point(name) => name in s.dirs && after == s.(current := Some(name))
    case Pruned(keep) =>
      after.host == s.host && after.current == s.current && after.dirs <= s.dirs
      && (forall r :: r in s.dirs && IsProtected(s.dirs, keep, s.host.record, s.current, r) ==> r in after.dirs)
      && (forall r :: r in s.dirs && r !in after.dirs ==> IsRelease(r))
  }

  ghost predicate SiteRun(ss: seq<Site>, es: seq<SiteEvent>)
  {
    |ss| == |es| + 1 && forall i, j :: 0 <= i < |es| && j == i + 1 ==> SiteStep(ss[i], es[i], ss[j])
  }

  /** What a rollback or a restart needs is on disk. */
  ghost predicate Covered(s: Site)
  {
    && (s.host.record.Some? ==>
          s.host.record.value.active.release in s.dirs
          && (s.host.record.value.rollback.Some? ==> s.host.record.value.rollback.value.release in s.dirs))
    && (s.current.Some? ==> s.current.value in s.dirs)
  }

  lemma {:induction false} CoveredKept(s: Site, e: SiteEvent, after: Site)
    requires SiteStep(s, e, after) && Covered(s)
    ensures Covered(after)
  {
    if e.Switch? {
      assert forall r :: Recorded(after.host.record, r) ==> Recorded(s.host.record, r) || ReleaseOf(e.event) == Some(r);
    } else if e.Pruned? {
      hide IsRelease, Newest;
      forall r | r in s.dirs && (Recorded(after.host.record, r) || after.current == Some(r)) ensures r in after.dirs {
        if r in s.dirs && IsRelease(r) {
          assert IsProtected(s.dirs, e.keep, s.host.record, s.current, r);
        }
      }
    }
  }

  /** In every run of switches, publications and prunes the active release, the rollback
      release and the current one stay on disk. */
  lemma {:induction false} AlwaysCovered(ss: seq<Site>, es: seq<SiteEvent>)
    requires SiteRun(ss, es) && Covered(ss[0])
    ensures Covered(ss[|es|])
  {
    if es != [] {
      var l := |es| - 1;
      hide SiteStep, Covered;
      AlwaysCovered(ss[..l + 1], es[..l]);
      assert SiteStep(ss[l], es[l], ss[l + 1]);
      CoveredKept(ss[l], es[l], ss[l + 1]);
    }
  }

  /** A prune also leaves the newest releases. */
  lemma {:induction false} PruneKeepsNewest(s: Site, keep: nat, after: Site, r: string)
    requires SiteStep(s, Pruned(keep), after) && r in Newest(ReleaseDirs(s.dirs), keep)
    ensures r in after.dirs && r in Newest(ReleaseDirs(after.dirs), keep)
  {
    assert IsProtected(s.dirs, keep, s.host.record, s.current, r);
    var before, now := Later(ReleaseDirs(s.dirs), r), Later(ReleaseDirs(after.dirs), r);
    assert now <= before;
    Smaller(now, before);
  }

  lemma {:induction false} Smaller<T>(a: set<T>, b: set<T>)
    requires a <= b
    ensures |a| <= |b|
  {
    assert b == a + (b - a);
  }

  /** A prune of the tool is a prune of the run. */
  method PruneSite(site: Site, store: Store, keep: nat, apply: bool, confirmed: bool, manifests: Manifests, again: Manifests, x: Answers)
    returns (names: seq<string>, rows: seq<Row>, ok: bool)
    requires store.dirs == site.dirs
    modifies store
    ensures SiteStep(site, Pruned(keep), site.(dirs := store.dirs))
  {
    hide IsRelease, IsProtected, Valid, ArchiveCounts;
    var protected;
    names, protected, rows, ok := store.Prune(keep, apply, confirmed, site.host.record, site.current, manifests, again, x);
  }
}
