/**
  Hot reload of the model file: stat, load, stat again, against a file that other
  processes replace, delete and create at any moment.
 */
module LiveModel {
  import opened Options

  /** Modification time and size. */
  type Revision = (int, int)

  /** What importing a file's content gives. */
  datatype Import = Fails | WithoutCallback | NotCallable | Callable(acceptsParameters: bool)

  datatype Content = Content(revision: Revision, imported: Import)

  /** What is on disk at one moment. */
  type File = Option<Content>

  function RevisionOf(f: File): Option<Revision> {
    if f.None? then None else Some(f.value.revision)
  }

  /** The content passes every check of a reload. */
  predicate Good(c: Content) {
    c.imported.Callable?
  }

  /** The reloader's fields. */
  datatype Reloader = Reloader(active: Content, acceptsParameters: bool, observed: Option<Revision>) {
    /** The active module passed the checks, and the flag is the one of its own signature. */
    predicate Valid() {
      Good(active) && acceptsParameters == active.imported.acceptsParameters
    }
  }

  /** One refresh whose stat, load and second stat see the given files. */
  function Refreshed(r: Reloader, first: File, loaded: File, second: File): Reloader {
    if RevisionOf(first) == r.observed then r
    else if loaded.Some? && Good(loaded.value) && RevisionOf(second) == RevisionOf(first) then
      Reloader(loaded.value, loaded.value.imported.acceptsParameters, RevisionOf(first))
    else r.(observed := RevisionOf(first))
  }

  class LiveModel {
    var active: Content
    var acceptsParameters: bool
    var observed: Option<Revision>

    ghost function View(): Reloader
      reads this
    {
      Reloader(active, acceptsParameters, observed)
    }

    /** `file` is what the first stat of the object's life sees. */
    constructor (active: Content, file: File)
      requires Good(active)
      ensures View() == Reloader(active, active.imported.acceptsParameters, RevisionOf(file)) && View().Valid()
    {
      this.active := active;
      acceptsParameters := active.imported.acceptsParameters;
      observed := RevisionOf(file);
    }

    method Refresh(first: File, loaded: File, second: File) returns (current: Content, parameters: bool)
      requires View().Valid()
      modifies this
      ensures View() == Refreshed(old(View()), first, loaded, second) && View().Valid()
      ensures current == active && parameters == acceptsParameters
      ensures RevisionOf(first) == old(observed) ==> active == old(active) && observed == old(observed)
      ensures RevisionOf(first) != old(observed) ==>
                && observed == RevisionOf(first)
                && (if loaded.Some? && loaded.value.imported.Callable? && RevisionOf(second) == RevisionOf(first) then
                      Some(active) == loaded && acceptsParameters == loaded.value.imported.acceptsParameters
                    else active == old(active) && acceptsParameters == old(acceptsParameters))
    {
      var revision := RevisionOf(first);
      if revision == observed {
        return active, acceptsParameters;
      }
      observed := revision;
      if loaded.Some? {
        match loaded.value.imported {
          case Fails =>
          case WithoutCallback =>
          case NotCallable =>
          case Callable(accepts) =>
            if RevisionOf(second) == revision {
              active := loaded.value;
              acceptsParameters := accepts;
            }
        }
      }
      return active, acceptsParameters;
    }
  }

  // ---------- Runs against a changing file ----------

  /** The moments at which one refresh looks at the file. */
  datatype Look = Look(first: nat, load: nat, second: nat)

  /** Refreshes follow each other; `disk[t]` is the file at moment t. */
  predicate IsRun(disk: seq<File>, looks: seq<Look>) {
    && disk != []
    && (forall i :: 0 <= i < |looks| ==> looks[i].first <= looks[i].load <= looks[i].second < |disk|)
    && (forall i, j :: 0 <= i < j < |looks| ==> looks[i].second <= looks[j].first)
  }

  /** Every content has its own revision. */
  predicate OwnRevisions(disk: seq<File>) {
    forall s, t :: 0 <= s < t < |disk| && disk[s].Some? && RevisionOf(disk[s]) == RevisionOf(disk[t]) ==>
        disk[s] == disk[t]
  }

  /** The reloader after `n` refreshes; the initial module is the content first observed. */
  function After(disk: seq<File>, looks: seq<Look>, start: Reloader, n: nat): Reloader
    requires IsRun(disk, looks) && n <= |looks|
  {
    if n == 0 then start
    else
      var l := looks[n - 1];
      Refreshed(After(disk, looks, start, n - 1), disk[l.first], disk[l.load], disk[l.second])
  }

  predicate StartsAt(disk: seq<File>, start: Reloader)
    requires disk != []
  {
    start.Valid() && disk[0] == Some(start.active) && start.observed == Some(start.active.revision)
  }

  /** The active module always is checked content with its own signature flag. */
  lemma {:induction false} AlwaysValid(disk: seq<File>, looks: seq<Look>, start: Reloader, n: nat)
    requires IsRun(disk, looks) && n <= |looks| && start.Valid()
    ensures After(disk, looks, start, n).Valid()
  {
    if n > 0 {
      AlwaysValid(disk, looks, start, n - 1);
    }
  }

  predicate Swaps(disk: seq<File>, looks: seq<Look>, start: Reloader, n: nat)
    requires IsRun(disk, looks) && n < |looks|
  {
    After(disk, looks, start, n + 1).active != After(disk, looks, start, n).active
  }

  /**
    If every content has its own revision, a swapped-in content has the observed revision
    if and only if the load saw the file that both stats saw.
   */
  lemma SwapMatchesIffSameAtLoad(disk: seq<File>, looks: seq<Look>, start: Reloader, n: nat)
    requires IsRun(disk, looks) && OwnRevisions(disk) && n < |looks| && Swaps(disk, looks, start, n)
    ensures var r, l := After(disk, looks, start, n + 1), looks[n];
            && RevisionOf(disk[l.second]) == RevisionOf(disk[l.first])
            && (r.observed == Some(r.active.revision) <==> disk[l.load] == disk[l.first])
  {
    var l := looks[n];
    assert disk[l.load].Some?;
    if RevisionOf(disk[l.load]) == RevisionOf(disk[l.first]) {
      assert l.first < l.load ==> disk[l.first] == disk[l.load];
    }
  }

  /** A file that is away at both stats: content that was never observed is swapped in. */
  lemma VanishingFileIsAdopted(a: Content, b: Content)
    requires Good(a) && Good(b) && a.revision != b.revision
    ensures var disk, looks := [Some(a), None, Some(b), None], [Look(1, 2, 3)];
            var start := Reloader(a, a.imported.acceptsParameters, Some(a.revision));
            && IsRun(disk, looks) && OwnRevisions(disk) && StartsAt(disk, start)
            && After(disk, looks, start, 1) == Reloader(b, b.imported.acceptsParameters, None)
  {
    var disk, looks := [Some(a), None, Some(b), None], [Look(1, 2, 3)];
    var start := Reloader(a, a.imported.acceptsParameters, Some(a.revision));
    assert After(disk, looks, start, 0) == start;
  }

  /** A content that is away only at the load: the one loaded instead becomes active under its revision. */
  lemma ReplacedDuringLoadIsAdopted(a: Content, b: Content, c: Content)
    requires Good(a) && Good(c) && a.revision != b.revision && b.revision != c.revision && a.revision != c.revision
    ensures var disk, looks := [Some(a), Some(b), Some(c), Some(b)], [Look(1, 2, 3)];
            var start := Reloader(a, a.imported.acceptsParameters, Some(a.revision));
            && IsRun(disk, looks) && OwnRevisions(disk) && StartsAt(disk, start)
            && After(disk, looks, start, 1) == Reloader(c, c.imported.acceptsParameters, Some(b.revision))
  {
    var disk, looks := [Some(a), Some(b), Some(c), Some(b)], [Look(1, 2, 3)];
    var start := Reloader(a, a.imported.acceptsParameters, Some(a.revision));
    assert After(disk, looks, start, 0) == start;
  }

  // ---------- Convergence ----------

  /** The moment of the latest first stat before refresh `n`. */
  function Stat(looks: seq<Look>, n: nat): nat
    requires n <= |looks|
  {
    if n == 0 then 0 else looks[n - 1].first
  }

  /** The observed revision is always the one the latest first stat saw. */
  lemma ObservedIsLatest(disk: seq<File>, looks: seq<Look>, start: Reloader, n: nat)
    requires IsRun(disk, looks) && n <= |looks| && StartsAt(disk, start)
    ensures After(disk, looks, start, n).observed == RevisionOf(disk[Stat(looks, n)])
  {
  }

  /** The first stat of refresh `m` sees another revision than the one before. */
  predicate SeesNew(disk: seq<File>, looks: seq<Look>, m: nat)
    requires IsRun(disk, looks) && m < |looks|
  {
    RevisionOf(disk[looks[m].first]) != RevisionOf(disk[Stat(looks, m)])
  }

  /** The moment at which the first `n` refreshes have last loaded a content that passed, with equal stats around it. */
  function LoadedAt(disk: seq<File>, looks: seq<Look>, n: nat): (t: nat)
    requires IsRun(disk, looks) && n <= |looks|
    ensures t < |disk|
  {
    if n == 0 then 0
    else
      var l := looks[n - 1];
      if SeesNew(disk, looks, n - 1) && disk[l.load].Some? && Good(disk[l.load].value)
         && RevisionOf(disk[l.second]) == RevisionOf(disk[l.first]) then l.load
      else LoadedAt(disk, looks, n - 1)
  }

  lemma {:induction false} ActiveIsLoaded(disk: seq<File>, looks: seq<Look>, start: Reloader, n: nat)
    requires IsRun(disk, looks) && n <= |looks| && StartsAt(disk, start)
    ensures disk[LoadedAt(disk, looks, n)] == Some(After(disk, looks, start, n).active)
  {
    if n > 0 {
      ActiveIsLoaded(disk, looks, start, n - 1);
      ObservedIsLatest(disk, looks, start, n - 1);
    }
  }

  /**
    Refresh `m` first saw the revision that the latest stat before refresh `n` saw, as all
    stats in between did; but it left another content loaded.
   */
  predicate MissedAt(disk: seq<File>, looks: seq<Look>, n: nat, m: nat)
    requires IsRun(disk, looks) && m < n <= |looks|
  {
    && SeesNew(disk, looks, m)
    && disk[LoadedAt(disk, looks, m + 1)] != disk[Stat(looks, n)]
    && forall k :: m <= k < n ==> RevisionOf(disk[looks[k].first]) == RevisionOf(disk[Stat(looks, n)])
  }

  predicate Missed(disk: seq<File>, looks: seq<Look>, n: nat)
    requires IsRun(disk, looks) && n <= |looks|
  {
    exists m :: 0 <= m < n && MissedAt(disk, looks, n, m)
  }

  /** A good content that was observed last is active, unless it was missed. */
  lemma {:induction false} ActiveUnlessMissed(disk: seq<File>, looks: seq<Look>, start: Reloader, n: nat)
    requires IsRun(disk, looks) && OwnRevisions(disk) && n <= |looks| && StartsAt(disk, start)
    requires disk[Stat(looks, n)].Some? && Good(disk[Stat(looks, n)].value)
    ensures disk[LoadedAt(disk, looks, n)] == disk[Stat(looks, n)] <==> !Missed(disk, looks, n)
  {
    if n > 0 {
      if SeesNew(disk, looks, n - 1) {
        MissedAnew(disk, looks, n);
      } else {
        SameFile(disk, looks[n - 1].first, Stat(looks, n - 1));
        ActiveUnlessMissed(disk, looks, start, n - 1);
        MissedStays(disk, looks, n);
      }
    }
  }

  lemma SameFile(disk: seq<File>, s: nat, t: nat)
    requires OwnRevisions(disk) && s < |disk| && t < |disk| && disk[s].Some?
        && RevisionOf(disk[s]) == RevisionOf(disk[t])
    ensures disk[s] == disk[t]
  {
  }

  lemma MissedStays(disk: seq<File>, looks: seq<Look>, n: nat)
    requires IsRun(disk, looks) && 0 < n <= |looks| && !SeesNew(disk, looks, n - 1)
    requires disk[Stat(looks, n)] == disk[Stat(looks, n - 1)]
    ensures Missed(disk, looks, n) <==> Missed(disk, looks, n - 1)
  {
    hide LoadedAt;
    var before := n - 1;
    if m :| 0 <= m < n && MissedAt(disk, looks, n, m) {
      assert MissedAt(disk, looks, before, m);
    }
    if m :| 0 <= m < before && MissedAt(disk, looks, before, m) {
      assert MissedAt(disk, looks, n, m);
    }
  }

  lemma MissedAnew(disk: seq<File>, looks: seq<Look>, n: nat)
    requires IsRun(disk, looks) && 0 < n <= |looks| && SeesNew(disk, looks, n - 1)
    ensures Missed(disk, looks, n) <==> disk[LoadedAt(disk, looks, n)] != disk[Stat(looks, n)]
  {
    hide LoadedAt;
    assert Stat(looks, n) == looks[n - 1].first;
    if m :| 0 <= m < n && MissedAt(disk, looks, n, m) {
      assert n >= 2 ==> Stat(looks, n - 1) == looks[n - 2].first;
      assert m == n - 1;
    }
    if disk[LoadedAt(disk, looks, n)] != disk[Stat(looks, n)] {
      assert MissedAt(disk, looks, n, n - 1);
    }
  }

  /** From refresh `n` on the file does not change. */
  predicate Settled(disk: seq<File>, looks: seq<Look>, n: nat)
    requires IsRun(disk, looks) && n < |looks|
  {
    forall t :: looks[n].first <= t < |disk| ==> disk[t] == disk[looks[n].first]
  }

  /**
    After the file has stopped changing, one full refresh leaves the final content active
    if it is good, and otherwise what was active before: if and only if the final content
    is not a good one that was the latest observed and missed.
   */
  lemma ConvergesIffNotMissed(disk: seq<File>, looks: seq<Look>, start: Reloader, n: nat)
    requires IsRun(disk, looks) && OwnRevisions(disk) && n < |looks| && StartsAt(disk, start) && Settled(disk, looks, n)
    ensures var final := disk[looks[n].first];
            After(disk, looks, start, n + 1).active ==
              (if final.Some? && Good(final.value) then final.value else After(disk, looks, start, n).active)
            <==> !(final.Some? && Good(final.value) && final == disk[Stat(looks, n)] && Missed(disk, looks, n))
  {
    var final := disk[looks[n].first];
    assert disk[looks[n].load] == final && disk[looks[n].second] == final;
    ObservedIsLatest(disk, looks, start, n);
    hide LoadedAt, Missed;
    if final.Some? && Good(final.value) && RevisionOf(final) == RevisionOf(disk[Stat(looks, n)]) {
      SameFile(disk, looks[n].first, Stat(looks, n));
      ActiveUnlessMissed(disk, looks, start, n);
      ActiveIsLoaded(disk, looks, start, n);
    }
  }

  // ---------- File histories on which every schedule converges ----------

  /** One refresh after the last change does what `ConvergesIffNotMissed` says it should. */
  predicate Converges(disk: seq<File>, looks: seq<Look>, start: Reloader, n: nat)
    requires IsRun(disk, looks) && n < |looks|
  {
    var final := disk[looks[n].first];
    After(disk, looks, start, n + 1).active ==
      if final.Some? && Good(final.value) then final.value else After(disk, looks, start, n).active
  }

  ghost predicate AlwaysConverges(disk: seq<File>, start: Reloader) {
    forall looks, n: nat :: IsRun(disk, looks) && n < |looks| && Settled(disk, looks, n) ==>
        Converges(disk, looks, start, n)
  }

  /** The final content was there before, is away at `u` before that and at `t` after that, and one of those is good. */
  predicate ReturnsAround(disk: seq<File>, u: nat, s: nat, t: nat)
    requires u < s < t < |disk|
  {
    var final := disk[|disk| - 1];
    && disk[s] == final && disk[u] != final && disk[t] != final
    && ((disk[u].Some? && Good(disk[u].value)) || (disk[t].Some? && Good(disk[t].value)))
  }

  /** The final content is good, and comes back after having come. */
  predicate ComesBack(disk: seq<File>)
    requires disk != []
  {
    && disk[|disk| - 1].Some? && Good(disk[|disk| - 1].value)
    && exists u, s, t :: 0 <= u < s < t < |disk| && ReturnsAround(disk, u, s, t)
  }

  /** A refresh that sees a new good file and leaves another one loaded has seen it go. */
  lemma NotLoadedMeansAway(disk: seq<File>, looks: seq<Look>, m: nat) returns (t: nat)
    requires IsRun(disk, looks) && OwnRevisions(disk) && m < |looks| && SeesNew(disk, looks, m)
    requires disk[looks[m].first].Some? && Good(disk[looks[m].first].value)
    requires disk[LoadedAt(disk, looks, m + 1)] != disk[looks[m].first]
    ensures looks[m].first < t < |disk| && disk[t] != disk[looks[m].first]
    ensures LoadedAt(disk, looks, m + 1) == t || LoadedAt(disk, looks, m + 1) == LoadedAt(disk, looks, m)
  {
    var l := looks[m];
    t := if disk[l.load] != disk[l.first] then l.load else l.second;
  }

  /** What a missed content tells about the file: it was there, not before, and away again. */
  lemma MissedMeansComesBack(disk: seq<File>, looks: seq<Look>, start: Reloader, n: nat, m: nat)
    requires IsRun(disk, looks) && OwnRevisions(disk) && n < |looks| && StartsAt(disk, start)
    requires m < n && MissedAt(disk, looks, n, m) && disk[Stat(looks, n)] == disk[|disk| - 1]
    requires disk[|disk| - 1].Some? && Good(disk[|disk| - 1].value)
    ensures ComesBack(disk)
  {
    hide After, OwnRevisions, LoadedAt;
    var s, u := looks[m].first, Stat(looks, m);
    SameFile(disk, |disk| - 1, s);
    assert u < s && disk[u] != disk[s];
    ActiveIsLoaded(disk, looks, start, m + 1);
    AlwaysValid(disk, looks, start, m + 1);
    var t := NotLoadedMeansAway(disk, looks, m);
    if LoadedAt(disk, looks, m + 1) == t {
      assert ReturnsAround(disk, u, s, t);
    } else {
      LoadedBefore(disk, looks, m);
      assert ReturnsAround(disk, LoadedAt(disk, looks, m), s, t);
    }
  }

  lemma {:induction false} LoadedBefore(disk: seq<File>, looks: seq<Look>, m: nat)
    requires IsRun(disk, looks) && m < |looks|
    ensures LoadedAt(disk, looks, m) <= looks[m].first
  {
    if m > 0 {
      LoadedBefore(disk, looks, m - 1);
    }
  }

  /** The final content is not active at the start: it is missed when it comes first. */
  lemma MissedFirst(disk: seq<File>, start: Reloader, s: nat, t: nat)
    requires disk != [] && OwnRevisions(disk) && StartsAt(disk, start) && s < t < |disk|
    requires disk[|disk| - 1].Some? && Good(disk[|disk| - 1].value)
    requires disk[0] != disk[|disk| - 1] && disk[s] == disk[|disk| - 1] && disk[t] != disk[|disk| - 1]
    ensures !AlwaysConverges(disk, start)
  {
    var z := |disk| - 1;
    var looks := [Look(s, t, t), Look(z, z, z)];
    DifferentRevision(disk, z, t);
    DifferentRevision(disk, z, 0);
    assert After(disk, looks, start, 0) == start;
    assert After(disk, looks, start, 1) == start.(observed := RevisionOf(disk[z]));
    assert After(disk, looks, start, 2) == After(disk, looks, start, 1);
    assert IsRun(disk, looks) && Settled(disk, looks, 1) && !Converges(disk, looks, start, 1);
  }

  /** It is, but a good one is adopted at `u` in between. */
  lemma MissedAfterGood(disk: seq<File>, start: Reloader, u: nat, s: nat, t: nat)
    requires disk != [] && OwnRevisions(disk) && StartsAt(disk, start) && u < s < t < |disk|
    requires disk[0] == disk[|disk| - 1] && disk[s] == disk[0] && disk[u] != disk[0] && disk[t] != disk[0]
    requires disk[u].Some? && Good(disk[u].value)
    ensures !AlwaysConverges(disk, start)
  {
    var z := |disk| - 1;
    var looks := [Look(u, u, u), Look(s, t, t), Look(z, z, z)];
    DifferentRevision(disk, z, t);
    DifferentRevision(disk, z, u);
    var c := disk[u].value;
    assert After(disk, looks, start, 0) == start;
    assert After(disk, looks, start, 1) == Reloader(c, c.imported.acceptsParameters, Some(c.revision));
    assert After(disk, looks, start, 2) == After(disk, looks, start, 1).(observed := RevisionOf(disk[z]));
    assert After(disk, looks, start, 3) == After(disk, looks, start, 2);
    assert IsRun(disk, looks) && Settled(disk, looks, 2) && !Converges(disk, looks, start, 2);
  }

  /** ... or nothing good at `u`, but a good one is loaded at `t` instead of it when it comes back. */
  lemma MissedForOther(disk: seq<File>, start: Reloader, u: nat, s: nat, t: nat)
    requires disk != [] && OwnRevisions(disk) && StartsAt(disk, start) && u < s < t < |disk|
    requires disk[0] == disk[|disk| - 1] && disk[s] == disk[0] && disk[u] != disk[0] && disk[t] != disk[0]
    requires !(disk[u].Some? && Good(disk[u].value)) && disk[t].Some? && Good(disk[t].value)
    ensures !AlwaysConverges(disk, start)
  {
    var z := |disk| - 1;
    var looks := [Look(u, u, u), Look(s, t, z), Look(z, z, z)];
    DifferentRevision(disk, z, u);
    var c := disk[t].value;
    assert After(disk, looks, start, 0) == start;
    assert After(disk, looks, start, 1) == start.(observed := RevisionOf(disk[u]));
    assert After(disk, looks, start, 2) == Reloader(c, c.imported.acceptsParameters, RevisionOf(disk[z]));
    assert After(disk, looks, start, 3) == After(disk, looks, start, 2);
    assert IsRun(disk, looks) && Settled(disk, looks, 2) && !Converges(disk, looks, start, 2);
  }

  lemma DifferentRevision(disk: seq<File>, s: nat, t: nat)
    requires OwnRevisions(disk) && s < |disk| && t < |disk| && disk[s].Some? && disk[s] != disk[t]
    ensures RevisionOf(disk[s]) != RevisionOf(disk[t])
  {
  }

  /**
    A file history, told alone: however the refreshes fall, one of them after the last
    change is enough, if and only if it is not so that the final content is good and came
    back after having come, with a good content in place before or after that.
   */
  lemma AlwaysConvergesIffNotBack(disk: seq<File>, start: Reloader)
    requires disk != [] && OwnRevisions(disk) && StartsAt(disk, start)
    ensures AlwaysConverges(disk, start) <==> !ComesBack(disk)
  {
    if ComesBack(disk) {
      var u, s, t :| 0 <= u < s < t < |disk| && ReturnsAround(disk, u, s, t);
      if disk[0] != disk[|disk| - 1] {
        MissedFirst(disk, start, s, t);
      } else if disk[u].Some? && Good(disk[u].value) {
        MissedAfterGood(disk, start, u, s, t);
      } else {
        MissedForOther(disk, start, u, s, t);
      }
    } else {
      forall looks, n: nat | IsRun(disk, looks) && n < |looks| && Settled(disk, looks, n)
        ensures Converges(disk, looks, start, n)
      {
        ConvergesIfNotBack(disk, looks, start, n);
      }
    }
  }

  lemma ConvergesIfNotBack(disk: seq<File>, looks: seq<Look>, start: Reloader, n: nat)
    requires IsRun(disk, looks) && OwnRevisions(disk) && StartsAt(disk, start) && !ComesBack(disk)
    requires n < |looks| && Settled(disk, looks, n)
    ensures Converges(disk, looks, start, n)
  {
    ConvergesIffNotMissed(disk, looks, start, n);
    hide After, LoadedAt, ComesBack, OwnRevisions;
    var final := disk[looks[n].first];
    assert disk[|disk| - 1] == final;
    if final.Some? && Good(final.value) && final == disk[Stat(looks, n)] {
      forall m | 0 <= m < n
        ensures !MissedAt(disk, looks, n, m)
      {
        if MissedAt(disk, looks, n, m) {
          MissedMeansComesBack(disk, looks, start, n, m);
        }
      }
    }
  }

  // ---------- File histories without returns ----------

  /** A content that has been replaced does not come back. */
  predicate NothingReturns(disk: seq<File>) {
    forall s, t, u :: 0 <= s <= t <= u < |disk| && disk[s].Some? && disk[s] == disk[u] ==> disk[t] == disk[s]
  }

  /** Then every schedule converges, and what is swapped in was observed if the file was there at the first stat. */
  lemma NothingReturnsConverges(disk: seq<File>, start: Reloader)
    requires disk != [] && OwnRevisions(disk) && StartsAt(disk, start) && NothingReturns(disk)
    ensures AlwaysConverges(disk, start)
  {
    AlwaysConvergesIffNotBack(disk, start);
    hide AlwaysConverges;
  }

  lemma NothingReturnsSwapsObserved(disk: seq<File>, looks: seq<Look>, start: Reloader, n: nat)
    requires IsRun(disk, looks) && OwnRevisions(disk) && NothingReturns(disk)
    requires n < |looks| && Swaps(disk, looks, start, n) && disk[looks[n].first].Some?
    ensures var r := After(disk, looks, start, n + 1);
            r.observed == Some(r.active.revision) && Some(r.active) == disk[looks[n].first]
  {
    var l := looks[n];
    SwapMatchesIffSameAtLoad(disk, looks, start, n);
    SameFile(disk, l.first, l.second);
    assert disk[l.load] == disk[l.first];
  }

  /** A good content that is replaced during its first refresh and comes back is never loaded again. */
  lemma ReturningContentIsMissed(a: Content, b: Content)
    requires Good(a) && Good(b) && a.revision != b.revision
    ensures var disk, looks := [Some(a), Some(b), Some(a), Some(b), Some(b)], [Look(1, 1, 2), Look(3, 3, 4)];
            var start := Reloader(a, a.imported.acceptsParameters, Some(a.revision));
            && IsRun(disk, looks) && OwnRevisions(disk) && StartsAt(disk, start) && Settled(disk, looks, 1)
            && After(disk, looks, start, 2) == Reloader(a, a.imported.acceptsParameters, Some(b.revision))
  {
    var disk, looks := [Some(a), Some(b), Some(a), Some(b), Some(b)], [Look(1, 1, 2), Look(3, 3, 4)];
    var start := Reloader(a, a.imported.acceptsParameters, Some(a.revision));
    assert After(disk, looks, start, 0) == start;
    assert After(disk, looks, start, 1) == start.(observed := Some(b.revision));
  }
}
