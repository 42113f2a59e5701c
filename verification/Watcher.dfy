/** The stable-file watcher: one observation for each path, and what it promises over any
    history of scans. */
module Watcher {
  import opened Base

  datatype Stat = Stat(size: nat, mtime: int)

  /** `emitted` is the fingerprint of the last emission, cleared by a reset. */
  datatype Observation = Observation(stat: Stat, firstSeen: int, emitted: Option<Stat>)

  /** What one scan, or a reset between scans, means for one path. */
  datatype Seen = Found(stat: Stat, now: int) | Unreadable | Gone | Reset

  /** The next observation of the path, and whether the path is emitted. */
  function Look(o: Option<Observation>, e: Seen, stableFor: int): (Option<Observation>, bool) {
    match e
    case Gone => (None, false)
    case Unreadable => (o, false)
    case Reset => (if o.Some? then Some(o.value.(emitted := None)) else None, false)
    case Found(stat, now) =>
      if o.None? || o.value.stat != stat then (Some(Observation(stat, now, None)), false)
      else if now - o.value.firstSeen < stableFor then (o, false)
      else if o.value.emitted == Some(stat) then (o, false)
      else (Some(o.value.(emitted := Some(stat))), true)
  }

  function Replay(h: seq<Seen>, stableFor: int): Option<Observation> {
    if h == [] then None else Look(Replay(h[..|h| - 1], stableFor), h[|h| - 1], stableFor).0
  }

  predicate Emits(h: seq<Seen>, i: nat, stableFor: int)
    requires i < |h|
  {
    Look(Replay(h[..i], stableFor), h[i], stableFor).1
  }

  /** From j up to i the path was never seen missing, and every successful stat agreed. */
  predicate Steady(h: seq<Seen>, j: nat, i: nat, stat: Stat)
    requires j <= i <= |h|
  {
    forall k | j <= k < i :: !h[k].Gone? && (h[k].Found? ==> h[k].stat == stat)
  }

  lemma ReplayStep(h: seq<Seen>, i: nat, stableFor: int)
    requires i < |h|
    ensures Replay(h[..i + 1], stableFor) == Look(Replay(h[..i], stableFor), h[i], stableFor).0
  {
    assert h[..i + 1][..i] == h[..i];
  }

  /** This look opens a window for what it found: since any earlier look that found the same stat
      the path was seen changed or missing. */
  predicate Opens(h: seq<Seen>, j: nat)
    requires j < |h|
  {
    h[j].Found? && forall i | 0 <= i < j && h[i].Found? && h[i].stat == h[j].stat :: !Steady(h, i, j, h[j].stat)
  }

  /** The window opened at j has had its emission, and no reset since. */
  predicate Spent(h: seq<Seen>, j: nat, i: nat, stableFor: int)
    requires i <= |h|
  {
    exists k :: j < k < i && Emits(h, k, stableFor) && forall r | k < r < i :: !h[r].Reset?
  }

  /** Without an observation no window is open. */
  lemma {:induction false} NoWindow(h: seq<Seen>, i: nat, stableFor: int)
    requires i <= |h| && Replay(h[..i], stableFor).None?
    ensures forall j | 0 <= j < i && h[j].Found? :: !Steady(h, j, i, h[j].stat)
  {
    if i > 0 {
      ReplayStep(h, i - 1, stableFor);
      if !h[i - 1].Gone? { NoWindow(h, i - 1, stableFor); }
      forall j | 0 <= j < i && h[j].Found? ensures !Steady(h, j, i, h[j].stat) {
        assert h[i - 1].Gone? || !Steady(h, j, i - 1, h[j].stat);
      }
    }
  }

  /** An observation is an open window: it names the look that opened it, nothing disagreed since,
      and its mark says whether it is spent. */
  lemma {:induction false} WindowMeaning(h: seq<Seen>, i: nat, stableFor: int) returns (j: nat)
    requires i <= |h| && Replay(h[..i], stableFor).Some?
    ensures var o := Replay(h[..i], stableFor).value;
      && j < i && h[j] == Found(o.stat, o.firstSeen) && Opens(h, j) && Steady(h, j, i, o.stat)
      && o.emitted == if Spent(h, j, i, stableFor) then Some(o.stat) else None
  {
    hide Spent, Steady, Opens;
    assert i > 0;
    ReplayStep(h, i - 1, stableFor);
    var o, before, e := Replay(h[..i], stableFor).value, Replay(h[..i - 1], stableFor), h[i - 1];
    if e.Found? && (before.None? || before.value.stat != e.stat) {
      j := i - 1;
      if before.None? {
        FirstLook(h, i - 1, stableFor);
      } else {
        var k := WindowMeaning(h, i - 1, stableFor);
        ChangeOpens(h, k, i - 1, before.value.stat);
      }
      SteadyStep(h, j, j, o.stat);
      NewWindow(h, j, stableFor);
    } else {
      j := WindowMeaning(h, i - 1, stableFor);
      SpentStep(h, j, i - 1, stableFor);
      SteadyStep(h, j, i - 1, o.stat);
    }
  }

  /** A look spends the window by emitting, a reset frees it, anything else leaves it. */
  lemma SpentStep(h: seq<Seen>, j: nat, i: nat, stableFor: int)
    requires j < i < |h|
    ensures Spent(h, j, i + 1, stableFor) <==> Emits(h, i, stableFor) || (Spent(h, j, i, stableFor) && !h[i].Reset?)
  {
    if Spent(h, j, i, stableFor) && !h[i].Reset? {
      var k :| j < k < i && Emits(h, k, stableFor) && forall r | k < r < i :: !h[r].Reset?;
      assert Emits(h, k, stableFor) && forall r | k < r < i + 1 :: !h[r].Reset?;
    }
  }

  lemma SteadyStep(h: seq<Seen>, j: nat, i: nat, stat: Stat)
    requires j <= i < |h|
    ensures Steady(h, j, j, stat)
    ensures Steady(h, j, i + 1, stat) <==> Steady(h, j, i, stat) && !h[i].Gone? && (h[i].Found? ==> h[i].stat == stat)
  {
  }

  lemma FirstLook(h: seq<Seen>, i: nat, stableFor: int)
    requires i < |h| && h[i].Found? && Replay(h[..i], stableFor).None?
    ensures Opens(h, i)
  {
    NoWindow(h, i, stableFor);
  }

  lemma NewWindow(h: seq<Seen>, i: nat, stableFor: int)
    requires i < |h|
    ensures !Spent(h, i, i + 1, stableFor)
  {
  }

  /** A stat other than that of the open window opens a window. */
  lemma ChangeOpens(h: seq<Seen>, j: nat, i: nat, stat: Stat)
    requires j < i < |h| && h[j].Found? && h[j].stat == stat && Steady(h, j, i, stat)
    requires h[i].Found? && h[i].stat != stat
    ensures Opens(h, i)
  {
    forall k | 0 <= k < i && h[k].Found? && h[k].stat == h[i].stat ensures !Steady(h, k, i, h[i].stat) {
      assert k < j;
    }
  }

  /** Over every history: a look emits exactly when it finds the path, the window opened by the
      last change, reappearance or first sight is long enough, every successful stat in it agreed,
      and it has not emitted since the last reset. */
  lemma EmitsIff(h: seq<Seen>, i: nat, stableFor: int)
    requires i < |h|
    ensures Emits(h, i, stableFor) <==> h[i].Found? && exists j ::
      && 0 <= j < i && Opens(h, j) && Steady(h, j, i + 1, h[i].stat)
      && h[i].now - h[j].now >= stableFor && !Spent(h, j, i, stableFor)
  {
    var o := Replay(h[..i], stableFor);
    if o.None? {
      NoWindow(h, i, stableFor);
      forall j | 0 <= j < i && Opens(h, j) ensures h[i].Found? ==> !Steady(h, j, i + 1, h[i].stat) {
        assert !Steady(h, j, i, h[j].stat);
      }
    } else {
      var n := WindowMeaning(h, i, stableFor);
      forall j | 0 <= j < i && Opens(h, j) && h[i].Found? && Steady(h, j, i + 1, h[i].stat) ensures j == n {
        assert h[j].stat == h[i].stat && h[n].Found?;
        if j < n { assert Steady(h, j, n, h[n].stat); }
        if n < j { assert Steady(h, n, j, h[j].stat); }
      }
    }
  }

  /** A path is emitted only after a window of at least `stableFor` in which every successful
      stat saw the same size and mtime. */
  lemma EmittedFilesWereStable(h: seq<Seen>, i: nat, stableFor: int) returns (j: nat)
    requires i < |h| && Emits(h, i, stableFor)
    ensures j < i && h[i].Found? && h[j].Found?
    ensures h[i].now - h[j].now >= stableFor
    ensures h[j].stat == h[i].stat && Steady(h, j, i + 1, h[i].stat)
  {
    EmitsIff(h, i, stableFor);
    j :| j < i && Opens(h, j) && Steady(h, j, i + 1, h[i].stat) && h[i].now - h[j].now >= stableFor;
  }

  predicate Disturbed(e: Seen, stat: Stat) {
    e.Reset? || e.Gone? || (e.Found? && e.stat != stat)
  }

  /** Between two emissions of a path it was reset, seen changed, or seen missing. */
  lemma EmissionsAreSeparated(h: seq<Seen>, i: nat, j: nat, stableFor: int)
    requires i < j < |h| && Emits(h, i, stableFor) && Emits(h, j, stableFor)
    ensures exists k :: i < k < j && Disturbed(h[k], h[i].stat)
  {
    if forall k | i < k < j :: !Disturbed(h[k], h[i].stat) {
      var n := WindowMeaning(h, j, stableFor);
      var m := EmittedFilesWereStable(h, i, stableFor);
      if n > i { assert Steady(h, i, n, h[i].stat); }
      assert n == i ==> Steady(h, m, i, h[i].stat);
    }
  }

  /** Nothing stable is withheld: a path that stays as it was when its window opened, be it at first
      sight, after a change or after an absence, is emitted as soon as the window is long enough. */
  lemma StableFilesAreEmitted(h: seq<Seen>, j: nat, i: nat, stableFor: int)
    requires j < i < |h| && Opens(h, j) && h[i].Found?
    requires Steady(h, j, i + 1, h[j].stat)
    requires h[i].now - h[j].now >= stableFor
    requires forall k | j < k < i :: !Emits(h, k, stableFor)
    ensures Emits(h, i, stableFor)
  {
    EmitsIff(h, i, stableFor);
  }

  /** A reset re-arms the path for the very next look: it emits again exactly when that look
      finds the stat that was emitted, in the window that was already measured; a changed file,
      or one that cannot be seen, has to wait for a window of its own. */
  lemma ResetReemitsIff(h: seq<Seen>, i: nat, e: Seen, stableFor: int)
    requires i + 1 == |h| && Emits(h, i, stableFor) && (e.Found? ==> e.now >= h[i].now)
    ensures Emits(h + [Reset, e], i + 2, stableFor) <==> e.Found? && e.stat == h[i].stat
  {
    var g := h + [Reset, e];
    assert g[..i] == h[..i] && g[i] == h[i];
    ReplayStep(g, i, stableFor);
    ReplayStep(g, i + 1, stableFor);
  }

  // ---- the watcher -----------------------------------------------------------------

  /** What a listing says about a path: its entry, or that it is gone. */
  function SeenIn(listing: seq<(string, Option<Stat>)>, key: string, now: int): Seen {
    if listing == [] then Gone
    else if listing[0].0 == key then (if listing[0].1.Some? then Found(listing[0].1.value, now) else Unreadable)
    else SeenIn(listing[1..], key, now)
  }

  predicate DistinctKeys(listing: seq<(string, Option<Stat>)>) {
    forall i, j | 0 <= i < j < |listing| :: listing[i].0 != listing[j].0
  }

  function At(m: map<string, Observation>, key: string): Option<Observation> {
    if key in m then Some(m[key]) else None
  }

  lemma {:induction false} SeenAt(listing: seq<(string, Option<Stat>)>, i: nat, now: int)
    requires DistinctKeys(listing) && i < |listing|
    ensures SeenIn(listing, listing[i].0, now) == if listing[i].1.Some? then Found(listing[i].1.value, now) else Unreadable
  {
    if i > 0 {
      assert listing[1..][i - 1] == listing[i];
      SeenAt(listing[1..], i - 1, now);
    }
  }

  lemma {:induction false} SeenGone(listing: seq<(string, Option<Stat>)>, key: string, now: int)
    requires forall i | 0 <= i < |listing| :: listing[i].0 != key
    ensures SeenIn(listing, key, now) == Gone
  {
    if listing != [] { SeenGone(listing[1..], key, now); }
  }

  class DirectoryWatcher {
    const stableFor: int
    var observations: map<string, Observation>

    constructor (stableFor: int)
      ensures this.stableFor == stableFor && observations == map[]
    {
      this.stableFor := stableFor;
      observations := map[];
    }

    /** One entry of the listing. */
    method Observe(key: string, stat: Option<Stat>, now: int) returns (emit: bool)
      modifies this
      ensures var seen := if stat.Some? then Found(stat.value, now) else Unreadable;
        && At(observations, key) == Look(old(At(observations, key)), seen, stableFor).0
        && emit == Look(old(At(observations, key)), seen, stableFor).1
      ensures forall other | other != key :: At(observations, other) == old(At(observations, other))
    {
      emit := false;
      if stat.Some? {
        if key !in observations || observations[key].stat != stat.value {
          observations := observations[key := Observation(stat.value, now, None)];
        } else if now - observations[key].firstSeen >= stableFor && observations[key].emitted != Some(stat.value) {
          observations := observations[key := observations[key].(emitted := Some(stat.value))];
          emit := true;
        }
      }
    }

    /** Observations of paths that are no longer listed are dropped. */
    method Forget(current: set<string>)
      modifies this
      ensures forall key :: At(observations, key) == if key in current then old(At(observations, key)) else None
    {
      observations := map key | key in observations && key in current :: observations[key];
    }

    /** One scan over a listing of distinct paths, each with its stat unless that failed. */
    method StableFiles(listing: seq<(string, Option<Stat>)>, now: int) returns (stable: seq<string>)
      requires DistinctKeys(listing)
      modifies this
      ensures forall key :: At(observations, key) == Look(old(At(observations, key)), SeenIn(listing, key, now), stableFor).0
      ensures forall key :: key in stable <==> Look(old(At(observations, key)), SeenIn(listing, key, now), stableFor).1
    {
      ghost var before := observations;
      var current: set<string> := {};
      stable := [];
      var i := 0;
      while i < |listing|
        invariant 0 <= i <= |listing|
        invariant forall key :: key in current <==> exists k :: 0 <= k < i && listing[k].0 == key
        invariant forall key | key in current :: At(observations, key) == Look(At(before, key), SeenIn(listing, key, now), stableFor).0
        invariant forall key | key !in current :: At(observations, key) == At(before, key)
        invariant forall key :: key in stable <==> key in current && Look(At(before, key), SeenIn(listing, key, now), stableFor).1
      {
        var key := listing[i].0;
        SeenAt(listing, i, now);
        assert key !in current;
        var emit := Observe(key, listing[i].1, now);
        current := current + {key};
        if emit {
          stable := stable + [key];
        }
        i := i + 1;
      }
      Forget(current);
      forall key | key !in current ensures SeenIn(listing, key, now) == Gone {
        SeenGone(listing, key, now);
      }
    }

    /** Re-arm one path. */
    method ResetPath(path: string)
      modifies this
      ensures forall key | key != path :: At(observations, key) == old(At(observations, key))
      ensures At(observations, path) == Look(old(At(observations, path)), Reset, stableFor).0
    {
      if path in observations {
        observations := observations[path := observations[path].(emitted := None)];
      }
    }
  }
}
