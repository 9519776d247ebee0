/** The bounded replay window in front of the Pi adapter. Probes pass it without being recorded. */
module NonceWindow {
  import opened Basics

  const CLOCK_SKEW_MS := 30_000
  const MAX_RECENT_NONCES := 4096

  // What authenticates one request attempt: the signed frame, plus the two clock readings
  // the adapter takes (freshness check first, then the observation it records). A probe is
  // read-only and does not use up the window.
  datatype Frame = Frame(nonce: string, issuedAt: int, probe: bool)
  datatype Attempt = Attempt(frame: Frame, checkedAt: int, observedAt: int)

  predicate Fresh(f: Frame, now: int) {
    -CLOCK_SKEW_MS <= now - f.issuedAt <= CLOCK_SKEW_MS
  }

  function Pruned(seen: map<string, int>, now: int): map<string, int> {
    map n | n in seen && seen[n] >= now - 2 * CLOCK_SKEW_MS :: seen[n]
  }

  // The window after one attempt, and the refusal code if there is one.
  function Admitted(seen: map<string, int>, a: Attempt): (map<string, int>, Option<string>) {
    if !Fresh(a.frame, a.checkedAt) then (seen, Some("stale-request"))
    else if a.frame.probe then (seen, None)
    else if a.frame.nonce in seen then (seen, Some("replayed-request"))
    else
      var kept := Pruned(seen, a.observedAt);
      if |kept| >= MAX_RECENT_NONCES then (kept, Some("nonce-window-full"))
      else (kept[a.frame.nonce := a.observedAt], None)
  }

  class Window {
    var seen: map<string, int>

    constructor ()
      ensures seen == map[]
    {
      seen := map[];
    }

    method Admit(a: Attempt) returns (refusal: Option<string>)
      modifies this
      ensures (seen, refusal) == Admitted(old(seen), a)
    {
      if a.checkedAt - a.frame.issuedAt > CLOCK_SKEW_MS || a.frame.issuedAt - a.checkedAt > CLOCK_SKEW_MS {
        return Some("stale-request");
      }
      if a.frame.probe {
        return None;
      }
      if a.frame.nonce in seen {
        return Some("replayed-request");
      }
      var pending := seen.Keys;
      while pending != {}
        invariant pending <= old(seen).Keys
        invariant seen == map n | n in old(seen) && (n in pending || old(seen)[n] >= a.observedAt - 2 * CLOCK_SKEW_MS) :: old(seen)[n]
        decreases pending
      {
        var nonce :| nonce in pending;
        if seen[nonce] < a.observedAt - 2 * CLOCK_SKEW_MS {
          seen := seen - {nonce};
        }
        pending := pending - {nonce};
      }
      assert seen == Pruned(old(seen), a.observedAt);
      if |seen| >= MAX_RECENT_NONCES {
        return Some("nonce-window-full");
      }
      seen := seen[a.frame.nonce := a.observedAt];
      return None;
    }
  }

  // ---------- Runs ----------

  function WindowAfter(run: seq<Attempt>): map<string, int> {
    if run == [] then map[] else Admitted(WindowAfter(run[..|run| - 1]), run[|run| - 1]).0
  }

  predicate Accepts(run: seq<Attempt>, i: nat)
    requires i < |run|
  {
    Admitted(WindowAfter(run[..i]), run[i]).1.None?
  }

  ghost predicate MonotoneClock(run: seq<Attempt>) {
    && (forall i | 0 <= i < |run| :: run[i].checkedAt <= run[i].observedAt)
    && (forall i, j | 0 <= i < j < |run| :: run[i].observedAt <= run[j].checkedAt)
  }

  // An accepted frame is either still remembered, recently enough, or already stale.
  lemma {:induction false} AcceptedIsRememberedOrStale(run: seq<Attempt>, i: nat)
    requires MonotoneClock(run)
    requires i < |run| && Accepts(run, i) && !run[i].frame.probe
    ensures
      var f, seen := run[i].frame, WindowAfter(run);
      || (f.nonce in seen && f.issuedAt <= seen[f.nonce] + CLOCK_SKEW_MS)
      || f.issuedAt + CLOCK_SKEW_MS < run[|run| - 1].observedAt
    decreases |run|
  {
    var last := |run| - 1;
    if i < last {
      var earlier := run[..last];
      assert earlier[..i] == run[..i];
      AcceptedIsRememberedOrStale(earlier, i);
      assert earlier[|earlier| - 1].observedAt <= run[last].checkedAt;
    }
  }

  // Pruning is safe: no frame but a probe passes the window twice, however many attempts lie
  // between.
  lemma NoFrameAcceptedTwice(run: seq<Attempt>, i: nat, j: nat)
    requires MonotoneClock(run)
    requires i < j < |run| && Accepts(run, i) && Accepts(run, j) && !run[i].frame.probe
    ensures run[i].frame != run[j].frame
  {
    var before := run[..j];
    assert before[..i] == run[..i];
    AcceptedIsRememberedOrStale(before, i);
    assert before[|before| - 1].observedAt <= run[j].checkedAt;
  }

  // An attempt that passed and was recorded.
  ghost predicate Takes(run: seq<Attempt>, i: nat, nonce: string) {
    i < |run| && Accepts(run, i) && !run[i].frame.probe && run[i].frame.nonce == nonce
  }

  // The window stays bounded and never refuses as a replay a nonce that was not accepted before.
  lemma {:induction false} RememberedWasAccepted(run: seq<Attempt>, nonce: string)
    ensures |WindowAfter(run)| <= MAX_RECENT_NONCES
    ensures nonce in WindowAfter(run) ==> exists i: nat :: Takes(run, i, nonce)
    decreases |run|
  {
    if run != [] {
      var last := |run| - 1;
      var earlier := run[..last];
      RememberedWasAccepted(earlier, nonce);
      var seen, a := WindowAfter(earlier), run[last];
      assert Pruned(seen, a.observedAt).Keys <= seen.Keys;
      PrunedIsSmaller(seen, a.observedAt);
      if nonce in WindowAfter(run) {
        if nonce in seen {
          var i: nat :| Takes(earlier, i, nonce);
          assert earlier[..i] == run[..i];
          assert Takes(run, i, nonce);
        } else {
          assert Takes(run, last, nonce);
        }
      }
    }
  }

  lemma PrunedIsSmaller(seen: map<string, int>, now: int)
    ensures |Pruned(seen, now)| <= |seen|
  {
    SubsetSize(Pruned(seen, now).Keys, seen.Keys);
    assert |Pruned(seen, now).Keys| == |Pruned(seen, now)|;
    assert |seen.Keys| == |seen|;
  }

  lemma {:induction false} SubsetSize<T>(a: set<T>, b: set<T>)
    requires a <= b
    ensures |a| <= |b|
    decreases a
  {
    if a != {} {
      var x :| x in a;
      SubsetSize(a - {x}, b - {x});
    }
  }

  // ---------- When a nonce passes again ----------

  // An attempt that gets as far as pruning what was observed at some earlier time.
  ghost predicate Sweeps(run: seq<Attempt>, k: nat, observed: int)
    requires k < |run|
  {
    var a := run[k];
    && Fresh(a.frame, a.checkedAt) && !a.frame.probe && a.frame.nonce !in WindowAfter(run[..k])
    && observed < a.observedAt - 2 * CLOCK_SKEW_MS
  }

  ghost predicate HasRoom(run: seq<Attempt>, k: nat)
    requires k < |run|
  {
    |Pruned(WindowAfter(run[..k]), run[k].observedAt)| < 4096
  }

  // A recorded nonce stays in the window, with its time, until some attempt sweeps it out.
  lemma {:induction false} RememberedUntilSwept(run: seq<Attempt>, i: nat, n: nat)
    requires i < n <= |run| && Takes(run, i, run[i].frame.nonce)
    requires forall k | i < k < n :: !Takes(run, k, run[i].frame.nonce)
    ensures
      var seen := WindowAfter(run[..n]);
      if exists k | i < k < n :: Sweeps(run, k, run[i].observedAt) then run[i].frame.nonce !in seen
      else run[i].frame.nonce in seen && seen[run[i].frame.nonce] == run[i].observedAt
    decreases n
  {
    var last := n - 1;
    assert run[..n][..last] == run[..last] && run[..n][last] == run[last];
    if i < last {
      RememberedUntilSwept(run, i, last);
      assert !Takes(run, last, run[i].frame.nonce);
      if forall k | i < k < last :: !Sweeps(run, k, run[i].observedAt) {
        assert (exists k | i < k < n :: Sweeps(run, k, run[i].observedAt)) <==> Sweeps(run, last, run[i].observedAt);
      }
    }
  }

  // After one acceptance of a nonce, the next attempt with it passes if and only if it is
  // fresh, the window has room, and some attempt in between swept the first one out.
  lemma ReadmittedExactlyWhen(run: seq<Attempt>, i: nat, j: nat)
    requires i < j < |run| && Takes(run, i, run[i].frame.nonce)
    requires run[j].frame.nonce == run[i].frame.nonce && !run[j].frame.probe
    requires forall k | i < k < j :: !Takes(run, k, run[i].frame.nonce)
    ensures Accepts(run, j) <==>
      && Fresh(run[j].frame, run[j].checkedAt) && HasRoom(run, j)
      && exists k | i < k < j :: Sweeps(run, k, run[i].observedAt)
  {
    RememberedUntilSwept(run, i, j);
  }

  // An attempt passes if and only if it is fresh and, unless it is a probe, the window has room
  // and every earlier acceptance of its nonce has been swept out since.
  lemma AcceptsExactlyWhen(run: seq<Attempt>, j: nat)
    requires j < |run|
    ensures Accepts(run, j) <==>
      && -30_000 <= run[j].checkedAt - run[j].frame.issuedAt <= 30_000
      && (run[j].frame.probe
          || (HasRoom(run, j) && forall i | 0 <= i < j && Takes(run, i, run[j].frame.nonce) ::
                exists k | i < k < j :: Sweeps(run, k, run[i].observedAt)))
  {
    var nonce := run[j].frame.nonce;
    if nonce in WindowAfter(run[..j]) {
      var i := LastTake(run, j, nonce);
      RememberedUntilSwept(run, i, j);
    } else {
      forall i | 0 <= i < j && Takes(run, i, nonce)
        ensures exists k | i < k < j :: Sweeps(run, k, run[i].observedAt)
      {
        var n := NextTake(run, i, j, nonce);
        RememberedUntilSwept(run, i, n);
      }
    }
  }

  lemma LastTake(run: seq<Attempt>, j: nat, nonce: string) returns (i: nat)
    requires j <= |run| && nonce in WindowAfter(run[..j])
    ensures i < j && Takes(run, i, nonce) && forall k | i < k < j :: !Takes(run, k, nonce)
  {
    RememberedWasAccepted(run[..j], nonce);
    i :| Takes(run[..j], i, nonce);
    assert run[..j][..i] == run[..i];
    assert Takes(run, i, nonce);
    while exists k | i < k < j :: Takes(run, k, nonce)
      invariant i < j && Takes(run, i, nonce)
      decreases j - i
    {
      var k :| i < k < j && Takes(run, k, nonce);
      i := k;
    }
  }

  // The first acceptance of a nonce after another, or the end.
  lemma NextTake(run: seq<Attempt>, i: nat, j: nat, nonce: string) returns (n: nat)
    requires i < j <= |run|
    ensures i < n <= j && (n < j ==> Takes(run, n, nonce)) && forall k | i < k < n :: !Takes(run, k, nonce)
    decreases j - i
  {
    n := i + 1;
    while n < j && !Takes(run, n, nonce)
      invariant i < n <= j && forall k | i < k < n :: !Takes(run, k, nonce)
    {
      n := n + 1;
    }
  }

  // So on a monotone clock no nonce passes twice within two clock skews.
  lemma {:induction false} NonceRestsTwoSkews(run: seq<Attempt>, i: nat, j: nat)
    requires MonotoneClock(run)
    requires i < j < |run| && Takes(run, i, run[i].frame.nonce) && Takes(run, j, run[i].frame.nonce)
    ensures run[j].observedAt > run[i].observedAt + 2 * CLOCK_SKEW_MS
    decreases j - i
  {
    if k :| i < k < j && Takes(run, k, run[i].frame.nonce) {
      NonceRestsTwoSkews(run, k, j);
      assert run[i].observedAt <= run[k].checkedAt <= run[k].observedAt;
    } else {
      ReadmittedExactlyWhen(run, i, j);
      var k :| i < k < j && Sweeps(run, k, run[i].observedAt);
      assert run[k].observedAt <= run[j].checkedAt <= run[j].observedAt;
    }
  }

  // It does pass again: here the second attempt sweeps the first one out.
  lemma NonceAloneMayPassAgain()
    ensures
      var run := [Attempt(Frame("n", 0, false), 0, 0), Attempt(Frame("m", 60_001, false), 60_001, 60_001),
                  Attempt(Frame("n", 60_001, false), 60_001, 60_001)];
      MonotoneClock(run) && Accepts(run, 0) && Accepts(run, 2) && run[0].frame.nonce == run[2].frame.nonce
  {
    var run := [Attempt(Frame("n", 0, false), 0, 0), Attempt(Frame("m", 60_001, false), 60_001, 60_001),
                Attempt(Frame("n", 60_001, false), 60_001, 60_001)];
    assert run[..0] == [];
    assert run[..1][..0] == [] && run[..2][..1] == run[..1];
    assert WindowAfter([]) == map[] && Pruned(map[], 0) == map[];
    assert run[..1][|run[..1]| - 1] == run[0];
    var w1 := WindowAfter(run[..1]);
    assert w1 == map["n" := 0];
    var w2 := WindowAfter(run[..2]);
    assert Pruned(w1, 60_001) == map[];
    assert w2 == map["m" := 60_001];
    assert Pruned(w2, 60_001) == w2;
  }
}
